# Typed schema validator (model of `src/core/mod.rs`)

A Dafny model of the schema core of the repository. A `Schema` is a named
list of typed property declarations. It is put together by a fluent
`SchemaBuilder`: `Named`, then `WithProperty` for each declaration, then
`Build`. `Schema.CreateEntity` takes the entity properties a caller supplies.
It computes which declared names none of them carries (the missing keys)
and only reports those names. Under the current policy it always succeeds
with an entity whose id is empty and which holds no properties.

Files:

- `core.dfy`, module `Core`: the value types (`PropertyValue`, `Type`,
  `EntityProperty`, `Entity`, `SchemaProperty`, `Schema`, `Result`), the
  builder class, the name-keyed map, the missing-key computation, entity
  creation, and the lemmas about them.
- `core_tests.dfy`, module `CoreTests`: the repository's unit test, any
  chain of builder calls, and the two-property example (`age` supplied,
  `active` missing).

How the source maps to the model:

- `SchemaBuilder::with_property` pushes onto the builder's `Vec` in place.
  So `SchemaBuilder` is a class whose `props: seq<SchemaProperty>` field the
  `WithProperty` method reassigns.
- `props_map` collects `(name, property)` pairs into a `HashMap`. It is the
  recursive function `CollectByName`, applied to the schema's properties. It
  inserts the pairs in list order, so a later duplicate replaces an earlier
  one.
- The conversion of a `(&str, Type)` tuple into a `SchemaProperty` is the
  datatype's constructor, applied inside `WithProperty`.
- `find_missing_keys` subtracts one `HashSet` from another. The set it
  computes is the function `Schema.MissingKeys`. The `Vec` it returns is
  built by `CollectSet`, which drains the set in an order nothing fixes.
- `create_entity` prints the missing keys. The model returns them as the
  out-parameter `reported` instead of printing them.
- `i32` is the newtype `int32`. The `f32` payload of `PropertyValue::Double`
  is kept as its 32-bit pattern, because nothing reads it.

The model keeps the code's current behaviour. There is no `Err` result,
no check of a value against its declared `Type`, and no rejection of
duplicate property names.

## Model

| member | source | states |
|---|---|---|
| `Core.SchemaBuilder.Named` | src/core/mod.rs:103-108 | the new builder has the given name and an empty property list |
| `Core.SchemaBuilder.WithProperty` | src/core/mod.rs:110-114 | the list grows by exactly the converted `(name, type)` pair (the conversion of lines 49-56), at the end; earlier entries and the name are unchanged; the same builder is returned for chaining |
| `Core.SchemaBuilder.Build` | src/core/mod.rs:116-121 | the schema has the builder's name, and its properties are the builder's list in call order |
| `CoreTests.BuildChain` | src/core/mod.rs:103-121 | for any chain `Named(n).WithProperty(..)...Build()`, the schema is named `n` and its i-th property is the i-th declaration |
| `Core.CollectByName` | src/core/mod.rs:76-83 | the keys are exactly the declared names; every value is a declaration carrying its key; for a repeated name the value is the last declaration with that name |
| `Core.CollectByNameSize` | src/core/mod.rs:76-83 | the map never has more entries than there are declarations, and has as many exactly when the declared names are distinct |
| `Core.Schema.MissingKeys` | src/core/mod.rs:85-94 | a name is missing iff some declaration carries it and no supplied entity property carries it |
| `Core.MissingKeysAreDeclaredButNotSupplied` | src/core/mod.rs:85-94 | the missing keys are the set of declared names minus the set of supplied names |
| `Core.MissingKeysDependOnNamesOnly` | src/core/mod.rs:87-93 | two entity property lists with the same set of names give the same missing keys, whatever their values, order or repetitions |
| `Core.MissingKeysIgnoreOrder` | src/core/mod.rs:88-93 | a permutation of the supplied properties gives the same missing keys |
| `Core.MissingKeysAfterSupplying` | src/core/mod.rs:88-93 | supplying one more property removes exactly its name from the missing keys |
| `Core.MissingKeysBounded` | src/core/mod.rs:86-93 | the missing keys are a subset of the declared names; a schema with no properties misses nothing; with nothing supplied, every declared name is missing |
| `Core.CollectSet` | src/core/mod.rs:93 | the list holds each element of the set exactly once and nothing else, so its length is the set's size |
| `Core.Schema.FindMissingKeys` | src/core/mod.rs:85-94 | the list has no duplicates, holds exactly the missing keys, and is as long as their set |
| `Core.Schema.CreateEntity` | src/core/mod.rs:65-74 | always `Ok`, with an empty id and no properties, for every input; the reported list is exactly the missing keys, each once |
| `CoreTests.SchemaCreateEntitySamePropertiesAsExpected` | src/core/mod.rs:124-133 | a schema declaring `prop1`, given no properties, returns `Ok` and reports exactly `["prop1"]` |
| `CoreTests.AgeActiveMissesActive` | src/core/mod.rs:85-94 | with `age` and `active` declared and only `age` supplied, whatever its value, the missing keys are exactly `{"active"}` |

## Left out

- The `println!` of the missing keys (src/core/mod.rs:68) is console output. `CreateEntity` returns the printed value as `reported` instead.
- `f32` arithmetic and representation: the `Double` payload is an uninterpreted 32-bit pattern, because the code never computes with it.
- The iteration order of `HashMap` and `HashSet` is unspecified in Rust. `CollectSet` picks elements in an arbitrary order, and the contracts fix the contents but not the order.
- The unused imports and the unused `schema_props` local (src/core/mod.rs:3-4, 66) have no behaviour.
- Rust's ownership and moves: `with_property` and `build` consume the builder in Rust. In the model the builder remains usable after `Build`. Because `Schema` is a value, later calls on the builder cannot change a schema that was already built.
- `EntityProperty::name` and `EntityProperty::value` (src/core/mod.rs:21-27) are the datatype's field accessors and have no members of their own.
