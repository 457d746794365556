/**
 * A typed schema and the entities checked against it.
 *
 * A `Schema` is a named list of typed property declarations, put together
 * with a fluent `SchemaBuilder`. `Schema.CreateEntity` compares the property
 * names an entity supplies with the names the schema declares and reports the
 * declared names that are missing; under the current policy it then always
 * succeeds with an empty entity. Only names take part: neither the declared
 * `Type` nor the supplied `PropertyValue` is ever inspected.
 */
module Core {

  /** Rust's `i32`. */
  newtype int32 = x: int | -0x8000_0000 <= x < 0x8000_0000

  /** Rust's `f32`, kept as its 32-bit pattern: nothing here computes with it. */
  datatype F32 = F32(bits: bv32)

  /** A concrete value held by an entity property. */
  datatype PropertyValue =
    | String(text: string)
    | Integer(number: int32)
    | Double(float: F32)
    | Toggle(flag: bool)

  /** A `(name, value)` pair supplied when creating an entity; `name` and `value` are its accessors. */
  datatype EntityProperty = EntityProperty(name: string, value: PropertyValue)

  datatype Entity = Entity(id: string, props: seq<EntityProperty>)

  /** The declared kind of a schema property; never compared with a `PropertyValue`. */
  datatype Type = String | Integer | Double | Toggle

  /** A `(name, declared type)` pair of a schema. */
  datatype SchemaProperty = SchemaProperty(name: string, propType: Type)

  /** Rust's `Result`, the return type of `CreateEntity`. */
  datatype Result<T, E> = Ok(value: T) | Err(error: E)

  /** The names declared in a list of schema properties. */
  function SchemaNames(props: seq<SchemaProperty>): set<string>
  {
    set p | p in props :: p.name
  }

  /** The names supplied in a list of entity properties. */
  function EntityNames(props: seq<EntityProperty>): set<string>
  {
    set p | p in props :: p.name
  }

  predicate NoDuplicates(s: seq<string>)
  {
    forall i, j | 0 <= i < j < |s| :: s[i] != s[j]
  }

  predicate DistinctNames(props: seq<SchemaProperty>)
  {
    forall i, j | 0 <= i < j < |props| :: props[i].name != props[j].name
  }

  /** `props[i]` is the last entry of `props` that carries its name. */
  ghost predicate IsLastNamed(props: seq<SchemaProperty>, i: int)
  {
    0 <= i < |props| && forall j | i < j < |props| :: props[j].name != props[i].name
  }

  /**
   * Collecting `(name, property)` pairs into a map, inserting them in list
   * order: every declared name is a key, and a name declared several times
   * maps to its last declaration.
   */
  function CollectByName(props: seq<SchemaProperty>): (m: map<string, SchemaProperty>)
    ensures m.Keys == SchemaNames(props)
    ensures forall k | k in m :: m[k].name == k && m[k] in props
    ensures forall i | IsLastNamed(props, i) :: props[i].name in m && m[props[i].name] == props[i]
  {
    if props == [] then map[]
    else
      var init, last := props[..|props| - 1], props[|props| - 1];
      assert props == init + [last];
      assert forall i | IsLastNamed(props, i) && i < |init| :: IsLastNamed(init, i);
      CollectByName(init)[last.name := last]
  }

  /** Collecting `init + [last]` is collecting `init` and then inserting `last`. */
  lemma CollectByNameSnoc(init: seq<SchemaProperty>, last: SchemaProperty)
    ensures CollectByName(init + [last]) == CollectByName(init)[last.name := last]
  {
    assert (init + [last])[..|init|] == init;
  }

  /** A repeated name in `init + [last]` is a repeat inside `init` or a repeat of `last`'s name. */
  lemma DistinctNamesSnoc(init: seq<SchemaProperty>, last: SchemaProperty)
    ensures DistinctNames(init + [last]) <==> DistinctNames(init) && last.name !in SchemaNames(init)
  {
    var props := init + [last];
    if DistinctNames(props) {
      forall p | p in init ensures p.name != last.name {
        var i :| 0 <= i < |init| && init[i] == p;
        assert props[i] == p && props[|init|] == last;
      }
      forall i, j | 0 <= i < j < |init| ensures init[i].name != init[j].name {
        assert props[i] == init[i] && props[j] == init[j];
      }
    }
    if DistinctNames(init) && last.name !in SchemaNames(init) {
      forall i, j | 0 <= i < j < |props| ensures props[i].name != props[j].name {
        if j == |init| {
          assert props[i] in init;
        } else {
          assert props[i] == init[i] && props[j] == init[j];
        }
      }
    }
  }

  /**
   * The map loses an entry exactly when a name is declared twice: it never
   * has more keys than there are declarations, and as many only when the
   * names are distinct.
   */
  lemma {:induction false} CollectByNameSize(props: seq<SchemaProperty>)
    ensures |CollectByName(props)| <= |props|
    ensures |CollectByName(props)| == |props| <==> DistinctNames(props)
  {
    if props != [] {
      var init, last := props[..|props| - 1], props[|props| - 1];
      assert props == init + [last];
      CollectByNameSize(init);
      CollectByNameSnoc(init, last);
      DistinctNamesSnoc(init, last);
      var m := CollectByName(init);
      if last.name in m {
        assert |m[last.name := last]| == |m|;
      } else {
        assert |m[last.name := last]| == |m| + 1;
      }
    }
  }

  /**
   * Draining a hash set into a list: every element once, in an order the
   * set's iteration chooses and nothing here fixes.
   */
  method CollectSet(keys: set<string>) returns (r: seq<string>)
    ensures NoDuplicates(r)
    ensures forall k :: k in r <==> k in keys
    ensures |r| == |keys|
  {
    var rest := keys;
    r := [];
    while rest != {}
      invariant NoDuplicates(r)
      invariant forall k | k in r :: k !in rest
      invariant forall k :: k in keys <==> k in r || k in rest
      invariant |r| + |rest| == |keys|
      decreases rest
    {
      var k :| k in rest;
      r := r + [k];
      rest := rest - {k};
    }
  }

  datatype Schema = Schema(name: string, properties: seq<SchemaProperty>) {

    /**
     * The names the schema declares that no supplied entity property
     * carries: the set difference of the keys of the schema's name-keyed
     * map (`CollectByName(properties)`) and the entity's names.
     */
    function MissingKeys(entityProps: seq<EntityProperty>): (missing: set<string>)
      ensures forall k :: k in missing <==>
        && (exists i | 0 <= i < |properties| :: properties[i].name == k)
        && (forall j | 0 <= j < |entityProps| :: entityProps[j].name != k)
    {
      CollectByName(properties).Keys - EntityNames(entityProps)
    }

    /**
     * The missing keys as a list: each once, in an order left open, as
     * iterating a hash set gives them.
     */
    method FindMissingKeys(entityProps: seq<EntityProperty>) returns (missing: seq<string>)
      ensures NoDuplicates(missing)
      ensures forall k :: k in missing <==> k in MissingKeys(entityProps)
      ensures |missing| == |MissingKeys(entityProps)|
    {
      missing := CollectSet(MissingKeys(entityProps));
    }

    /**
     * Computes the missing keys, which are only reported (`reported`), and
     * always succeeds with an entity whose id is empty and which holds no
     * properties, whatever was supplied or found missing.
     */
    method CreateEntity(entityProps: seq<EntityProperty>)
      returns (r: Result<Entity, seq<string>>, reported: seq<string>)
      ensures r.Ok? && r.value.id == "" && r.value.props == []
      ensures NoDuplicates(reported)
      ensures forall k :: k in reported <==> k in MissingKeys(entityProps)
      ensures |reported| == |MissingKeys(entityProps)|
    {
      reported := FindMissingKeys(entityProps);
      r := Ok(Entity("", []));
    }
  }

  /** A declared name is missing exactly when none of the entity's names is it. */
  lemma MissingKeysAreDeclaredButNotSupplied(s: Schema, entityProps: seq<EntityProperty>)
    ensures s.MissingKeys(entityProps) == SchemaNames(s.properties) - EntityNames(entityProps)
  {
  }

  /**
   * Only the set of supplied names matters: not their order, not how often a
   * name is given, not the values.
   */
  lemma MissingKeysDependOnNamesOnly(s: Schema, e1: seq<EntityProperty>, e2: seq<EntityProperty>)
    requires EntityNames(e1) == EntityNames(e2)
    ensures s.MissingKeys(e1) == s.MissingKeys(e2)
  {
  }

  /** Reordering the supplied properties does not change the missing keys. */
  lemma {:induction false} MissingKeysIgnoreOrder(s: Schema, e1: seq<EntityProperty>, e2: seq<EntityProperty>)
    requires multiset(e1) == multiset(e2)
    ensures s.MissingKeys(e1) == s.MissingKeys(e2)
  {
    forall p ensures p in e1 <==> p in e2 {
      assert p in e1 <==> p in multiset(e1);
      assert p in e2 <==> p in multiset(e2);
    }
    assert EntityNames(e1) == EntityNames(e2);
  }

  /** Supplying one more property removes its name from the missing keys and nothing else. */
  lemma {:induction false} MissingKeysAfterSupplying(s: Schema, entityProps: seq<EntityProperty>, p: EntityProperty)
    ensures s.MissingKeys(entityProps + [p]) == s.MissingKeys(entityProps) - {p.name}
  {
    assert EntityNames(entityProps + [p]) == EntityNames(entityProps) + {p.name} by {
      forall q ensures q in entityProps + [p] <==> q in entityProps || q == p {
      }
    }
  }

  /** The missing keys are always among the schema's names; a schema without properties misses nothing. */
  lemma MissingKeysBounded(s: Schema, entityProps: seq<EntityProperty>)
    ensures s.MissingKeys(entityProps) <= SchemaNames(s.properties)
    ensures s.properties == [] ==> s.MissingKeys(entityProps) == {}
    ensures s.MissingKeys([]) == SchemaNames(s.properties)
  {
  }

  /**
   * The fluent builder: it accumulates declarations in call order and hands
   * them to the schema it builds.
   */
  class SchemaBuilder {
    var name: string
    var props: seq<SchemaProperty>

    /** A builder for a schema called `name`, with no property declared yet. */
    constructor Named(name: string)
      ensures this.name == name && props == []
    {
      this.name := name;
      props := [];
    }

    /**
     * Declares one more property, converted from the `(name, type)` pair, at
     * the end of the list; returns the builder for chaining.
     */
    method WithProperty(propName: string, propType: Type) returns (builder: SchemaBuilder)
      modifies this
      ensures builder == this
      ensures name == old(name)
      ensures props == old(props) + [SchemaProperty(propName, propType)]
    {
      props := props + [SchemaProperty(propName, propType)];
      builder := this;
    }

    /** The schema with the builder's name and its declarations in call order. */
    method Build() returns (schema: Schema)
      ensures schema.name == name && schema.properties == props
    {
      schema := Schema(name, props);
    }
  }
}
