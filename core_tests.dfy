/**
 * Clients of the schema core: the repository's own unit test, a chain of
 * builder calls of any length, and a worked missing-keys example.
 */
module CoreTests {
  import opened Core

  /**
   * A schema declaring `prop1` accepts an empty property list: the result is
   * `Ok`, and `prop1` is the one name reported missing.
   */
  method SchemaCreateEntitySamePropertiesAsExpected()
    returns (x: Result<Entity, seq<string>>, reported: seq<string>)
    ensures x.Ok?
    ensures reported == ["prop1"]
  {
    var builder := new SchemaBuilder.Named("test_schema");
    builder := builder.WithProperty("prop1", Type.Toggle);
    var schema := builder.Build();
    assert schema.properties == [SchemaProperty("prop1", Type.Toggle)];
    x, reported := schema.CreateEntity([]);
    assert "prop1" in schema.MissingKeys([]) by {
      assert schema.properties[0].name == "prop1";
    }
    forall k | k in schema.MissingKeys([]) ensures k == "prop1" {
      var i :| 0 <= i < |schema.properties| && schema.properties[i].name == k;
    }
    assert schema.MissingKeys([]) == {"prop1"};
    assert reported[0] in reported;
  }

  /**
   * Any chain `Named(name).WithProperty(..)...WithProperty(..).Build()`
   * yields a schema named `name` whose properties are the declarations in
   * call order.
   */
  method BuildChain(name: string, decls: seq<(string, Type)>) returns (schema: Schema)
    ensures schema.name == name
    ensures |schema.properties| == |decls|
    ensures forall i | 0 <= i < |decls| ::
      schema.properties[i] == SchemaProperty(decls[i].0, decls[i].1)
  {
    var builder := new SchemaBuilder.Named(name);
    for n := 0 to |decls|
      invariant fresh(builder)
      invariant builder.name == name
      invariant |builder.props| == n
      invariant forall i | 0 <= i < n :: builder.props[i] == SchemaProperty(decls[i].0, decls[i].1)
    {
      builder := builder.WithProperty(decls[n].0, decls[n].1);
    }
    schema := builder.Build();
  }

  /**
   * Declared `age` and `active`, supplied only `age`: `active` is the one
   * missing key, whatever value `age` carries.
   */
  lemma AgeActiveMissesActive(age: PropertyValue)
    ensures Schema("user", [SchemaProperty("age", Type.Integer), SchemaProperty("active", Type.Toggle)])
              .MissingKeys([EntityProperty("age", age)]) == {"active"}
  {
    var s := Schema("user", [SchemaProperty("age", Type.Integer), SchemaProperty("active", Type.Toggle)]);
    var e := [EntityProperty("age", age)];
    assert s.properties[1].name == "active";
    forall k | k in s.MissingKeys(e) ensures k == "active" {
      var i :| 0 <= i < 2 && s.properties[i].name == k;
      assert e[0].name != k;
    }
  }
}
