/**
 * The schema-type prefix rewrite of the search service: before a schema is
 * stored, every type name and every referenced document type in it receives
 * a per-package prefix such as "com.android.server.appsearch.impl@42:". The
 * rewrite updates a schema builder in place; everything other than those
 * names is untouched.
 *
 * The schema is a plain value here: the fields of the icing protocol
 * buffers that the rewrite reads or must preserve.
 */
module SchemaRewrite {
  import opened Wrappers

  datatype DataType = UnknownDataType | String | Int64 | Double | Boolean | Bytes | Document
  datatype Cardinality = UnknownCardinality | Repeated | Optional | Required
  datatype TokenizerType = NoTokenizer | Plain
  datatype TermMatchType = UnknownTermMatch | ExactOnly | Prefix

  datatype IndexingConfig = IndexingConfig(tokenizerType: TokenizerType, termMatchType: TermMatchType)

  /**
   * One property of a schema type. `schemaType` names the referenced type of
   * a document property; the empty string means it is not set.
   */
  datatype PropertyConfig = PropertyConfig(
    propertyName: string,
    dataType: DataType,
    cardinality: Cardinality,
    schemaType: string,
    indexingConfig: Option<IndexingConfig>)

  datatype SchemaTypeConfig = SchemaTypeConfig(schemaType: string, properties: seq<PropertyConfig>)

  datatype Schema = Schema(types: seq<SchemaTypeConfig>)

  /** A property after the rewrite: a set referenced type gets the prefix. */
  function PrefixProperty(prefix: string, p: PropertyConfig): (r: PropertyConfig)
    ensures r.propertyName == p.propertyName && r.dataType == p.dataType
    ensures r.cardinality == p.cardinality && r.indexingConfig == p.indexingConfig
    ensures r.schemaType == if p.schemaType == "" then "" else prefix + p.schemaType
  {
    if p.schemaType == "" then p else p.(schemaType := prefix + p.schemaType)
  }

  /** A schema type after the rewrite: its name and its properties' references get the prefix. */
  function PrefixType(prefix: string, t: SchemaTypeConfig): (r: SchemaTypeConfig)
    ensures r.schemaType == prefix + t.schemaType
    ensures |r.properties| == |t.properties|
    ensures forall j :: 0 <= j < |t.properties| ==> r.properties[j] == PrefixProperty(prefix, t.properties[j])
  {
    SchemaTypeConfig(prefix + t.schemaType,
                     seq(|t.properties|, j requires 0 <= j < |t.properties| => PrefixProperty(prefix, t.properties[j])))
  }

  /** A schema after the rewrite, type by type. */
  function PrefixSchema(prefix: string, s: Schema): (r: Schema)
    ensures |r.types| == |s.types|
    ensures forall i :: 0 <= i < |s.types| ==> r.types[i] == PrefixType(prefix, s.types[i])
  {
    Schema(seq(|s.types|, i requires 0 <= i < |s.types| => PrefixType(prefix, s.types[i])))
  }

  /**
   * The rewrite touches names only: the order and number of types and
   * properties, every property's name, data type, cardinality and indexing
   * configuration stay as they were; every type name and every set
   * reference gains the prefix, and an unset reference stays unset.
   */
  lemma PrefixSchemaPreservesStructure(prefix: string, s: Schema, i: nat, j: nat)
    requires i < |s.types| && j < |s.types[i].properties|
    ensures var t := PrefixSchema(prefix, s).types[i];
      var p := s.types[i].properties[j];
      t.schemaType == prefix + s.types[i].schemaType &&
      |t.properties| == |s.types[i].properties| &&
      t.properties[j].propertyName == p.propertyName &&
      t.properties[j].dataType == p.dataType &&
      t.properties[j].cardinality == p.cardinality &&
      t.properties[j].indexingConfig == p.indexingConfig &&
      t.properties[j].schemaType == (if p.schemaType == "" then "" else prefix + p.schemaType)
  {
  }

  /** Removes a leading `prefix` from `name`, if it carries one. */
  function StripPrefix(prefix: string, name: string): (r: string)
    ensures |prefix| <= |name| && name[..|prefix|] == prefix ==> prefix + r == name
    ensures !(|prefix| <= |name| && name[..|prefix|] == prefix) ==> r == name
  {
    if |prefix| <= |name| && name[..|prefix|] == prefix then name[|prefix|..] else name
  }

  /** Strips `prefix` from a prefixed name. */
  lemma StripAfterPrefix(prefix: string, name: string)
    ensures StripPrefix(prefix, prefix + name) == name
  {
    assert (prefix + name)[..|prefix|] == prefix;
    assert (prefix + name)[|prefix|..] == name;
  }

  /** Undoes the rewrite of one schema type. */
  function UnprefixType(prefix: string, t: SchemaTypeConfig): SchemaTypeConfig {
    SchemaTypeConfig(StripPrefix(prefix, t.schemaType),
                     seq(|t.properties|, j requires 0 <= j < |t.properties| =>
                       t.properties[j].(schemaType := StripPrefix(prefix, t.properties[j].schemaType))))
  }

  /** Undoes the rewrite of a schema. */
  function UnprefixSchema(prefix: string, s: Schema): Schema {
    Schema(seq(|s.types|, i requires 0 <= i < |s.types| => UnprefixType(prefix, s.types[i])))
  }

  /** Stripping the prefix again recovers the original schema, so the rewrite loses nothing. */
  lemma UnprefixAfterPrefix(prefix: string, s: Schema)
    ensures UnprefixSchema(prefix, PrefixSchema(prefix, s)) == s
  {
    var r := UnprefixSchema(prefix, PrefixSchema(prefix, s));
    forall i | 0 <= i < |s.types|
      ensures r.types[i] == s.types[i]
    {
      var t := s.types[i];
      StripAfterPrefix(prefix, t.schemaType);
      var back := UnprefixType(prefix, PrefixType(prefix, t));
      forall j | 0 <= j < |t.properties|
        ensures back.properties[j] == t.properties[j]
      {
        var p := t.properties[j];
        if p.schemaType != "" {
          StripAfterPrefix(prefix, p.schemaType);
        }
      }
      assert back.properties == t.properties;
    }
    assert r.types == s.types;
  }

  /** `SchemaProto.Builder`: a schema whose types are replaced in place. */
  class SchemaBuilder {
    var types: seq<SchemaTypeConfig>

    /** `schema.toBuilder()` */
    constructor (schema: Schema)
      ensures types == schema.types
    {
      types := schema.types;
    }

    /** `build()` */
    function Build(): (s: Schema)
      reads this
      ensures s.types == types
    {
      Schema(types)
    }
  }

  /**
   * `rewriteSchemaTypes(prefix, builder)`: walks the builder's types and,
   * within each, its properties, adding `prefix` to the type name and to
   * every set document reference, and stores each rewritten type back into
   * the builder at its index.
   */
  method RewriteSchemaTypes(prefix: string, builder: SchemaBuilder)
    modifies builder
    ensures builder.Build() == PrefixSchema(prefix, old(builder.Build()))
  {
    ghost var original := builder.types;
    var typeIdx := 0;
    while typeIdx < |builder.types|
      invariant 0 <= typeIdx <= |builder.types| == |original|
      invariant forall i :: 0 <= i < typeIdx ==> builder.types[i] == PrefixType(prefix, original[i])
      invariant forall i :: typeIdx <= i < |builder.types| ==> builder.types[i] == original[i]
    {
      var typeConfig := builder.types[typeIdx];
      var properties := typeConfig.properties;
      var propertyIdx := 0;
      while propertyIdx < |properties|
        invariant 0 <= propertyIdx <= |properties| == |typeConfig.properties|
        invariant forall j :: 0 <= j < propertyIdx ==>
          properties[j] == PrefixProperty(prefix, typeConfig.properties[j])
        invariant forall j :: propertyIdx <= j < |properties| ==> properties[j] == typeConfig.properties[j]
      {
        var property := properties[propertyIdx];
        if property.schemaType != "" {
          properties := properties[propertyIdx := property.(schemaType := prefix + property.schemaType)];
        }
        propertyIdx := propertyIdx + 1;
      }
      var rewritten := SchemaTypeConfig(prefix + typeConfig.schemaType, properties);
      assert rewritten == PrefixType(prefix, typeConfig);
      builder.types := builder.types[typeIdx := rewritten];
      typeIdx := typeIdx + 1;
    }
  }

  // ---------------------------------------------------------------------------
  // The schema of testRewriteSchemaTypes

  const TestPrefix: string := "com.android.server.appsearch.impl@42:"

  function InSchema(): Schema {
    Schema([SchemaTypeConfig("TestType", [
      PropertyConfig("subject", String, Optional, "", Some(IndexingConfig(Plain, Prefix))),
      PropertyConfig("link", Document, Optional, "RefType", None)])])
  }

  function ExpectedSchema(): Schema {
    Schema([SchemaTypeConfig("com.android.server.appsearch.impl@42:TestType", [
      PropertyConfig("subject", String, Optional, "", Some(IndexingConfig(Plain, Prefix))),
      PropertyConfig("link", Document, Optional, "com.android.server.appsearch.impl@42:RefType", None)])])
  }

  /** The rewrite of the test's schema is the expected schema. */
  lemma TestSchemaRewritten()
    ensures PrefixSchema(TestPrefix, InSchema()) == ExpectedSchema()
  {
    assert TestPrefix + "TestType" == "com.android.server.appsearch.impl@42:TestType";
    assert TestPrefix + "RefType" == "com.android.server.appsearch.impl@42:RefType";
    var r := PrefixSchema(TestPrefix, InSchema());
    assert r.types[0].properties == ExpectedSchema().types[0].properties;
    assert r.types == ExpectedSchema().types;
  }

  /** The test's schema, rewritten in place through a builder, builds the expected schema. */
  method RewriteTestSchema() returns (actual: Schema)
    ensures actual == ExpectedSchema()
  {
    var builder := new SchemaBuilder(InSchema());
    RewriteSchemaTypes(TestPrefix, builder);
    actual := builder.Build();
    TestSchemaRewritten();
  }
}
