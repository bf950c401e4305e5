/**
 * The definition store of a schema: two maps from property names to
 * definitions, one for attributes and one for relationships, and the naming
 * options. Definitions are opaque values here (type parameters `A` and `R`);
 * property names are a type parameter `K`.
 */
module Schemas {
  import opened Wrappers
  import opened Naming

  /** What `add` takes: an attribute map and a relationship map, each possibly absent. */
  datatype SchemaDefinition<K, A, R> = SchemaDefinition(attributes: Option<map<K, A>>, relationships: Option<map<K, R>>)

  /** `{ serverTransform, clientTransform }`; an absent entry means `literal` wherever it is used. */
  datatype SchemaOptions = SchemaOptions(serverTransform: Option<Convention>, clientTransform: Option<Convention>)

  /** The empty options record `{}`. */
  const NoOptions: SchemaOptions := SchemaOptions(None, None)

  /**
   * `if (source) Object.assign(target, source)`: every key of `source` takes its
   * value from `source`, every other key keeps its value, and nothing else is
   * added. An absent source changes nothing.
   */
  function Merge<K, V>(target: map<K, V>, source: Option<map<K, V>>): (r: map<K, V>)
    ensures source.None? ==> r == target
    ensures source.Some? ==> r.Keys == target.Keys + source.value.Keys
    ensures source.Some? ==> forall k :: k in source.value ==> r[k] == source.value[k]
    ensures forall k :: k in target && (source.None? || k !in source.value) ==> k in r && r[k] == target[k]
  {
    match source
    case None => target
    case Some(m) => target + m
  }

  /**
   * Two merges in a row: a key the second source defines has its value from the
   * second source, whatever the first one said.
   */
  lemma MergeLastWriteWins<K, V>(m: map<K, V>, first: Option<map<K, V>>, second: Option<map<K, V>>, k: K)
    requires second.Some? && k in second.value
    ensures k in Merge(Merge(m, first), second)
    ensures Merge(Merge(m, first), second)[k] == second.value[k]
  {
  }

  /** Merging the empty map, like merging nothing, changes nothing. */
  lemma MergeEmpty<K, V>(m: map<K, V>)
    ensures Merge(m, Some(map[])) == m
  {
  }

  class Schema<K(==), A, R> {
    var attributes: map<K, A>
    var relationships: map<K, R>
    var options: SchemaOptions

    /** `new Schema(definition, options)` runs `init`. */
    constructor (definition: SchemaDefinition<K, A, R>, options: Option<SchemaOptions>)
      ensures attributes == Merge(map[], definition.attributes)
      ensures relationships == Merge(map[], definition.relationships)
      ensures this.options == options.GetOr(NoOptions)
    {
      attributes := map[];
      relationships := map[];
      this.options := NoOptions;
      new;
      Init(definition, options);
    }

    /**
     * `init`: both maps start empty, the options are the given ones or `{}`, and
     * then the definition is added. So afterwards each map is exactly the
     * definition's map, or empty when the definition has none.
     */
    method Init(definition: SchemaDefinition<K, A, R>, options: Option<SchemaOptions>)
      modifies this
      ensures attributes == Merge(map[], definition.attributes)
      ensures relationships == Merge(map[], definition.relationships)
      ensures definition.attributes.Some? ==> attributes == definition.attributes.value
      ensures definition.attributes.None? ==> attributes == map[]
      ensures definition.relationships.Some? ==> relationships == definition.relationships.value
      ensures definition.relationships.None? ==> relationships == map[]
      ensures this.options == options.GetOr(NoOptions)
    {
      attributes := map[];
      relationships := map[];
      this.options := options.GetOr(NoOptions);
      var _ := Add(definition);
    }

    /**
     * `add`: merges the attribute map into the attributes and the relationship
     * map into the relationships, each independently of the other; the options
     * do not change. It returns the schema itself, so calls can be chained.
     */
    method Add(obj: SchemaDefinition<K, A, R>) returns (self: Schema<K, A, R>)
      modifies this
      ensures self == this
      ensures attributes == Merge(old(attributes), obj.attributes)
      ensures relationships == Merge(old(relationships), obj.relationships)
      ensures options == old(options)
    {
      if obj.attributes.Some? {
        attributes := attributes + obj.attributes.value;
      }
      if obj.relationships.Some? {
        relationships := relationships + obj.relationships.value;
      }
      self := this;
    }
  }

  /**
   * `schema.add(d1).add(d2)`: the second call acts on the same schema, so a key
   * both definitions give an attribute (or a relationship) has `d2`'s entry.
   */
  method AddChained<K(==), A, R>(schema: Schema<K, A, R>, d1: SchemaDefinition<K, A, R>, d2: SchemaDefinition<K, A, R>)
    modifies schema
    ensures schema.attributes == Merge(Merge(old(schema.attributes), d1.attributes), d2.attributes)
    ensures schema.relationships == Merge(Merge(old(schema.relationships), d1.relationships), d2.relationships)
    ensures forall k :: d2.attributes.Some? && k in d2.attributes.value ==> schema.attributes[k] == d2.attributes.value[k]
    ensures forall k :: d2.relationships.Some? && k in d2.relationships.value ==> schema.relationships[k] == d2.relationships.value[k]
    ensures schema.options == old(schema.options)
  {
    var s1 := schema.Add(d1);
    var s2 := s1.Add(d2);
    assert s2 == schema;
  }

  /**
   * A schema built with attribute `name` defaulting to `""`, then given
   * attribute `name` defaulting to `"x"`, ends with the `"x"` entry. Definitions
   * are reduced here to their default values.
   */
  method OverrideDefaultExample() returns (attrs: map<string, string>, rels: map<string, string>)
    ensures attrs == map["name" := "x"]
    ensures rels == map[]
  {
    var schema := new Schema<string, string, string>(SchemaDefinition(Some(map["name" := ""]), None), None);
    var _ := schema.Add(SchemaDefinition(Some(map["name" := "x"]), None));
    attrs, rels := schema.attributes, schema.relationships;
  }
}
