/** The schema serializer: `InputSchema.toJSONSchema()` lowers a typed schema node into a
    JSON Schema object, writing "type" always and every other keyword only when the
    matching optional field is present. */
module Schema {
  import opened Prelude
  import opened Json

  /** The primitive type of a schema node; its raw value is the JSON Schema type name. */
  datatype DataType = String | Number | Integer | Boolean | Object | Array | Null

  /** A schema node. `properties` wraps its map in `Properties` so that each child is
      structurally smaller than the node that holds it. */
  datatype InputSchema = InputSchema(
    dataType: DataType,
    format: Option<string>,
    description: Option<string>,
    nullable: Option<bool>,
    enumValues: Option<seq<string>>,
    items: Option<InputSchema>,
    properties: Option<Properties>,
    requiredProperties: Option<seq<string>>)

  /** Named child schemas of an object node. */
  datatype Properties = Properties(byName: map<string, InputSchema>)

  /** The JSON Schema keywords the serializer can write. */
  const SchemaKeywords: set<string> :=
    {"type", "format", "description", "nullable", "enum", "items", "properties", "required"}

  /** `DataType.rawValue`; distinct types have distinct raw values, as ParseDataType recovers the type. */
  function RawValue(t: DataType): (raw: string)
    ensures ParseDataType(raw) == Some(t)
  {
    match t
    case String => "string"
    case Number => "number"
    case Integer => "integer"
    case Boolean => "boolean"
    case Object => "object"
    case Array => "array"
    case Null => "null"
  }

  /** `DataType(rawValue:)`: the type whose raw value is `raw`, if any. */
  function ParseDataType(raw: string): (r: Option<DataType>)
  {
    if raw == "string" then Some(String)
    else if raw == "number" then Some(Number)
    else if raw == "integer" then Some(Integer)
    else if raw == "boolean" then Some(Boolean)
    else if raw == "object" then Some(Object)
    else if raw == "array" then Some(Array)
    else if raw == "null" then Some(Null)
    else None
  }

  /** `toJSONSchema()`: starts from {"type": raw type} and inserts each optional keyword in turn. */
  function ToJSONSchema(s: InputSchema): (r: map<string, JSON>)
    ensures r.Keys <= SchemaKeywords
    ensures "type" in r && r["type"] == JString(RawValue(s.dataType))
    decreases s
  {
    var withType := map["type" := JString(RawValue(s.dataType))];
    var withFormat :=
      if s.format.Some? then withType["format" := JString(s.format.value)] else withType;
    var withDescription :=
      if s.description.Some? then withFormat["description" := JString(s.description.value)] else withFormat;
    var withNullable :=
      if s.nullable.Some? then withDescription["nullable" := JBool(s.nullable.value)] else withDescription;
    var withEnum :=
      if s.enumValues.Some? then withNullable["enum" := JArray(StringArray(s.enumValues.value))] else withNullable;
    var withItems :=
      if s.items.Some? then withEnum["items" := JObject(ToJSONSchema(s.items.value))] else withEnum;
    var withProperties :=
      if s.properties.Some? then withItems["properties" := JObject(SerializeProperties(s.properties.value))] else withItems;
    if s.requiredProperties.Some? then
      withProperties["required" := JArray(StringArray(s.requiredProperties.value))]
    else
      withProperties
  }

  /** `properties.mapValues { .object($0.toJSONSchema()) }`: same names, each child serialized. */
  function SerializeProperties(p: Properties): (r: map<string, JSON>)
    ensures r.Keys == p.byName.Keys
    ensures forall k | k in r :: r[k].JObject?
    decreases p
  {
    map k | k in p.byName :: JObject(ToJSONSchema(p.byName[k]))
  }

  // Field-by-field specification of a serialized schema

  /** `key` is present exactly when `field` is, and then holds the field's string. */
  predicate StringKeyMirrors(j: map<string, JSON>, key: string, field: Option<string>)
  {
    (key in j <==> field.Some?) && (field.Some? ==> j[key] == JString(field.value))
  }

  /** `key` is present exactly when `field` is, and then holds the field's boolean. */
  predicate BoolKeyMirrors(j: map<string, JSON>, key: string, field: Option<bool>)
  {
    (key in j <==> field.Some?) && (field.Some? ==> j[key] == JBool(field.value))
  }

  /** `key` is present exactly when `field` is, and then holds an array of the field's
      strings, element for element in the same order. */
  predicate StringArrayKeyMirrors(j: map<string, JSON>, key: string, field: Option<seq<string>>)
  {
    (key in j <==> field.Some?)
    && (field.Some? ==>
          j[key].JArray? && |j[key].elems| == |field.value|
          && forall i | 0 <= i < |field.value| :: j[key].elems[i] == JString(field.value[i]))
  }

  /** `j` is a JSON Schema object for `s`: only known keywords, "type" always, every other
      keyword exactly when its field is present, and nested objects that describe the
      children in turn. */
  ghost predicate Describes(j: map<string, JSON>, s: InputSchema)
    decreases s
  {
    && j.Keys <= SchemaKeywords
    && "type" in j && j["type"] == JString(RawValue(s.dataType))
    && StringKeyMirrors(j, "format", s.format)
    && StringKeyMirrors(j, "description", s.description)
    && BoolKeyMirrors(j, "nullable", s.nullable)
    && StringArrayKeyMirrors(j, "enum", s.enumValues)
    && ("items" in j <==> s.items.Some?)
    && (s.items.Some? ==> j["items"].JObject? && Describes(j["items"].obj, s.items.value))
    && ("properties" in j <==> s.properties.Some?)
    && (s.properties.Some? ==> j["properties"].JObject? && DescribesAll(j["properties"].obj, s.properties.value))
    && StringArrayKeyMirrors(j, "required", s.requiredProperties)
  }

  /** `m` has exactly the property names of `p`, each mapped to an object describing its child. */
  ghost predicate DescribesAll(m: map<string, JSON>, p: Properties)
    decreases p
  {
    && m.Keys == p.byName.Keys
    && forall k | k in m :: m[k].JObject? && Describes(m[k].obj, p.byName[k])
  }

  // One lemma per keyword written by ToJSONSchema

  lemma FormatMirrored(s: InputSchema)
    ensures StringKeyMirrors(ToJSONSchema(s), "format", s.format)
  {}

  lemma DescriptionMirrored(s: InputSchema)
    ensures StringKeyMirrors(ToJSONSchema(s), "description", s.description)
  {}

  lemma NullableMirrored(s: InputSchema)
    ensures BoolKeyMirrors(ToJSONSchema(s), "nullable", s.nullable)
  {}

  lemma EnumMirrored(s: InputSchema)
    ensures StringArrayKeyMirrors(ToJSONSchema(s), "enum", s.enumValues)
    ensures s.enumValues.Some? ==> ToJSONSchema(s)["enum"] == JArray(StringArray(s.enumValues.value))
  {}

  lemma RequiredMirrored(s: InputSchema)
    ensures StringArrayKeyMirrors(ToJSONSchema(s), "required", s.requiredProperties)
    ensures s.requiredProperties.Some? ==>
      ToJSONSchema(s)["required"] == JArray(StringArray(s.requiredProperties.value))
  {}

  /** "items" is present exactly when the node has an item schema, and is that schema serialized. */
  lemma ItemsSerialized(s: InputSchema)
    ensures "items" in ToJSONSchema(s) <==> s.items.Some?
    ensures s.items.Some? ==> ToJSONSchema(s)["items"] == JObject(ToJSONSchema(s.items.value))
  {}

  /** "properties" is present exactly when the node has properties, and maps the same names
      to the serialized children. */
  lemma PropertiesSerialized(s: InputSchema)
    ensures "properties" in ToJSONSchema(s) <==> s.properties.Some?
    ensures s.properties.Some? ==>
      ToJSONSchema(s)["properties"] == JObject(SerializeProperties(s.properties.value))
  {}

  // The serializer against its specification

  /** Every serialized node describes its schema, at every depth. */
  lemma {:induction false} SerializationDescribes(s: InputSchema)
    ensures Describes(ToJSONSchema(s), s)
    decreases s
  {
    FormatMirrored(s);
    DescriptionMirrored(s);
    NullableMirrored(s);
    EnumMirrored(s);
    RequiredMirrored(s);
    ItemsSerialized(s);
    PropertiesSerialized(s);
    if s.items.Some? {
      SerializationDescribes(s.items.value);
    }
    if s.properties.Some? {
      SerializedPropertiesDescribe(s.properties.value);
    }
  }

  lemma {:induction false} SerializedPropertiesDescribe(p: Properties)
    ensures DescribesAll(SerializeProperties(p), p)
    decreases p
  {
    forall k | k in p.byName
      ensures Describes(ToJSONSchema(p.byName[k]), p.byName[k])
    {
      SerializationDescribes(p.byName[k]);
    }
  }

  /** The specification leaves no freedom: the only object describing `s` is its serialization. */
  lemma {:induction false} DescribesDetermines(j: map<string, JSON>, s: InputSchema)
    requires Describes(j, s)
    ensures j == ToJSONSchema(s)
    decreases s
  {
    var r := ToJSONSchema(s);
    FormatMirrored(s);
    DescriptionMirrored(s);
    NullableMirrored(s);
    EnumMirrored(s);
    RequiredMirrored(s);
    ItemsSerialized(s);
    PropertiesSerialized(s);
    if s.enumValues.Some? {
      assert j["enum"].elems == StringArray(s.enumValues.value);
    }
    if s.requiredProperties.Some? {
      assert j["required"].elems == StringArray(s.requiredProperties.value);
    }
    if s.items.Some? {
      DescribesDetermines(j["items"].obj, s.items.value);
    }
    if s.properties.Some? {
      DescribesAllDetermines(j["properties"].obj, s.properties.value);
    }
    forall k | k in SchemaKeywords
      ensures k in j <==> k in r
      ensures k in j ==> j[k] == r[k]
    {
      if k == "type" {
      } else if k == "format" {
      } else if k == "description" {
      } else if k == "nullable" {
      } else if k == "enum" {
      } else if k == "items" {
      } else if k == "properties" {
      } else {
        assert k == "required";
      }
    }
  }

  lemma {:induction false} DescribesAllDetermines(m: map<string, JSON>, p: Properties)
    requires DescribesAll(m, p)
    ensures m == SerializeProperties(p)
    decreases p
  {
    forall k | k in m ensures m[k] == JObject(ToJSONSchema(p.byName[k])) {
      DescribesDetermines(m[k].obj, p.byName[k]);
    }
  }

  /** ToJSONSchema is characterised by Describes: an object describes `s` if and only if it
      is the serialization of `s`. */
  lemma SerializationIsDescribed(j: map<string, JSON>, s: InputSchema)
    ensures Describes(j, s) <==> j == ToJSONSchema(s)
  {
    SerializationDescribes(s);
    if Describes(j, s) {
      DescribesDetermines(j, s);
    }
  }

  /** An object describes at most one schema. */
  lemma {:induction false} DescribesUnique(j: map<string, JSON>, a: InputSchema, b: InputSchema)
    requires Describes(j, a) && Describes(j, b)
    ensures a == b
    decreases a
  {
    assert ParseDataType(RawValue(a.dataType)) == Some(b.dataType);
    if a.enumValues.Some? {
      assert a.enumValues.value == b.enumValues.value;
    }
    if a.requiredProperties.Some? {
      assert a.requiredProperties.value == b.requiredProperties.value;
    }
    if a.items.Some? {
      DescribesUnique(j["items"].obj, a.items.value, b.items.value);
    }
    if a.properties.Some? {
      var m := j["properties"].obj;
      forall k | k in m ensures a.properties.value.byName[k] == b.properties.value.byName[k] {
        DescribesUnique(m[k].obj, a.properties.value.byName[k], b.properties.value.byName[k]);
      }
      assert a.properties.value.byName == b.properties.value.byName;
    }
  }

  /** Serialization loses nothing: distinct schemas serialize to distinct objects. */
  lemma SerializationInjective(a: InputSchema, b: InputSchema)
    requires ToJSONSchema(a) == ToJSONSchema(b)
    ensures a == b
  {
    SerializationDescribes(a);
    SerializationDescribes(b);
    DescribesUnique(ToJSONSchema(a), a, b);
  }

  /** Absent fields leave no trace: no key of a serialized node holds null (nested objects
      are serialized nodes too, so this holds at every depth). */
  lemma NoNullPlaceholders(s: InputSchema)
    ensures forall k | k in ToJSONSchema(s) :: ToJSONSchema(s)[k] != JNull
  {}
}
