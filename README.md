# FunctionCalling-AIProxySwift, modelled in Dafny

The package turns a container of provider-agnostic tools (name, description, typed input
schema) into the tool objects that three chat APIs expect: OpenAI function tools (with a
`strict` flag), Anthropic tools and TogetherAI function tools. Its one piece of logic is
`InputSchema.toJSONSchema()`, which lowers a schema node into a JSON Schema object:
"type" always, every other keyword (format, description, nullable, enum, items,
properties, required) only when the matching optional field is present, recursing into
the item schema and into every named property.

The model is pure Dafny over values, one module per component:

- `prelude.dfy` (`Prelude`): Swift's `Optional` as `Option`, and `Array.map` as `MapSeq`.
- `json.dfy` (`Json`): the JSON value the serializer produces, string arrays and their reading back.
- `schema.dfy` (`Schema`): the schema node, `ToJSONSchema`, and `Describes`, a
  keyword-by-keyword specification of a serialized node that is proved to be met by
  `ToJSONSchema` and by nothing else. Injectivity follows from it.
- `tools.dfy` (`Tools`): tools, the container, the three provider shapes and the three mappers.
- `scenario.dfy` (`ToolScenario`): the single-tool container of the repository's tests and what each mapper yields for it.

`toJSONSchema` fills a local dictionary through seven conditional inserts. The model keeps
those steps as a chain of named intermediate maps (`withType`, `withFormat`, …) inside
one recursive function, since the recursion into children rules out a method.

## Model

| member | source | states |
|---|---|---|
| Prelude.MapSeq | Sources/FunctionCalling-AIProxySwift/FunctionCalling_AIProxySwift.swift:13-20 | `Array.map`: the result has the input's length and its i-th element is `f` of the i-th input, so order is kept |
| Json.StringArray | Sources/FunctionCalling-AIProxySwift/FunctionCalling_AIProxySwift.swift:72 | `map { .string($0) }`: an array of JSON strings of the same length, element for element in order |
| Json.StringsOf | Sources/FunctionCalling-AIProxySwift/FunctionCalling_AIProxySwift.swift:83-85 | reading a JSON array back succeeds exactly when every element is a string, and then yields the strings that StringArray would write back to the same array |
| Json.StringsOfStringArray | Sources/FunctionCalling-AIProxySwift/FunctionCalling_AIProxySwift.swift:71-73 | reading back an enum/required array gives the original strings in order |
| Schema.RawValue | Sources/FunctionCalling-AIProxySwift/FunctionCalling_AIProxySwift.swift:56 | the "type" string of a data type identifies the type: parsing it gives the type back |
| Schema.ToJSONSchema | Sources/FunctionCalling-AIProxySwift/FunctionCalling_AIProxySwift.swift:53-89 | the result always maps "type" to the raw type string and holds no key outside the eight schema keywords |
| Schema.SerializeProperties | Sources/FunctionCalling-AIProxySwift/FunctionCalling_AIProxySwift.swift:79-81 | `mapValues` keeps exactly the input's property names (nothing added, dropped or renamed) and maps each to an object |
| Schema.FormatMirrored | Sources/FunctionCalling-AIProxySwift/FunctionCalling_AIProxySwift.swift:59-61 | "format" is present exactly when `format` is, holding the same string |
| Schema.DescriptionMirrored | Sources/FunctionCalling-AIProxySwift/FunctionCalling_AIProxySwift.swift:63-65 | "description" is present exactly when `description` is, holding the same string |
| Schema.NullableMirrored | Sources/FunctionCalling-AIProxySwift/FunctionCalling_AIProxySwift.swift:67-69 | "nullable" is present exactly when `nullable` is, holding the same boolean |
| Schema.EnumMirrored | Sources/FunctionCalling-AIProxySwift/FunctionCalling_AIProxySwift.swift:71-73 | "enum" is present exactly when `enumValues` is, an array of strings of the same length and order |
| Schema.ItemsSerialized | Sources/FunctionCalling-AIProxySwift/FunctionCalling_AIProxySwift.swift:75-77 | "items" is present exactly when `items` is, and is the item schema serialized as an object |
| Schema.PropertiesSerialized | Sources/FunctionCalling-AIProxySwift/FunctionCalling_AIProxySwift.swift:79-81 | "properties" is present exactly when `properties` is, and is the serialized property map |
| Schema.RequiredMirrored | Sources/FunctionCalling-AIProxySwift/FunctionCalling_AIProxySwift.swift:83-85 | "required" is present exactly when `requiredProperties` is, an array of strings of the same length and order |
| Schema.SerializationDescribes | Sources/FunctionCalling-AIProxySwift/FunctionCalling_AIProxySwift.swift:53-89 | every serialized node meets the keyword-by-keyword specification, recursively through items and properties |
| Schema.SerializedPropertiesDescribe | Sources/FunctionCalling-AIProxySwift/FunctionCalling_AIProxySwift.swift:79-81 | the serialized property map has the same names, each mapped to an object that describes its child |
| Schema.DescribesDetermines | Sources/FunctionCalling-AIProxySwift/FunctionCalling_AIProxySwift.swift:53-89 | any object that meets the specification for a node is that node's serialization |
| Schema.DescribesAllDetermines | Sources/FunctionCalling-AIProxySwift/FunctionCalling_AIProxySwift.swift:79-81 | any property map that meets the specification is the serialized property map |
| Schema.SerializationIsDescribed | Sources/FunctionCalling-AIProxySwift/FunctionCalling_AIProxySwift.swift:53-89 | an object meets the specification for a node if and only if it is the node's serialization |
| Schema.DescribesUnique | Sources/FunctionCalling-AIProxySwift/FunctionCalling_AIProxySwift.swift:53-89 | an object meets the specification for at most one node |
| Schema.SerializationInjective | Sources/FunctionCalling-AIProxySwift/FunctionCalling_AIProxySwift.swift:53-89 | two nodes with the same serialization are equal: no field is lost |
| Schema.NoNullPlaceholders | Sources/FunctionCalling-AIProxySwift/FunctionCalling_AIProxySwift.swift:59-87 | absent fields leave absent keys: no key of a serialized node holds null |
| Tools.ToOpenAITools | Sources/FunctionCalling-AIProxySwift/FunctionCalling_AIProxySwift.swift:10-21 | nil tool list gives []; otherwise one entry per tool in order, with its name, description, serialized schema as parameters, and the caller's `strict` (default false) on every entry |
| Tools.ToAnthropicTools | Sources/FunctionCalling-AIProxySwift/FunctionCalling_AIProxySwift.swift:24-34 | nil tool list gives []; otherwise one entry per tool in order, with its name, description and serialized schema as inputSchema |
| Tools.ToTogetherAITools | Sources/FunctionCalling-AIProxySwift/FunctionCalling_AIProxySwift.swift:38-50 | nil tool list gives []; otherwise one entry per tool in order, whose function object has its name, description and serialized schema as parameters |
| Tools.SamePayloadAcrossProviders | Sources/FunctionCalling-AIProxySwift/FunctionCalling_AIProxySwift.swift:13-49 | the three mappers produce lists of equal length whose i-th entries carry the same name, description and schema payload |
| ToolScenario.TestSchemaSerialized | Tests/FunctionCalling-AIProxySwiftTests/FunctionCalling_AIProxySwiftTests.swift:25-38 | the test tool's schema serializes to type "object", required ["testParam"], and a single property testParam of type "string" with its description and enum ["option1", "option2"] |
| ToolScenario.OpenAIScenario | Tests/FunctionCalling-AIProxySwiftTests/FunctionCalling_AIProxySwiftTests.swift:41-132 | the OpenAI mapping of the test container has one entry, named "testTool", described "A test tool", strict false by default, with the expected schema |
| ToolScenario.AnthropicScenario | Tests/FunctionCalling-AIProxySwiftTests/FunctionCalling_AIProxySwiftTests.swift:134-210 | the Anthropic mapping of the test container has one entry with the expected name, description and schema |
| ToolScenario.TogetherAIScenario | Tests/FunctionCalling-AIProxySwiftTests/FunctionCalling_AIProxySwiftTests.swift:212-288 | the TogetherAI mapping of the test container has one entry whose function object has the expected name, description and schema |

## Left out

- `ToolContainer.execute(methodName:parameters:)`, `allToolsJSONString` and `service`: asynchronous dispatch and upstream tool discovery. The FunctionCalling package that provides them is not part of this model.
- JSON text encoding and networking of the AIProxy types: only their fields that this file fills in are modelled.
- The floating-point case of the JSON value: the serializer never produces one.
- Dictionary key order: Swift dictionaries are unordered, so objects are Dafny maps and no order is stated for their keys. Order is stated only for the enum and required arrays and for the tool lists.
- The data type cases beyond string, number, integer, boolean, object, array and null: FunctionCalling's type enum is not part of this model. The serializer only uses a case's raw value, so adding a case changes nothing else.
- A DeepSeek or any other fourth provider: this source file has only three mappers, and the model follows the code.
- Consistency of a schema node (items only on arrays, required names present in properties): the source does not check it, so the model accepts any node.
- `properties` is held in a one-field `Properties` wrapper inside the `Option`. This adds no behaviour; it lets Dafny see that each child schema is smaller than its parent.
- The OpenAI tool case: its description and strict are modelled as plain values, while the parameters stay optional as in the provider type. The mapper always fills all three.
