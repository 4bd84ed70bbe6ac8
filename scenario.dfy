/** The single-tool container used by the repository's tests, and what each provider
    mapper makes of it. */
module ToolScenario {
  import opened Prelude
  import opened Json
  import opened Schema
  import opened Tools

  function TestParam(): InputSchema
  {
    InputSchema(String, None, Some("A test parameter"), None, Some(["option1", "option2"]), None, None, None)
  }

  function TestTool(): Tool
  {
    Tool("testTool", "A test tool",
      InputSchema(Object, None, None, None, None, None,
        Some(Properties(map["testParam" := TestParam()])), Some(["testParam"])))
  }

  function TestContainer(): ToolContainer
  {
    ToolContainer(Some([TestTool()]))
  }

  /** The checks the tests make on a serialized input schema. */
  predicate IsTestSchema(parameters: map<string, JSON>)
  {
    && "type" in parameters && parameters["type"] == JString("object")
    && "required" in parameters && parameters["required"] == JArray([JString("testParam")])
    && "properties" in parameters && parameters["properties"].JObject?
    && |parameters["properties"].obj| == 1
    && "testParam" in parameters["properties"].obj
    && parameters["properties"].obj["testParam"].JObject?
    && var prop := parameters["properties"].obj["testParam"].obj;
      && "type" in prop && prop["type"] == JString("string")
      && "description" in prop && prop["description"] == JString("A test parameter")
      && "enum" in prop && prop["enum"] == JArray([JString("option1"), JString("option2")])
  }

  /** The test tool's input schema serializes to what every provider test inspects. */
  lemma TestSchemaSerialized()
    ensures IsTestSchema(ToJSONSchema(TestTool().inputSchema))
  {}

  /** The OpenAI test: one tool, its name and description, strict false by default, and the schema. */
  lemma OpenAIScenario()
    ensures var tools := ToOpenAITools(TestContainer());
      && |tools| == 1
      && tools[0].name == "testTool"
      && tools[0].description == "A test tool"
      && tools[0].strict == false
      && tools[0].parameters.Some?
      && IsTestSchema(tools[0].parameters.value)
  {
    TestSchemaSerialized();
  }

  /** The Anthropic test: one tool, its name and description, and the schema as inputSchema. */
  lemma AnthropicScenario()
    ensures var tools := ToAnthropicTools(TestContainer());
      && |tools| == 1
      && tools[0].name == "testTool"
      && tools[0].description == "A test tool"
      && IsTestSchema(tools[0].inputSchema)
  {
    TestSchemaSerialized();
  }

  /** The TogetherAI test: one tool whose function object carries name, description and schema. */
  lemma TogetherAIScenario()
    ensures var tools := ToTogetherAITools(TestContainer());
      && |tools| == 1
      && tools[0].functionObject.name == "testTool"
      && tools[0].functionObject.description == "A test tool"
      && IsTestSchema(tools[0].functionObject.parameters)
  {
    TestSchemaSerialized();
  }
}
