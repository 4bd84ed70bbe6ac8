/** The tool envelope mappers of `ToolContainer`: each wraps every tool's serialized input
    schema in one provider's tool shape, keeping the list's length and order. */
module Tools {
  import opened Prelude
  import opened Json
  import opened Schema

  /** A tool descriptor as produced upstream. */
  datatype Tool = Tool(name: string, description: string, inputSchema: InputSchema)

  /** The part of a tool container the mappers read: its tool list, which may be nil. */
  datatype ToolContainer = ToolContainer(allTools: Option<seq<Tool>>)

  /** OpenAI chat-completion tool: the `.function(name:description:parameters:strict:)` case.
      Its parameters are optional in the provider type; the mapper always supplies them. */
  datatype OpenAIChatCompletionTool =
    Function(name: string, description: string, parameters: Option<map<string, JSON>>, strict: bool)

  /** Anthropic tool: description, inline input schema and name; no strict flag. */
  datatype AnthropicTool = AnthropicTool(description: string, inputSchema: map<string, JSON>, name: string)

  /** TogetherAI tool: a nested function object; no strict flag. */
  datatype TogetherAITool = TogetherAITool(functionObject: TogetherAIFunction)

  datatype TogetherAIFunction = TogetherAIFunction(description: string, name: string, parameters: map<string, JSON>)

  function OpenAITool(tool: Tool, strict: bool): OpenAIChatCompletionTool
  {
    Function(tool.name, tool.description, Some(ToJSONSchema(tool.inputSchema)), strict)
  }

  function AnthropicToolOf(tool: Tool): AnthropicTool
  {
    AnthropicTool(tool.description, ToJSONSchema(tool.inputSchema), tool.name)
  }

  function TogetherAIToolOf(tool: Tool): TogetherAITool
  {
    TogetherAITool(TogetherAIFunction(tool.description, tool.name, ToJSONSchema(tool.inputSchema)))
  }

  /** `toOpenAITools(strict:)`: one function tool per tool, in order, all carrying the one
      `strict` flag (false unless the caller says otherwise); empty when there is no tool list. */
  function ToOpenAITools(container: ToolContainer, strict: bool := false): (r: seq<OpenAIChatCompletionTool>)
    ensures container.allTools.None? ==> r == []
    ensures container.allTools.Some? ==> |r| == |container.allTools.value|
    ensures container.allTools.Some? ==>
      forall i | 0 <= i < |r| ::
        var tool := container.allTools.value[i];
        && r[i].name == tool.name
        && r[i].description == tool.description
        && r[i].parameters == Some(ToJSONSchema(tool.inputSchema))
        && r[i].strict == strict
  {
    match container.allTools
    case None => []
    case Some(tools) => MapSeq((tool: Tool) => OpenAITool(tool, strict), tools)
  }

  /** `toAnthropicTools()`: one Anthropic tool per tool, in order; empty when there is no tool list. */
  function ToAnthropicTools(container: ToolContainer): (r: seq<AnthropicTool>)
    ensures container.allTools.None? ==> r == []
    ensures container.allTools.Some? ==> |r| == |container.allTools.value|
    ensures container.allTools.Some? ==>
      forall i | 0 <= i < |r| ::
        var tool := container.allTools.value[i];
        && r[i].name == tool.name
        && r[i].description == tool.description
        && r[i].inputSchema == ToJSONSchema(tool.inputSchema)
  {
    match container.allTools
    case None => []
    case Some(tools) => MapSeq(AnthropicToolOf, tools)
  }

  /** `toTogetherAITools()`: one TogetherAI tool per tool, in order; empty when there is no tool list. */
  function ToTogetherAITools(container: ToolContainer): (r: seq<TogetherAITool>)
    ensures container.allTools.None? ==> r == []
    ensures container.allTools.Some? ==> |r| == |container.allTools.value|
    ensures container.allTools.Some? ==>
      forall i | 0 <= i < |r| ::
        var tool := container.allTools.value[i];
        && r[i].functionObject.name == tool.name
        && r[i].functionObject.description == tool.description
        && r[i].functionObject.parameters == ToJSONSchema(tool.inputSchema)
  {
    match container.allTools
    case None => []
    case Some(tools) => MapSeq(TogetherAIToolOf, tools)
  }

  /** The three providers receive the same tools, in the same order, with the same schema
      payload; only the envelope differs. */
  lemma SamePayloadAcrossProviders(container: ToolContainer, strict: bool)
    ensures var openAI := ToOpenAITools(container, strict);
      var anthropic := ToAnthropicTools(container);
      var togetherAI := ToTogetherAITools(container);
      && |openAI| == |anthropic| == |togetherAI|
      && forall i | 0 <= i < |openAI| ::
        && openAI[i].name == anthropic[i].name == togetherAI[i].functionObject.name
        && openAI[i].description == anthropic[i].description == togetherAI[i].functionObject.description
        && openAI[i].parameters == Some(anthropic[i].inputSchema)
        && anthropic[i].inputSchema == togetherAI[i].functionObject.parameters
  {}
}
