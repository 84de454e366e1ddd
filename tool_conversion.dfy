/** `convert_openai_tools_to_anthropic`: the tool manifest in the OpenAI
    function-calling shape rewritten into the Anthropic tool shape. Only
    entries of type `function` are kept, in order; the description defaults
    to `''`, the property map to `{}` and the required list to `[]`, and every
    property schema loses its `description` key. */
module ToolConversion {
  import opened Common

  /** One property's JSON schema, keyed by schema keyword. */
  type Schema = map<string, string>

  /** `function['parameters']`: each part may be absent. */
  datatype Parameters = Parameters(properties: Option<map<string, Schema>>, required: Option<seq<string>>)

  /** `tool['function']`: `name`, optional `description`, the spoken `say`
      text, and optional `parameters`. */
  datatype FunctionSpec = FunctionSpec(name: string, description: Option<string>, say: string, parameters: Option<Parameters>)

  /** An entry of the OpenAI-shaped manifest: `tool['type']` and `tool['function']`. */
  datatype OpenAiTool = OpenAiTool(kind: string, func: FunctionSpec)

  /** `input_schema`: `type`, `properties`, `required`. */
  datatype InputSchema = InputSchema(kind: string, properties: map<string, Schema>, required: seq<string>)

  datatype AnthropicTool = AnthropicTool(name: string, description: string, inputSchema: InputSchema)

  predicate IsFunction(tool: OpenAiTool)
  {
    tool.kind == "function"
  }

  /** `function.get('parameters', {}).get('properties', {})`. */
  function PropertiesOf(f: FunctionSpec): map<string, Schema>
  {
    match f.parameters
    case None => map[]
    case Some(p) => match p.properties
      case None => map[]
      case Some(props) => props
  }

  /** `function.get('parameters', {}).get('required', [])`. */
  function RequiredOf(f: FunctionSpec): seq<string>
  {
    match f.parameters
    case None => []
    case Some(p) => match p.required
      case None => []
      case Some(req) => req
  }

  /** Every property schema without its `description` key. */
  function StripDescriptions(props: map<string, Schema>): (r: map<string, Schema>)
    ensures r.Keys == props.Keys
    ensures forall k :: k in r ==> "description" !in r[k]
    ensures forall k, key :: k in r && key in props[k] && key != "description" ==>
      key in r[k] && r[k][key] == props[k][key]
    ensures forall k, key :: k in r && key in r[k] ==> key in props[k]
  {
    map k | k in props :: props[k] - {"description"}
  }

  /** The Anthropic entry built from one function: the name is copied, the
      description defaults to `''` and the required list to `[]`, the schema
      is an `object` schema with the same property names, none of which keeps
      a `description` keyword. */
  function ConvertOne(f: FunctionSpec): (t: AnthropicTool)
    ensures t.name == f.name
    ensures f.description.None? ==> t.description == ""
    ensures f.description.Some? ==> t.description == f.description.value
    ensures t.inputSchema.kind == "object"
    ensures f.parameters.None? ==> t.inputSchema.properties == map[] && t.inputSchema.required == []
    ensures f.parameters.Some? && f.parameters.value.required.Some? ==>
      t.inputSchema.required == f.parameters.value.required.value
    ensures f.parameters.Some? && f.parameters.value.required.None? ==> t.inputSchema.required == []
    ensures t.inputSchema.properties.Keys == PropertiesOf(f).Keys
    ensures forall k :: k in t.inputSchema.properties ==> "description" !in t.inputSchema.properties[k]
  {
    AnthropicTool(
      f.name,
      match f.description case None => "" case Some(d) => d,
      InputSchema("object", StripDescriptions(PropertiesOf(f)), RequiredOf(f)))
  }

  /** The converted list for `tools`, built from the front as the loop does. */
  function ConvertAll(tools: seq<OpenAiTool>): seq<AnthropicTool>
    decreases |tools|
  {
    if tools == [] then []
    else
      var n := |tools| - 1;
      ConvertAll(tools[..n]) + (if IsFunction(tools[n]) then [ConvertOne(tools[n].func)] else [])
  }

  /** The number of `function` entries in `tools`. */
  function FunctionCount(tools: seq<OpenAiTool>): nat
    decreases |tools|
  {
    if tools == [] then 0
    else
      var n := |tools| - 1;
      FunctionCount(tools[..n]) + (if IsFunction(tools[n]) then 1 else 0)
  }

  /** `convert_openai_tools_to_anthropic(openai_tools)`. */
  method ConvertOpenAiToolsToAnthropic(openaiTools: seq<OpenAiTool>) returns (anthropicTools: seq<AnthropicTool>)
    ensures anthropicTools == ConvertAll(openaiTools)
  {
    anthropicTools := [];
    for i := 0 to |openaiTools|
      invariant anthropicTools == ConvertAll(openaiTools[..i])
    {
      assert openaiTools[..i + 1][..i] == openaiTools[..i];
      var tool := openaiTools[i];
      if tool.kind == "function" {
        var func := tool.func;
        var properties := StripDescriptions(PropertiesOf(func));
        var anthropicTool := AnthropicTool(
          func.name,
          match func.description case None => "" case Some(d) => d,
          InputSchema("object", properties, RequiredOf(func)));
        anthropicTools := anthropicTools + [anthropicTool];
      }
    }
    assert openaiTools[..|openaiTools|] == openaiTools;
  }

  /** Converting a concatenation converts each part. */
  lemma {:induction false} ConvertAllAppend(a: seq<OpenAiTool>, b: seq<OpenAiTool>)
    ensures ConvertAll(a + b) == ConvertAll(a) + ConvertAll(b)
    decreases |b|
  {
    if b == [] {
      assert a + b == a;
    } else {
      var n := |b| - 1;
      assert (a + b)[..|a + b| - 1] == a + b[..n];
      ConvertAllAppend(a, b[..n]);
    }
  }

  /** One converted entry per `function` entry, the `i`-th input placed
      after the converted entries of the `function` entries before it: only
      functions are kept, and in their original order. */
  lemma {:induction false} ConvertAllPositions(tools: seq<OpenAiTool>)
    ensures |ConvertAll(tools)| == FunctionCount(tools)
    ensures forall i :: 0 <= i < |tools| && IsFunction(tools[i]) ==>
      FunctionCount(tools[..i]) < |ConvertAll(tools)|
      && ConvertAll(tools)[FunctionCount(tools[..i])] == ConvertOne(tools[i].func)
    decreases |tools|
  {
    if tools != [] {
      var n := |tools| - 1;
      ConvertAllPositions(tools[..n]);
      forall i | 0 <= i < |tools| && IsFunction(tools[i])
        ensures FunctionCount(tools[..i]) < |ConvertAll(tools)|
        ensures ConvertAll(tools)[FunctionCount(tools[..i])] == ConvertOne(tools[i].func)
      {
        if i < n {
          assert tools[..n][..i] == tools[..i];
          assert tools[..n][i] == tools[i];
        } else {
          assert tools[..i] == tools[..n];
        }
      }
    }
  }

  /** Entries that are not functions contribute nothing. */
  lemma {:induction false} NonFunctionsDropped(tools: seq<OpenAiTool>)
    requires forall i :: 0 <= i < |tools| ==> !IsFunction(tools[i])
    ensures ConvertAll(tools) == []
    decreases |tools|
  {
    if tools != [] {
      NonFunctionsDropped(tools[..|tools| - 1]);
    }
  }
}
