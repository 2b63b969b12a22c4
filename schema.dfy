/** Tool Schema Adapter: the catalog the tool execution service lists is
    turned into the function-calling schema the completion service expects,
    `{"type": "function", "function": {name, description, parameters}}`. */
module ToolSchema {

  import opened Wrappers
  import opened Json

  /** A tool of the catalog: its name, its description (possibly absent) and
      the schema dictionary `t.model_json_schema(by_alias=True)` gives for it. */
  datatype CatalogTool = CatalogTool(name: string, description: Option<string>, schema: map<string, Json>)

  /** The inner `"function"` record of an adapted tool. */
  datatype FunctionSchema = FunctionSchema(name: string, description: Option<string>, parameters: Json)

  /** One entry of `groq_tools`: its `"type"` and its `"function"` record. */
  datatype FunctionTool = FunctionTool(kind: string, fn: FunctionSchema)

  const FUNCTION_KIND := "function"
  const PARAMETERS_KEY := "parameters"

  /** `tool_schema.get("parameters", {})` */
  function Parameters(schema: map<string, Json>): Json {
    if PARAMETERS_KEY in schema then schema[PARAMETERS_KEY] else JObject(map[])
  }

  /** The adapter loop: one entry per catalog tool, in catalog order, each
      of kind `"function"` carrying the tool's name and description and the
      schema's `"parameters"` field, or an empty object when it has none. */
  method AdaptTools(rawTools: seq<CatalogTool>) returns (groqTools: seq<FunctionTool>)
    ensures |groqTools| == |rawTools|
    ensures forall i :: 0 <= i < |rawTools| ==>
      && groqTools[i].kind == FUNCTION_KIND
      && groqTools[i].fn.name == rawTools[i].name
      && groqTools[i].fn.description == rawTools[i].description
      && groqTools[i].fn.parameters == Parameters(rawTools[i].schema)
  {
    groqTools := [];
    for j := 0 to |rawTools|
      invariant |groqTools| == j
      invariant forall i :: 0 <= i < j ==>
        && groqTools[i].kind == FUNCTION_KIND
        && groqTools[i].fn.name == rawTools[i].name
        && groqTools[i].fn.description == rawTools[i].description
        && groqTools[i].fn.parameters == Parameters(rawTools[i].schema)
    {
      var t := rawTools[j];
      var toolSchema := t.schema;
      groqTools := groqTools + [FunctionTool(FUNCTION_KIND, FunctionSchema(t.name, t.description, Parameters(toolSchema)))];
    }
  }
}
