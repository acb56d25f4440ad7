/** The static catalogue of tools: names, descriptions and input schemas,
    listed by `tools/list` and consulted by `tools/call`. */
module Registry {
  import opened Wrappers
  import opened Json

  datatype ToolName = SearchTool | OpenTool | FindTool

  datatype ParamType = StringParam | NumberParam

  /** One property of a tool's input schema. */
  datatype Param = Param(name: string, kind: ParamType, default: Option<Json>, required: bool)

  datatype ToolDefinition = ToolDefinition(tool: ToolName, name: string, description: string, params: seq<Param>)

  const SEARCH_DEFINITION: ToolDefinition :=
    ToolDefinition(SearchTool, "search",
      "Search for information on the web and return formatted results with citations",
      [ Param("query", StringParam, None, true),
        Param("topn", NumberParam, Some(JInt(10)), false) ])

  const OPEN_DEFINITION: ToolDefinition :=
    ToolDefinition(OpenTool, "open",
      "Open a web page by URL and return its content with line numbers for citation",
      [ Param("url", StringParam, None, true),
        Param("loc", NumberParam, Some(JInt(0)), false),
        Param("num_lines", NumberParam, Some(JInt(-1)), false) ])

  const FIND_DEFINITION: ToolDefinition :=
    ToolDefinition(FindTool, "find",
      "Find specific text patterns in the currently opened page",
      [ Param("pattern", StringParam, None, true),
        Param("url", StringParam, None, false) ])

  /** The registry. `tools/list` returns these entries; the server keeps
      them in a `HashMap`, so their order is not significant. */
  const TOOLS: seq<ToolDefinition> := [SEARCH_DEFINITION, OPEN_DEFINITION, FIND_DEFINITION]

  function Definition(t: ToolName): (d: ToolDefinition)
    ensures d in TOOLS && d.tool == t
  {
    match t
    case SearchTool => SEARCH_DEFINITION
    case OpenTool => OPEN_DEFINITION
    case FindTool => FIND_DEFINITION
  }

  function LookupIn(defs: seq<ToolDefinition>, name: string): Option<ToolName> {
    if defs == [] then None
    else if defs[0].name == name then Some(defs[0].tool)
    else LookupIn(defs[1..], name)
  }

  /** The registry knows exactly the names "search", "open" and "find". */
  lemma LookupInRegistry(name: string)
    ensures LookupIn(TOOLS, name).Some? <==> name == "search" || name == "open" || name == "find"
    ensures LookupIn(TOOLS, name).Some? ==> Definition(LookupIn(TOOLS, name).value).name == name
  {
    var rest1 := [OPEN_DEFINITION, FIND_DEFINITION];
    var rest2 := [FIND_DEFINITION];
    assert TOOLS[1..] == rest1 && rest1[1..] == rest2 && rest2[1..] == [];
    assert LookupIn(rest2, name) == if name == "find" then Some(FindTool) else None;
    assert LookupIn(rest1, name) == if name == "open" then Some(OpenTool) else LookupIn(rest2, name);
    assert LookupIn(TOOLS, name) == if name == "search" then Some(SearchTool) else LookupIn(rest1, name);
  }

  /** `TOOLS.contains_key(name)`, returning the tool registered under the
      name: a name is known exactly when it is one of the three, and it
      leads to the tool of that name. */
  function Lookup(name: string): (r: Option<ToolName>)
    ensures r.Some? <==> name == "search" || name == "open" || name == "find"
    ensures r.Some? ==> Definition(r.value).name == name
  {
    LookupInRegistry(name);
    LookupIn(TOOLS, name)
  }

  /** Every tool is found under its registered name. */
  lemma LookupFindsEveryTool(t: ToolName)
    ensures Lookup(Definition(t).name) == Some(t)
  {
  }
}
