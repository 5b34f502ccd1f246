/**
 * The tool registry (`tools/mod.rs`): the four supported tools, looked up by
 * name through `get_tool` or through a `ToolRegistry` built once by `new`.
 * A tool is seen through the `Tool` trait, whose accessors return the fields
 * of its descriptor unchanged; here that is the `ToolInfo` value itself.
 */
module Tools {
  import opened Wrappers
  import opened Strings
  import opened Adapters
  import Claude
  import Codex
  import Opencode
  import AgentTool

  /** `list_tools()`, in its fixed order. */
  const ToolNames: seq<string> := ["claude", "codex", "opencode", "agent"]

  function ListTools(): seq<string>
  {
    ToolNames
  }

  /** `is_tool_supported`. */
  predicate IsToolSupported(name: string)
  {
    name in ToolNames
  }

  const AvailableSuffix := ". Available tools: claude, codex, opencode, agent"

  /** `get_tool`: the default descriptor of a supported tool, or the error naming the unknown one. */
  function GetTool(name: string): Result<ToolInfo, string>
  {
    match name
    case "claude" => Ok(Claude.Tool)
    case "codex" => Ok(Codex.Tool)
    case "opencode" => Ok(Opencode.Tool)
    case "agent" => Ok(AgentTool.Tool)
    case _ => Err("Unknown tool: " + name + AvailableSuffix)
  }

  /**
   * `get_tool` succeeds exactly for the supported names, with the tool of
   * that name, and otherwise reports the name and the supported tools.
   */
  lemma GetToolSpec(name: string)
    ensures GetTool(name).Ok? <==> IsToolSupported(name)
    ensures GetTool(name).Ok? ==> GetTool(name).value.name == name && GetTool(name).value.executable == name
    ensures GetTool(name).Err? ==> GetTool(name).error == "Unknown tool: " + name + AvailableSuffix
    ensures GetTool(name).Err? ==> StartsWith(GetTool(name).error, "Unknown tool: " + name)
  {
    if GetTool(name).Err? {
      var e := GetTool(name).error;
      assert e[..|"Unknown tool: " + name|] == "Unknown tool: " + name;
    }
  }

  /** The list and the membership test agree, and the list has no repeats. */
  lemma ListToolsSupported(name: string)
    ensures name in ListTools() <==> IsToolSupported(name)
    ensures forall i, j | 0 <= i < j < |ListTools()| :: ListTools()[i] != ListTools()[j]
  {
  }

  lemma IsToolSupportedExamples()
    ensures IsToolSupported("claude") && IsToolSupported("agent")
    ensures !IsToolSupported("") && !IsToolSupported("unknown") && !IsToolSupported("gemini") && !IsToolSupported("qwen")
  {
  }

  /** The `Tool` accessors of the claude descriptor. */
  lemma ClaudeAccessors()
    ensures GetTool("claude") == Ok(Claude.Tool)
    ensures Claude.Tool.defaultModel == "sonnet" && Claude.Tool.executable == "claude" && Claude.Tool.supportsJsonOutput
  {
  }

  /** `ToolRegistry`: the descriptors by name. */
  datatype Registry = Registry(tools: map<string, ToolInfo>)

  /** `ToolRegistry::new()`: one entry per supported tool. */
  function NewRegistry(): Registry
  {
    Registry(map["claude" := Claude.Tool, "codex" := Codex.Tool, "opencode" := Opencode.Tool, "agent" := AgentTool.Tool])
  }

  /** `ToolRegistry::get`. */
  function Get(r: Registry, name: string): Option<ToolInfo>
  {
    if name in r.tools then Some(r.tools[name]) else None
  }

  /** `ToolRegistry::is_supported`. */
  predicate IsSupported(r: Registry, name: string)
  {
    name in r.tools
  }

  /** `ToolRegistry::list`: the names, in the map's unspecified order, hence a set. */
  function List(r: Registry): set<string>
  {
    r.tools.Keys
  }

  /**
   * The built registry agrees with the free functions: a name is supported
   * by it exactly when `is_tool_supported` says so, its `get` is `get_tool`
   * without the error text, and its names are those of `list_tools`.
   */
  lemma NewRegistryAgrees(name: string)
    ensures IsSupported(NewRegistry(), name) <==> IsToolSupported(name)
    ensures Get(NewRegistry(), name).Some? <==> GetTool(name).Ok?
    ensures Get(NewRegistry(), name).Some? ==>
      Get(NewRegistry(), name).value == GetTool(name).value && Get(NewRegistry(), name).value.name == name
    ensures List(NewRegistry()) == set n | n in ListTools()
  {
    GetToolSpec(name);
    var r := NewRegistry();
    assert r.tools.Keys == {"claude", "codex", "opencode", "agent"};
  }
}
