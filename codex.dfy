/**
 * The Codex CLI adapter (`tools/codex.rs`): model aliases, the argument
 * vector of `codex exec`, the piped command line, and the thread id and token
 * usage read back from its NDJSON output.
 */
module Codex {
  import opened Wrappers
  import opened Json
  import opened Ndjson
  import opened Adapters
  import opened Argv
  import Shell

  const ModelMap: map<string, string> := map[
    "gpt5" := "gpt-5",
    "gpt5-codex" := "gpt-5-codex",
    "o3" := "o3",
    "o3-mini" := "o3-mini",
    "gpt4" := "gpt-4",
    "gpt4o" := "gpt-4o",
    "claude" := "claude-3-5-sonnet",
    "sonnet" := "claude-3-5-sonnet",
    "opus" := "claude-3-opus"]

  function MapModelToId(model: string): string
  {
    MapModel(ModelMap, model)
  }

  lemma MapModelToIdExamples()
    ensures MapModelToId("gpt5") == "gpt-5" && MapModelToId("o3") == "o3"
    ensures MapModelToId("sonnet") == "claude-3-5-sonnet" && MapModelToId("gpt-4-turbo") == "gpt-4-turbo"
  {
  }

  lemma MapModelToIdIdempotent(model: string)
    ensures MapModelToId(MapModelToId(model)) == MapModelToId(model)
  {
    assert FullIdsFixed(ModelMap);
    MapModelIdempotent(ModelMap, model);
  }

  /** `CodexBuildOptions` (its `Default` has every option absent and `json` false). */
  datatype Options = Options(
    prompt: Option<string>,
    systemPrompt: Option<string>,
    model: Option<string>,
    json: bool,
    resume: Option<string>)

  function MapOpt(model: Option<string>): Option<string>
  {
    match model
    case Some(m) => Some(MapModelToId(m))
    case None => None
  }

  const SkipRepoCheck := "--skip-git-repo-check"
  const Bypass := "--dangerously-bypass-approvals-and-sandbox"

  /** The words whose next argument is their value. */
  const ValueFlags: set<string> := {"resume", "--model"}

  /** The flags of `build_args`: the `exec` subcommand, then the options, then the two fixed flags. */
  function Flags(o: Options): seq<Flag>
  {
    [Switch("exec")]
    + IfSome("resume", o.resume)
    + IfSome("--model", MapOpt(o.model))
    + IfSet("--json", o.json)
    + [Switch(SkipRepoCheck)]
    + [Switch(Bypass)]
  }

  function Args(o: Options): seq<string>
  {
    Render(Flags(o))
  }

  /** `build_args`. */
  method BuildArgs(o: Options) returns (args: seq<string>)
    ensures args == Args(o)
  {
    ghost var fs := [Switch("exec")];
    args := ["exec"];
    RenderOne(Switch("exec"));
    args := PushValued(args, fs, "resume", o.resume);
    fs := fs + IfSome("resume", o.resume);
    args := PushValued(args, fs, "--model", MapOpt(o.model));
    fs := fs + IfSome("--model", MapOpt(o.model));
    args := PushSwitch(args, fs, "--json", o.json);
    fs := fs + IfSet("--json", o.json);
    args := PushSwitch(args, fs, SkipRepoCheck, true);
    fs := fs + IfSet(SkipRepoCheck, true);
    args := PushSwitch(args, fs, Bypass, true);
    fs := fs + IfSet(Bypass, true);
  }

  /** The vector starts with `exec`, followed by `resume <id>` when resuming. */
  lemma ArgsStart(o: Options)
    ensures |Args(o)| >= 1 && Args(o)[0] == "exec"
    ensures o.resume.Some? ==> |Args(o)| >= 3 && Args(o)[1] == "resume" && Args(o)[2] == o.resume.value
  {
    var fs := Flags(o);
    var h := [Switch("exec")] + IfSome("resume", o.resume);
    assert fs == h + fs[|h|..] by {
      assert fs[..|h|] == h;
    }
    RenderAppend(h, fs[|h|..]);
    RenderOne(Switch("exec"));
    RenderSnocValued([Switch("exec")], "resume", o.resume);
  }

  /** The vector always ends with the two autonomy flags. */
  lemma ArgsEnd(o: Options)
    ensures var n := |Args(o)|; n >= 2 && Args(o)[n - 2] == SkipRepoCheck && Args(o)[n - 1] == Bypass
  {
    var h3 := [Switch("exec")] + IfSome("resume", o.resume) + IfSome("--model", MapOpt(o.model)) + IfSet("--json", o.json);
    var h4 := h3 + [Switch(SkipRepoCheck)];
    RenderAppend(h3, [Switch(SkipRepoCheck)]);
    RenderAppend(h4, [Switch(Bypass)]);
    RenderOne(Switch(SkipRepoCheck));
    RenderOne(Switch(Bypass));
  }

  lemma SwitchNamesUnvalued()
    ensures "exec" !in ValueFlags && "--json" !in ValueFlags && SkipRepoCheck !in ValueFlags && Bypass !in ValueFlags
  {
  }

  /** `resume` and `--model` are each followed by their value: the vector reads back as the flags. */
  lemma ArgsParse(o: Options)
    ensures Parse(Args(o), ValueFlags) == Some(Flags(o))
  {
    SwitchNamesUnvalued();
    assert Fits(Flags(o), ValueFlags);
    ParseRender(Flags(o), ValueFlags);
  }

  /** `--model` carries the mapped model exactly when one is given; `--json` appears exactly when `json` is set. */
  lemma OptionsCarried(o: Options, v: string)
    ensures Valued("--model", v) in Flags(o) <==> o.model.Some? && v == MapModelToId(o.model.value)
    ensures Valued("resume", v) in Flags(o) <==> o.resume == Some(v)
    ensures Switch("--json") in Flags(o) <==> o.json
  {
  }

  /** `build_command`: the combined prompt piped into `codex`. */
  function BuildCommand(o: Options): string
  {
    PipedCommand(CombinedText(o.systemPrompt, o.prompt), "codex", Args(o))
  }

  lemma CodexPlain()
    ensures PlainName("codex")
  {
    var p := "codex";
    forall i | 0 <= i < |p| ensures !Shell.IsSpecial(p[i]) { assert p[i] in p; }
  }

  /** The shell runs `printf %s <combined prompt> | codex <args>`: the prompt reaches codex verbatim on its input. */
  lemma BuildCommandWords(o: Options)
    ensures Shell.Tokens(BuildCommand(o)) == Some([Shell.Word("printf"), Shell.Word("%s"),
      Shell.Word(CombinedText(o.systemPrompt, o.prompt)), Shell.Pipe] + [Shell.Word("codex")] + Shell.Words(Args(o)))
  {
    CodexPlain();
    PipedCommandWords(CombinedText(o.systemPrompt, o.prompt), "codex", Args(o));
  }

  // ---------------------------------------------------------------------
  // Output
  // ---------------------------------------------------------------------

  /** Within one message `thread_id` is preferred to `session_id`. */
  function SessionIdOf(m: Json): Option<string>
  {
    match m.GetStr("thread_id")
    case Some(t) => Some(t)
    case None => m.GetStr("session_id")
  }

  /** `extract_session_id`: the id of the first message carrying a string `thread_id` or `session_id`. */
  function ExtractSessionId(codec: Codec, output: string): (r: Option<string>)
    ensures var ms := ParseAll(codec, output);
      && (r.None? <==> forall i | 0 <= i < |ms| :: ms[i].GetStr("thread_id").None? && ms[i].GetStr("session_id").None?)
      && (r.Some? ==> exists i | 0 <= i < |ms| ::
            && r == (if ms[i].GetStr("thread_id").Some? then ms[i].GetStr("thread_id") else ms[i].GetStr("session_id"))
            && forall j | 0 <= j < i :: ms[j].GetStr("thread_id").None? && ms[j].GetStr("session_id").None?)
  {
    FirstSome(ParseAll(codec, output), SessionIdOf)
  }

  /** `CodexUsage`. */
  datatype Usage = Usage(inputTokens: nat, outputTokens: nat)

  function InputOf(m: Json): nat { Count(m.Get("usage"), "input_tokens") }
  function OutputOf(m: Json): nat { Count(m.Get("usage"), "output_tokens") }

  /** `usage.input_tokens` and `usage.output_tokens`, each summed over the messages. */
  function TotalUsage(ms: seq<Json>): Usage
  {
    Usage(Sum(ms, InputOf), Sum(ms, OutputOf))
  }

  /** Usage of output read in two parts adds up. */
  lemma TotalUsageAppend(a: seq<Json>, b: seq<Json>)
    ensures TotalUsage(a + b) == Usage(TotalUsage(a).inputTokens + TotalUsage(b).inputTokens,
      TotalUsage(a).outputTokens + TotalUsage(b).outputTokens)
  {
    SumAppend(a, b, InputOf);
    SumAppend(a, b, OutputOf);
  }

  /** `extract_usage`: the `+=` loop over the parsed messages. */
  method ExtractUsage(codec: Codec, output: string) returns (usage: Usage)
    ensures usage == TotalUsage(ParseAll(codec, output))
  {
    var ms := ParseAll(codec, output);
    usage := Usage(0, 0);
    var i := 0;
    while i < |ms|
      invariant 0 <= i <= |ms|
      invariant usage == TotalUsage(ms[..i])
    {
      var msg := ms[i];
      assert TotalUsage(ms[..i + 1]) == Usage(usage.inputTokens + InputOf(msg), usage.outputTokens + OutputOf(msg)) by {
        assert ms[..i + 1] == ms[..i] + [msg];
        TotalUsageAppend(ms[..i], [msg]);
        SumOne(msg, InputOf);
        SumOne(msg, OutputOf);
      }
      match msg.Get("usage") {
        case Some(u) =>
          match u.GetU64("input_tokens") {
            case Some(n) => usage := usage.(inputTokens := usage.inputTokens + n);
            case None =>
          }
          match u.GetU64("output_tokens") {
            case Some(n) => usage := usage.(outputTokens := usage.outputTokens + n);
            case None =>
          }
        case None =>
      }
      i := i + 1;
    }
    assert ms[..|ms|] == ms;
  }

  /** `CodexTool::default()`. */
  const Tool := ToolInfo("codex", "Codex CLI", "codex", true, true, false, true, "gpt-5")

  /** The default model is already a full id. */
  lemma DefaultModelIsFullId()
    ensures MapModelToId(Tool.defaultModel) == Tool.defaultModel && !Tool.supportsSystemPrompt
  {
  }
}
