/**
 * The OpenCode CLI adapter (`tools/opencode.rs`): model aliases, the argument
 * vector of `opencode run`, the piped command line, and the session id and
 * token usage read back from its NDJSON output.
 */
module Opencode {
  import opened Wrappers
  import opened Json
  import opened Ndjson
  import opened Adapters
  import opened Argv
  import Shell

  const ModelMap: map<string, string> := map[
    "gpt4" := "openai/gpt-4",
    "gpt4o" := "openai/gpt-4o",
    "claude" := "anthropic/claude-3-5-sonnet",
    "sonnet" := "anthropic/claude-3-5-sonnet",
    "opus" := "anthropic/claude-3-opus",
    "gemini" := "google/gemini-pro",
    "grok" := "opencode/grok-code",
    "grok-code" := "opencode/grok-code",
    "grok-code-fast-1" := "opencode/grok-code"]

  function MapModelToId(model: string): string
  {
    MapModel(ModelMap, model)
  }

  lemma MapModelToIdExamples()
    ensures MapModelToId("grok") == "opencode/grok-code" && MapModelToId("grok-code-fast-1") == "opencode/grok-code"
    ensures MapModelToId("sonnet") == "anthropic/claude-3-5-sonnet" && MapModelToId("openai/gpt-4") == "openai/gpt-4"
  {
  }

  lemma MapModelToIdIdempotent(model: string)
    ensures MapModelToId(MapModelToId(model)) == MapModelToId(model)
  {
    assert FullIdsFixed(ModelMap);
    MapModelIdempotent(ModelMap, model);
  }

  /** `OpencodeBuildOptions` (its `Default` has every option absent and `json` false). */
  datatype Options = Options(
    prompt: Option<string>,
    systemPrompt: Option<string>,
    model: Option<string>,
    json: bool,
    resume: Option<string>)

  function MapOpt(model: Option<string>): Option<string>
  {
    match model
    case Some(m) => Some(MapModelToId(m))
    case None => None
  }

  /** The words whose next argument is their value. */
  const ValueFlags: set<string> := {"--model", "--format", "--resume"}

  /** The flags of `build_args`: the `run` subcommand, then the options in source order. */
  function Flags(o: Options): seq<Flag>
  {
    [Switch("run")]
    + IfSome("--model", MapOpt(o.model))
    + IfSome("--format", When(o.json, "json"))
    + IfSome("--resume", o.resume)
  }

  function Args(o: Options): seq<string>
  {
    Render(Flags(o))
  }

  /** `build_args`. */
  method BuildArgs(o: Options) returns (args: seq<string>)
    ensures args == Args(o)
  {
    ghost var fs := [Switch("run")];
    args := ["run"];
    RenderOne(Switch("run"));
    args := PushValued(args, fs, "--model", MapOpt(o.model));
    fs := fs + IfSome("--model", MapOpt(o.model));
    args := PushValued(args, fs, "--format", When(o.json, "json"));
    fs := fs + IfSome("--format", When(o.json, "json"));
    args := PushValued(args, fs, "--resume", o.resume);
    fs := fs + IfSome("--resume", o.resume);
  }

  /** The vector starts with `run`; with no option set it is exactly `run`. */
  lemma ArgsStart(o: Options)
    ensures |Args(o)| >= 1 && Args(o)[0] == "run"
    ensures o.model.None? && !o.json && o.resume.None? ==> Args(o) == ["run"]
  {
    var rest := IfSome("--model", MapOpt(o.model)) + IfSome("--format", When(o.json, "json")) + IfSome("--resume", o.resume);
    assert Flags(o) == [Switch("run")] + rest;
    RenderHead(Switch("run"), rest);
    if o.model.None? && !o.json && o.resume.None? {
      assert Flags(o) == [Switch("run")];
      RenderOne(Switch("run"));
    }
  }

  lemma RunUnvalued()
    ensures "run" !in ValueFlags
  {
  }

  /** Each of `--model`, `--format` and `--resume` is followed by its value: the vector reads back as the flags. */
  lemma ArgsParse(o: Options)
    ensures Parse(Args(o), ValueFlags) == Some(Flags(o))
  {
    RunUnvalued();
    assert Fits(Flags(o), ValueFlags);
    ParseRender(Flags(o), ValueFlags);
  }

  /** Each value flag appears exactly when its option is given, carrying that option. */
  lemma OptionsCarried(o: Options, v: string)
    ensures Valued("--model", v) in Flags(o) <==> o.model.Some? && v == MapModelToId(o.model.value)
    ensures Valued("--format", v) in Flags(o) <==> o.json && v == "json"
    ensures Valued("--resume", v) in Flags(o) <==> o.resume == Some(v)
  {
  }

  /** `build_command`: the combined prompt piped into `opencode`. */
  function BuildCommand(o: Options): string
  {
    PipedCommand(CombinedText(o.systemPrompt, o.prompt), "opencode", Args(o))
  }

  lemma OpencodePlain()
    ensures PlainName("opencode")
  {
    var p := "opencode";
    forall i | 0 <= i < |p| ensures !Shell.IsSpecial(p[i]) { assert p[i] in p; }
  }

  /** The shell runs `printf %s <combined prompt> | opencode <args>`. */
  lemma BuildCommandWords(o: Options)
    ensures Shell.Tokens(BuildCommand(o)) == Some([Shell.Word("printf"), Shell.Word("%s"),
      Shell.Word(CombinedText(o.systemPrompt, o.prompt)), Shell.Pipe] + [Shell.Word("opencode")] + Shell.Words(Args(o)))
  {
    OpencodePlain();
    PipedCommandWords(CombinedText(o.systemPrompt, o.prompt), "opencode", Args(o));
  }

  // ---------------------------------------------------------------------
  // Output
  // ---------------------------------------------------------------------

  function SessionIdOf(m: Json): Option<string>
  {
    m.GetStr("session_id")
  }

  /** `extract_session_id`: the string `session_id` of the first message that has one. */
  function ExtractSessionId(codec: Codec, output: string): (r: Option<string>)
    ensures var ms := ParseAll(codec, output);
      && (r.None? <==> forall i | 0 <= i < |ms| :: ms[i].GetStr("session_id").None?)
      && (r.Some? ==> exists i | 0 <= i < |ms| ::
            r == ms[i].GetStr("session_id") && forall j | 0 <= j < i :: ms[j].GetStr("session_id").None?)
  {
    FirstSome(ParseAll(codec, output), SessionIdOf)
  }

  /** `OpencodeUsage`. */
  datatype Usage = Usage(inputTokens: nat, outputTokens: nat)

  function InputOf(m: Json): nat { Count(m.Get("usage"), "input_tokens") }
  function OutputOf(m: Json): nat { Count(m.Get("usage"), "output_tokens") }

  /** `usage.input_tokens` and `usage.output_tokens`, each summed over the messages. */
  function TotalUsage(ms: seq<Json>): Usage
  {
    Usage(Sum(ms, InputOf), Sum(ms, OutputOf))
  }

  /** Usage of output read in two parts adds up. */
  lemma TotalUsageAppend(a: seq<Json>, b: seq<Json>)
    ensures TotalUsage(a + b) == Usage(TotalUsage(a).inputTokens + TotalUsage(b).inputTokens,
      TotalUsage(a).outputTokens + TotalUsage(b).outputTokens)
  {
    SumAppend(a, b, InputOf);
    SumAppend(a, b, OutputOf);
  }

  /** `extract_usage`: the `+=` loop over the parsed messages. */
  method ExtractUsage(codec: Codec, output: string) returns (usage: Usage)
    ensures usage == TotalUsage(ParseAll(codec, output))
  {
    var ms := ParseAll(codec, output);
    usage := Usage(0, 0);
    var i := 0;
    while i < |ms|
      invariant 0 <= i <= |ms|
      invariant usage == TotalUsage(ms[..i])
    {
      var msg := ms[i];
      assert TotalUsage(ms[..i + 1]) == Usage(usage.inputTokens + InputOf(msg), usage.outputTokens + OutputOf(msg)) by {
        assert ms[..i + 1] == ms[..i] + [msg];
        TotalUsageAppend(ms[..i], [msg]);
        SumOne(msg, InputOf);
        SumOne(msg, OutputOf);
      }
      match msg.Get("usage") {
        case Some(u) =>
          match u.GetU64("input_tokens") {
            case Some(n) => usage := usage.(inputTokens := usage.inputTokens + n);
            case None =>
          }
          match u.GetU64("output_tokens") {
            case Some(n) => usage := usage.(outputTokens := usage.outputTokens + n);
            case None =>
          }
        case None =>
      }
      i := i + 1;
    }
    assert ms[..|ms|] == ms;
  }

  /** `OpencodeTool::default()`. */
  const Tool := ToolInfo("opencode", "OpenCode CLI", "opencode", true, true, false, true, "grok-code-fast-1")

  /** The default model is an alias of the grok-code model. */
  lemma DefaultModelResolves()
    ensures MapModelToId(Tool.defaultModel) == "opencode/grok-code" && !Tool.supportsSystemPrompt
  {
  }
}
