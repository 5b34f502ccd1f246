/**
 * The `@link-assistant/agent` CLI adapter (`tools/agent.rs`), a fork of
 * OpenCode: model aliases, the argument vector, the piped command line, and
 * the session id, step usage and errors read back from its NDJSON events.
 */
module AgentTool {
  import opened Wrappers
  import opened Json
  import opened Ndjson
  import opened Adapters
  import opened Argv
  import Shell

  const ModelMap: map<string, string> := map[
    "grok" := "opencode/grok-code",
    "grok-code" := "opencode/grok-code",
    "grok-code-fast-1" := "opencode/grok-code",
    "big-pickle" := "opencode/big-pickle",
    "gpt-5-nano" := "openai/gpt-5-nano",
    "sonnet" := "anthropic/claude-3-5-sonnet",
    "haiku" := "anthropic/claude-3-5-haiku",
    "opus" := "anthropic/claude-3-opus",
    "gemini-3-pro" := "google/gemini-3-pro"]

  function MapModelToId(model: string): string
  {
    MapModel(ModelMap, model)
  }

  lemma MapModelToIdExamples()
    ensures MapModelToId("grok") == "opencode/grok-code" && MapModelToId("sonnet") == "anthropic/claude-3-5-sonnet"
    ensures MapModelToId("haiku") == "anthropic/claude-3-5-haiku" && MapModelToId("opencode/grok-code") == "opencode/grok-code"
  {
  }

  lemma MapModelToIdIdempotent(model: string)
    ensures MapModelToId(MapModelToId(model)) == MapModelToId(model)
  {
    assert FullIdsFixed(ModelMap);
    MapModelIdempotent(ModelMap, model);
  }

  /** `AgentBuildOptions` (its `Default` has every option absent and both switches off). */
  datatype Options = Options(
    prompt: Option<string>,
    systemPrompt: Option<string>,
    model: Option<string>,
    compactJson: bool,
    useExistingClaudeOauth: bool)

  function MapOpt(model: Option<string>): Option<string>
  {
    match model
    case Some(m) => Some(MapModelToId(m))
    case None => None
  }

  const ValueFlags: set<string> := {"--model"}

  /** The flags of `build_args`, in source order; there is no subcommand. */
  function Flags(o: Options): seq<Flag>
  {
    IfSome("--model", MapOpt(o.model))
    + IfSet("--compact-json", o.compactJson)
    + IfSet("--use-existing-claude-oauth", o.useExistingClaudeOauth)
  }

  function Args(o: Options): seq<string>
  {
    Render(Flags(o))
  }

  /** `build_args`. */
  method BuildArgs(o: Options) returns (args: seq<string>)
    ensures args == Args(o)
  {
    ghost var fs: seq<Flag> := [];
    args := [];
    args := PushValued(args, fs, "--model", MapOpt(o.model));
    fs := fs + IfSome("--model", MapOpt(o.model));
    args := PushSwitch(args, fs, "--compact-json", o.compactJson);
    fs := fs + IfSet("--compact-json", o.compactJson);
    args := PushSwitch(args, fs, "--use-existing-claude-oauth", o.useExistingClaudeOauth);
    fs := fs + IfSet("--use-existing-claude-oauth", o.useExistingClaudeOauth);
    assert fs == Flags(o);
  }

  /** Default options give no arguments at all. */
  lemma ArgsDefault()
    ensures Args(Options(None, None, None, false, false)) == []
  {
  }

  /** `--model` is followed by its value: the vector reads back as the flags. */
  lemma ArgsParse(o: Options)
    ensures Parse(Args(o), ValueFlags) == Some(Flags(o))
  {
    assert Fits(Flags(o), ValueFlags);
    ParseRender(Flags(o), ValueFlags);
  }

  /** Each flag appears exactly when its option is given. */
  lemma OptionsCarried(o: Options, v: string)
    ensures Valued("--model", v) in Flags(o) <==> o.model.Some? && v == MapModelToId(o.model.value)
    ensures Switch("--compact-json") in Flags(o) <==> o.compactJson
    ensures Switch("--use-existing-claude-oauth") in Flags(o) <==> o.useExistingClaudeOauth
  {
  }

  /** `build_command`: the combined prompt piped into `agent`. */
  function BuildCommand(o: Options): string
  {
    PipedCommand(CombinedText(o.systemPrompt, o.prompt), "agent", Args(o))
  }

  lemma AgentPlain()
    ensures PlainName("agent")
  {
    var p := "agent";
    forall i | 0 <= i < |p| ensures !Shell.IsSpecial(p[i]) { assert p[i] in p; }
  }

  /** The shell runs `printf %s <combined prompt> | agent <args>`. */
  lemma BuildCommandWords(o: Options)
    ensures Shell.Tokens(BuildCommand(o)) == Some([Shell.Word("printf"), Shell.Word("%s"),
      Shell.Word(CombinedText(o.systemPrompt, o.prompt)), Shell.Pipe] + [Shell.Word("agent")] + Shell.Words(Args(o)))
  {
    AgentPlain();
    PipedCommandWords(CombinedText(o.systemPrompt, o.prompt), "agent", Args(o));
  }

  // ---------------------------------------------------------------------
  // Output
  // ---------------------------------------------------------------------

  function SessionIdOf(m: Json): Option<string>
  {
    m.GetStr("session_id")
  }

  /** `extract_session_id`: the string `session_id` of the first message that has one. */
  function ExtractSessionId(codec: Codec, output: string): (r: Option<string>)
    ensures var ms := ParseAll(codec, output);
      && (r.None? <==> forall i | 0 <= i < |ms| :: ms[i].GetStr("session_id").None?)
      && (r.Some? ==> exists i | 0 <= i < |ms| ::
            r == ms[i].GetStr("session_id") && forall j | 0 <= j < i :: ms[j].GetStr("session_id").None?)
  {
    FirstSome(ParseAll(codec, output), SessionIdOf)
  }

  /** `AgentUsage` without its floating-point `total_cost`. */
  datatype Usage = Usage(
    inputTokens: nat,
    outputTokens: nat,
    reasoningTokens: nat,
    cacheReadTokens: nat,
    cacheWriteTokens: nat,
    stepCount: nat)

  /** A `step_finish` event with a `part`: the only events that count. */
  predicate IsStep(m: Json)
  {
    m.HasType("step_finish") && m.Get("part").Some?
  }

  /** `part.tokens` of a counted event. */
  function TokensOf(m: Json): Option<Json>
  {
    if IsStep(m) then Inner(m.Get("part"), "tokens") else None
  }

  function InputOf(m: Json): nat { Count(TokensOf(m), "input") }
  function OutputOf(m: Json): nat { Count(TokensOf(m), "output") }
  function ReasoningOf(m: Json): nat { Count(TokensOf(m), "reasoning") }
  function CacheReadOf(m: Json): nat { Count(Inner(TokensOf(m), "cache"), "read") }
  function CacheWriteOf(m: Json): nat { Count(Inner(TokensOf(m), "cache"), "write") }
  function StepOf(m: Json): nat { if IsStep(m) then 1 else 0 }

  /** Every counter summed over the messages; `stepCount` is the number of counted events. */
  function TotalUsage(ms: seq<Json>): Usage
  {
    Usage(Sum(ms, InputOf), Sum(ms, OutputOf), Sum(ms, ReasoningOf),
      Sum(ms, CacheReadOf), Sum(ms, CacheWriteOf), Sum(ms, StepOf))
  }

  function UsageOf(m: Json): Usage
  {
    Usage(InputOf(m), OutputOf(m), ReasoningOf(m), CacheReadOf(m), CacheWriteOf(m), StepOf(m))
  }

  function Add(a: Usage, b: Usage): Usage
  {
    Usage(a.inputTokens + b.inputTokens, a.outputTokens + b.outputTokens,
      a.reasoningTokens + b.reasoningTokens, a.cacheReadTokens + b.cacheReadTokens,
      a.cacheWriteTokens + b.cacheWriteTokens, a.stepCount + b.stepCount)
  }

  /** Usage of output read in two parts is the sum of the parts' usage. */
  lemma TotalUsageAppend(a: seq<Json>, b: seq<Json>)
    ensures TotalUsage(a + b) == Add(TotalUsage(a), TotalUsage(b))
  {
    SumAppend(a, b, InputOf);
    SumAppend(a, b, OutputOf);
    SumAppend(a, b, ReasoningOf);
    SumAppend(a, b, CacheReadOf);
    SumAppend(a, b, CacheWriteOf);
    SumAppend(a, b, StepOf);
  }

  lemma TotalUsageOne(m: Json)
    ensures TotalUsage([m]) == UsageOf(m)
  {
    SumOne(m, InputOf);
    SumOne(m, OutputOf);
    SumOne(m, ReasoningOf);
    SumOne(m, CacheReadOf);
    SumOne(m, CacheWriteOf);
    SumOne(m, StepOf);
  }

  lemma TotalUsageSnoc(ms: seq<Json>, i: nat)
    requires i < |ms|
    ensures TotalUsage(ms[..i + 1]) == Add(TotalUsage(ms[..i]), UsageOf(ms[i]))
  {
    assert ms[..i + 1] == ms[..i] + [ms[i]];
    TotalUsageAppend(ms[..i], [ms[i]]);
    TotalUsageOne(ms[i]);
  }

  /** An event that is not a counted step contributes nothing, whatever tokens it carries. */
  lemma OtherEventsIgnored(m: Json)
    requires !IsStep(m)
    ensures UsageOf(m) == Usage(0, 0, 0, 0, 0, 0)
  {
  }

  /** `extract_usage`: the `+=` loop over the parsed events. */
  method ExtractUsage(codec: Codec, output: string) returns (usage: Usage)
    ensures usage == TotalUsage(ParseAll(codec, output))
  {
    var ms := ParseAll(codec, output);
    usage := Usage(0, 0, 0, 0, 0, 0);
    var i := 0;
    while i < |ms|
      invariant 0 <= i <= |ms|
      invariant usage == TotalUsage(ms[..i])
    {
      TotalUsageSnoc(ms, i);
      usage := AddEvent(usage, ms[i]);
      i := i + 1;
    }
    assert ms[..|ms|] == ms;
  }

  /** The body of the `extract_usage` loop for one event. */
  method AddEvent(usage: Usage, msg: Json) returns (r: Usage)
    ensures r == Add(usage, UsageOf(msg))
  {
    r := usage;
    if msg.GetStr("type") == Some("step_finish") {
      match msg.Get("part") {
        case Some(part) =>
          r := r.(stepCount := r.stepCount + 1);
          match part.Get("tokens") {
            case Some(tokens) =>
              assert TokensOf(msg) == Some(tokens);
              r := AddTokens(r, tokens);
            case None =>
          }
        case None =>
      }
    }
  }

  /** The token counters of one `part.tokens` object. */
  method AddTokens(usage: Usage, tokens: Json) returns (r: Usage)
    ensures r == usage.(inputTokens := usage.inputTokens + Count(Some(tokens), "input"),
      outputTokens := usage.outputTokens + Count(Some(tokens), "output"),
      reasoningTokens := usage.reasoningTokens + Count(Some(tokens), "reasoning"),
      cacheReadTokens := usage.cacheReadTokens + Count(tokens.Get("cache"), "read"),
      cacheWriteTokens := usage.cacheWriteTokens + Count(tokens.Get("cache"), "write"))
  {
    r := usage;
    match tokens.GetU64("input") {
      case Some(n) => r := r.(inputTokens := r.inputTokens + n);
      case None =>
    }
    match tokens.GetU64("output") {
      case Some(n) => r := r.(outputTokens := r.outputTokens + n);
      case None =>
    }
    match tokens.GetU64("reasoning") {
      case Some(n) => r := r.(reasoningTokens := r.reasoningTokens + n);
      case None =>
    }
    match tokens.Get("cache") {
      case Some(cache) =>
        match cache.GetU64("read") {
          case Some(n) => r := r.(cacheReadTokens := r.cacheReadTokens + n);
          case None =>
        }
        match cache.GetU64("write") {
          case Some(n) => r := r.(cacheWriteTokens := r.cacheWriteTokens + n);
          case None =>
        }
      case None =>
    }
  }

  /** The events `detect_errors` reports. */
  predicate IsError(m: Json)
  {
    m.HasType("error") || m.HasType("step_error")
  }

  /** The report for one event: its type, and its string `message` or "Unknown error". */
  function ErrorOf(m: Json): Option<ErrorResult>
  {
    if IsError(m) then
      Some(ErrorResult(true, m.GetStr("type"), Some(match m.GetStr("message") case Some(s) => s case None => "Unknown error")))
    else None
  }

  /** What `detect_errors` returns for the messages: the first error event's report, or the default. */
  function Errors(ms: seq<Json>): ErrorResult
  {
    Detected(FirstSome(ms, ErrorOf))
  }

  /**
   * An error is reported exactly when some event has type `error` or
   * `step_error`; the report then names that type and always has a message,
   * and comes from the first such event.
   */
  lemma ErrorsReported(ms: seq<Json>)
    ensures Errors(ms).hasError <==> exists i | 0 <= i < |ms| :: IsError(ms[i])
    ensures !Errors(ms).hasError ==> Errors(ms) == NoError
    ensures Errors(ms).hasError ==> exists i | 0 <= i < |ms| ::
      && IsError(ms[i]) && (forall j | 0 <= j < i :: !IsError(ms[j]))
      && Errors(ms).errorType == ms[i].GetStr("type") && Errors(ms).message.Some?
    ensures Errors(ms).hasError ==> Errors(ms).errorType == Some("error") || Errors(ms).errorType == Some("step_error")
  {
    var r := FirstSome(ms, ErrorOf);
    if r.Some? {
      var i :| 0 <= i < |ms| && ErrorOf(ms[i]) == r && forall j | 0 <= j < i :: ErrorOf(ms[j]).None?;
      assert IsError(ms[i]);
    } else {
      forall i | 0 <= i < |ms| ensures !IsError(ms[i]) {
        assert ErrorOf(ms[i]).None?;
      }
    }
  }

  /** `detect_errors`: the scan that returns at the first error event. */
  method DetectErrors(codec: Codec, output: string) returns (result: ErrorResult)
    ensures result == Errors(ParseAll(codec, output))
  {
    var ms := ParseAll(codec, output);
    var i := 0;
    while i < |ms|
      invariant 0 <= i <= |ms|
      invariant FirstSome(ms, ErrorOf) == FirstSome(ms[i..], ErrorOf)
    {
      var msg := ms[i];
      var msgType := msg.GetStr("type");
      if msgType == Some("error") || msgType == Some("step_error") {
        var message := match msg.GetStr("message") case Some(s) => s case None => "Unknown error";
        result := ErrorResult(true, msgType, Some(message));
        assert FirstSome(ms[i..], ErrorOf) == Some(result) by {
          FirstSomeFrom(ms, i, ErrorOf);
        }
        return;
      }
      assert FirstSome(ms[i..], ErrorOf) == FirstSome(ms[i + 1..], ErrorOf) by {
        FirstSomeFrom(ms, i, ErrorOf);
      }
      i := i + 1;
    }
    result := NoError;
  }

  /** `AgentTool::default()`. */
  const Tool := ToolInfo("agent", "@link-assistant/agent", "agent", true, true, false, false, "grok-code-fast-1")

  lemma DefaultModelResolves()
    ensures MapModelToId(Tool.defaultModel) == "opencode/grok-code" && !Tool.supportsResume
  {
  }
}
