/**
 * The Claude Code adapter (`tools/claude.rs`): model aliases, the argument
 * vector, the command line, and what is read back from its stream-json
 * output (session id and token usage).
 */
module Claude {
  import opened Wrappers
  import opened Strings
  import opened Json
  import opened Ndjson
  import opened Adapters
  import opened Argv
  import Shell

  const ModelMap: map<string, string> := map[
    "sonnet" := "claude-sonnet-4-5-20250929",
    "opus" := "claude-opus-4-5-20251101",
    "haiku" := "claude-haiku-4-5-20251001",
    "haiku-3-5" := "claude-3-5-haiku-20241022",
    "haiku-3" := "claude-3-haiku-20240307"]

  function MapModelToId(model: string): string
  {
    MapModel(ModelMap, model)
  }

  lemma ModelMapFullIdsFixed()
    ensures FullIdsFixed(ModelMap)
  {
  }

  /** The aliases of the table map to their ids; a full id passes through. */
  lemma MapModelToIdExamples()
    ensures MapModelToId("sonnet") == "claude-sonnet-4-5-20250929"
    ensures MapModelToId("opus") == "claude-opus-4-5-20251101"
    ensures MapModelToId("haiku") == "claude-haiku-4-5-20251001"
    ensures MapModelToId("claude-3-opus-20240229") == "claude-3-opus-20240229"
  {
  }

  lemma MapModelToIdIdempotent(model: string)
    ensures MapModelToId(MapModelToId(model)) == MapModelToId(model)
  {
    ModelMapFullIdsFixed();
    MapModelIdempotent(ModelMap, model);
  }

  /** `ClaudeBuildOptions`. */
  datatype Options = Options(
    prompt: Option<string>,
    systemPrompt: Option<string>,
    appendSystemPrompt: Option<string>,
    model: Option<string>,
    fallbackModel: Option<string>,
    printMode: bool,
    verbose: bool,
    json: bool,
    jsonInput: bool,
    replayUserMessages: bool,
    resume: Option<string>,
    sessionId: Option<string>,
    forkSession: bool)

  /** `ClaudeBuildOptions::default()` and `ClaudeBuildOptions::new()`. */
  const DefaultOptions := Options(None, None, None, None, None, false, false, false, false, false, None, None, false)

  function MapOpt(model: Option<string>): Option<string>
  {
    match model
    case Some(m) => Some(MapModelToId(m))
    case None => None
  }

  const SkipPermissions := "--dangerously-skip-permissions"

  /** The flags whose next argument is their value. */
  const ValueFlags: set<string> := {"--model", "--fallback-model", "--prompt", "--system-prompt",
    "--append-system-prompt", "--output-format", "--input-format", "--session-id", "--resume"}

  /** The flags of `build_args`, in their fixed order. */
  function Flags(o: Options): seq<Flag>
  {
    [Switch(SkipPermissions)]
    + IfSome("--model", MapOpt(o.model))
    + IfSome("--fallback-model", MapOpt(o.fallbackModel))
    + IfSome("--prompt", o.prompt)
    + IfSome("--system-prompt", o.systemPrompt)
    + IfSome("--append-system-prompt", o.appendSystemPrompt)
    + IfSet("--verbose", o.verbose)
    + IfSet("-p", o.printMode)
    + IfSome("--output-format", When(o.json, "stream-json"))
    + IfSome("--input-format", When(o.jsonInput, "stream-json"))
    + IfSet("--replay-user-messages", o.replayUserMessages)
    + IfSome("--session-id", o.sessionId)
    + IfSome("--resume", o.resume)
    + IfSet("--fork-session", o.forkSession)
  }

  function Args(o: Options): seq<string>
  {
    Render(Flags(o))
  }

  /** `build_args`: pushes the flags one by one. */
  method BuildArgs(o: Options) returns (args: seq<string>)
    ensures args == Args(o)
  {
    ghost var fs := [Switch(SkipPermissions)];
    args := [SkipPermissions];
    RenderOne(Switch(SkipPermissions));
    args := PushValued(args, fs, "--model", MapOpt(o.model));
    fs := fs + IfSome("--model", MapOpt(o.model));
    args := PushValued(args, fs, "--fallback-model", MapOpt(o.fallbackModel));
    fs := fs + IfSome("--fallback-model", MapOpt(o.fallbackModel));
    args := PushValued(args, fs, "--prompt", o.prompt);
    fs := fs + IfSome("--prompt", o.prompt);
    args := PushValued(args, fs, "--system-prompt", o.systemPrompt);
    fs := fs + IfSome("--system-prompt", o.systemPrompt);
    args := PushValued(args, fs, "--append-system-prompt", o.appendSystemPrompt);
    fs := fs + IfSome("--append-system-prompt", o.appendSystemPrompt);
    args := PushSwitch(args, fs, "--verbose", o.verbose);
    fs := fs + IfSet("--verbose", o.verbose);
    args := PushSwitch(args, fs, "-p", o.printMode);
    fs := fs + IfSet("-p", o.printMode);
    args := PushValued(args, fs, "--output-format", When(o.json, "stream-json"));
    fs := fs + IfSome("--output-format", When(o.json, "stream-json"));
    args := PushValued(args, fs, "--input-format", When(o.jsonInput, "stream-json"));
    fs := fs + IfSome("--input-format", When(o.jsonInput, "stream-json"));
    args := PushSwitch(args, fs, "--replay-user-messages", o.replayUserMessages);
    fs := fs + IfSet("--replay-user-messages", o.replayUserMessages);
    args := PushValued(args, fs, "--session-id", o.sessionId);
    fs := fs + IfSome("--session-id", o.sessionId);
    args := PushValued(args, fs, "--resume", o.resume);
    fs := fs + IfSome("--resume", o.resume);
    args := PushSwitch(args, fs, "--fork-session", o.forkSession);
    fs := fs + IfSet("--fork-session", o.forkSession);
  }

  /** The permission bypass is always the first argument. */
  lemma ArgsStartWithSkipPermissions(o: Options)
    ensures |Args(o)| >= 1 && Args(o)[0] == SkipPermissions
  {
    var fs := Flags(o);
    assert fs == [Switch(SkipPermissions)] + fs[1..];
    RenderHead(Switch(SkipPermissions), fs[1..]);
  }

  /** No switch name takes a value. */
  lemma SwitchNamesUnvalued()
    ensures SkipPermissions !in ValueFlags && "--verbose" !in ValueFlags && "-p" !in ValueFlags
      && "--replay-user-messages" !in ValueFlags && "--fork-session" !in ValueFlags
  {
  }

  /** Each value flag is followed by its own value: the argument vector reads back as the flags. */
  lemma ArgsParse(o: Options)
    ensures Parse(Args(o), ValueFlags) == Some(Flags(o))
  {
    SwitchNamesUnvalued();
    assert Fits(Flags(o), ValueFlags);
    ParseRender(Flags(o), ValueFlags);
  }

  /** `--model` carries the mapped model, and only when a model is given. */
  lemma ModelFlag(o: Options)
    ensures o.model.Some? ==> Valued("--model", MapModelToId(o.model.value)) in Flags(o)
    ensures forall f | f in Flags(o) && f.name == "--model" :: o.model.Some? && f == Valued("--model", MapModelToId(o.model.value))
  {
  }

  /** `--fallback-model` carries the mapped fallback model, and only when one is given. */
  lemma FallbackModelFlag(o: Options)
    ensures o.fallbackModel.Some? ==> Valued("--fallback-model", MapModelToId(o.fallbackModel.value)) in Flags(o)
    ensures forall f | f in Flags(o) && f.name == "--fallback-model" ::
      o.fallbackModel.Some? && f == Valued("--fallback-model", MapModelToId(o.fallbackModel.value))
  {
  }

  /** JSON output is requested as `--output-format stream-json` exactly when `json` is set. */
  lemma OutputFormatFlag(o: Options)
    ensures o.json ==> Valued("--output-format", "stream-json") in Flags(o)
    ensures forall f | f in Flags(o) && f.name == "--output-format" :: o.json && f == Valued("--output-format", "stream-json")
  {
  }

  /** No flag is a bare `json`. */
  lemma NoBareJson(o: Options)
    ensures forall f | f in Flags(o) :: f.name != "json"
  {
  }

  /** JSON input is requested as `--input-format stream-json` exactly when `json_input` is set. */
  lemma InputFormatFlag(o: Options)
    ensures o.jsonInput ==> Valued("--input-format", "stream-json") in Flags(o)
    ensures forall f | f in Flags(o) && f.name == "--input-format" :: o.jsonInput && f == Valued("--input-format", "stream-json")
  {
  }

  /** `build_command`. */
  function BuildCommand(o: Options): string
  {
    FlagCommand("claude", Args(o))
  }

  lemma ClaudePlain()
    ensures PlainName("claude")
  {
    var p := "claude";
    forall i | 0 <= i < |p| ensures !Shell.IsSpecial(p[i]) { assert p[i] in p; }
  }

  /** The shell runs `claude` with exactly the argument vector. */
  lemma BuildCommandWords(o: Options)
    ensures Shell.Tokens(BuildCommand(o)) == Some([Shell.Word("claude")] + Shell.Words(Args(o)))
  {
    ClaudePlain();
    FlagCommandWords("claude", Args(o));
  }

  lemma SkipPermissionsPlain()
    ensures Shell.EscapeArg(SkipPermissions) == SkipPermissions
  {
    var p := SkipPermissions;
    forall i | 0 <= i < |p| ensures !Shell.IsSpecial(p[i]) { assert p[i] in p; }
    assert !Shell.NeedsQuoting(p);
  }

  lemma BuildCommandPrefix(o: Options)
    ensures StartsWith(BuildCommand(o), "claude" + " " + SkipPermissions)
  {
    var args := Args(o);
    ClaudePlain();
    ArgsStartWithSkipPermissions(o);
    SkipPermissionsPlain();
    FlagCommandUntrimmed("claude", args);
  }

  // ---------------------------------------------------------------------
  // Output
  // ---------------------------------------------------------------------

  function SessionIdOf(m: Json): Option<string>
  {
    m.GetStr("session_id")
  }

  /** `extract_session_id`: the string `session_id` of the first message that has one. */
  function ExtractSessionId(codec: Codec, output: string): (r: Option<string>)
    ensures var ms := ParseAll(codec, output);
      && (r.None? <==> forall i | 0 <= i < |ms| :: ms[i].GetStr("session_id").None?)
      && (r.Some? ==> exists i | 0 <= i < |ms| ::
            (ms[i].GetStr("session_id") == r && forall j | 0 <= j < i :: ms[j].GetStr("session_id").None?))
  {
    FirstSome(ParseAll(codec, output), SessionIdOf)
  }

  /** `ClaudeUsage`. */
  datatype Usage = Usage(inputTokens: nat, outputTokens: nat, cacheCreationTokens: nat, cacheReadTokens: nat)

  function UsageObject(m: Json): Option<Json>
  {
    Inner(m.Get("message"), "usage")
  }

  function InputOf(m: Json): nat { Count(UsageObject(m), "input_tokens") }
  function OutputOf(m: Json): nat { Count(UsageObject(m), "output_tokens") }
  function CacheCreationOf(m: Json): nat { Count(UsageObject(m), "cache_creation_input_tokens") }
  function CacheReadOf(m: Json): nat { Count(UsageObject(m), "cache_read_input_tokens") }

  /** The four counters of `message.usage`, each summed over the messages. */
  function TotalUsage(ms: seq<Json>): Usage
  {
    Usage(Sum(ms, InputOf), Sum(ms, OutputOf), Sum(ms, CacheCreationOf), Sum(ms, CacheReadOf))
  }

  /** What one message contributes. */
  function UsageOf(m: Json): Usage
  {
    Usage(InputOf(m), OutputOf(m), CacheCreationOf(m), CacheReadOf(m))
  }

  function Add(a: Usage, b: Usage): Usage
  {
    Usage(a.inputTokens + b.inputTokens, a.outputTokens + b.outputTokens,
      a.cacheCreationTokens + b.cacheCreationTokens, a.cacheReadTokens + b.cacheReadTokens)
  }

  /** Usage of output read in two parts is the sum of the parts' usage. */
  lemma TotalUsageAppend(a: seq<Json>, b: seq<Json>)
    ensures TotalUsage(a + b) == Add(TotalUsage(a), TotalUsage(b))
  {
    SumAppend(a, b, InputOf);
    SumAppend(a, b, OutputOf);
    SumAppend(a, b, CacheCreationOf);
    SumAppend(a, b, CacheReadOf);
  }

  /** A single message contributes exactly its own counters. */
  lemma TotalUsageOne(m: Json)
    ensures TotalUsage([m]) == UsageOf(m)
  {
    SumOne(m, InputOf);
    SumOne(m, OutputOf);
    SumOne(m, CacheCreationOf);
    SumOne(m, CacheReadOf);
  }

  /** `extract_usage`: the `+=` loop over the parsed messages. */
  method ExtractUsage(codec: Codec, output: string) returns (usage: Usage)
    ensures usage == TotalUsage(ParseAll(codec, output))
  {
    var ms := ParseAll(codec, output);
    usage := Usage(0, 0, 0, 0);
    var i := 0;
    while i < |ms|
      invariant 0 <= i <= |ms|
      invariant usage == TotalUsage(ms[..i])
    {
      var msg := ms[i];
      ghost var before := usage;
      assert TotalUsage(ms[..i + 1]) == Add(before, UsageOf(msg)) by {
        assert ms[..i + 1] == ms[..i] + [msg];
        TotalUsageAppend(ms[..i], [msg]);
        TotalUsageOne(msg);
      }
      match UsageObject(msg) {
        case Some(u) =>
          match u.GetU64("input_tokens") {
            case Some(n) => usage := usage.(inputTokens := usage.inputTokens + n);
            case None =>
          }
          assert usage.inputTokens == before.inputTokens + InputOf(msg);
          match u.GetU64("output_tokens") {
            case Some(n) => usage := usage.(outputTokens := usage.outputTokens + n);
            case None =>
          }
          assert usage.outputTokens == before.outputTokens + OutputOf(msg);
          match u.GetU64("cache_creation_input_tokens") {
            case Some(n) => usage := usage.(cacheCreationTokens := usage.cacheCreationTokens + n);
            case None =>
          }
          assert usage.cacheCreationTokens == before.cacheCreationTokens + CacheCreationOf(msg);
          match u.GetU64("cache_read_input_tokens") {
            case Some(n) => usage := usage.(cacheReadTokens := usage.cacheReadTokens + n);
            case None =>
          }
        case None =>
      }
      assert usage == Add(before, UsageOf(msg));
      i := i + 1;
    }
    assert ms[..|ms|] == ms;
  }

  /** `ClaudeTool::default()`, as the `Tool` trait sees it. */
  const Tool := ToolInfo("claude", "Claude Code CLI", "claude", true, true, true, true, "sonnet")

  /** The default model is an alias the table resolves. */
  lemma DefaultModelResolves()
    ensures Tool.defaultModel in ModelMap && MapModelToId(Tool.defaultModel) == "claude-sonnet-4-5-20250929"
  {
  }
}
