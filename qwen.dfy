/**
 * The Qwen Code CLI adapter (`tools/qwen.rs`): model aliases, the argument
 * vector with the prompt as the value of `-p` and one `--include-directories`
 * pair per extra directory, the `qwen <args>` command line, and the session
 * id, token usage and errors read back from its stream-json output.  The
 * adapter is not part of the tool registry.
 */
module Qwen {
  import opened Wrappers
  import opened Json
  import opened Ndjson
  import opened Adapters
  import opened Argv
  import Shell

  const ModelMap: map<string, string> := map[
    "qwen3-coder" := "qwen3-coder-480a35",
    "qwen3-coder-480a35" := "qwen3-coder-480a35",
    "qwen3-coder-30ba3" := "qwen3-coder-30ba3",
    "coder" := "qwen3-coder-480a35",
    "gpt-4o" := "gpt-4o",
    "gpt-4" := "gpt-4",
    "sonnet" := "claude-sonnet-4",
    "opus" := "claude-opus-4"]

  function MapModelToId(model: string): string
  {
    MapModel(ModelMap, model)
  }

  lemma MapModelToIdExamples()
    ensures MapModelToId("qwen3-coder") == "qwen3-coder-480a35" && MapModelToId("coder") == "qwen3-coder-480a35"
    ensures MapModelToId("gpt-4o") == "gpt-4o" && MapModelToId("custom-model") == "custom-model"
  {
  }

  lemma MapModelToIdIdempotent(model: string)
    ensures MapModelToId(MapModelToId(model)) == MapModelToId(model)
  {
    assert FullIdsFixed(ModelMap);
    MapModelIdempotent(ModelMap, model);
  }

  /** `QwenBuildOptions`. */
  datatype Options = Options(
    prompt: Option<string>,
    systemPrompt: Option<string>,
    model: Option<string>,
    json: bool,
    streamJson: bool,
    includePartialMessages: bool,
    yolo: bool,
    resume: Option<string>,
    continueSession: bool,
    allFiles: bool,
    includeDirectories: seq<string>)

  /** `QwenBuildOptions::default()`: every option absent, off or empty. */
  const DefaultOptions := Options(None, None, None, false, false, false, false, None, false, false, [])

  /** `QwenBuildOptions::new()`: the default with streamed JSON and auto-approval on. */
  function New(): (o: Options)
    ensures o.streamJson && o.yolo && !DefaultOptions.streamJson && !DefaultOptions.yolo
    ensures o.(streamJson := false, yolo := false) == DefaultOptions
  {
    DefaultOptions.(streamJson := true, yolo := true)
  }

  /** The option's model through the alias table. */
  function MapOpt(model: Option<string>): Option<string>
  {
    match model
    case Some(m) => Some(MapModelToId(m))
    case None => None
  }

  /** The value of `--output-format`: streamed JSON is preferred to plain JSON. */
  function OutputFormat(o: Options): Option<string>
  {
    if o.streamJson then Some("stream-json") else if o.json then Some("json") else None
  }

  /** `--resume <id>`, else `--continue` when asked for, else nothing. */
  function SessionFlags(o: Options): seq<Flag>
  {
    if o.resume.Some? then [Valued("--resume", o.resume.value)]
    else if o.continueSession then [Switch("--continue")]
    else []
  }

  /** One `--include-directories <dir>` pair per directory, in list order. */
  function DirFlags(dirs: seq<string>): seq<Flag>
  {
    if dirs == [] then [] else DirFlags(dirs[..|dirs| - 1]) + [Valued("--include-directories", dirs[|dirs| - 1])]
  }

  lemma {:induction false} DirFlagsAt(dirs: seq<string>)
    ensures |DirFlags(dirs)| == |dirs|
    ensures forall k | 0 <= k < |dirs| :: DirFlags(dirs)[k] == Valued("--include-directories", dirs[k])
  {
    if dirs != [] {
      DirFlagsAt(dirs[..|dirs| - 1]);
    }
  }

  /** Every directory flag is an `--include-directories` pair. */
  lemma DirFlagsValued(dirs: seq<string>)
    ensures forall f | f in DirFlags(dirs) :: f.Valued? && f.name == "--include-directories"
  {
    DirFlagsAt(dirs);
    forall f | f in DirFlags(dirs) ensures f.Valued? && f.name == "--include-directories" {
      var k :| 0 <= k < |DirFlags(dirs)| && DirFlags(dirs)[k] == f;
    }
  }

  const ValueFlags: set<string> := {"-p", "--model", "--output-format", "--resume", "--include-directories"}

  /** The flags `build_args` pushes before the directory loop, in source order. */
  function HeadFlags(o: Options): seq<Flag>
  {
    IfSome("-p", o.prompt)
    + IfSome("--model", MapOpt(o.model))
    + IfSome("--output-format", OutputFormat(o))
    + IfSet("--include-partial-messages", o.includePartialMessages && o.streamJson)
    + IfSet("--yolo", o.yolo)
    + SessionFlags(o)
    + IfSet("--all-files", o.allFiles)
  }

  function Flags(o: Options): seq<Flag>
  {
    HeadFlags(o) + DirFlags(o.includeDirectories)
  }

  function Args(o: Options): seq<string>
  {
    Render(Flags(o))
  }

  /** `build_args`. */
  method BuildArgs(o: Options) returns (args: seq<string>)
    ensures args == Args(o)
  {
    ghost var fs: seq<Flag> := [];
    args := [];
    args := PushValued(args, fs, "-p", o.prompt);
    fs := fs + IfSome("-p", o.prompt);
    args := PushValued(args, fs, "--model", MapOpt(o.model));
    fs := fs + IfSome("--model", MapOpt(o.model));
    args := PushValued(args, fs, "--output-format", OutputFormat(o));
    fs := fs + IfSome("--output-format", OutputFormat(o));
    args := PushSwitch(args, fs, "--include-partial-messages", o.includePartialMessages && o.streamJson);
    fs := fs + IfSet("--include-partial-messages", o.includePartialMessages && o.streamJson);
    args := PushSwitch(args, fs, "--yolo", o.yolo);
    fs := fs + IfSet("--yolo", o.yolo);
    if o.resume.Some? {
      args := PushValued(args, fs, "--resume", o.resume);
    } else {
      args := PushSwitch(args, fs, "--continue", o.continueSession);
      assert IfSet("--continue", o.continueSession) == SessionFlags(o);
    }
    fs := fs + SessionFlags(o);
    args := PushSwitch(args, fs, "--all-files", o.allFiles);
    fs := fs + IfSet("--all-files", o.allFiles);
    assert fs == HeadFlags(o);
    args := PushDirectories(args, fs, o.includeDirectories);
  }

  /** The `for dir in &options.include_directories` loop of `build_args`. */
  method PushDirectories(args: seq<string>, ghost fs: seq<Flag>, dirs: seq<string>) returns (r: seq<string>)
    requires args == Render(fs)
    ensures r == Render(fs + DirFlags(dirs))
  {
    r := args;
    assert fs + DirFlags(dirs[..0]) == fs;
    for i := 0 to |dirs|
      invariant r == Render(fs + DirFlags(dirs[..i]))
    {
      assert dirs[..i + 1][..i] == dirs[..i];
      r := PushValued(r, fs + DirFlags(dirs[..i]), "--include-directories", Some(dirs[i]));
      assert fs + DirFlags(dirs[..i]) + IfSome("--include-directories", Some(dirs[i])) == fs + DirFlags(dirs[..i + 1]);
    }
    assert dirs[..|dirs|] == dirs;
  }

  lemma SwitchNamesUnvalued()
    ensures "--include-partial-messages" !in ValueFlags && "--yolo" !in ValueFlags
      && "--continue" !in ValueFlags && "--all-files" !in ValueFlags
  {
  }

  /** Every value flag is followed by its value: the vector reads back as the flags. */
  lemma ArgsParse(o: Options)
    ensures Parse(Args(o), ValueFlags) == Some(Flags(o))
  {
    HeadFlagsFit(o);
    DirFlagsValued(o.includeDirectories);
    assert Fits(DirFlags(o.includeDirectories), ValueFlags);
    ParseRender(Flags(o), ValueFlags);
  }

  /** Among the flags before the directories, exactly the value flags carry values. */
  lemma HeadFlagsFit(o: Options)
    ensures Fits(HeadFlags(o), ValueFlags)
  {
    SwitchNamesUnvalued();
  }

  /** The directory pairs close the vector, one pair per directory, in list order. */
  lemma DirectoriesLast(o: Options)
    ensures var a := Args(o); var h := |Render(HeadFlags(o))|; var ds := o.includeDirectories;
      && |a| == h + 2 * |ds|
      && forall k | 0 <= k < |ds| :: a[h + 2 * k] == "--include-directories" && a[h + 2 * k + 1] == ds[k]
  {
    DirsAfter(HeadFlags(o), o.includeDirectories);
  }

  /** Whatever flags come first, the directory pairs rendered after them sit at the end in order. */
  lemma DirsAfter(head: seq<Flag>, ds: seq<string>)
    ensures var a := Render(head + DirFlags(ds)); var h := |Render(head)|;
      && |a| == h + 2 * |ds|
      && forall k | 0 <= k < |ds| :: a[h + 2 * k] == "--include-directories" && a[h + 2 * k + 1] == ds[k]
  {
    RenderAppend(head, DirFlags(ds));
    DirWords(ds);
  }

  lemma {:induction false} DirWords(dirs: seq<string>)
    ensures |Render(DirFlags(dirs))| == 2 * |dirs|
    ensures forall k | 0 <= k < |dirs| :: Render(DirFlags(dirs))[2 * k] == "--include-directories" && Render(DirFlags(dirs))[2 * k + 1] == dirs[k]
  {
    if dirs != [] {
      var init := dirs[..|dirs| - 1];
      DirWords(init);
      RenderSnocValued(DirFlags(init), "--include-directories", Some(dirs[|dirs| - 1]));
      assert DirFlags(dirs) == DirFlags(init) + IfSome("--include-directories", Some(dirs[|dirs| - 1]));
    }
  }

  /** The output format is `stream-json` when streaming, else `json` when asked for, else absent. */
  lemma OutputFormatFlag(o: Options)
    ensures (o.streamJson || o.json) ==> Valued("--output-format", OutputFormat(o).value) in Flags(o)
    ensures forall f | f in Flags(o) && f.name == "--output-format" ::
      f == Valued("--output-format", if o.streamJson then "stream-json" else "json") && (o.streamJson || o.json)
  {
    DirFlagsValued(o.includeDirectories);
  }

  /** `--include-partial-messages` appears exactly when it is asked for and output is streamed. */
  lemma PartialMessagesFlag(o: Options)
    ensures Switch("--include-partial-messages") in Flags(o) <==> o.includePartialMessages && o.streamJson
  {
    DirFlagsValued(o.includeDirectories);
  }

  /** `--resume` wins over `--continue`: `--continue` appears exactly when there is no session to resume and it is asked for. */
  lemma SessionFlag(o: Options)
    ensures Switch("--continue") in Flags(o) <==> o.resume.None? && o.continueSession
    ensures o.resume.Some? ==> Valued("--resume", o.resume.value) in Flags(o)
  {
    DirFlagsValued(o.includeDirectories);
  }

  /** `new()` options give exactly `--output-format stream-json --yolo`. */
  lemma NewArgs()
    ensures Args(New()) == ["--output-format", "stream-json", "--yolo"]
  {
    var o := New();
    assert Flags(o) == [Valued("--output-format", "stream-json"), Switch("--yolo")];
    assert Flags(o) == [Valued("--output-format", "stream-json")] + [Switch("--yolo")];
    RenderAppend([Valued("--output-format", "stream-json")], [Switch("--yolo")]);
    RenderOne(Valued("--output-format", "stream-json"));
    RenderOne(Switch("--yolo"));
  }

  /**
   * The options `build_command` passes on: a system prompt folded into
   * `prompt` (the source's `match` leaves `prompt` alone when there is no
   * system prompt, which is what `CombinePrompts` does then), and no system
   * prompt.
   */
  function Folded(o: Options): Options
  {
    o.(prompt := CombinePrompts(o.systemPrompt, o.prompt), systemPrompt := None)
  }

  /** `build_command`: `qwen` followed by the escaped arguments of the folded options. */
  function BuildCommand(o: Options): string
  {
    FlagCommand("qwen", Args(Folded(o)))
  }

  lemma QwenPlain()
    ensures PlainName("qwen")
  {
    var p := "qwen";
    forall i | 0 <= i < |p| ensures !Shell.IsSpecial(p[i]) { assert p[i] in p; }
  }

  /** The shell reads the command as `qwen` followed by exactly the arguments of the folded options. */
  lemma BuildCommandWords(o: Options)
    ensures Shell.Tokens(BuildCommand(o)) == Some([Shell.Word("qwen")] + Shell.Words(Args(Folded(o))))
  {
    QwenPlain();
    FlagCommandWords("qwen", Args(Folded(o)));
  }

  /** With either prompt present, the line's arguments open with `-p` and the combined prompt. */
  lemma BuildCommandPrompt(o: Options)
    requires o.systemPrompt.Some? || o.prompt.Some?
    ensures var a := Args(Folded(o));
      |a| >= 2 && a[0] == "-p" && a[1] == CombinedText(o.systemPrompt, o.prompt)
    ensures Folded(o).systemPrompt.None?
  {
    var f := Folded(o);
    var p := Valued("-p", CombinedText(o.systemPrompt, o.prompt));
    var rest := Flags(f)[1..];
    assert Flags(f) == [p] + rest;
    RenderAppend([p], rest);
    RenderOne(p);
  }

  // ---------------------------------------------------------------------
  // Output
  // ---------------------------------------------------------------------

  /** Within one message `session_id` is preferred to `sessionId`. */
  function SessionIdOf(m: Json): Option<string>
  {
    match m.GetStr("session_id")
    case Some(s) => Some(s)
    case None => m.GetStr("sessionId")
  }

  /** `extract_session_id`: the id of the first message carrying a string `session_id` or `sessionId`. */
  function ExtractSessionId(codec: Codec, output: string): (r: Option<string>)
    ensures var ms := ParseAll(codec, output);
      && (r.None? <==> forall i | 0 <= i < |ms| :: ms[i].GetStr("session_id").None? && ms[i].GetStr("sessionId").None?)
      && (r.Some? ==> exists i | 0 <= i < |ms| ::
            && r == (if ms[i].GetStr("session_id").Some? then ms[i].GetStr("session_id") else ms[i].GetStr("sessionId"))
            && forall j | 0 <= j < i :: ms[j].GetStr("session_id").None? && ms[j].GetStr("sessionId").None?)
  {
    FirstSome(ParseAll(codec, output), SessionIdOf)
  }

  /** The counters of a `usage` object. */
  function UsageFields(v: Option<Json>): Totals
  {
    Totals(Count(v, "input_tokens"), Count(v, "output_tokens"), Count(v, "total_tokens"))
  }

  /** What one message contributes: its `usage` and its `result.usage`. */
  function UsageOf(m: Json): Totals
  {
    AddTotals(UsageFields(m.Get("usage")), UsageFields(Inner(m.Get("result"), "usage")))
  }

  function InputOf(m: Json): nat { UsageOf(m).inputTokens }
  function OutputOf(m: Json): nat { UsageOf(m).outputTokens }
  function TotalOf(m: Json): nat { UsageOf(m).totalTokens }

  /** The counters summed over the messages, before the total is filled in. */
  function Summed(ms: seq<Json>): Totals
  {
    Totals(Sum(ms, InputOf), Sum(ms, OutputOf), Sum(ms, TotalOf))
  }

  /** What `extract_usage` returns. */
  function TotalUsage(ms: seq<Json>): Totals
  {
    FillTotal(Summed(ms))
  }

  lemma SummedAppend(a: seq<Json>, b: seq<Json>)
    ensures Summed(a + b) == AddTotals(Summed(a), Summed(b))
  {
    SumAppend(a, b, InputOf);
    SumAppend(a, b, OutputOf);
    SumAppend(a, b, TotalOf);
  }

  lemma SummedSnoc(ms: seq<Json>, i: nat)
    requires i < |ms|
    ensures Summed(ms[..i + 1]) == AddTotals(Summed(ms[..i]), UsageOf(ms[i]))
  {
    assert ms[..i + 1] == ms[..i] + [ms[i]];
    SummedAppend(ms[..i], [ms[i]]);
    SumOne(ms[i], InputOf);
    SumOne(ms[i], OutputOf);
    SumOne(ms[i], TotalOf);
  }

  /**
   * A reported total anywhere is taken as the whole total: output whose
   * messages report totals summing to `t > 0` gets `t`, however many tokens
   * went in and out.
   */
  lemma ReportedTotalKept(ms: seq<Json>)
    requires Summed(ms).totalTokens > 0
    ensures TotalUsage(ms).totalTokens == Summed(ms).totalTokens
    ensures TotalUsage(ms).inputTokens == Summed(ms).inputTokens && TotalUsage(ms).outputTokens == Summed(ms).outputTokens
  {
    FillTotalSpec(Summed(ms));
  }

  /** `extract_usage` (its `QwenUsage` is `Totals`): the `+=` loop over the parsed messages, then the total filled in. */
  method ExtractUsage(codec: Codec, output: string) returns (usage: Totals)
    ensures usage == TotalUsage(ParseAll(codec, output))
  {
    var ms := ParseAll(codec, output);
    usage := Totals(0, 0, 0);
    var i := 0;
    while i < |ms|
      invariant 0 <= i <= |ms|
      invariant usage == Summed(ms[..i])
    {
      SummedSnoc(ms, i);
      usage := AddMessage(usage, ms[i]);
      i := i + 1;
    }
    assert ms[..|ms|] == ms;
    if usage.totalTokens == 0 && (usage.inputTokens > 0 || usage.outputTokens > 0) {
      usage := usage.(totalTokens := usage.inputTokens + usage.outputTokens);
    }
  }

  /** The body of the `extract_usage` loop for one message. */
  method AddMessage(usage: Totals, msg: Json) returns (r: Totals)
    ensures r == AddTotals(usage, UsageOf(msg))
  {
    r := usage;
    match msg.Get("usage") {
      case Some(u) => r := AddUsageObject(r, u);
      case None => assert UsageFields(None) == Totals(0, 0, 0);
    }
    assert r == AddTotals(usage, UsageFields(msg.Get("usage")));
    ghost var mid := r;
    match msg.Get("result") {
      case Some(result) =>
        assert Inner(msg.Get("result"), "usage") == result.Get("usage");
        match result.Get("usage") {
          case Some(u) => r := AddUsageObject(r, u);
          case None => assert UsageFields(None) == Totals(0, 0, 0);
        }
      case None => assert UsageFields(Inner(msg.Get("result"), "usage")) == Totals(0, 0, 0);
    }
    assert r == AddTotals(mid, UsageFields(Inner(msg.Get("result"), "usage")));
    AddTotalsAssoc(usage, UsageFields(msg.Get("usage")), UsageFields(Inner(msg.Get("result"), "usage")));
  }

  /** The three counters of one `usage` object. */
  method AddUsageObject(usage: Totals, u: Json) returns (r: Totals)
    ensures r == AddTotals(usage, UsageFields(Some(u)))
  {
    r := usage;
    match u.GetU64("input_tokens") {
      case Some(n) => r := r.(inputTokens := r.inputTokens + n);
      case None =>
    }
    match u.GetU64("output_tokens") {
      case Some(n) => r := r.(outputTokens := r.outputTokens + n);
      case None =>
    }
    match u.GetU64("total_tokens") {
      case Some(n) => r := r.(totalTokens := r.totalTokens + n);
      case None =>
    }
  }

  /** The messages `detect_errors` reports: type `error`, or a string `error` member. */
  predicate IsError(m: Json)
  {
    m.HasType("error") || m.GetStr("error").Some?
  }

  /** The report of one message; its type is always `error`. */
  function ErrorOf(m: Json): Option<ErrorResult>
  {
    if m.HasType("error") then Some(ErrorResult(true, Some("error"), Some(ErrorText(m))))
    else if m.GetStr("error").Some? then Some(ErrorResult(true, Some("error"), m.GetStr("error")))
    else None
  }

  /** What `detect_errors` returns for the messages. */
  function Errors(ms: seq<Json>): ErrorResult
  {
    Detected(FirstSome(ms, ErrorOf))
  }

  /**
   * An error is reported exactly when some message has type `error` or a
   * string `error` member; the report comes from the first such message,
   * has type `error`, and its message is the `message` (else `error`, else
   * "Unknown error") text of a typed error, and the `error` string of an
   * untyped one.  A non-string `error` member alone is not an error.
   */
  lemma ErrorsReported(ms: seq<Json>)
    ensures Errors(ms).hasError <==> exists i | 0 <= i < |ms| :: IsError(ms[i])
    ensures !Errors(ms).hasError ==> Errors(ms) == NoError
    ensures Errors(ms).hasError ==> Errors(ms).errorType == Some("error") && exists i | 0 <= i < |ms| ::
      && IsError(ms[i]) && (forall j | 0 <= j < i :: !IsError(ms[j]))
      && Errors(ms).message == Some(if ms[i].HasType("error") then ErrorText(ms[i]) else ms[i].GetStr("error").value)
  {
    var r := FirstSome(ms, ErrorOf);
    if r.Some? {
      var i :| 0 <= i < |ms| && ErrorOf(ms[i]) == r && forall j | 0 <= j < i :: ErrorOf(ms[j]).None?;
      assert IsError(ms[i]);
    } else {
      forall i | 0 <= i < |ms| ensures !IsError(ms[i]) {
        assert ErrorOf(ms[i]).None?;
      }
    }
  }

  /** The body of the scan in `detect_errors`: the report one message gives, if it is an error. */
  method CheckMessage(msg: Json) returns (report: Option<ErrorResult>)
    ensures report == ErrorOf(msg)
  {
    match msg.GetStr("type") {
      case Some(t) =>
        if t == "error" {
          var message := match msg.GetStr("message")
            case Some(s) => s
            case None => (match msg.GetStr("error") case Some(e) => e case None => "Unknown error");
          return Some(ErrorResult(true, Some(t), Some(message)));
        }
      case None =>
    }
    match msg.GetStr("error") {
      case Some(e) =>
        return Some(ErrorResult(true, Some("error"), Some(e)));
      case None =>
    }
    return None;
  }

  /** `detect_errors`: the scan that returns at the first error message. */
  method DetectErrors(codec: Codec, output: string) returns (result: ErrorResult)
    ensures result == Errors(ParseAll(codec, output))
  {
    var ms := ParseAll(codec, output);
    var i := 0;
    while i < |ms|
      invariant 0 <= i <= |ms|
      invariant FirstSome(ms, ErrorOf) == FirstSome(ms[i..], ErrorOf)
    {
      var report := CheckMessage(ms[i]);
      FirstSomeFrom(ms, i, ErrorOf);
      if report.Some? {
        return report.value;
      }
      i := i + 1;
    }
    result := NoError;
  }

  /** `QwenTool`: the common descriptor plus five capability flags of its own. */
  datatype Descriptor = Descriptor(
    info: ToolInfo,
    supportsContinueSession: bool,
    supportsYolo: bool,
    supportsAllFiles: bool,
    supportsIncludeDirectories: bool,
    supportsIncludePartialMessages: bool)

  /** `QwenTool::default()`. */
  const Tool := Descriptor(
    ToolInfo("qwen", "Qwen Code CLI", "qwen", true, true, false, true, "qwen3-coder-480a35"),
    true, true, true, true, true)

  /** The default model is already a full id. */
  lemma DefaultModelIsFullId()
    ensures MapModelToId(Tool.info.defaultModel) == Tool.info.defaultModel && !Tool.info.supportsSystemPrompt
  {
  }
}
