/**
 * The Gemini CLI adapter (`tools/gemini.rs`): model aliases, the argument
 * vector with the prompt passed as the value of `-p` (or `-i`), the
 * `gemini <args>` command line, and the session id, token usage and errors
 * read back from its stream-json output.  The adapter is not part of the
 * tool registry.
 */
module Gemini {
  import opened Wrappers
  import opened Json
  import opened Ndjson
  import opened Adapters
  import opened Argv
  import Shell

  const ModelMap: map<string, string> := map[
    "flash" := "gemini-2.5-flash",
    "2.5-flash" := "gemini-2.5-flash",
    "pro" := "gemini-2.5-pro",
    "2.5-pro" := "gemini-2.5-pro",
    "lite" := "gemini-2.5-flash-lite",
    "2.5-lite" := "gemini-2.5-flash-lite",
    "3-flash" := "gemini-3-flash-preview",
    "3-pro" := "gemini-3-pro-preview",
    "gemini-flash" := "gemini-2.5-flash",
    "gemini-pro" := "gemini-2.5-pro"]

  function MapModelToId(model: string): string
  {
    MapModel(ModelMap, model)
  }

  lemma MapModelToIdExamples()
    ensures MapModelToId("flash") == "gemini-2.5-flash" && MapModelToId("3-pro") == "gemini-3-pro-preview"
    ensures MapModelToId("gemini-pro") == "gemini-2.5-pro" && MapModelToId("gemini-2.5-pro") == "gemini-2.5-pro"
  {
  }

  lemma MapModelToIdIdempotent(model: string)
    ensures MapModelToId(MapModelToId(model)) == MapModelToId(model)
  {
    assert FullIdsFixed(ModelMap);
    MapModelIdempotent(ModelMap, model);
  }

  /** `GeminiBuildOptions`. */
  datatype Options = Options(
    prompt: Option<string>,
    systemPrompt: Option<string>,
    model: Option<string>,
    json: bool,
    yolo: bool,
    sandbox: bool,
    debug: bool,
    checkpointing: bool,
    interactive: bool)

  /** `GeminiBuildOptions::default()`: every option absent or off. */
  const DefaultOptions := Options(None, None, None, false, false, false, false, false, false)

  /** `GeminiBuildOptions::new()`: the default with `yolo` on, for autonomous runs. */
  function New(): (o: Options)
    ensures o.yolo && !DefaultOptions.yolo
    ensures o.(yolo := false) == DefaultOptions
  {
    DefaultOptions.(yolo := true)
  }

  /** The option's model through the alias table. */
  function MapOpt(model: Option<string>): Option<string>
  {
    match model
    case Some(m) => Some(MapModelToId(m))
    case None => None
  }

  /** The flag that carries the prompt. */
  function PromptFlag(o: Options): string
  {
    if o.interactive then "-i" else "-p"
  }

  const ValueFlags: set<string> := {"-m", "--output-format", "-i", "-p"}

  /** The flags of `build_args` before the prompt, in source order. */
  function HeadFlags(o: Options): seq<Flag>
  {
    IfSome("-m", MapOpt(o.model))
    + IfSet("--yolo", o.yolo)
    + IfSet("--sandbox", o.sandbox)
    + IfSet("-d", o.debug)
    + IfSet("--checkpointing", o.checkpointing)
    + IfSome("--output-format", When(o.json, "stream-json"))
  }

  /** The flags of `build_args`, the prompt last. */
  function Flags(o: Options): seq<Flag>
  {
    HeadFlags(o) + IfSome(PromptFlag(o), o.prompt)
  }

  function Args(o: Options): seq<string>
  {
    Render(Flags(o))
  }

  /** `build_args`. */
  method BuildArgs(o: Options) returns (args: seq<string>)
    ensures args == Args(o)
  {
    ghost var fs: seq<Flag> := [];
    args := [];
    args := PushValued(args, fs, "-m", MapOpt(o.model));
    fs := fs + IfSome("-m", MapOpt(o.model));
    args := PushSwitch(args, fs, "--yolo", o.yolo);
    fs := fs + IfSet("--yolo", o.yolo);
    args := PushSwitch(args, fs, "--sandbox", o.sandbox);
    fs := fs + IfSet("--sandbox", o.sandbox);
    args := PushSwitch(args, fs, "-d", o.debug);
    fs := fs + IfSet("-d", o.debug);
    args := PushSwitch(args, fs, "--checkpointing", o.checkpointing);
    fs := fs + IfSet("--checkpointing", o.checkpointing);
    args := PushValued(args, fs, "--output-format", When(o.json, "stream-json"));
    fs := fs + IfSome("--output-format", When(o.json, "stream-json"));
    var flag := if o.interactive then "-i" else "-p";
    assert flag == PromptFlag(o);
    args := PushValued(args, fs, flag, o.prompt);
    fs := fs + IfSome(flag, o.prompt);
  }

  lemma SwitchNamesUnvalued(o: Options)
    ensures PromptFlag(o) in ValueFlags
    ensures "--yolo" !in ValueFlags && "--sandbox" !in ValueFlags && "-d" !in ValueFlags && "--checkpointing" !in ValueFlags
  {
  }

  /** Every value flag is followed by its value: the vector reads back as the flags. */
  lemma ArgsParse(o: Options)
    ensures Parse(Args(o), ValueFlags) == Some(Flags(o))
  {
    SwitchNamesUnvalued(o);
    assert Fits(Flags(o), ValueFlags);
    ParseRender(Flags(o), ValueFlags);
  }

  /** With a prompt, the vector ends with the prompt flag and the prompt text. */
  lemma PromptLast(o: Options)
    requires o.prompt.Some?
    ensures var a := Args(o); |a| >= 2 && a[|a| - 2] == PromptFlag(o) && a[|a| - 1] == o.prompt.value
  {
    var h := Flags(o)[..|Flags(o)| - 1];
    assert Flags(o) == h + [Valued(PromptFlag(o), o.prompt.value)];
    RenderAppend(h, [Valued(PromptFlag(o), o.prompt.value)]);
    RenderOne(Valued(PromptFlag(o), o.prompt.value));
  }

  /** The prompt travels under `-i` when interactive and `-p` otherwise; no other flag is `-i` or `-p`, so never both. */
  lemma PromptFlags(o: Options)
    ensures o.prompt.Some? ==> Valued(PromptFlag(o), o.prompt.value) in Flags(o)
    ensures forall f | f in Flags(o) && (f.name == "-p" || f.name == "-i") ::
      o.prompt.Some? && f == Valued(PromptFlag(o), o.prompt.value)
  {
    HeadFlagsNotPrompt(o);
  }

  /** None of the flags before the prompt is named `-p` or `-i`. */
  lemma HeadFlagsNotPrompt(o: Options)
    ensures forall f | f in HeadFlags(o) :: f.name != "-p" && f.name != "-i"
  {
  }

  /** `-m` carries the mapped model, and only when a model is given. */
  lemma ModelFlag(o: Options)
    ensures o.model.Some? ==> Valued("-m", MapOpt(o.model).value) in Flags(o)
    ensures forall f | f in Flags(o) && f.name == "-m" :: o.model.Some? && f == Valued("-m", MapOpt(o.model).value)
  {
  }

  /** Streamed JSON output is requested exactly when `json` is set. */
  lemma OutputFormatFlag(o: Options)
    ensures o.json ==> Valued("--output-format", "stream-json") in Flags(o)
    ensures forall f | f in Flags(o) && f.name == "--output-format" :: o.json && f == Valued("--output-format", "stream-json")
  {
    var pre := IfSome("-m", MapOpt(o.model)) + IfSet("--yolo", o.yolo) + IfSet("--sandbox", o.sandbox)
      + IfSet("-d", o.debug) + IfSet("--checkpointing", o.checkpointing);
    var last := IfSome(PromptFlag(o), o.prompt);
    assert Flags(o) == pre + IfSome("--output-format", When(o.json, "stream-json")) + last;
    assert forall f | f in pre :: f.name != "--output-format";
    assert forall f | f in last :: f.name != "--output-format";
  }

  /** The options `build_command` passes on: the prompts folded into `prompt`, no system prompt. */
  function Folded(o: Options): Options
  {
    o.(prompt := CombinePrompts(o.systemPrompt, o.prompt), systemPrompt := None)
  }

  /** `build_command`: `gemini` followed by the escaped arguments of the folded options. */
  function BuildCommand(o: Options): string
  {
    FlagCommand("gemini", Args(Folded(o)))
  }

  lemma GeminiPlain()
    ensures PlainName("gemini")
  {
    var p := "gemini";
    forall i | 0 <= i < |p| ensures !Shell.IsSpecial(p[i]) { assert p[i] in p; }
  }

  /** The shell reads the command as `gemini` followed by exactly the arguments of the folded options. */
  lemma BuildCommandWords(o: Options)
    ensures Shell.Tokens(BuildCommand(o)) == Some([Shell.Word("gemini")] + Shell.Words(Args(Folded(o))))
  {
    GeminiPlain();
    FlagCommandWords("gemini", Args(Folded(o)));
  }

  /**
   * Both prompts reach the tool as the one prompt argument, last on the
   * line; the system prompt is otherwise dropped.
   */
  lemma BuildCommandPrompt(o: Options)
    requires o.systemPrompt.Some? || o.prompt.Some?
    ensures var a := Args(Folded(o));
      |a| >= 2 && a[|a| - 2] == PromptFlag(o) && a[|a| - 1] == CombinedText(o.systemPrompt, o.prompt)
    ensures Folded(o).systemPrompt.None?
  {
    PromptLast(Folded(o));
  }

  // ---------------------------------------------------------------------
  // Output
  // ---------------------------------------------------------------------

  /** Within one message `session_id` is preferred to `conversation_id`. */
  function SessionIdOf(m: Json): Option<string>
  {
    match m.GetStr("session_id")
    case Some(s) => Some(s)
    case None => m.GetStr("conversation_id")
  }

  /** `extract_session_id`: the id of the first message carrying a string `session_id` or `conversation_id`. */
  function ExtractSessionId(codec: Codec, output: string): (r: Option<string>)
    ensures var ms := ParseAll(codec, output);
      && (r.None? <==> forall i | 0 <= i < |ms| :: ms[i].GetStr("session_id").None? && ms[i].GetStr("conversation_id").None?)
      && (r.Some? ==> exists i | 0 <= i < |ms| ::
            && r == (if ms[i].GetStr("session_id").Some? then ms[i].GetStr("session_id") else ms[i].GetStr("conversation_id"))
            && forall j | 0 <= j < i :: ms[j].GetStr("session_id").None? && ms[j].GetStr("conversation_id").None?)
  {
    FirstSome(ParseAll(codec, output), SessionIdOf)
  }

  /** The counters of a `usage` object, snake_case and camelCase added together. */
  function UsageFields(v: Option<Json>): Totals
  {
    Totals(Count(v, "input_tokens") + Count(v, "inputTokens"),
      Count(v, "output_tokens") + Count(v, "outputTokens"),
      Count(v, "total_tokens") + Count(v, "totalTokens"))
  }

  /** The counters of a `usageMetadata` object. */
  function MetadataFields(v: Option<Json>): Totals
  {
    Totals(Count(v, "promptTokenCount"), Count(v, "candidatesTokenCount"), Count(v, "totalTokenCount"))
  }

  /** What one message contributes. */
  function UsageOf(m: Json): Totals
  {
    AddTotals(UsageFields(m.Get("usage")), MetadataFields(m.Get("usageMetadata")))
  }

  function InputOf(m: Json): nat { UsageOf(m).inputTokens }
  function OutputOf(m: Json): nat { UsageOf(m).outputTokens }
  function TotalOf(m: Json): nat { UsageOf(m).totalTokens }

  /** The counters summed over the messages, before the total is filled in. */
  function Summed(ms: seq<Json>): Totals
  {
    Totals(Sum(ms, InputOf), Sum(ms, OutputOf), Sum(ms, TotalOf))
  }

  /** What `extract_usage` returns. */
  function TotalUsage(ms: seq<Json>): Totals
  {
    FillTotal(Summed(ms))
  }

  lemma SummedAppend(a: seq<Json>, b: seq<Json>)
    ensures Summed(a + b) == AddTotals(Summed(a), Summed(b))
  {
    SumAppend(a, b, InputOf);
    SumAppend(a, b, OutputOf);
    SumAppend(a, b, TotalOf);
  }

  lemma SummedSnoc(ms: seq<Json>, i: nat)
    requires i < |ms|
    ensures Summed(ms[..i + 1]) == AddTotals(Summed(ms[..i]), UsageOf(ms[i]))
  {
    assert ms[..i + 1] == ms[..i] + [ms[i]];
    SummedAppend(ms[..i], [ms[i]]);
    SumOne(ms[i], InputOf);
    SumOne(ms[i], OutputOf);
    SumOne(ms[i], TotalOf);
  }

  /** `extract_usage` (its `GeminiUsage` is `Totals`): the `+=` loop over the parsed messages, then the total filled in. */
  method ExtractUsage(codec: Codec, output: string) returns (usage: Totals)
    ensures usage == TotalUsage(ParseAll(codec, output))
  {
    var ms := ParseAll(codec, output);
    usage := Totals(0, 0, 0);
    var i := 0;
    while i < |ms|
      invariant 0 <= i <= |ms|
      invariant usage == Summed(ms[..i])
    {
      SummedSnoc(ms, i);
      usage := AddMessage(usage, ms[i]);
      i := i + 1;
    }
    assert ms[..|ms|] == ms;
    if usage.totalTokens == 0 && (usage.inputTokens > 0 || usage.outputTokens > 0) {
      usage := usage.(totalTokens := usage.inputTokens + usage.outputTokens);
    }
  }

  /** The body of the `extract_usage` loop for one message. */
  method AddMessage(usage: Totals, msg: Json) returns (r: Totals)
    ensures r == AddTotals(usage, UsageOf(msg))
  {
    r := usage;
    match msg.Get("usage") {
      case Some(u) => r := AddUsageObject(r, u);
      case None => assert UsageFields(None) == Totals(0, 0, 0);
    }
    assert r == AddTotals(usage, UsageFields(msg.Get("usage")));
    match msg.Get("usageMetadata") {
      case Some(meta) => r := AddMetadata(r, meta);
      case None => assert MetadataFields(None) == Totals(0, 0, 0);
    }
  }

  /** The six `usage` counters, snake_case first. */
  method AddUsageObject(usage: Totals, u: Json) returns (r: Totals)
    ensures r == AddTotals(usage, UsageFields(Some(u)))
  {
    r := usage;
    match u.GetU64("input_tokens") {
      case Some(n) => r := r.(inputTokens := r.inputTokens + n);
      case None =>
    }
    match u.GetU64("output_tokens") {
      case Some(n) => r := r.(outputTokens := r.outputTokens + n);
      case None =>
    }
    match u.GetU64("total_tokens") {
      case Some(n) => r := r.(totalTokens := r.totalTokens + n);
      case None =>
    }
    match u.GetU64("inputTokens") {
      case Some(n) => r := r.(inputTokens := r.inputTokens + n);
      case None =>
    }
    match u.GetU64("outputTokens") {
      case Some(n) => r := r.(outputTokens := r.outputTokens + n);
      case None =>
    }
    match u.GetU64("totalTokens") {
      case Some(n) => r := r.(totalTokens := r.totalTokens + n);
      case None =>
    }
  }

  /** The three `usageMetadata` counters. */
  method AddMetadata(usage: Totals, meta: Json) returns (r: Totals)
    ensures r == AddTotals(usage, MetadataFields(Some(meta)))
  {
    r := usage;
    match meta.GetU64("promptTokenCount") {
      case Some(n) => r := r.(inputTokens := r.inputTokens + n);
      case None =>
    }
    match meta.GetU64("candidatesTokenCount") {
      case Some(n) => r := r.(outputTokens := r.outputTokens + n);
      case None =>
    }
    match meta.GetU64("totalTokenCount") {
      case Some(n) => r := r.(totalTokens := r.totalTokens + n);
      case None =>
    }
  }

  /** The messages `detect_errors` reports: type `error`, or any `error` member. */
  predicate IsError(m: Json)
  {
    m.HasType("error") || m.Get("error").Some?
  }

  function ErrorOf(m: Json): Option<ErrorResult>
  {
    if IsError(m) then
      Some(ErrorResult(true, Some(match m.GetStr("type") case Some(t) => t case None => "error"), Some(ErrorText(m))))
    else None
  }

  /** What `detect_errors` returns for the messages. */
  function Errors(ms: seq<Json>): ErrorResult
  {
    Detected(FirstSome(ms, ErrorOf))
  }

  /**
   * An error is reported exactly when some message has type `error` or an
   * `error` member; the report comes from the first such message and always
   * has a type and a message.
   */
  lemma ErrorsReported(ms: seq<Json>)
    ensures Errors(ms).hasError <==> exists i | 0 <= i < |ms| :: IsError(ms[i])
    ensures !Errors(ms).hasError ==> Errors(ms) == NoError
    ensures Errors(ms).hasError ==> exists i | 0 <= i < |ms| ::
      && IsError(ms[i]) && (forall j | 0 <= j < i :: !IsError(ms[j]))
      && Errors(ms).message == Some(ErrorText(ms[i]))
      && Errors(ms).errorType == Some(if ms[i].GetStr("type").Some? then ms[i].GetStr("type").value else "error")
  {
    var r := FirstSome(ms, ErrorOf);
    if r.Some? {
      var i :| 0 <= i < |ms| && ErrorOf(ms[i]) == r && forall j | 0 <= j < i :: ErrorOf(ms[j]).None?;
      assert IsError(ms[i]);
    } else {
      forall i | 0 <= i < |ms| ensures !IsError(ms[i]) {
        assert ErrorOf(ms[i]).None?;
      }
    }
  }

  /** `detect_errors`: the scan that returns at the first error message. */
  method DetectErrors(codec: Codec, output: string) returns (result: ErrorResult)
    ensures result == Errors(ParseAll(codec, output))
  {
    var ms := ParseAll(codec, output);
    var i := 0;
    while i < |ms|
      invariant 0 <= i <= |ms|
      invariant FirstSome(ms, ErrorOf) == FirstSome(ms[i..], ErrorOf)
    {
      var msg := ms[i];
      if msg.GetStr("type") == Some("error") || msg.Get("error").Some? {
        var errorType := match msg.GetStr("type") case Some(t) => t case None => "error";
        var message := match msg.GetStr("message")
          case Some(s) => s
          case None => (match msg.GetStr("error") case Some(e) => e case None => "Unknown error");
        result := ErrorResult(true, Some(errorType), Some(message));
        assert FirstSome(ms[i..], ErrorOf) == Some(result) by {
          FirstSomeFrom(ms, i, ErrorOf);
        }
        return;
      }
      assert FirstSome(ms[i..], ErrorOf) == FirstSome(ms[i + 1..], ErrorOf) by {
        FirstSomeFrom(ms, i, ErrorOf);
      }
      i := i + 1;
    }
    result := NoError;
  }

  /** `GeminiTool`: the common descriptor plus four capability flags of its own. */
  datatype Descriptor = Descriptor(
    info: ToolInfo,
    supportsYolo: bool,
    supportsSandbox: bool,
    supportsCheckpointing: bool,
    supportsDebug: bool)

  /** `GeminiTool::default()`. */
  const Tool := Descriptor(
    ToolInfo("gemini", "Gemini CLI", "gemini", true, false, false, true, "gemini-2.5-flash"),
    true, true, true, true)

  /** The default model is already a full id, and prompts do not come on standard input. */
  lemma DefaultModelIsFullId()
    ensures MapModelToId(Tool.info.defaultModel) == Tool.info.defaultModel && !Tool.info.supportsJsonInput
  {
  }
}
