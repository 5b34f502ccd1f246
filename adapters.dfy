/**
 * What the tool adapters (claude, codex, opencode, agent, gemini, qwen)
 * have in common: the model-alias table lookup, the descriptor the `Tool`
 * trait exposes, the way system and user prompts are combined, the
 * first-match scan over parsed messages (session ids, errors), the counter
 * sums over parsed messages (usage), and the two shapes of command line
 * (`<tool> <args>` and `printf '%s' '<prompt>' | <tool> <args>`).
 */
module Adapters {
  import opened Wrappers
  import opened Strings
  import opened Json
  import Shell

  // ---------------------------------------------------------------------
  // Model aliases
  // ---------------------------------------------------------------------

  /** `map_model_to_id`: the table entry for an alias, any other name unchanged. */
  function MapModel(table: map<string, string>, model: string): string
  {
    if model in table then table[model] else model
  }

  /** Every full id the table produces is left alone by the table. */
  predicate FullIdsFixed(table: map<string, string>)
  {
    forall k | k in table :: table[k] in table ==> table[table[k]] == table[k]
  }

  /** Mapping twice is mapping once: a full id is never re-mapped. */
  lemma MapModelIdempotent(table: map<string, string>, model: string)
    requires FullIdsFixed(table)
    ensures MapModel(table, MapModel(table, model)) == MapModel(table, model)
  {
  }

  // ---------------------------------------------------------------------
  // Tool descriptors
  // ---------------------------------------------------------------------

  /** The fields the `Tool` trait exposes. */
  datatype ToolInfo = ToolInfo(
    name: string,
    displayName: string,
    executable: string,
    supportsJsonOutput: bool,
    supportsJsonInput: bool,
    supportsSystemPrompt: bool,
    supportsResume: bool,
    defaultModel: string)

  // ---------------------------------------------------------------------
  // Prompts
  // ---------------------------------------------------------------------

  /**
   * The system and user prompt folded into one, joined by a blank line when
   * both are present: there is a text exactly when either prompt is given,
   * it begins with the system prompt and ends with the user prompt, and it
   * holds nothing else but the blank line between them.
   */
  function CombinePrompts(system: Option<string>, prompt: Option<string>): (r: Option<string>)
    ensures r.None? <==> system.None? && prompt.None?
    ensures r.Some? && system.Some? ==> StartsWith(r.value, system.value)
    ensures r.Some? && prompt.Some? ==> |prompt.value| <= |r.value| && r.value[|r.value| - |prompt.value|..] == prompt.value
    ensures r.Some? ==>
      |r.value| == (if system.Some? then |system.value| else 0) + (if prompt.Some? then |prompt.value| else 0)
                   + (if system.Some? && prompt.Some? then 2 else 0)
    ensures r.Some? && system.Some? && prompt.Some? ==> r.value[|system.value|..|system.value| + 2] == "\n\n"
  {
    match (system, prompt)
    case (Some(s), Some(p)) => Some(s + "\n\n" + p)
    case (Some(s), None) => Some(s)
    case (None, p) => p
  }

  /** The combined prompt as text, empty when neither prompt is given. */
  function CombinedText(system: Option<string>, prompt: Option<string>): string
  {
    match CombinePrompts(system, prompt)
    case Some(t) => t
    case None => ""
  }

  // ---------------------------------------------------------------------
  // Scans over parsed messages
  // ---------------------------------------------------------------------

  /** The first message for which `f` yields a value, as `for msg in messages { if let Some(x) = f(msg) { return Some(x) } }`. */
  function FirstSome<T>(ms: seq<Json>, f: Json -> Option<T>): (r: Option<T>)
    ensures r.None? <==> forall i | 0 <= i < |ms| :: f(ms[i]).None?
    ensures r.Some? ==> exists i | 0 <= i < |ms| :: (f(ms[i]) == r && forall j | 0 <= j < i :: f(ms[j]).None?)
  {
    if ms == [] then None
    else if f(ms[0]).Some? then f(ms[0])
    else
      var r := FirstSome(ms[1..], f);
      assert forall i | 1 <= i < |ms| :: ms[i] == ms[1..][i - 1];
      assert r.Some? ==> exists i | 0 <= i < |ms| :: (f(ms[i]) == r && forall j | 0 <= j < i :: f(ms[j]).None?) by {
        if r.Some? {
          var i :| 0 <= i < |ms[1..]| && f(ms[1..][i]) == r && forall j | 0 <= j < i :: f(ms[1..][j]).None?;
          assert f(ms[i + 1]) == r;
          forall j | 0 <= j < i + 1 ensures f(ms[j]).None? {
            if j > 0 { assert ms[j] == ms[1..][j - 1]; }
          }
        }
      }
      r
  }

  /** Scanning from position `i`: the first result is the one at `i`, if any, else the first one after it. */
  lemma FirstSomeFrom<T>(ms: seq<Json>, i: nat, f: Json -> Option<T>)
    requires i < |ms|
    ensures FirstSome(ms[i..], f) == if f(ms[i]).Some? then f(ms[i]) else FirstSome(ms[i + 1..], f)
  {
    assert ms[i..][0] == ms[i] && ms[i..][1..] == ms[i + 1..];
  }

  /** Output read in two parts: the first part's match wins, else the second's. */
  lemma {:induction false} FirstSomeAppend<T>(a: seq<Json>, b: seq<Json>, f: Json -> Option<T>)
    ensures FirstSome(a + b, f) == if FirstSome(a, f).Some? then FirstSome(a, f) else FirstSome(b, f)
    decreases |a|
  {
    if a != [] {
      assert (a + b)[0] == a[0];
      assert (a + b)[1..] == a[1..] + b;
      FirstSomeAppend(a[1..], b, f);
    } else {
      assert a + b == b;
    }
  }

  /** The sum of a counter over the messages, as a `+=` loop computes it (u64 overflow not modelled). */
  function Sum(ms: seq<Json>, f: Json -> nat): nat
  {
    if ms == [] then 0 else Sum(ms[..|ms| - 1], f) + f(ms[|ms| - 1])
  }

  /** Counters add up across parts of the output. */
  lemma {:induction false} SumAppend(a: seq<Json>, b: seq<Json>, f: Json -> nat)
    ensures Sum(a + b, f) == Sum(a, f) + Sum(b, f)
    decreases |b|
  {
    if b == [] {
      assert a + b == a;
    } else {
      assert (a + b)[..|a + b| - 1] == a + b[..|b| - 1];
      SumAppend(a, b[..|b| - 1], f);
    }
  }

  lemma SumOne(m: Json, f: Json -> nat)
    ensures Sum([m], f) == f(m)
  {
    assert [m][..0] == [];
  }

  /** `v.and_then(|x| x.get(key))`. */
  function Inner(v: Option<Json>, key: string): Option<Json>
  {
    match v
    case Some(x) => x.Get(key)
    case None => None
  }

  /** The counter `key` of an optional object: its u64 value, or 0 when absent or not a u64. */
  function Count(v: Option<Json>, key: string): nat
  {
    match v
    case Some(x) => (match x.GetU64(key) case Some(n) => n case None => 0)
    case None => 0
  }

  /** `detect_errors` result. */
  datatype ErrorResult = ErrorResult(hasError: bool, errorType: Option<string>, message: Option<string>)

  /** `ErrorResult::default()`. */
  const NoError := ErrorResult(false, None, None)

  /** The result of the scan: the first error found, or the default. */
  function Detected(found: Option<ErrorResult>): ErrorResult
  {
    match found
    case Some(e) => e
    case None => NoError
  }

  /** The text of an error report: the string `message`, else a string `error`, else "Unknown error". */
  function ErrorText(m: Json): string
  {
    match m.GetStr("message")
    case Some(s) => s
    case None => (match m.GetStr("error") case Some(e) => e case None => "Unknown error")
  }

  // ---------------------------------------------------------------------
  // Token totals
  // ---------------------------------------------------------------------

  /** `GeminiUsage` and `QwenUsage`: input, output and total token counts. */
  datatype Totals = Totals(inputTokens: nat, outputTokens: nat, totalTokens: nat)

  function AddTotals(a: Totals, b: Totals): Totals
  {
    Totals(a.inputTokens + b.inputTokens, a.outputTokens + b.outputTokens, a.totalTokens + b.totalTokens)
  }

  /** Adding counts is associative, so totals can be summed in any grouping. */
  lemma AddTotalsAssoc(a: Totals, b: Totals, c: Totals)
    ensures AddTotals(AddTotals(a, b), c) == AddTotals(a, AddTotals(b, c))
  {
  }

  /** "Calculate total if not provided", after the summing loop. */
  function FillTotal(u: Totals): Totals
  {
    if u.totalTokens == 0 && (u.inputTokens > 0 || u.outputTokens > 0) then u.(totalTokens := u.inputTokens + u.outputTokens) else u
  }

  /**
   * Filling in keeps the input and output counts; a reported total is kept
   * as it is, and a missing (zero) total becomes input plus output. Filling
   * twice is filling once.
   */
  lemma FillTotalSpec(u: Totals)
    ensures FillTotal(u).inputTokens == u.inputTokens && FillTotal(u).outputTokens == u.outputTokens
    ensures u.totalTokens != 0 ==> FillTotal(u).totalTokens == u.totalTokens
    ensures u.totalTokens == 0 ==> FillTotal(u).totalTokens == u.inputTokens + u.outputTokens
    ensures FillTotal(FillTotal(u)) == FillTotal(u)
  {
  }

  // ---------------------------------------------------------------------
  // Command lines
  // ---------------------------------------------------------------------

  /** `format!("<tool> {}", args_str.join(" ")).trim()`, with the argument escaping made safe. */
  function FlagCommand(tool: string, args: seq<string>): string
  {
    Trim(tool + " " + Shell.JoinArgs(args))
  }

  /** A tool name the shell reads as itself. */
  predicate PlainName(tool: string)
  {
    tool != [] && Shell.Plain(tool)
  }

  /** With arguments present nothing is trimmed. */
  lemma FlagCommandUntrimmed(tool: string, args: seq<string>)
    requires PlainName(tool) && args != []
    ensures FlagCommand(tool, args) == tool + " " + Shell.JoinArgs(args)
    ensures StartsWith(FlagCommand(tool, args), tool + " " + Shell.EscapeArg(args[0]))
  {
    var line := tool + " " + Shell.JoinArgs(args);
    Shell.JoinArgsEdges(args);
    assert !Shell.IsSpecial(tool[0]);
    assert line[0] == tool[0];
    assert line[|line| - 1] == Shell.JoinArgs(args)[|Shell.JoinArgs(args)| - 1];
    TrimUntouched(line);
    JoinPrefix(Shell.EscapeArgs(args), " ");
    var p := tool + " " + Shell.EscapeArg(args[0]);
    assert line[..|p|] == p;
  }

  /** The shell reads the command as the tool name followed by exactly the arguments. */
  lemma FlagCommandWords(tool: string, args: seq<string>)
    requires PlainName(tool)
    ensures Shell.Tokens(FlagCommand(tool, args)) == Some([Shell.Word(tool)] + Shell.Words(args))
  {
    Shell.CommandLine(tool, args);
  }

  /** The fixed text before the prompt of a piped command. */
  const PrintfPrefix := "printf '%s' '"

  /** `format!("printf '%s' '{}' | <tool> {}", escape_single_quotes(prompt), args_str.join(" ")).trim()`. */
  function PipedCommand(prompt: string, tool: string, args: seq<string>): string
  {
    Trim(PrintfPrefix + Shell.EscapeSingleQuotes(prompt) + "' | " + tool + " " + Shell.JoinArgs(args))
  }

  /**
   * The shell reads the piped command as `printf %s <prompt>`, a pipe, and
   * the tool with exactly the arguments: the prompt arrives verbatim on the
   * tool's standard input.
   */
  lemma PipedCommandWords(prompt: string, tool: string, args: seq<string>)
    requires PlainName(tool)
    ensures Shell.Tokens(PipedCommand(prompt, tool, args)) ==
      Some([Shell.Word("printf"), Shell.Word("%s"), Shell.Word(prompt), Shell.Pipe] + [Shell.Word(tool)] + Shell.Words(args))
  {
    var front := PrintfPrefix + Shell.EscapeSingleQuotes(prompt) + "' | ";
    var ts := [Shell.Word("printf"), Shell.Word("%s"), Shell.Word(prompt), Shell.Pipe];
    PrintfFront(prompt);
    assert front[0] == 'p' by {
      assert front[0] == PrintfPrefix[0];
    }
    TrimPiped(front, tool, args);
    CommandAfterFront(front, ts, tool, args);
  }

  /** The tool and its arguments after a front that ends between words. */
  lemma CommandAfterFront(front: string, ts: seq<Shell.Token>, tool: string, args: seq<string>)
    requires PlainName(tool)
    requires Shell.Run(Shell.Start, front) == Shell.Lexer(Shell.Between, ts, [])
    ensures Shell.Tokens(if args == [] then front + tool else front + tool + " " + Shell.JoinArgs(args))
      == Some(ts + [Shell.Word(tool)] + Shell.Words(args))
  {
    if args == [] {
      Shell.PlainWord(ts, tool);
      Shell.RunAppend(Shell.Start, front, tool);
      assert ts + [Shell.Word(tool)] + Shell.Words(args) == ts + [Shell.Word(tool)];
    } else {
      var rest := tool + " " + Shell.JoinArgs(args);
      assert front + tool + " " + Shell.JoinArgs(args) == front + rest;
      FlagCommandAfter(ts, tool, args);
      Shell.RunAppend(Shell.Start, front, rest);
    }
  }

  /** A plain word and a blank, read between words. */
  lemma WordBlank(ts: seq<Shell.Token>, w: string)
    requires w != [] && Shell.Plain(w)
    ensures Shell.Run(Shell.Lexer(Shell.Between, ts, []), w + " ") == Shell.Lexer(Shell.Between, ts + [Shell.Word(w)], [])
  {
    var b := Shell.Lexer(Shell.Between, ts, []);
    Shell.PlainWord(ts, w);
    Shell.RunAppend(b, w, " ");
    Shell.RunOne(Shell.Lexer(Shell.Unquoted, ts, w), ' ');
  }

  lemma PrintfPlain()
    ensures Shell.Plain("printf")
  {
    var p := "printf";
    forall i | 0 <= i < |p| ensures !Shell.IsSpecial(p[i]) { assert p[i] in p; }
  }

  /** A single-quoted word and a blank, read between words. */
  lemma QuotedBlank(ts: seq<Shell.Token>, s: string)
    ensures Shell.Run(Shell.Lexer(Shell.Between, ts, []), "'" + Shell.EscapeSingleQuotes(s) + "' ")
      == Shell.Lexer(Shell.Between, ts + [Shell.Word(s)], [])
  {
    var b := Shell.Lexer(Shell.Between, ts, []);
    var q := "'" + Shell.EscapeSingleQuotes(s) + "'";
    assert q + " " == "'" + Shell.EscapeSingleQuotes(s) + "' ";
    Shell.SingleQuoted(b, s);
    assert [] + s == s;
    Shell.RunAppend(b, q, " ");
    Shell.RunOne(Shell.Lexer(Shell.Unquoted, ts, s), ' ');
  }

  /** `| ` read between words. */
  lemma PipeBlank(ts: seq<Shell.Token>)
    ensures Shell.Run(Shell.Lexer(Shell.Between, ts, []), "| ") == Shell.Lexer(Shell.Between, ts + [Shell.Pipe], [])
  {
    var b := Shell.Lexer(Shell.Between, ts, []);
    assert "| " == ['|'] + [' '];
    Shell.RunAppend(b, ['|'], [' ']);
    Shell.RunOne(b, '|');
    Shell.RunOne(Shell.Lexer(Shell.AfterPipe, ts, []), ' ');
  }

  /** The piped command's front, cut at its blanks. */
  lemma PrintfWords(e: string)
    ensures PrintfPrefix + e + "' | " == "printf " + "'%s' " + ("'" + e + "' ") + "| "
  {
  }

  /** The lexer state after `printf '%s' '<escaped prompt>' | `. */
  lemma PrintfFront(prompt: string)
    ensures Shell.Run(Shell.Start, PrintfPrefix + Shell.EscapeSingleQuotes(prompt) + "' | ")
      == Shell.Lexer(Shell.Between, [Shell.Word("printf"), Shell.Word("%s"), Shell.Word(prompt), Shell.Pipe], [])
  {
    var e := Shell.EscapeSingleQuotes(prompt);
    var w1, w2, w3, w4 := "printf ", "'%s' ", "'" + e + "' ", "| ";
    PrintfWords(e);
    var t1 := [Shell.Word("printf")];
    var t2 := t1 + [Shell.Word("%s")];
    var t3 := t2 + [Shell.Word(prompt)];
    assert Shell.Run(Shell.Start, w1) == Shell.Lexer(Shell.Between, t1, []) by {
      PrintfPlain();
      WordBlank([], "printf");
      assert "printf" + " " == w1;
    }
    assert Shell.Run(Shell.Lexer(Shell.Between, t1, []), w2) == Shell.Lexer(Shell.Between, t2, []) by {
      Strings.ReplaceCharAbsent("%s", '\'', "'\\''");
      QuotedBlank(t1, "%s");
      assert "'" + "%s" + "' " == w2;
    }
    assert Shell.Run(Shell.Lexer(Shell.Between, t2, []), w3) == Shell.Lexer(Shell.Between, t3, []) by {
      QuotedBlank(t2, prompt);
    }
    PipeBlank(t3);
    Shell.RunAppend(Shell.Start, w1 + w2 + w3, w4);
    Shell.RunAppend(Shell.Start, w1 + w2, w3);
    Shell.RunAppend(Shell.Start, w1, w2);
  }

  lemma FlagCommandAfter(ts: seq<Shell.Token>, tool: string, args: seq<string>)
    requires PlainName(tool)
    ensures Shell.Finish(Shell.Run(Shell.Lexer(Shell.Between, ts, []), tool + " " + Shell.JoinArgs(args)))
      == Some(ts + [Shell.Word(tool)] + Shell.Words(args))
  {
    var b := Shell.Lexer(Shell.Between, ts, []);
    Shell.PlainWord(ts, tool);
    Shell.RunAppend(b, tool, " ");
    Shell.RunOne(Shell.Lexer(Shell.Unquoted, ts, tool), ' ');
    Shell.RunAppend(b, tool + " ", Shell.JoinArgs(args));
    Shell.AfterBlankArgs(ts + [Shell.Word(tool)], args);
  }

  lemma TrimPiped(front: string, tool: string, args: seq<string>)
    requires front != [] && front[0] == 'p' && PlainName(tool)
    ensures Trim(front + tool + " " + Shell.JoinArgs(args)) ==
      if args == [] then front + tool else front + tool + " " + Shell.JoinArgs(args)
  {
    var line := front + tool + " " + Shell.JoinArgs(args);
    assert !Shell.IsSpecial(tool[|tool| - 1]);
    if args == [] {
      assert line == (front + tool) + " ";
      var s := front + tool;
      assert s[|s| - 1] == tool[|tool| - 1];
      TrimStartKeepsSuffix(s, " ");
      TrimEndWhitespaceSuffix(s, " ");
      TrimEndIdempotent(s);
    } else {
      Shell.JoinArgsEdges(args);
      assert line[|line| - 1] == Shell.JoinArgs(args)[|Shell.JoinArgs(args)| - 1];
      TrimUntouched(line);
    }
  }
}
