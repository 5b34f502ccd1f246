/**
 * The command builder (rust/src/command_builder.rs): the tool's own command
 * line (from its adapter, or a generic `--prompt` form for other tools),
 * wrapped as `bash -c "cd <dir> && <command>"`, then optionally inside a
 * GNU screen session or a docker container; and the matching stop
 * commands.  Each builder is given a meaning by the words the shell reads
 * from its output (module Shell).
 *
 * The `format!` strings are written as their pieces joined by single
 * blanks (ShellLine.Show of each piece), which is the same text.  The
 * timestamp-based default session and container names are not modelled:
 * the generated name is a parameter.
 */
module CommandBuilder {
  import opened Wrappers
  import opened Strings
  import opened Shell
  import opened ShellLine
  import Adapters
  import Tools
  import Claude
  import Codex
  import Opencode
  import AgentTool

  /** `AgentCommandOptions`. */
  datatype Options = Options(
    tool: string,
    workingDirectory: string,
    prompt: Option<string>,
    systemPrompt: Option<string>,
    model: Option<string>,
    json: bool,
    resume: Option<string>,
    isolation: string,
    screenName: Option<string>,
    containerName: Option<string>,
    detached: bool)

  // ---------------------------------------------------------------------
  // The two escaping passes
  // ---------------------------------------------------------------------

  /**
   * `escape_quotes` (Shell.EscapeSingleQuotes) leaves text without a single
   * quote as it is, and turns each quote into the four characters `'\''`.
   */
  lemma {:induction false} EscapeQuotesSpec(s: string)
    ensures '\'' !in s ==> EscapeSingleQuotes(s) == s
    ensures |EscapeSingleQuotes(s)| == |s| + 3 * CountChar(s, '\'')
    decreases |s|
  {
    if '\'' !in s {
      ReplaceCharAbsent(s, '\'', "'\\''");
    }
    if s != [] {
      EscapeQuotesSpec(s[..|s| - 1]);
      assert '\'' !in s ==> '\'' !in s[..|s| - 1];
    }
  }

  /** Text with a single quote in it is changed by `escape_quotes`. */
  lemma {:induction false} CountCharPositive(s: string, c: char)
    requires c in s
    ensures CountChar(s, c) > 0
    decreases |s|
  {
    if s[|s| - 1] != c {
      assert c in s[..|s| - 1] by {
        var i :| 0 <= i < |s| && s[i] == c;
        assert i < |s| - 1 && s[..|s| - 1][i] == c;
      }
      CountCharPositive(s[..|s| - 1], c);
    }
  }

  /**
   * `escape_for_bash_c` (Shell.EscapeDoubleQuoted) puts a backslash before
   * each `\`, `"`, `$` and backtick and leaves every other character alone,
   * so it is the identity on text without them.
   */
  lemma EscapeForBashCSpec(s: string)
    ensures EscapeDoubleQuoted(s) == EscapeDoubleChars(s)
    ensures SafeInDouble(s) ==> EscapeDoubleQuoted(s) == s
  {
    EscapeDoubleQuotedCharwise(s);
    if SafeInDouble(s) {
      RawIsDouble(s);
    }
  }

  /** Escaping a script `cd <x> && <y>` for double quotes escapes `x` and `y` and leaves `cd` and `&&` alone. */
  lemma EscapeScriptFrame(x: string, y: string)
    ensures EscapeDoubleQuoted("cd" + " " + x + " " + "&&" + " " + y)
      == "cd" + " " + EscapeDoubleQuoted(x) + " " + "&&" + " " + EscapeDoubleQuoted(y)
  {
    assert SafeInDouble("cd") && SafeInDouble(" ") && SafeInDouble("&&") by {
      var a, b, c := "cd", " ", "&&";
      forall i | 0 <= i < |a| ensures !QuotedInDouble(a[i]) { assert a[i] in a; }
      forall i | 0 <= i < |b| ensures !QuotedInDouble(b[i]) { assert b[i] in b; }
      forall i | 0 <= i < |c| ensures !QuotedInDouble(c[i]) { assert c[i] in c; }
    }
    RawIsDouble("cd");
    RawIsDouble(" ");
    RawIsDouble("&&");
    var p1 := "cd" + " ";
    var p2 := p1 + x;
    var p3 := p2 + " ";
    var p4 := p3 + "&&";
    var p5 := p4 + " ";
    EscapeDoubleQuotedAppend("cd", " ");
    EscapeDoubleQuotedAppend(p1, x);
    EscapeDoubleQuotedAppend(p2, " ");
    EscapeDoubleQuotedAppend(p3, "&&");
    EscapeDoubleQuotedAppend(p4, " ");
    EscapeDoubleQuotedAppend(p5, y);
  }

  // ---------------------------------------------------------------------
  // The fixed words
  // ---------------------------------------------------------------------

  /** A word none of whose characters is special stands for itself. */
  lemma PlainText(p: string)
    requires forall c | c in p :: !IsSpecial(c)
    ensures Plain(p)
  {
    forall i | 0 <= i < |p| ensures !IsSpecial(p[i]) { assert p[i] in p; }
  }

  lemma PlainWords1()
    ensures Plain("bash") && Plain("-c") && Plain("cd")
  {
    PlainText("bash");
    PlainText("-c");
    PlainText("cd");
  }

  lemma PlainWords2()
    ensures Plain("screen") && Plain("-dmS") && Plain("-S")
  {
    PlainText("screen");
    PlainText("-dmS");
    PlainText("-S");
  }

  lemma PlainWords3()
    ensures Plain("-X") && Plain("quit") && Plain("stop") && Plain("rm")
  {
    PlainText("-X");
    PlainText("quit");
    PlainText("stop");
    PlainText("rm");
  }

  lemma PlainWords4()
    ensures Plain("docker") && Plain("run") && Plain("-d") && Plain("-it")
  {
    PlainText("docker");
    PlainText("run");
    PlainText("-d");
    PlainText("-it");
  }

  lemma PlainWords5()
    ensures Plain("--name") && Plain("-v") && Plain("-w") && Plain("node:18-slim")
  {
    PlainText("--name");
    PlainText("-v");
    PlainText("-w");
    PlainText("node:18-slim");
  }

  lemma PlainWords6()
    ensures Plain("--prompt") && Plain("--system-prompt")
  {
    PlainText("--prompt");
    PlainText("--system-prompt");
  }

  // ---------------------------------------------------------------------
  // The generic builder
  // ---------------------------------------------------------------------

  /** `command.push_str(&format!(" {} \"{}\"", flag, escape_quotes(value)))` for a prompt that is given, as written. */
  function PushFlagAsWritten(command: string, flag: string, value: Option<string>): string
  {
    if value.Some? then command + " " + flag + " " + Show(Raw(EscapeSingleQuotes(value.value))) else command
  }

  /** The same push with the value escaped for the double quotes around it. */
  function PushFlag(command: string, flag: string, value: Option<string>): string
  {
    if value.Some? then command + " " + flag + " " + Show(Double(value.value)) else command
  }

  /** `build_tool_command` as written: each prompt is put between double quotes but escaped for single quotes. */
  function ToolCommandAsWritten(tool: string, prompt: Option<string>, systemPrompt: Option<string>): string
  {
    PushFlagAsWritten(PushFlagAsWritten(tool, "--prompt", prompt), "--system-prompt", systemPrompt)
  }

  /** The generic builder with each prompt escaped for the double quotes around it. */
  function ToolCommand(tool: string, prompt: Option<string>, systemPrompt: Option<string>): string
  {
    PushFlag(PushFlag(tool, "--prompt", prompt), "--system-prompt", systemPrompt)
  }

  /** The flag words of the generic builder: `--prompt <p>` and `--system-prompt <s>` for the prompts given. */
  function PromptWords(prompt: Option<string>, systemPrompt: Option<string>): seq<Token>
  {
    (if prompt.Some? then [Word("--prompt"), Word(prompt.value)] else [])
    + (if systemPrompt.Some? then [Word("--system-prompt"), Word(systemPrompt.value)] else [])
  }

  function EscapedOption(value: Option<string>): Option<string>
  {
    if value.Some? then Some(EscapeSingleQuotes(value.value)) else None
  }

  /**
   * `build_tool_command`: the tool name, then one `push_str` per prompt
   * flag, each prompt escaped for single quotes and put between double
   * quotes (ToolCommandAsWrittenWords says what the shell then reads).
   */
  method BuildToolCommand(tool: string, prompt: Option<string>, systemPrompt: Option<string>) returns (command: string)
    ensures command == ToolCommandAsWritten(tool, prompt, systemPrompt)
  {
    command := tool;
    if prompt.Some? {
      command := command + " " + "--prompt" + " " + Show(Raw(EscapeSingleQuotes(prompt.value)));
    }
    if systemPrompt.Some? {
      command := command + " " + "--system-prompt" + " " + Show(Raw(EscapeSingleQuotes(systemPrompt.value)));
    }
  }

  /** Neither prompt has a character with a meaning inside double quotes. */
  predicate SafePrompts(prompt: Option<string>, systemPrompt: Option<string>)
  {
    && (prompt.Some? ==> SafeInDouble(prompt.value))
    && (systemPrompt.Some? ==> SafeInDouble(systemPrompt.value))
  }

  /** For prompts with no quoting characters and no apostrophe, the builder as written and the corrected one coincide. */
  lemma ToolCommandAgrees(tool: string, prompt: Option<string>, systemPrompt: Option<string>)
    requires SafePrompts(prompt, systemPrompt)
    requires prompt.Some? ==> '\'' !in prompt.value
    requires systemPrompt.Some? ==> '\'' !in systemPrompt.value
    ensures ToolCommandAsWritten(tool, prompt, systemPrompt) == ToolCommand(tool, prompt, systemPrompt)
  {
    if prompt.Some? {
      EscapeQuotesSpec(prompt.value);
      RawIsDouble(prompt.value);
    }
    if systemPrompt.Some? {
      EscapeQuotesSpec(systemPrompt.value);
      RawIsDouble(systemPrompt.value);
    }
  }

  /** A prompt flag pushed after a line that ends inside the word `w`: the flag word, then the value as one word. */
  lemma PushFlagRun(line: string, ts: seq<Token>, w: string, flag: string, value: Option<string>)
    requires flag != [] && Plain(flag)
    requires Run(Start, line) == Lexer(Unquoted, ts, w)
    ensures Run(Start, PushFlag(line, flag, value)) ==
      if value.Some? then Lexer(Unquoted, ts + [Word(w), Word(flag)], value.value) else Lexer(Unquoted, ts, w)
  {
    if value.Some? {
      ThenWord(line, ts, w, Bare(flag));
      ThenWord(line + " " + flag, ts + [Word(w)], flag, Double(value.value));
      assert ts + [Word(w)] + [Word(flag)] == ts + [Word(w), Word(flag)];
    }
  }

  /** The shell runs the tool with exactly the flags and prompt texts, whatever the prompts contain. */
  lemma ToolCommandWords(tool: string, prompt: Option<string>, systemPrompt: Option<string>)
    requires Adapters.PlainName(tool)
    ensures Tokens(ToolCommand(tool, prompt, systemPrompt)) == Some([Word(tool)] + PromptWords(prompt, systemPrompt))
  {
    PlainWords6();
    First(Bare(tool));
    var l2 := PushFlag(tool, "--prompt", prompt);
    var ts2 := if prompt.Some? then [Word(tool), Word("--prompt")] else [];
    var w2 := if prompt.Some? then prompt.value else tool;
    assert Run(Start, l2) == Lexer(Unquoted, ts2, w2) by {
      PushFlagRun(tool, [], tool, "--prompt", prompt);
      assert [] + [Word(tool), Word("--prompt")] == [Word(tool), Word("--prompt")];
    }
    var ts3 := if systemPrompt.Some? then ts2 + [Word(w2), Word("--system-prompt")] else ts2;
    var w3 := if systemPrompt.Some? then systemPrompt.value else w2;
    PushFlagRun(l2, ts2, w2, "--system-prompt", systemPrompt);
    DoneWord(ToolCommand(tool, prompt, systemPrompt), ts3, w3);
    PromptWordsAfter(tool, prompt, systemPrompt);
  }

  /** The words read after each prompt flag, put together, are the tool and its prompt words. */
  lemma PromptWordsAfter(tool: string, prompt: Option<string>, systemPrompt: Option<string>)
    ensures var ts2 := if prompt.Some? then [Word(tool), Word("--prompt")] else [];
      var w2 := if prompt.Some? then prompt.value else tool;
      var ts3 := if systemPrompt.Some? then ts2 + [Word(w2), Word("--system-prompt")] else ts2;
      var w3 := if systemPrompt.Some? then systemPrompt.value else w2;
      ts3 + [Word(w3)] == [Word(tool)] + PromptWords(prompt, systemPrompt)
  {
  }

  /** Characters without a meaning inside double quotes are taken literally there. */
  lemma {:induction false} RunInDouble(ts: seq<Token>, w: string, s: string)
    requires SafeInDouble(s)
    ensures Run(Lexer(InDouble, ts, w), s) == Lexer(InDouble, ts, w + s)
    decreases |s|
  {
    if s == [] {
      assert w + s == w;
    } else {
      var s' := s[..|s| - 1];
      assert SafeInDouble(s') by { forall i | 0 <= i < |s'| ensures !QuotedInDouble(s'[i]) { assert s'[i] == s[i]; } }
      RunInDouble(ts, w, s');
      assert !QuotedInDouble(s[|s| - 1]);
      assert w + s' + [s[|s| - 1]] == w + s;
    }
  }

  /** Inside double quotes the sequence `'\''` is read as it stands: a backslash before a quote is kept. */
  lemma EscapedQuoteInDouble(ts: seq<Token>, w: string)
    ensures Run(Lexer(InDouble, ts, w), "'\\''") == Lexer(InDouble, ts, w + "'\\''")
  {
    var l := Lexer(InDouble, ts, w);
    var s1 := ['\''];
    var s2 := s1 + ['\\'];
    var s3 := s2 + ['\''];
    var s4 := s3 + ['\''];
    assert Run(l, s1) == Lexer(InDouble, ts, w + ['\'']) by { RunOne(l, '\''); }
    assert Run(l, s2) == Lexer(DoubleEscaped, ts, w + ['\'']) by {
      RunAppend(l, s1, ['\\']);
      RunOne(Run(l, s1), '\\');
    }
    assert Run(l, s3) == Lexer(InDouble, ts, w + ['\'', '\\', '\'']) by {
      RunAppend(l, s2, ['\'']);
      RunOne(Run(l, s2), '\'');
      assert w + ['\''] + ['\\', '\''] == w + ['\'', '\\', '\''];
    }
    assert Run(l, s4) == Lexer(InDouble, ts, w + ['\'', '\\', '\'', '\'']) by {
      RunAppend(l, s3, ['\'']);
      RunOne(Run(l, s3), '\'');
      assert w + ['\'', '\\', '\''] + ['\''] == w + ['\'', '\\', '\'', '\''];
    }
    assert s4 == "'\\''";
  }

  /** Inside double quotes, text escaped for single quotes is read back as the escaped text, not the original. */
  lemma {:induction false} RunEscapedInDouble(ts: seq<Token>, w: string, s: string)
    requires SafeInDouble(s)
    ensures Run(Lexer(InDouble, ts, w), EscapeSingleQuotes(s)) == Lexer(InDouble, ts, w + EscapeSingleQuotes(s))
    decreases |s|
  {
    if s == [] {
      assert w + EscapeSingleQuotes(s) == w;
    } else {
      var s' := s[..|s| - 1];
      var c := s[|s| - 1];
      assert SafeInDouble(s') by { forall i | 0 <= i < |s'| ensures !QuotedInDouble(s'[i]) { assert s'[i] == s[i]; } }
      var e' := EscapeSingleQuotes(s');
      var piece := if c == '\'' then "'\\''" else [c];
      assert EscapeSingleQuotes(s) == e' + piece;
      RunEscapedInDouble(ts, w, s');
      RunAppend(Lexer(InDouble, ts, w), e', piece);
      if c == '\'' {
        EscapedQuoteInDouble(ts, w + e');
      } else {
        assert !QuotedInDouble(c);
        RunOne(Lexer(InDouble, ts, w + e'), c);
      }
      assert w + e' + piece == w + EscapeSingleQuotes(s);
    }
  }

  /** A double-quoted value escaped for single quotes, read between words. */
  lemma RawEscapedRun(ts: seq<Token>, s: string)
    requires SafeInDouble(s)
    ensures Run(Lexer(Between, ts, []), Show(Raw(EscapeSingleQuotes(s)))) == Lexer(Unquoted, ts, EscapeSingleQuotes(s))
  {
    var b := Lexer(Between, ts, []);
    var e := EscapeSingleQuotes(s);
    assert Run(b, "\"") == Lexer(InDouble, ts, []) by { RunOne(b, '"'); }
    assert Run(b, "\"" + e) == Lexer(InDouble, ts, e) by {
      RunAppend(b, "\"", e);
      RunEscapedInDouble(ts, [], s);
      assert [] + e == e;
    }
    assert Run(b, "\"" + e + "\"") == Lexer(Unquoted, ts, e) by {
      RunAppend(b, "\"" + e, "\"");
      RunOne(Lexer(InDouble, ts, e), '"');
    }
  }

  /** As written, a prompt flag pushed after a line that ends inside the word `w`: the flag word, then the escaped value as one word. */
  lemma PushFlagAsWrittenRun(line: string, ts: seq<Token>, w: string, flag: string, value: Option<string>)
    requires flag != [] && Plain(flag)
    requires value.Some? ==> SafeInDouble(value.value)
    requires Run(Start, line) == Lexer(Unquoted, ts, w)
    ensures Run(Start, PushFlagAsWritten(line, flag, value)) ==
      if value.Some? then Lexer(Unquoted, ts + [Word(w), Word(flag)], EscapeSingleQuotes(value.value)) else Lexer(Unquoted, ts, w)
  {
    if value.Some? {
      var e := EscapeSingleQuotes(value.value);
      var l2 := line + " " + flag;
      var ts3 := ts + [Word(w), Word(flag)];
      ThenWord(line, ts, w, Bare(flag));
      assert Run(Start, l2 + " ") == Lexer(Between, ts3, []) by {
        RunAppend(Start, l2, " ");
        RunOne(Run(Start, l2), ' ');
        assert ts + [Word(w)] + [Word(flag)] == ts3;
      }
      RunAppend(Start, l2 + " ", Show(Raw(e)));
      RawEscapedRun(ts3, value.value);
    }
  }

  /**
   * As written, the shell hands the tool each prompt escaped for single
   * quotes rather than the prompt itself (for prompts without `\`, `"`, `$`
   * or a backtick, which double quotes would give a meaning of their own).
   */
  lemma ToolCommandAsWrittenWords(tool: string, prompt: Option<string>, systemPrompt: Option<string>)
    requires Adapters.PlainName(tool)
    requires prompt.Some? ==> SafeInDouble(prompt.value)
    requires systemPrompt.Some? ==> SafeInDouble(systemPrompt.value)
    ensures Tokens(ToolCommandAsWritten(tool, prompt, systemPrompt))
      == Some([Word(tool)] + PromptWords(EscapedOption(prompt), EscapedOption(systemPrompt)))
  {
    PlainWords6();
    First(Bare(tool));
    var l2 := PushFlagAsWritten(tool, "--prompt", prompt);
    var ts2 := if prompt.Some? then [Word(tool), Word("--prompt")] else [];
    var w2 := if prompt.Some? then EscapeSingleQuotes(prompt.value) else tool;
    assert Run(Start, l2) == Lexer(Unquoted, ts2, w2) by {
      PushFlagAsWrittenRun(tool, [], tool, "--prompt", prompt);
      assert [] + [Word(tool), Word("--prompt")] == [Word(tool), Word("--prompt")];
    }
    var ts3 := if systemPrompt.Some? then ts2 + [Word(w2), Word("--system-prompt")] else ts2;
    var w3 := if systemPrompt.Some? then EscapeSingleQuotes(systemPrompt.value) else w2;
    PushFlagAsWrittenRun(l2, ts2, w2, "--system-prompt", systemPrompt);
    DoneWord(ToolCommandAsWritten(tool, prompt, systemPrompt), ts3, w3);
    PromptWordsAfter(tool, EscapedOption(prompt), EscapedOption(systemPrompt));
  }

  /**
   * The discrepancy: for a prompt with an apostrophe (such as `It's`) the
   * builder as written hands the tool a different, longer text (`It'\''s`),
   * while the corrected builder hands it the prompt.
   */
  lemma ToolCommandAsWrittenAltersQuotes(tool: string, prompt: string)
    requires Adapters.PlainName(tool) && SafeInDouble(prompt) && '\'' in prompt
    ensures Tokens(ToolCommandAsWritten(tool, Some(prompt), None)) == Some([Word(tool), Word("--prompt"), Word(EscapeSingleQuotes(prompt))])
    ensures EscapeSingleQuotes(prompt) != prompt
    ensures Tokens(ToolCommand(tool, Some(prompt), None)) == Some([Word(tool), Word("--prompt"), Word(prompt)])
  {
    OnePromptAsWritten(tool, prompt);
    OnePrompt(tool, prompt);
    EscapeQuotesChanges(prompt);
  }

  lemma OnePromptAsWritten(tool: string, prompt: string)
    requires Adapters.PlainName(tool) && SafeInDouble(prompt)
    ensures Tokens(ToolCommandAsWritten(tool, Some(prompt), None)) == Some([Word(tool), Word("--prompt"), Word(EscapeSingleQuotes(prompt))])
  {
    ToolCommandAsWrittenWords(tool, Some(prompt), None);
    assert [Word(tool)] + PromptWords(EscapedOption(Some(prompt)), None) == [Word(tool), Word("--prompt"), Word(EscapeSingleQuotes(prompt))];
  }

  lemma OnePrompt(tool: string, prompt: string)
    requires Adapters.PlainName(tool)
    ensures Tokens(ToolCommand(tool, Some(prompt), None)) == Some([Word(tool), Word("--prompt"), Word(prompt)])
  {
    ToolCommandWords(tool, Some(prompt), None);
    assert [Word(tool)] + PromptWords(Some(prompt), None) == [Word(tool), Word("--prompt"), Word(prompt)];
  }

  /** `escape_quotes` changes every text that has a single quote in it. */
  lemma EscapeQuotesChanges(s: string)
    requires '\'' in s
    ensures EscapeSingleQuotes(s) != s
  {
    EscapeQuotesSpec(s);
    CountCharPositive(s, '\'');
  }

  // ---------------------------------------------------------------------
  // The `bash -c` wrapper
  // ---------------------------------------------------------------------

  /**
   * `format!("bash -c \"cd {} && {}\"", escape_for_bash_c(wd), escape_for_bash_c(base))`,
   * as written: the escaped directory and command go between the double
   * quotes as they are.
   */
  function BashCAsWritten(workingDirectory: string, base: string): string
  {
    "bash" + " " + "-c" + " "
    + Show(Raw("cd" + " " + EscapeDoubleQuoted(workingDirectory) + " " + "&&" + " " + EscapeDoubleQuoted(base)))
  }

  /** The script `bash -c` is given, as written: the directory is not quoted inside it. */
  function ScriptAsWritten(workingDirectory: string, base: string): string
  {
    "cd" + " " + workingDirectory + " " + "&&" + " " + base
  }

  /** The script with the directory escaped as one argument. */
  function Script(workingDirectory: string, base: string): string
  {
    "cd" + " " + EscapeArg(workingDirectory) + " " + "&&" + " " + base
  }

  /** The corrected wrapper: `bash -c` with the script escaped for double quotes. */
  function BashC(workingDirectory: string, base: string): string
  {
    "bash" + " " + "-c" + " " + Show(Double(Script(workingDirectory, base)))
  }

  /** The as-written wrapper is `bash -c` with the as-written script escaped for double quotes. */
  lemma BashCAsWrittenShape(workingDirectory: string, base: string)
    ensures BashCAsWritten(workingDirectory, base) == "bash" + " " + "-c" + " " + Show(Double(ScriptAsWritten(workingDirectory, base)))
  {
    EscapeScriptFrame(workingDirectory, base);
  }

  /** `bash -c` and a double-quoted script is read as `bash`, `-c` and exactly the script. */
  lemma BashCScript(script: string)
    ensures Tokens("bash" + " " + "-c" + " " + Show(Double(script))) == Some([Word("bash"), Word("-c"), Word(script)])
  {
    PlainWords1();
    var l2 := "bash" + " " + "-c";
    assert Run(Start, l2) == Lexer(Unquoted, [Word("bash")], "-c") by {
      First(Bare("bash"));
      ThenWord("bash", [], "bash", Bare("-c"));
      assert [] + [Word("bash")] == [Word("bash")];
    }
    ThenWord(l2, [Word("bash")], "-c", Double(script));
    assert [Word("bash")] + [Word("-c")] == [Word("bash"), Word("-c")];
    DoneWord(l2 + " " + Show(Double(script)), [Word("bash"), Word("-c")], script);
    assert [Word("bash"), Word("-c")] + [Word(script)] == [Word("bash"), Word("-c"), Word(script)];
  }

  /** The shell runs `bash` with `-c` and exactly the script, whatever the directory and command contain. */
  lemma BashCWords(workingDirectory: string, base: string)
    ensures Tokens(BashC(workingDirectory, base)) == Some([Word("bash"), Word("-c"), Word(Script(workingDirectory, base))])
  {
    BashCScript(Script(workingDirectory, base));
  }

  /** The as-written wrapper also hands `bash` exactly its (as-written) script. */
  lemma BashCAsWrittenWords(workingDirectory: string, base: string)
    ensures Tokens(BashCAsWritten(workingDirectory, base)) == Some([Word("bash"), Word("-c"), Word(ScriptAsWritten(workingDirectory, base))])
  {
    BashCAsWrittenShape(workingDirectory, base);
    BashCScript(ScriptAsWritten(workingDirectory, base));
  }

  /** When the directory needs no quoting the corrected wrapper is the one written. */
  lemma BashCAgrees(workingDirectory: string, base: string)
    requires workingDirectory != [] && Plain(workingDirectory)
    ensures BashC(workingDirectory, base) == BashCAsWritten(workingDirectory, base)
  {
    assert !NeedsQuoting(workingDirectory);
    assert Script(workingDirectory, base) == ScriptAsWritten(workingDirectory, base);
    BashCAsWrittenShape(workingDirectory, base);
  }

  /** The piece an escaped argument is. */
  function ArgPiece(a: string): Piece
  {
    if NeedsQuoting(a) then Double(a) else Bare(a)
  }

  lemma ArgPieceShows(a: string)
    ensures Show(ArgPiece(a)) == EscapeArg(a) && Readable(ArgPiece(a)) && ArgPiece(a).text == a && !ArgPiece(a).And?
  {
  }

  /** `&&` and a blank after a line that ends inside the word `w`. */
  lemma AndBlank(line: string, ts: seq<Token>, w: string)
    requires Run(Start, line) == Lexer(Unquoted, ts, w)
    ensures Run(Start, line + " " + "&&" + " ") == Lexer(Between, ts + [Word(w), AndIf], [])
  {
    var l := line + " " + Show(And);
    assert Run(Start, l) == Lexer(Between, ts + [Word(w), AndIf], []) by { ThenAnd(line, ts, w); }
    RunAppend(Start, l, " ");
    RunOne(Run(Start, l), ' ');
  }

  /** The lexer state after `cd <dir> && `. */
  lemma ScriptFront(workingDirectory: string)
    ensures Run(Start, "cd" + " " + EscapeArg(workingDirectory) + " " + "&&" + " ") == Lexer(Between, [Word("cd"), Word(workingDirectory), AndIf], [])
  {
    PlainWords1();
    ArgPieceShows(workingDirectory);
    var l2 := "cd" + " " + EscapeArg(workingDirectory);
    assert Run(Start, l2) == Lexer(Unquoted, [Word("cd")], workingDirectory) by {
      First(Bare("cd"));
      ThenWord("cd", [], "cd", ArgPiece(workingDirectory));
      assert [] + [Word("cd")] == [Word("cd")];
    }
    AndBlank(l2, [Word("cd")], workingDirectory);
    assert [Word("cd")] + [Word(workingDirectory), AndIf] == [Word("cd"), Word(workingDirectory), AndIf];
  }

  /** The script changes to exactly the working directory and then, after `&&`, runs the command as it would run alone. */
  lemma ScriptWords(workingDirectory: string, base: string)
    ensures Tokens(Script(workingDirectory, base)) ==
      if Tokens(base).Some? then Some([Word("cd"), Word(workingDirectory), AndIf] + Tokens(base).value) else None
  {
    ScriptFront(workingDirectory);
    TokensAfter("cd" + " " + EscapeArg(workingDirectory) + " " + "&&" + " ", [Word("cd"), Word(workingDirectory), AndIf], base);
  }

  /** As written, the lexer state after `cd <first> <second> && `. */
  lemma SplitFront(first: string, second: string)
    requires first != [] && Plain(first) && second != [] && Plain(second)
    ensures Run(Start, "cd" + " " + first + " " + second + " " + "&&" + " ")
      == Lexer(Between, [Word("cd"), Word(first), Word(second), AndIf], [])
  {
    PlainWords1();
    var l2 := "cd" + " " + first;
    assert Run(Start, l2) == Lexer(Unquoted, [Word("cd")], first) by {
      First(Bare("cd"));
      ThenWord("cd", [], "cd", Bare(first));
      assert [] + [Word("cd")] == [Word("cd")];
    }
    assert Run(Start, l2 + " " + second) == Lexer(Unquoted, [Word("cd"), Word(first)], second) by {
      ThenWord(l2, [Word("cd")], first, Bare(second));
      assert [Word("cd")] + [Word(first)] == [Word("cd"), Word(first)];
    }
    AndBlank(l2 + " " + second, [Word("cd"), Word(first)], second);
    assert [Word("cd"), Word(first)] + [Word(second), AndIf] == [Word("cd"), Word(first), Word(second), AndIf];
  }

  /**
   * The discrepancy: as written, a directory with a blank in it (such as
   * `/tmp/my dir`) reaches `cd` as two arguments, while the corrected script
   * gives `cd` the one directory.
   */
  lemma ScriptAsWrittenSplitsDirectory(first: string, second: string, base: string)
    requires first != [] && Plain(first) && second != [] && Plain(second)
    ensures Tokens(ScriptAsWritten(first + " " + second, base)) ==
      if Tokens(base).Some? then Some([Word("cd"), Word(first), Word(second), AndIf] + Tokens(base).value) else None
    ensures Tokens(Script(first + " " + second, base)) ==
      if Tokens(base).Some? then Some([Word("cd"), Word(first + " " + second), AndIf] + Tokens(base).value) else None
  {
    var front := "cd" + " " + first + " " + second + " " + "&&" + " ";
    assert ScriptAsWritten(first + " " + second, base) == front + base by {
      assert "cd" + " " + (first + " " + second) == "cd" + " " + first + " " + second;
    }
    SplitFront(first, second);
    TokensAfter(front, [Word("cd"), Word(first), Word(second), AndIf], base);
    ScriptWords(first + " " + second, base);
  }

  // ---------------------------------------------------------------------
  // Isolation wrappers
  // ---------------------------------------------------------------------

  /** The session or container name: the one given, else the generated `agent-<milliseconds>` name. */
  function NameOr(name: Option<string>, generated: string): string
  {
    match name
    case Some(n) => n
    case None => generated
  }

  /** `build_screen_command`: `screen -dmS "<name>" bash -c '<command>'`, or `-S` when attached. */
  function ScreenCommand(base: string, screenName: Option<string>, generated: string, detached: bool): string
  {
    "screen" + " " + (if detached then "-dmS" else "-S") + " " + Show(Raw(NameOr(screenName, generated)))
    + " " + "bash" + " " + "-c" + " " + Show(Single(base))
  }

  /** The shell runs `screen` with the session flag, the name, and `bash -c` with exactly the wrapped command. */
  lemma ScreenCommandWords(base: string, screenName: Option<string>, generated: string, detached: bool)
    requires SafeInDouble(NameOr(screenName, generated))
    ensures Tokens(ScreenCommand(base, screenName, generated, detached)) ==
      Some([Word("screen"), Word(if detached then "-dmS" else "-S"), Word(NameOr(screenName, generated)),
            Word("bash"), Word("-c"), Word(base)])
  {
    PlainWords1();
    PlainWords2();
    var flag := if detached then "-dmS" else "-S";
    var name := NameOr(screenName, generated);
    var l4 := "screen" + " " + flag + " " + Show(Raw(name)) + " " + "bash";
    var ts := [Word("screen"), Word(flag), Word(name)];
    assert Run(Start, l4) == Lexer(Unquoted, ts, "bash") by {
      First(Bare("screen"));
      ThenWords3("screen", [], "screen", Bare(flag), Raw(name), Bare("bash"));
      assert [] + [Word("screen"), Word(flag), Word(name)] == ts;
    }
    assert Tokens(l4 + " " + "-c" + " " + Show(Single(base))) == Some(ts + [Word("bash")] + [Word("-c"), Word(base)]) by {
      ThenWord(l4, ts, "bash", Bare("-c"));
      DoneAfter(l4 + " " + "-c", ts + [Word("bash")], "-c", Single(base));
    }
    assert ts + [Word("bash")] + [Word("-c"), Word(base)] == [Word("screen"), Word(flag), Word(name), Word("bash"), Word("-c"), Word(base)];
  }

  /** `build_docker_command`, the string its pushes build. */
  function DockerCommand(base: string, containerName: Option<string>, workingDirectory: string, detached: bool, generated: string): string
  {
    DockerFront(containerName, workingDirectory, detached, generated) + " " + Show(Single(base))
  }

  /** Everything `build_docker_command` pushes before the `'<command>'` argument. */
  function DockerFront(containerName: Option<string>, workingDirectory: string, detached: bool, generated: string): string
  {
    "docker" + " " + "run" + " " + (if detached then "-d" else "-it")
    + " " + "--name" + " " + Show(Raw(NameOr(containerName, generated)))
    + " " + "-v" + " " + Show(Raw(workingDirectory + ":" + workingDirectory))
    + " " + "-w" + " " + Show(Raw(workingDirectory))
    + " " + "node:18-slim"
    + " " + "bash" + " " + "-c"
  }

  /** `build_docker_command`: `docker run`, then one `push_str` per part. */
  method BuildDockerCommand(base: string, containerName: Option<string>, workingDirectory: string, detached: bool, generated: string)
    returns (command: string)
    ensures command == DockerCommand(base, containerName, workingDirectory, detached, generated)
  {
    var name := NameOr(containerName, generated);
    command := "docker" + " " + "run";
    if detached {
      command := command + " " + "-d";
    } else {
      command := command + " " + "-it";
    }
    command := command + " " + "--name" + " " + Show(Raw(name));
    command := command + " " + "-v" + " " + Show(Raw(workingDirectory + ":" + workingDirectory));
    command := command + " " + "-w" + " " + Show(Raw(workingDirectory));
    command := command + " " + "node:18-slim";
    command := command + " " + "bash" + " " + "-c" + " " + Show(Single(base));
  }

  /** The tokens of `docker run` before `-c`. */
  function DockerWords(containerName: Option<string>, workingDirectory: string, detached: bool, generated: string): seq<Token>
  {
    [Word("docker"), Word("run"), Word(if detached then "-d" else "-it"),
     Word("--name"), Word(NameOr(containerName, generated)), Word("-v")]
    + [Word(workingDirectory + ":" + workingDirectory), Word("-w"), Word(workingDirectory),
       Word("node:18-slim"), Word("bash")]
  }

  /** A mount `dir:dir` has no quoting characters when the directory has none. */
  lemma MountSafe(wd: string)
    requires SafeInDouble(wd)
    ensures SafeInDouble(wd + ":" + wd)
  {
    var mount := wd + ":" + wd;
    forall i | 0 <= i < |mount| ensures !QuotedInDouble(mount[i]) {
      if i < |wd| { assert mount[i] == wd[i]; }
      else if i > |wd| { assert mount[i] == wd[i - |wd| - 1]; }
    }
  }

  /** `docker run <mode> --name "<name>" -v "<mount>"`. */
  lemma DockerHeadRun(mode: string, name: string, mount: string)
    requires mode != [] && Plain(mode) && SafeInDouble(name) && SafeInDouble(mount)
    ensures Run(Start, "docker" + " " + "run" + " " + mode + " " + "--name" + " " + Show(Raw(name)) + " " + "-v" + " " + Show(Raw(mount)))
      == Lexer(Unquoted, [Word("docker"), Word("run"), Word(mode), Word("--name"), Word(name), Word("-v")], mount)
  {
    PlainWords4();
    PlainWords5();
    var l4 := "docker" + " " + "run" + " " + mode + " " + "--name";
    var ts4 := [Word("docker"), Word("run"), Word(mode)];
    assert Run(Start, l4) == Lexer(Unquoted, ts4, "--name") by {
      First(Bare("docker"));
      ThenWords3("docker", [], "docker", Bare("run"), Bare(mode), Bare("--name"));
      assert [] + [Word("docker"), Word("run"), Word(mode)] == ts4;
    }
    ThenWords3(l4, ts4, "--name", Raw(name), Bare("-v"), Raw(mount));
    assert ts4 + [Word("--name"), Word(name), Word("-v")] == [Word("docker"), Word("run"), Word(mode), Word("--name"), Word(name), Word("-v")];
  }

  /** `-w "<dir>" node:18-slim bash -c` after the mount. */
  lemma DockerTailRun(line: string, ts: seq<Token>, mount: string, wd: string)
    requires Run(Start, line) == Lexer(Unquoted, ts, mount) && SafeInDouble(wd)
    ensures Run(Start, line + " " + "-w" + " " + Show(Raw(wd)) + " " + "node:18-slim" + " " + "bash" + " " + "-c")
      == Lexer(Unquoted, ts + [Word(mount), Word("-w"), Word(wd), Word("node:18-slim"), Word("bash")], "-c")
  {
    PlainWords1();
    PlainWords5();
    var l3 := line + " " + "-w" + " " + Show(Raw(wd)) + " " + "node:18-slim";
    var ts3 := ts + [Word(mount), Word("-w"), Word(wd)];
    assert Run(Start, l3) == Lexer(Unquoted, ts3, "node:18-slim") by {
      ThenWords3(line, ts, mount, Bare("-w"), Raw(wd), Bare("node:18-slim"));
    }
    ThenWords2(l3, ts3, "node:18-slim", Bare("bash"), Bare("-c"));
    assert ts3 + [Word("node:18-slim"), Word("bash")] == ts + [Word(mount), Word("-w"), Word(wd), Word("node:18-slim"), Word("bash")];
  }

  /** The whole of `docker run` up to `-c`. */
  lemma DockerFrontRun(containerName: Option<string>, workingDirectory: string, detached: bool, generated: string)
    requires SafeInDouble(NameOr(containerName, generated)) && SafeInDouble(workingDirectory)
    ensures Run(Start, DockerFront(containerName, workingDirectory, detached, generated))
      == Lexer(Unquoted, DockerWords(containerName, workingDirectory, detached, generated), "-c")
  {
    PlainWords4();
    MountSafe(workingDirectory);
    var mode := if detached then "-d" else "-it";
    var name := NameOr(containerName, generated);
    var mount := workingDirectory + ":" + workingDirectory;
    var ts := [Word("docker"), Word("run"), Word(mode), Word("--name"), Word(name), Word("-v")];
    DockerHeadRun(mode, name, mount);
    DockerTailRun("docker" + " " + "run" + " " + mode + " " + "--name" + " " + Show(Raw(name)) + " " + "-v" + " " + Show(Raw(mount)),
      ts, mount, workingDirectory);
  }

  /**
   * The shell runs `docker run` with the mode, the name, the directory
   * mounted at the same path and made current, the image, and `bash -c`
   * with exactly the wrapped command.
   */
  lemma DockerCommandWords(base: string, containerName: Option<string>, workingDirectory: string, detached: bool, generated: string)
    requires SafeInDouble(NameOr(containerName, generated)) && SafeInDouble(workingDirectory)
    ensures Tokens(DockerCommand(base, containerName, workingDirectory, detached, generated)) ==
      Some(DockerWords(containerName, workingDirectory, detached, generated) + [Word("-c"), Word(base)])
  {
    var front := DockerFront(containerName, workingDirectory, detached, generated);
    var ws := DockerWords(containerName, workingDirectory, detached, generated);
    DockerFrontRun(containerName, workingDirectory, detached, generated);
    DoneAfter(front, ws, "-c", Single(base));
  }

  // ---------------------------------------------------------------------
  // build_agent_command
  // ---------------------------------------------------------------------

  /**
   * The claude options `build_agent_command` passes: prompts, model, json
   * and resume from the command options, print mode off, everything else at
   * its default.
   */
  function ClaudeOptions(o: Options): Claude.Options
  {
    Claude.DefaultOptions.(prompt := o.prompt, systemPrompt := o.systemPrompt, model := o.model,
      json := o.json, resume := o.resume, printMode := false)
  }

  function CodexOptions(o: Options): Codex.Options
  {
    Codex.Options(o.prompt, o.systemPrompt, o.model, o.json, o.resume)
  }

  function OpencodeOptions(o: Options): Opencode.Options
  {
    Opencode.Options(o.prompt, o.systemPrompt, o.model, o.json, o.resume)
  }

  /** The agent options: prompts and model only; `json` and `resume` are dropped and both switches are off. */
  function AgentOptions(o: Options): AgentTool.Options
  {
    AgentTool.Options(o.prompt, o.systemPrompt, o.model, false, false)
  }

  /** The corrected tool command: its adapter's `build_command` for a supported tool, the corrected generic builder (ToolCommand) otherwise. */
  function BaseCommand(o: Options): string
  {
    match o.tool
    case "claude" => Claude.BuildCommand(ClaudeOptions(o))
    case "codex" => Codex.BuildCommand(CodexOptions(o))
    case "opencode" => Opencode.BuildCommand(OpencodeOptions(o))
    case "agent" => AgentTool.BuildCommand(AgentOptions(o))
    case _ => ToolCommand(o.tool, o.prompt, o.systemPrompt)
  }

  /** `printf %s <combined prompt> |`. */
  function PipedWords(o: Options): seq<Token>
  {
    [Word("printf"), Word("%s"), Word(Adapters.CombinedText(o.systemPrompt, o.prompt)), Pipe]
  }

  /** What the shell should read from the corrected tool command: per tool, its name and arguments, after the piped prompt where it takes one on its input. */
  function BaseWords(o: Options): seq<Token>
  {
    match o.tool
    case "claude" => [Word("claude")] + Words(Claude.Args(ClaudeOptions(o)))
    case "codex" => PipedWords(o) + [Word("codex")] + Words(Codex.Args(CodexOptions(o)))
    case "opencode" => PipedWords(o) + [Word("opencode")] + Words(Opencode.Args(OpencodeOptions(o)))
    case "agent" => PipedWords(o) + [Word("agent")] + Words(AgentTool.Args(AgentOptions(o)))
    case _ => [Word(o.tool)] + PromptWords(o.prompt, o.systemPrompt)
  }

  /** The supported names select their adapter; every other name uses the generic builder. */
  lemma BaseCommandDispatch(o: Options)
    ensures Tools.IsToolSupported(o.tool) <==> o.tool in {"claude", "codex", "opencode", "agent"}
    ensures !Tools.IsToolSupported(o.tool) ==> BaseCommand(o) == ToolCommand(o.tool, o.prompt, o.systemPrompt)
    ensures o.tool == "agent" ==> BaseCommand(o) == AgentTool.BuildCommand(AgentTool.Options(o.prompt, o.systemPrompt, o.model, false, false))
  {
  }

  /** The shell reads the tool's command as `BaseWords`: the adapter's own argument vector, or the generic flags. */
  lemma BaseCommandWords(o: Options)
    requires Tools.IsToolSupported(o.tool) || Adapters.PlainName(o.tool)
    ensures Tokens(BaseCommand(o)) == Some(BaseWords(o))
  {
    match o.tool
    case "claude" => Claude.BuildCommandWords(ClaudeOptions(o));
    case "codex" => Codex.BuildCommandWords(CodexOptions(o));
    case "opencode" => Opencode.BuildCommandWords(OpencodeOptions(o));
    case "agent" => AgentTool.BuildCommandWords(AgentOptions(o));
    case _ => ToolCommandWords(o.tool, o.prompt, o.systemPrompt);
  }

  /** The isolation wrapper around the `bash -c` command: screen, docker, or none for any other mode. */
  function Isolate(o: Options, full: string, generated: string): string
  {
    match o.isolation
    case "screen" => ScreenCommand(full, o.screenName, generated, o.detached)
    case "docker" => DockerCommand(full, o.containerName, o.workingDirectory, o.detached, generated)
    case _ => full
  }

  /** `build_agent_command`'s tool command: as BaseCommand, but unsupported tools get the generic builder as written. */
  function BaseCommandAsWritten(o: Options): string
  {
    match o.tool
    case "claude" => Claude.BuildCommand(ClaudeOptions(o))
    case "codex" => Codex.BuildCommand(CodexOptions(o))
    case "opencode" => Opencode.BuildCommand(OpencodeOptions(o))
    case "agent" => AgentTool.BuildCommand(AgentOptions(o))
    case _ => ToolCommandAsWritten(o.tool, o.prompt, o.systemPrompt)
  }

  /** What the shell reads from that command: as BaseWords, but the generic prompts arrive escaped for single quotes. */
  function BaseWordsAsWritten(o: Options): seq<Token>
  {
    if Tools.IsToolSupported(o.tool) then BaseWords(o)
    else [Word(o.tool)] + PromptWords(EscapedOption(o.prompt), EscapedOption(o.systemPrompt))
  }

  /**
   * The shell reads the tool's command as written: a supported tool's own
   * argument vector, or the generic flags with the prompts escaped for
   * single quotes (for prompts without `\`, `"`, `$` or a backtick).
   */
  lemma BaseCommandAsWrittenWords(o: Options)
    requires Tools.IsToolSupported(o.tool) || (Adapters.PlainName(o.tool) && SafePrompts(o.prompt, o.systemPrompt))
    ensures Tokens(BaseCommandAsWritten(o)) == Some(BaseWordsAsWritten(o))
  {
    match o.tool
    case "claude" => Claude.BuildCommandWords(ClaudeOptions(o));
    case "codex" => Codex.BuildCommandWords(CodexOptions(o));
    case "opencode" => Opencode.BuildCommandWords(OpencodeOptions(o));
    case "agent" => AgentTool.BuildCommandWords(AgentOptions(o));
    case _ => ToolCommandAsWrittenWords(o.tool, o.prompt, o.systemPrompt);
  }

  /**
   * The command `build_agent_command` returns: the tool's command in the
   * `bash -c "cd <dir> && <command>"` wrapper as written, then the
   * isolation wrapper.
   */
  function AgentCommandAsWritten(o: Options, generated: string): string
  {
    Isolate(o, BashCAsWritten(o.workingDirectory, BaseCommandAsWritten(o)), generated)
  }

  /**
   * The corrected command, the intended half of the last two Findings: the
   * directory quoted as one argument and the generic prompts escaped for
   * the double quotes around them.
   */
  function AgentCommand(o: Options, generated: string): string
  {
    Isolate(o, BashC(o.workingDirectory, BaseCommand(o)), generated)
  }

  /** `build_agent_command`: build the tool's command, wrap it in `bash -c`, then apply the isolation wrapper. */
  method BuildAgentCommand(o: Options, generated: string) returns (fullCommand: string)
    ensures fullCommand == AgentCommandAsWritten(o, generated)
  {
    var base: string;
    match o.tool {
      case "claude" => base := Claude.BuildCommand(ClaudeOptions(o));
      case "codex" => base := Codex.BuildCommand(CodexOptions(o));
      case "opencode" => base := Opencode.BuildCommand(OpencodeOptions(o));
      case "agent" => base := AgentTool.BuildCommand(AgentOptions(o));
      case _ => base := BuildToolCommand(o.tool, o.prompt, o.systemPrompt);
    }
    fullCommand := BashCAsWritten(o.workingDirectory, base);
    match o.isolation {
      case "screen" =>
        fullCommand := ScreenCommand(fullCommand, o.screenName, generated, o.detached);
      case "docker" =>
        fullCommand := BuildDockerCommand(fullCommand, o.containerName, o.workingDirectory, o.detached, generated);
      case _ =>
    }
  }

  /**
   * Without screen or docker, `bash` is handed the script as written; for a
   * plain directory and a supported tool (or plain generic prompts) the
   * script changes to exactly that directory and then runs the tool.
   */
  lemma AgentCommandUnisolated(o: Options, generated: string)
    requires o.isolation != "screen" && o.isolation != "docker"
    ensures Tokens(AgentCommandAsWritten(o, generated))
      == Some([Word("bash"), Word("-c"), Word(ScriptAsWritten(o.workingDirectory, BaseCommandAsWritten(o)))])
    ensures (o.workingDirectory != [] && Plain(o.workingDirectory)
             && (Tools.IsToolSupported(o.tool) || (Adapters.PlainName(o.tool) && SafePrompts(o.prompt, o.systemPrompt))))
      ==> Tokens(ScriptAsWritten(o.workingDirectory, BaseCommandAsWritten(o)))
          == Some([Word("cd"), Word(o.workingDirectory), AndIf] + BaseWordsAsWritten(o))
  {
    var base := BaseCommandAsWritten(o);
    BashCAsWrittenWords(o.workingDirectory, base);
    if o.workingDirectory != [] && Plain(o.workingDirectory)
      && (Tools.IsToolSupported(o.tool) || (Adapters.PlainName(o.tool) && SafePrompts(o.prompt, o.systemPrompt)))
    {
      assert !NeedsQuoting(o.workingDirectory);
      assert Script(o.workingDirectory, base) == ScriptAsWritten(o.workingDirectory, base);
      BaseCommandAsWrittenWords(o);
      ScriptWords(o.workingDirectory, base);
    }
  }

  /** Under screen, the session runs `bash -c` with the unisolated command as written. */
  lemma AgentCommandScreen(o: Options, generated: string)
    requires o.isolation == "screen" && SafeInDouble(NameOr(o.screenName, generated))
    ensures Tokens(AgentCommandAsWritten(o, generated)) ==
      Some([Word("screen"), Word(if o.detached then "-dmS" else "-S"), Word(NameOr(o.screenName, generated)),
            Word("bash"), Word("-c"), Word(BashCAsWritten(o.workingDirectory, BaseCommandAsWritten(o)))])
  {
    ScreenCommandWords(BashCAsWritten(o.workingDirectory, BaseCommandAsWritten(o)), o.screenName, generated, o.detached);
  }

  /** Under docker, the container runs `bash -c` with the unisolated command as written, in the mounted working directory. */
  lemma AgentCommandDocker(o: Options, generated: string)
    requires o.isolation == "docker" && SafeInDouble(NameOr(o.containerName, generated)) && SafeInDouble(o.workingDirectory)
    ensures Tokens(AgentCommandAsWritten(o, generated)) ==
      Some(DockerWords(o.containerName, o.workingDirectory, o.detached, generated)
        + [Word("-c"), Word(BashCAsWritten(o.workingDirectory, BaseCommandAsWritten(o)))])
  {
    DockerCommandWords(BashCAsWritten(o.workingDirectory, BaseCommandAsWritten(o)), o.containerName, o.workingDirectory, o.detached, generated);
  }

  /**
   * The corrected command: without screen or docker, `bash` runs a script
   * that changes to exactly the working directory, whatever it contains,
   * and then runs the tool with its prompts verbatim.
   */
  lemma AgentCommandCorrectedWords(o: Options, generated: string)
    requires o.isolation != "screen" && o.isolation != "docker"
    requires Tools.IsToolSupported(o.tool) || Adapters.PlainName(o.tool)
    ensures Tokens(AgentCommand(o, generated)) == Some([Word("bash"), Word("-c"), Word(Script(o.workingDirectory, BaseCommand(o)))])
    ensures Tokens(Script(o.workingDirectory, BaseCommand(o))) == Some([Word("cd"), Word(o.workingDirectory), AndIf] + BaseWords(o))
  {
    BashCWords(o.workingDirectory, BaseCommand(o));
    BaseCommandWords(o);
    ScriptWords(o.workingDirectory, BaseCommand(o));
  }

  /**
   * The two commands coincide when the directory needs no quoting and the
   * tool is supported or its prompts have no apostrophe and nothing special
   * inside double quotes; they differ exactly through the last two Findings.
   */
  lemma AgentCommandAgrees(o: Options, generated: string)
    requires o.workingDirectory != [] && Plain(o.workingDirectory)
    requires Tools.IsToolSupported(o.tool)
      || (SafePrompts(o.prompt, o.systemPrompt)
          && (o.prompt.Some? ==> '\'' !in o.prompt.value)
          && (o.systemPrompt.Some? ==> '\'' !in o.systemPrompt.value))
    ensures AgentCommandAsWritten(o, generated) == AgentCommand(o, generated)
  {
    if !Tools.IsToolSupported(o.tool) {
      ToolCommandAgrees(o.tool, o.prompt, o.systemPrompt);
    }
    assert BaseCommandAsWritten(o) == BaseCommand(o);
    BashCAgrees(o.workingDirectory, BaseCommand(o));
  }

  // ---------------------------------------------------------------------
  // Stop and piped commands
  // ---------------------------------------------------------------------

  /** `build_screen_stop_command`: `screen -S "<name>" -X quit`. */
  function ScreenStopCommand(screenName: string): string
  {
    "screen" + " " + "-S" + " " + Show(Raw(screenName)) + " " + "-X" + " " + "quit"
  }

  /** The shell sends `quit` to exactly the named session. */
  lemma ScreenStopCommandWords(screenName: string)
    requires SafeInDouble(screenName)
    ensures Tokens(ScreenStopCommand(screenName)) == Some([Word("screen"), Word("-S"), Word(screenName), Word("-X"), Word("quit")])
  {
    PlainWords2();
    PlainWords3();
    var l2 := "screen" + " " + Show(Bare("-S"));
    var l3 := l2 + " " + Show(Raw(screenName));
    var l4 := l3 + " " + Show(Bare("-X"));
    var l5 := l4 + " " + Show(Bare("quit"));
    assert Run(Start, l2) == Lexer(Unquoted, [Word("screen")], "-S") by {
      First(Bare("screen"));
      ThenWord("screen", [], "screen", Bare("-S"));
      assert [] + [Word("screen")] == [Word("screen")];
    }
    assert Run(Start, l3) == Lexer(Unquoted, [Word("screen"), Word("-S")], screenName) by {
      ThenWord(l2, [Word("screen")], "-S", Raw(screenName));
      assert [Word("screen")] + [Word("-S")] == [Word("screen"), Word("-S")];
    }
    var ts3 := [Word("screen"), Word("-S"), Word(screenName)];
    assert Run(Start, l4) == Lexer(Unquoted, ts3, "-X") by {
      ThenWord(l3, [Word("screen"), Word("-S")], screenName, Bare("-X"));
      assert [Word("screen"), Word("-S")] + [Word(screenName)] == ts3;
    }
    assert Run(Start, l5) == Lexer(Unquoted, ts3 + [Word("-X")], "quit") by {
      ThenWord(l4, ts3, "-X", Bare("quit"));
    }
    DoneWord(l5, ts3 + [Word("-X")], "quit");
    assert ts3 + [Word("-X")] + [Word("quit")] == [Word("screen"), Word("-S"), Word(screenName), Word("-X"), Word("quit")];
  }

  /** `build_docker_stop_command`: `docker stop "<name>" && docker rm "<name>"`. */
  function DockerStopCommand(containerName: string): string
  {
    "docker" + " " + "stop" + " " + Show(Raw(containerName)) + " " + "&&" + " "
    + "docker" + " " + "rm" + " " + Show(Raw(containerName))
  }

  /** The shell stops the named container and, if that succeeds, removes it. */
  lemma DockerStopCommandWords(containerName: string)
    requires SafeInDouble(containerName)
    ensures Tokens(DockerStopCommand(containerName)) ==
      Some([Word("docker"), Word("stop"), Word(containerName), AndIf, Word("docker"), Word("rm"), Word(containerName)])
  {
    PlainWords3();
    PlainWords4();
    var l2 := "docker" + " " + Show(Bare("stop"));
    var l3 := l2 + " " + Show(Raw(containerName));
    var l4 := l3 + " " + "&&" + " ";
    assert Run(Start, l2) == Lexer(Unquoted, [Word("docker")], "stop") by {
      First(Bare("docker"));
      ThenWord("docker", [], "docker", Bare("stop"));
      assert [] + [Word("docker")] == [Word("docker")];
    }
    assert Run(Start, l3) == Lexer(Unquoted, [Word("docker"), Word("stop")], containerName) by {
      ThenWord(l2, [Word("docker")], "stop", Raw(containerName));
      assert [Word("docker")] + [Word("stop")] == [Word("docker"), Word("stop")];
    }
    var ts4 := [Word("docker"), Word("stop"), Word(containerName), AndIf];
    assert Run(Start, l4) == Lexer(Between, ts4, []) by {
      AndBlank(l3, [Word("docker"), Word("stop")], containerName);
      assert [Word("docker"), Word("stop")] + [Word(containerName), AndIf] == ts4;
    }
    var l5 := l4 + "docker";
    var l6 := l5 + " " + Show(Bare("rm"));
    var l7 := l6 + " " + Show(Raw(containerName));
    assert Run(Start, l5) == Lexer(Unquoted, ts4, "docker") by {
      RunAppend(Start, l4, "docker");
      PlainWord(ts4, "docker");
    }
    assert Run(Start, l6) == Lexer(Unquoted, ts4 + [Word("docker")], "rm") by {
      ThenWord(l5, ts4, "docker", Bare("rm"));
    }
    var ts6 := ts4 + [Word("docker"), Word("rm")];
    assert Run(Start, l7) == Lexer(Unquoted, ts6, containerName) by {
      ThenWord(l6, ts4 + [Word("docker")], "rm", Raw(containerName));
      assert ts4 + [Word("docker")] + [Word("rm")] == ts6;
    }
    DoneWord(l7, ts6, containerName);
    assert ts6 + [Word(containerName)] == [Word("docker"), Word("stop"), Word(containerName), AndIf, Word("docker"), Word("rm"), Word(containerName)];
  }

  /** `build_piped_command`: `printf '%s' '<input>' | <command>`. */
  function PipedCommand(input: string, command: string): string
  {
    Adapters.PrintfPrefix + EscapeSingleQuotes(input) + "' | " + command
  }

  /** The input reaches the command's standard input verbatim, and the command is read as it would be alone. */
  lemma PipedCommandWords(input: string, command: string)
    ensures Tokens(PipedCommand(input, command)) ==
      if Tokens(command).Some? then Some([Word("printf"), Word("%s"), Word(input), Pipe] + Tokens(command).value) else None
  {
    Adapters.PrintfFront(input);
    TokensAfter(Adapters.PrintfPrefix + EscapeSingleQuotes(input) + "' | ", [Word("printf"), Word("%s"), Word(input), Pipe], command);
  }

  /** Without a single quote in the input, the piped command is the input quoted as it stands. */
  lemma PipedCommandShape(input: string, command: string)
    ensures '\'' !in input ==> PipedCommand(input, command) == "printf '%s' '" + input + "' | " + command
  {
    EscapeQuotesSpec(input);
  }
}
