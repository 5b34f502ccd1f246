/**
 * The part of the POSIX Shell Command Language (section 2.2, "Quoting", and
 * section 2.3, "Token Recognition") that the command strings built by the
 * adapters and the command builder rely on: blanks separate words, `|`
 * makes a pipeline, `&&` an AND list, backslash, single quotes and double
 * quotes quote.  Anything else that a shell would treat specially (`;`,
 * redirections, expansions, globbing, comments, a trailing operator, an
 * unterminated quote) is "outside the subset" and the lexer rejects it, so
 * a proof that a command lexes to a given token list also shows it uses
 * none of those features.
 *
 * This gives the escaping functions of the source a meaning against which
 * their round trips are stated.
 */
module Shell {
  import opened Wrappers
  import opened Strings

  datatype Token = Word(text: string) | Pipe | AndIf

  /**
   * Characters with a special meaning to the shell somewhere in a word
   * (operators, quotes, expansions, blanks, globbing, comments, tilde and
   * assignment) and every whitespace character; a character outside this
   * set always stands for itself.
   */
  predicate IsSpecial(c: char) {
    || c == '|' || c == '&' || c == ';' || c == '<' || c == '>' || c == '(' || c == ')'
    || c == '$' || c == '`' || c == '\\' || c == '"' || c == '\''
    || c == ' ' || c == '\t' || c == '\n' || c == '\r'
    || c == '*' || c == '?' || c == '[' || c == ']' || c == '#' || c == '~' || c == '='
    || c == '%' || c == '{' || c == '}' || c == '!' || c == '^'
    || IsWhitespace(c)
  }

  predicate IsBlank(c: char) {
    c == ' ' || c == '\t'
  }

  /** Every character stands for itself. */
  predicate Plain(s: string) {
    forall i | 0 <= i < |s| :: !IsSpecial(s[i])
  }

  datatype Mode =
    | Between        // not inside a word
    | Unquoted       // inside a word, outside quotes
    | Escaped        // just after a backslash outside quotes
    | InSingle       // inside '...'
    | InDouble       // inside "..."
    | DoubleEscaped  // just after a backslash inside "..."
    | AfterPipe      // just after `|`
    | AfterAmp       // just after a single `&`
    | Rejected       // the input left the modelled subset

  /** Lexer state: the mode, the tokens so far and the word being built. */
  datatype Lexer = Lexer(mode: Mode, tokens: seq<Token>, word: string)

  /** A character inside a word and outside quotes that does not end the word. */
  function WordChar(l: Lexer, c: char): Lexer
  {
    if c == '\'' then l.(mode := InSingle)
    else if c == '"' then l.(mode := InDouble)
    else if c == '\\' then l.(mode := Escaped)
    else if IsSpecial(c) then l.(mode := Rejected)
    else Lexer(Unquoted, l.tokens, l.word + [c])
  }

  /** A character read between words. */
  function StepBetween(l: Lexer, c: char): Lexer
  {
    if IsBlank(c) then Lexer(Between, l.tokens, [])
    else if c == '|' then Lexer(AfterPipe, l.tokens, [])
    else if c == '&' then Lexer(AfterAmp, l.tokens, [])
    else WordChar(Lexer(Unquoted, l.tokens, []), c)
  }

  function Step(l: Lexer, c: char): Lexer
  {
    match l.mode
    case Rejected => l
    case Between => StepBetween(l, c)
    case AfterPipe =>
      // `||` is an OR list, which is outside the subset
      if c == '|' then l.(mode := Rejected) else StepBetween(l.(tokens := l.tokens + [Pipe]), c)
    case AfterAmp =>
      // a lone `&` runs a command in the background, which is outside the subset
      if c == '&' then Lexer(Between, l.tokens + [AndIf], []) else l.(mode := Rejected)
    case Unquoted =>
      if IsBlank(c) || c == '|' || c == '&' then StepBetween(Lexer(Between, l.tokens + [Word(l.word)], []), c)
      else WordChar(l, c)
    case Escaped =>
      // a backslash-newline pair is a line continuation and disappears
      if c == '\n' then l.(mode := Unquoted) else Lexer(Unquoted, l.tokens, l.word + [c])
    case InSingle =>
      if c == '\'' then l.(mode := Unquoted) else l.(word := l.word + [c])
    case InDouble =>
      if c == '"' then l.(mode := Unquoted)
      else if c == '\\' then l.(mode := DoubleEscaped)
      else if c == '$' || c == '`' then l.(mode := Rejected)
      else l.(word := l.word + [c])
    case DoubleEscaped =>
      // inside double quotes a backslash quotes only $ ` " \ and newline
      if c == '$' || c == '`' || c == '"' || c == '\\' then Lexer(InDouble, l.tokens, l.word + [c])
      else if c == '\n' then l.(mode := InDouble)
      else Lexer(InDouble, l.tokens, l.word + ['\\', c])
  }

  function Run(l: Lexer, s: string): Lexer
  {
    if s == [] then l else Step(Run(l, s[..|s| - 1]), s[|s| - 1])
  }

  function Finish(l: Lexer): Option<seq<Token>>
  {
    match l.mode
    case Between => Some(l.tokens)
    case Unquoted => Some(l.tokens + [Word(l.word)])
    case _ => None
  }

  const Start := Lexer(Between, [], [])

  /** The tokens of a command line, or None when it leaves the modelled subset. */
  function Tokens(s: string): Option<seq<Token>>
  {
    Finish(Run(Start, s))
  }

  function Words(args: seq<string>): (r: seq<Token>)
    ensures |r| == |args|
    ensures forall i | 0 <= i < |args| :: r[i] == Word(args[i])
  {
    if args == [] then [] else Words(args[..|args| - 1]) + [Word(args[|args| - 1])]
  }

  lemma WordsAppend(a: seq<string>, b: seq<string>)
    ensures Words(a + b) == Words(a) + Words(b)
  {
    assert |Words(a + b)| == |Words(a) + Words(b)|;
    forall i | 0 <= i < |a + b| ensures Words(a + b)[i] == (Words(a) + Words(b))[i] {
      if i < |a| { assert (a + b)[i] == a[i]; } else { assert (a + b)[i] == b[i - |a|]; }
    }
  }

  // ---------------------------------------------------------------------
  // The lexer is a left fold over the characters
  // ---------------------------------------------------------------------

  lemma {:induction false} RunAppend(l: Lexer, a: string, b: string)
    ensures Run(l, a + b) == Run(Run(l, a), b)
    decreases |b|
  {
    if b == [] {
      assert a + b == a;
    } else {
      assert (a + b)[..|a + b| - 1] == a + b[..|b| - 1];
      RunAppend(l, a, b[..|b| - 1]);
    }
  }

  lemma RunOne(l: Lexer, c: char)
    ensures Run(l, [c]) == Step(l, c)
  {
    assert [c][..0] == [];
  }

  /** Once it has left the subset the lexer stays out. */
  lemma {:induction false} RunRejected(l: Lexer, s: string)
    requires l.mode == Rejected
    ensures Run(l, s) == l
    decreases |s|
  {
    if s != [] {
      RunRejected(l, s[..|s| - 1]);
    }
  }

  /** A run of plain characters extends the current word. */
  lemma {:induction false} RunPlain(l: Lexer, s: string)
    requires l.mode == Unquoted && Plain(s)
    ensures Run(l, s) == l.(word := l.word + s)
    decreases |s|
  {
    if s != [] {
      var s' := s[..|s| - 1];
      assert Plain(s') by { forall i | 0 <= i < |s'| ensures !IsSpecial(s'[i]) { assert s'[i] == s[i]; } }
      RunPlain(l, s');
      assert !IsSpecial(s[|s| - 1]);
      assert l.word + s' + [s[|s| - 1]] == l.word + s;
    }
  }

  /** A non-empty plain string read between words is one whole word. */
  lemma PlainWord(ts: seq<Token>, s: string)
    requires s != [] && Plain(s)
    ensures Run(Lexer(Between, ts, []), s) == Lexer(Unquoted, ts, s)
  {
    var l := Lexer(Between, ts, []);
    assert s == [s[0]] + s[1..];
    RunAppend(l, [s[0]], s[1..]);
    RunOne(l, s[0]);
    assert !IsSpecial(s[0]);
    assert Plain(s[1..]) by { forall i | 0 <= i < |s[1..]| ensures !IsSpecial(s[1..][i]) { assert s[1..][i] == s[i + 1]; } }
    RunPlain(Lexer(Unquoted, ts, [s[0]]), s[1..]);
  }

  // ---------------------------------------------------------------------
  // Single quotes: `s.replace('\'', "'\\''")` wrapped in '...'
  // ---------------------------------------------------------------------

  /** `escape_single_quotes` / `escape_quotes`: each `'` becomes `'\''`. */
  function EscapeSingleQuotes(s: string): string
  {
    ReplaceChar(s, '\'', "'\\''")
  }

  lemma EscapedQuoteInSingle(ts: seq<Token>, w: string)
    ensures Run(Lexer(InSingle, ts, w), "'\\''") == Lexer(InSingle, ts, w + "'")
  {
    var q := "'\\''";
    assert q == ['\''] + ['\\'] + ['\''] + ['\''];
    var l0 := Lexer(InSingle, ts, w);
    RunAppend(l0, ['\''] + ['\\'] + ['\''], ['\'']);
    RunAppend(l0, ['\''] + ['\\'], ['\'']);
    RunAppend(l0, ['\''], ['\\']);
    RunOne(l0, '\'');
    var l1 := Lexer(Unquoted, ts, w);
    RunOne(l1, '\\');
    var l2 := Lexer(Escaped, ts, w);
    RunOne(l2, '\'');
    var l3 := Lexer(Unquoted, ts, w + "'");
    RunOne(l3, '\'');
  }

  /** One character of the escaped text inside single quotes adds that character to the word. */
  lemma SingleQuotedStep(ts: seq<Token>, w: string, c: char)
    ensures Run(Lexer(InSingle, ts, w), if c == '\'' then "'\\''" else [c]) == Lexer(InSingle, ts, w + [c])
  {
    if c == '\'' {
      EscapedQuoteInSingle(ts, w);
    } else {
      RunOne(Lexer(InSingle, ts, w), c);
    }
  }

  /** Inside single quotes the escaped text reads back as the original. */
  lemma {:induction false} SingleQuotedBody(ts: seq<Token>, w: string, s: string)
    ensures Run(Lexer(InSingle, ts, w), EscapeSingleQuotes(s)) == Lexer(InSingle, ts, w + s)
    decreases |s|
  {
    if s == [] {
      assert w + s == w;
    } else {
      var s', c := s[..|s| - 1], s[|s| - 1];
      var piece := if c == '\'' then "'\\''" else [c];
      assert EscapeSingleQuotes(s) == EscapeSingleQuotes(s') + piece;
      RunAppend(Lexer(InSingle, ts, w), EscapeSingleQuotes(s'), piece);
      SingleQuotedBody(ts, w, s');
      SingleQuotedStep(ts, w + s', c);
      assert w + s' + [c] == w + s;
    }
  }

  /** `'` + EscapeSingleQuotes(s) + `'`, read inside or at the start of a word, adds exactly `s` to it. */
  lemma SingleQuoted(l: Lexer, s: string)
    requires l.mode == Unquoted || (l.mode == Between && l.word == [])
    ensures Run(l, "'" + EscapeSingleQuotes(s) + "'") == Lexer(Unquoted, l.tokens, l.word + s)
  {
    var e := EscapeSingleQuotes(s);
    RunAppend(l, "'" + e, "'");
    RunAppend(l, "'", e);
    RunOne(l, '\'');
    SingleQuotedBody(l.tokens, l.word, s);
    RunOne(Lexer(InSingle, l.tokens, l.word + s), '\'');
  }

  lemma SingleQuotedRoundTrip(s: string)
    ensures Tokens("'" + EscapeSingleQuotes(s) + "'") == Some([Word(s)])
  {
    SingleQuoted(Start, s);
    assert Start.word + s == s;
    assert Start.tokens + [Word(s)] == [Word(s)];
  }

  // ---------------------------------------------------------------------
  // Double quotes: the replace chain of `escape_arg` / `escape_for_bash_c`
  // ---------------------------------------------------------------------

  /** `s.replace('\\', "\\\\").replace('"', "\\\"").replace('$', "\\$").replace('`', "\\`")`. */
  function EscapeDoubleQuoted(s: string): string
  {
    ReplaceChar(ReplaceChar(ReplaceChar(ReplaceChar(s, '\\', "\\\\"), '"', "\\\""), '$', "\\$"), '`', "\\`")
  }

  predicate QuotedInDouble(c: char) {
    c == '\\' || c == '"' || c == '$' || c == '`'
  }

  /** Character-wise reference: a backslash before each of \ " $ `. */
  function EscapeDoubleChars(s: string): string
  {
    if s == [] then []
    else
      var c := s[|s| - 1];
      EscapeDoubleChars(s[..|s| - 1]) + (if QuotedInDouble(c) then ['\\', c] else [c])
  }

  lemma EscapeDoubleQuotedAppend(a: string, b: string)
    ensures EscapeDoubleQuoted(a + b) == EscapeDoubleQuoted(a) + EscapeDoubleQuoted(b)
  {
    var r1a, r1b := ReplaceChar(a, '\\', "\\\\"), ReplaceChar(b, '\\', "\\\\");
    ReplaceCharAppend(a, b, '\\', "\\\\");
    var r2a, r2b := ReplaceChar(r1a, '"', "\\\""), ReplaceChar(r1b, '"', "\\\"");
    ReplaceCharAppend(r1a, r1b, '"', "\\\"");
    var r3a, r3b := ReplaceChar(r2a, '$', "\\$"), ReplaceChar(r2b, '$', "\\$");
    ReplaceCharAppend(r2a, r2b, '$', "\\$");
    ReplaceCharAppend(r3a, r3b, '`', "\\`");
  }

  lemma ReplaceCharOne(c: char, d: char, with: string)
    ensures ReplaceChar([c], d, with) == if c == d then with else [c]
  {
    assert [c][..0] == [];
  }

  lemma ReplaceCharPair(a: char, b: char, d: char, with: string)
    requires a != d && b != d
    ensures ReplaceChar([a, b], d, with) == [a, b]
  {
    ReplaceCharAbsent([a, b], d, with);
  }

  lemma EscapeDoubleQuotedOne(c: char)
    ensures EscapeDoubleQuoted([c]) == if QuotedInDouble(c) then ['\\', c] else [c]
  {
    ReplaceCharOne(c, '\\', "\\\\");
    if c == '\\' {
      ReplaceCharPair('\\', '\\', '"', "\\\"");
      ReplaceCharPair('\\', '\\', '$', "\\$");
      ReplaceCharPair('\\', '\\', '`', "\\`");
    } else {
      ReplaceCharOne(c, '"', "\\\"");
      if c == '"' {
        ReplaceCharPair('\\', '"', '$', "\\$");
        ReplaceCharPair('\\', '"', '`', "\\`");
      } else {
        ReplaceCharOne(c, '$', "\\$");
        if c == '$' {
          ReplaceCharPair('\\', '$', '`', "\\`");
        } else {
          ReplaceCharOne(c, '`', "\\`");
        }
      }
    }
  }

  /**
   * The replace chain escapes each character on its own: because the
   * backslash is replaced first, the backslashes inserted by the later
   * replacements are not doubled again.
   */
  lemma {:induction false} EscapeDoubleQuotedCharwise(s: string)
    ensures EscapeDoubleQuoted(s) == EscapeDoubleChars(s)
    decreases |s|
  {
    if s == [] {
      assert EscapeDoubleQuoted(s) == [];
    } else {
      var s', c := s[..|s| - 1], s[|s| - 1];
      assert s == s' + [c];
      EscapeDoubleQuotedAppend(s', [c]);
      EscapeDoubleQuotedOne(c);
      EscapeDoubleQuotedCharwise(s');
    }
  }

  lemma {:induction false} DoubleQuotedBody(ts: seq<Token>, w: string, s: string)
    ensures Run(Lexer(InDouble, ts, w), EscapeDoubleChars(s)) == Lexer(InDouble, ts, w + s)
    decreases |s|
  {
    if s == [] {
      assert w + s == w;
    } else {
      var s', c := s[..|s| - 1], s[|s| - 1];
      var l := Lexer(InDouble, ts, w);
      var piece := if QuotedInDouble(c) then ['\\', c] else [c];
      RunAppend(l, EscapeDoubleChars(s'), piece);
      DoubleQuotedBody(ts, w, s');
      var m := Lexer(InDouble, ts, w + s');
      if QuotedInDouble(c) {
        assert piece == ['\\'] + [c];
        RunAppend(m, ['\\'], [c]);
        RunOne(m, '\\');
        RunOne(m.(mode := DoubleEscaped), c);
      } else {
        RunOne(m, c);
      }
      assert w + s' + [c] == w + s;
    }
  }

  /** `"` + EscapeDoubleQuoted(s) + `"`, read inside or at the start of a word, adds exactly `s` to it. */
  lemma DoubleQuoted(l: Lexer, s: string)
    requires l.mode == Unquoted || (l.mode == Between && l.word == [])
    ensures Run(l, "\"" + EscapeDoubleQuoted(s) + "\"") == Lexer(Unquoted, l.tokens, l.word + s)
  {
    var e := EscapeDoubleQuoted(s);
    EscapeDoubleQuotedCharwise(s);
    RunAppend(l, "\"" + e, "\"");
    RunAppend(l, "\"", e);
    RunOne(l, '"');
    DoubleQuotedBody(l.tokens, l.word, s);
    RunOne(Lexer(InDouble, l.tokens, l.word + s), '"');
  }

  lemma DoubleQuotedRoundTrip(s: string)
    ensures Tokens("\"" + EscapeDoubleQuoted(s) + "\"") == Some([Word(s)])
  {
    DoubleQuoted(Start, s);
    assert Start.word + s == s;
    assert Start.tokens + [Word(s)] == [Word(s)];
  }

  // ---------------------------------------------------------------------
  // escape_arg
  // ---------------------------------------------------------------------

  /** The test `escape_arg` applies before quoting: `"`, whitespace, `$`, backtick or backslash. */
  predicate QuotedByAdapters(a: string) {
    exists i | 0 <= i < |a| :: QuotedInDouble(a[i]) || IsWhitespace(a[i])
  }

  /** `escape_arg` of the adapters, as written. */
  function EscapeArgAsWritten(a: string): string
  {
    if QuotedByAdapters(a) then "\"" + EscapeDoubleQuoted(a) + "\"" else a
  }

  /** An argument can stand unquoted only when it is non-empty and every character stands for itself. */
  predicate NeedsQuoting(a: string) {
    a == [] || exists i | 0 <= i < |a| :: IsSpecial(a[i])
  }

  /** `escape_arg` with the quoting test widened to every argument the shell would not read back verbatim. */
  function EscapeArg(a: string): string
  {
    if NeedsQuoting(a) then "\"" + EscapeDoubleQuoted(a) + "\"" else a
  }

  /** `e` read between words is exactly the word `a`, whatever came before. */
  ghost predicate LexesAs(e: string, a: string) {
    forall ts: seq<Token> {:trigger Run(Lexer(Between, ts, []), e)} ::
      Run(Lexer(Between, ts, []), e) == Lexer(Unquoted, ts, a)
  }

  /** Every argument, quoted or not, reads back as exactly itself. */
  lemma EscapeArgRoundTrip(a: string)
    ensures LexesAs(EscapeArg(a), a)
    ensures Tokens(EscapeArg(a)) == Some([Word(a)])
  {
    forall ts: seq<Token> ensures Run(Lexer(Between, ts, []), EscapeArg(a)) == Lexer(Unquoted, ts, a) {
      if NeedsQuoting(a) {
        DoubleQuoted(Lexer(Between, ts, []), a);
      } else {
        assert Plain(a);
        PlainWord(ts, a);
      }
    }
    assert Run(Start, EscapeArg(a)) == Lexer(Unquoted, [], a);
    assert Start.tokens + [Word(a)] == [Word(a)];
  }

  /** The escaped argument never starts or ends with whitespace. */
  lemma EscapeArgEdges(a: string)
    ensures EscapeArg(a) != []
    ensures !IsWhitespace(EscapeArg(a)[0]) && !IsWhitespace(EscapeArg(a)[|EscapeArg(a)| - 1])
  {
    if !NeedsQuoting(a) {
      assert !IsWhitespace(a[0]) && !IsWhitespace(a[|a| - 1]);
    }
  }

  /** The widened test only adds cases: whenever the source quotes, or the argument is plain, the two agree. */
  lemma EscapeArgAgrees(a: string)
    requires QuotedByAdapters(a) || (a != [] && Plain(a))
    ensures EscapeArg(a) == EscapeArgAsWritten(a)
  {
    if QuotedByAdapters(a) {
      var i :| 0 <= i < |a| && (QuotedInDouble(a[i]) || IsWhitespace(a[i]));
      assert NeedsQuoting(a);
    } else {
      assert !NeedsQuoting(a);
    }
  }

  /** Inside single quotes, text without a quote goes into the word. */
  lemma {:induction false} RunInSingle(ts: seq<Token>, w: string, s: string)
    requires forall i | 0 <= i < |s| :: s[i] != '\''
    ensures Run(Lexer(InSingle, ts, w), s) == Lexer(InSingle, ts, w + s)
    decreases |s|
  {
    if s == [] {
      assert w + s == w;
    } else {
      var s', c := s[..|s| - 1], s[|s| - 1];
      assert forall i | 0 <= i < |s'| :: s'[i] == s[i];
      RunInSingle(ts, w, s');
      assert w + s' + [c] == w + s;
    }
  }

  /** Plain text holds nothing the source's quoting test looks for. */
  lemma PlainNotQuoted(s: string)
    requires Plain(s)
    ensures !QuotedByAdapters(s)
  {
    forall i | 0 <= i < |s| ensures !(QuotedInDouble(s[i]) || IsWhitespace(s[i])) {
      assert !IsSpecial(s[i]);
    }
  }

  /** The source's quoting test fires on a concatenation only if it fires on a part. */
  lemma NotQuotedAppend(a: string, b: string)
    requires !QuotedByAdapters(a) && !QuotedByAdapters(b)
    ensures !QuotedByAdapters(a + b)
  {
    forall i | 0 <= i < |a + b| ensures !(QuotedInDouble((a + b)[i]) || IsWhitespace((a + b)[i])) {
      if i < |a| { assert (a + b)[i] == a[i]; } else { assert (a + b)[i] == b[i - |a|]; }
    }
  }

  /** A plain word, a single quote and plain text: the source's quoting test does not fire. */
  lemma ApostropheNotQuoted(w: string, rest: string)
    requires Plain(w) && Plain(rest)
    ensures !QuotedByAdapters(w + "'" + rest)
  {
    PlainNotQuoted(w);
    PlainNotQuoted(rest);
    assert !QuotedByAdapters("'");
    NotQuotedAppend(w, "'");
    NotQuotedAppend(w + "'", rest);
  }

  /** A plain word followed by a quote that is never closed leaves the subset. */
  lemma ApostropheUnterminated(w: string, rest: string)
    requires w != [] && Plain(w) && Plain(rest)
    ensures Tokens(w + "'" + rest) == None
  {
    PlainWord([], w);
    RunAppend(Start, w, "'");
    RunOne(Lexer(Unquoted, [], w), '\'');
    RunAppend(Start, w + "'", rest);
    assert forall i | 0 <= i < |rest| :: rest[i] != '\'' by {
      forall i | 0 <= i < |rest| ensures rest[i] != '\'' { assert !IsSpecial(rest[i]); }
    }
    RunInSingle([], w, rest);
  }

  /**
   * As written, an argument holding a single quote (such as `it's`) is
   * passed unquoted and leaves an unterminated quote; the widened test
   * quotes it and it reads back as itself.
   */
  lemma EscapeArgAsWrittenApostrophe(w: string, rest: string)
    requires w != [] && Plain(w) && Plain(rest)
    ensures EscapeArgAsWritten(w + "'" + rest) == w + "'" + rest
    ensures Tokens(w + "'" + rest) == None
    ensures Tokens(EscapeArg(w + "'" + rest)) == Some([Word(w + "'" + rest)])
  {
    ApostropheNotQuoted(w, rest);
    ApostropheUnterminated(w, rest);
    EscapeArgRoundTrip(w + "'" + rest);
  }

  /** As written, an empty argument is passed as nothing at all and the word disappears. */
  lemma EscapeArgAsWrittenEmpty()
    ensures EscapeArgAsWritten("") == ""
    ensures Tokens("x " + EscapeArgAsWritten("")) == Some([Word("x")])
    ensures Tokens("x " + EscapeArg("")) == Some([Word("x"), Word("")])
  {
    assert !QuotedByAdapters("");
    PlainWord([], "x");
    RunAppend(Start, "x", " ");
    RunOne(Lexer(Unquoted, [], "x"), ' ');
    var b := Lexer(Between, [Word("x")], []);
    assert Run(Start, "x ") == b;
    assert "x " + "" == "x ";
    assert EscapeArg("") == "\"" + EscapeDoubleQuoted("") + "\"";
    RunAppend(Start, "x ", EscapeArg(""));
    DoubleQuoted(b, "");
    assert b.word + "" == "";
    assert [Word("x")] + [Word("")] == [Word("x"), Word("")];
  }

  // ---------------------------------------------------------------------
  // Command lines made of words
  // ---------------------------------------------------------------------

  function EscapeArgs(args: seq<string>): (r: seq<string>)
    ensures |r| == |args|
    ensures forall i | 0 <= i < |args| :: r[i] == EscapeArg(args[i])
  {
    if args == [] then [] else EscapeArgs(args[..|args| - 1]) + [EscapeArg(args[|args| - 1])]
  }

  /** The escaped arguments joined by spaces, as `args_str.join(" ")`. */
  function JoinArgs(args: seq<string>): string
  {
    Join(EscapeArgs(args), " ")
  }

  /** Reading the joined arguments between words yields every argument but the last as a word, the last still open. */
  lemma {:induction false} JoinArgsLex(ts: seq<Token>, args: seq<string>)
    requires args != []
    ensures Run(Lexer(Between, ts, []), JoinArgs(args)) == Lexer(Unquoted, ts + Words(args[..|args| - 1]), args[|args| - 1])
    decreases |args|
  {
    if |args| == 1 {
      JoinArgsOne(ts, args);
    } else {
      JoinArgsLex(ts, args[..|args| - 1]);
      JoinArgsStep(ts, args);
    }
  }

  lemma JoinArgsOne(ts: seq<Token>, args: seq<string>)
    requires |args| == 1
    ensures Run(Lexer(Between, ts, []), JoinArgs(args)) == Lexer(Unquoted, ts + Words(args[..|args| - 1]), args[|args| - 1])
  {
    assert JoinArgs(args) == EscapeArg(args[0]);
    assert ts + Words(args[..0]) == ts;
    EscapeArgRoundTrip(args[0]);
  }

  /** One more argument after the ones already read. */
  lemma JoinArgsStep(ts: seq<Token>, args: seq<string>)
    requires |args| > 1
    requires var init := args[..|args| - 1];
      Run(Lexer(Between, ts, []), JoinArgs(init)) == Lexer(Unquoted, ts + Words(init[..|init| - 1]), init[|init| - 1])
    ensures Run(Lexer(Between, ts, []), JoinArgs(args)) == Lexer(Unquoted, ts + Words(args[..|args| - 1]), args[|args| - 1])
  {
    var n := |args|;
    var init := args[..n - 1];
    var e := EscapeArg(args[n - 1]);
    var l := Lexer(Between, ts, []);
    var mid := Lexer(Unquoted, ts + Words(init[..n - 2]), init[n - 2]);
    assert Run(mid, " " + e) == Lexer(Unquoted, ts + Words(init), args[n - 1]) by {
      assert Run(Lexer(Between, ts + Words(init), []), e) == Lexer(Unquoted, ts + Words(init), args[n - 1]) by {
        EscapeArgRoundTrip(args[n - 1]);
      }
      NextArg(ts, init, args[n - 1], e);
    }
    assert JoinArgs(args) == JoinArgs(init) + (" " + e) by {
      JoinArgsSnoc(args);
    }
    RunAppend(l, JoinArgs(init), " " + e);
  }

  lemma JoinArgsSnoc(args: seq<string>)
    requires |args| > 1
    ensures JoinArgs(args) == JoinArgs(args[..|args| - 1]) + (" " + EscapeArg(args[|args| - 1]))
  {
    var n := |args|;
    var es := EscapeArgs(args);
    assert EscapeArgs(args[..n - 1]) == es[..n - 1];
    assert es == es[..n - 1] + [EscapeArg(args[n - 1])];
    JoinSnoc(es[..n - 1], " ", EscapeArg(args[n - 1]));
  }

  /** A blank and the next argument, written as `e`, end the open word and read the argument. */
  lemma NextArg(ts: seq<Token>, init: seq<string>, a: string, e: string)
    requires init != []
    requires Run(Lexer(Between, ts + Words(init), []), e) == Lexer(Unquoted, ts + Words(init), a)
    ensures Run(Lexer(Unquoted, ts + Words(init[..|init| - 1]), init[|init| - 1]), " " + e)
      == Lexer(Unquoted, ts + Words(init), a)
  {
    var n := |init|;
    var mid := Lexer(Unquoted, ts + Words(init[..n - 1]), init[n - 1]);
    assert Run(mid, " ") == Lexer(Between, ts + Words(init), []) by {
      RunOne(mid, ' ');
      assert init[..n - 1] + [init[n - 1]] == init;
      WordsAppend(init[..n - 1], [init[n - 1]]);
    }
    RunAppend(mid, " ", e);
  }

  /** The joined arguments, read after a blank, are exactly the arguments as words. */
  lemma AfterBlankArgs(ts: seq<Token>, args: seq<string>)
    ensures Finish(Run(Lexer(Between, ts, []), JoinArgs(args))) == Some(ts + Words(args))
  {
    var l := Lexer(Between, ts, []);
    if args == [] {
      assert JoinArgs(args) == [];
      assert ts + Words(args) == ts;
    } else {
      var n := |args|;
      var init, last := args[..n - 1], args[n - 1];
      var m := Lexer(Unquoted, ts + Words(init), last);
      assert Run(l, JoinArgs(args)) == m by { JoinArgsLex(ts, args); }
      assert ts + Words(args) == ts + Words(init) + [Word(last)] by {
        assert Words(args) == Words(init) + [Word(last)];
      }
    }
  }

  /** The joined list starts and ends with a non-blank character (when there are arguments). */
  lemma JoinArgsEdges(args: seq<string>)
    requires args != []
    ensures JoinArgs(args) != []
    ensures !IsWhitespace(JoinArgs(args)[0]) && !IsWhitespace(JoinArgs(args)[|JoinArgs(args)| - 1])
    ensures JoinArgs(args)[0] == EscapeArg(args[0])[0]
    ensures JoinArgs(args)[|JoinArgs(args)| - 1] == EscapeArg(args[|args| - 1])[|EscapeArg(args[|args| - 1])| - 1]
  {
    forall i | 0 <= i < |args| ensures EscapeArgs(args)[i] != [] {
      EscapeArgEdges(args[i]);
    }
    JoinEdges(EscapeArgs(args));
    EscapeArgEdges(args[0]);
    EscapeArgEdges(args[|args| - 1]);
  }

  lemma {:induction false} JoinEdges(es: seq<string>)
    requires es != [] && forall i | 0 <= i < |es| :: es[i] != []
    ensures Join(es, " ") != []
    ensures Join(es, " ")[0] == es[0][0]
    ensures Join(es, " ")[|Join(es, " ")| - 1] == es[|es| - 1][|es[|es| - 1]| - 1]
    decreases |es|
  {
    if |es| > 1 {
      var init := es[..|es| - 1];
      JoinEdges(init);
    }
  }

  /**
   * A program name followed by the joined arguments, trimmed as the
   * adapters do: the program word followed by one word per argument.
   */
  lemma CommandLine(name: string, args: seq<string>)
    requires name != [] && Plain(name)
    ensures Tokens(Trim(name + " " + JoinArgs(args))) == Some([Word(name)] + Words(args))
  {
    var line := name + " " + JoinArgs(args);
    PlainWord([], name);
    RunAppend(Start, name, " ");
    RunOne(Lexer(Unquoted, [], name), ' ');
    var b := Lexer(Between, [Word(name)], []);
    assert Run(Start, name + " ") == b;
    RunAppend(Start, name + " ", JoinArgs(args));
    AfterBlankArgs([Word(name)], args);
    assert !IsSpecial(name[0]) && !IsSpecial(name[|name| - 1]);
    if args == [] {
      assert line == name + " ";
      TrimStartKeepsSuffix(name, " ");
      TrimEndWhitespaceSuffix(name, " ");
      TrimEndIdempotent(name);
      assert Trim(line) == name;
    } else {
      JoinArgsEdges(args);
      assert line[0] == name[0];
      assert line[|line| - 1] == JoinArgs(args)[|JoinArgs(args)| - 1];
      TrimUntouched(line);
    }
  }
}
