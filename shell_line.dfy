/**
 * Command lines that the command builder puts together with `format!`:
 * pieces separated by single blanks, each a bare word, a double-quoted
 * value (escaped or inserted as is), a single-quoted value escaped by
 * `escape_quotes`, or the `&&` operator.  `First`, `Then` and `Done` say
 * what the shell reads as such a line is read piece by piece, so each
 * builder's lemma follows its format string from left to right.
 */
module ShellLine {
  import opened Wrappers
  import opened Strings
  import opened Shell

  datatype Piece =
    | Bare(text: string)    // written as is
    | Raw(text: string)     // `"{}"`, the value inserted without escaping
    | Double(text: string)  // `"{}"` around the value escaped for double quotes
    | Single(text: string)  // `'{}'` around `escape_quotes` of the value
    | And                   // `&&`

  function Show(p: Piece): string
  {
    match p
    case Bare(s) => s
    case Raw(s) => "\"" + s + "\""
    case Double(s) => "\"" + EscapeDoubleQuoted(s) + "\""
    case Single(s) => "'" + EscapeSingleQuotes(s) + "'"
    case And => "&&"
  }

  /** No character that has a meaning inside double quotes. */
  predicate SafeInDouble(s: string)
  {
    forall i | 0 <= i < |s| :: !QuotedInDouble(s[i])
  }

  /** A bare word must be plain and a raw value free of quoting characters; the rest always read back. */
  predicate Readable(p: Piece)
  {
    match p
    case Bare(s) => s != [] && Plain(s)
    case Raw(s) => SafeInDouble(s)
    case _ => true
  }

  /** Inserting a value without escaping is the same as escaping it when it needs none. */
  lemma RawIsDouble(s: string)
    requires SafeInDouble(s)
    ensures EscapeDoubleQuoted(s) == s
  {
    assert '\\' !in s && '"' !in s && '$' !in s && '`' !in s by {
      forall i | 0 <= i < |s| ensures s[i] != '\\' && s[i] != '"' && s[i] != '$' && s[i] != '`' {
        assert !QuotedInDouble(s[i]);
      }
    }
    ReplaceCharAbsent(s, '\\', "\\\\");
    ReplaceCharAbsent(s, '"', "\\\"");
    ReplaceCharAbsent(s, '$', "\\$");
    ReplaceCharAbsent(s, '`', "\\`");
  }

  /** One piece read between words. */
  lemma PieceRun(ts: seq<Token>, p: Piece)
    requires Readable(p)
    ensures Run(Lexer(Between, ts, []), Show(p)) ==
      if p.And? then Lexer(Between, ts + [AndIf], []) else Lexer(Unquoted, ts, p.text)
  {
    var l := Lexer(Between, ts, []);
    match p
    case Bare(s) => PlainWord(ts, s);
    case Raw(s) =>
      RawIsDouble(s);
      DoubleQuoted(l, s);
      assert l.word + s == s;
    case Double(s) =>
      DoubleQuoted(l, s);
      assert l.word + s == s;
    case Single(s) =>
      SingleQuoted(l, s);
      assert l.word + s == s;
    case And =>
      assert Show(p) == ['&'] + ['&'];
      RunAppend(l, ['&'], ['&']);
      RunOne(l, '&');
      RunOne(Lexer(AfterAmp, ts, []), '&');
  }

  /** A state in which the lexer is inside a word or between words with nothing pending. */
  predicate Open(l: Lexer)
  {
    l.mode == Unquoted || (l.mode == Between && l.word == [])
  }

  /** The tokens read so far, with the current word ended. */
  function Closed(l: Lexer): seq<Token>
  {
    if l.mode == Unquoted then l.tokens + [Word(l.word)] else l.tokens
  }

  /** The state after reading a piece by itself from an open state and a blank. */
  function Past(l: Lexer, p: Piece): Lexer
  {
    if p.And? then Lexer(Between, Closed(l) + [AndIf], []) else Lexer(Unquoted, Closed(l), p.text)
  }

  /** The first piece of a line. */
  lemma First(p: Piece)
    requires Readable(p)
    ensures Run(Start, Show(p)) == Past(Start, p)
  {
    PieceRun([], p);
  }

  /** A blank and one more piece after a line read so far. */
  lemma Then(line: string, p: Piece)
    requires Open(Run(Start, line)) && Readable(p)
    ensures Run(Start, line + " " + Show(p)) == Past(Run(Start, line), p)
  {
    var l := Run(Start, line);
    RunAppend(Start, line, " ");
    RunOne(l, ' ');
    RunAppend(Start, line + " ", Show(p));
    PieceRun(Closed(l), p);
  }

  /** A line that ends in an open state is complete: its tokens are the ones read. */
  lemma Done(line: string)
    requires Open(Run(Start, line))
    ensures Tokens(line) == Some(Closed(Run(Start, line)))
  {
  }

  /** A blank and a word piece after a line that ends inside the word `w`. */
  lemma ThenWord(line: string, ts: seq<Token>, w: string, p: Piece)
    requires Run(Start, line) == Lexer(Unquoted, ts, w) && Readable(p) && !p.And?
    ensures Run(Start, line + " " + Show(p)) == Lexer(Unquoted, ts + [Word(w)], p.text)
  {
    Then(line, p);
  }

  /** A blank and `&&` after a line that ends inside the word `w`. */
  lemma ThenAnd(line: string, ts: seq<Token>, w: string)
    requires Run(Start, line) == Lexer(Unquoted, ts, w)
    ensures Run(Start, line + " " + Show(And)) == Lexer(Between, ts + [Word(w), AndIf], [])
  {
    Then(line, And);
    assert ts + [Word(w)] + [AndIf] == ts + [Word(w), AndIf];
  }

  /** A blank and a word piece after `&&`. */
  lemma ThenAfterAnd(line: string, ts: seq<Token>, p: Piece)
    requires Run(Start, line) == Lexer(Between, ts, []) && Readable(p) && !p.And?
    ensures Run(Start, line + " " + Show(p)) == Lexer(Unquoted, ts, p.text)
  {
    Then(line, p);
  }

  /** A line that ends inside the word `w` yields the tokens before it and `w`. */
  lemma DoneWord(line: string, ts: seq<Token>, w: string)
    requires Run(Start, line) == Lexer(Unquoted, ts, w)
    ensures Tokens(line) == Some(ts + [Word(w)])
  {
  }

  /** A line that ends with a blank and a last word piece after the word `w`. */
  lemma DoneAfter(line: string, ts: seq<Token>, w: string, p: Piece)
    requires Run(Start, line) == Lexer(Unquoted, ts, w) && Readable(p) && !p.And?
    ensures Tokens(line + " " + Show(p)) == Some(ts + [Word(w), Word(p.text)])
  {
    ThenWord(line, ts, w, p);
    DoneWord(line + " " + Show(p), ts + [Word(w)], p.text);
    assert ts + [Word(w)] + [Word(p.text)] == ts + [Word(w), Word(p.text)];
  }

  /** Two word pieces after a line that ends inside the word `w`. */
  lemma ThenWords2(line: string, ts: seq<Token>, w: string, p: Piece, q: Piece)
    requires Run(Start, line) == Lexer(Unquoted, ts, w)
    requires Readable(p) && !p.And? && Readable(q) && !q.And?
    ensures Run(Start, line + " " + Show(p) + " " + Show(q)) == Lexer(Unquoted, ts + [Word(w), Word(p.text)], q.text)
  {
    ThenWord(line, ts, w, p);
    ThenWord(line + " " + Show(p), ts + [Word(w)], p.text, q);
    assert ts + [Word(w)] + [Word(p.text)] == ts + [Word(w), Word(p.text)];
  }

  /** Three word pieces after a line that ends inside the word `w`. */
  lemma ThenWords3(line: string, ts: seq<Token>, w: string, p: Piece, q: Piece, r: Piece)
    requires Run(Start, line) == Lexer(Unquoted, ts, w)
    requires Readable(p) && !p.And? && Readable(q) && !q.And? && Readable(r) && !r.And?
    ensures Run(Start, line + " " + Show(p) + " " + Show(q) + " " + Show(r))
      == Lexer(Unquoted, ts + [Word(w), Word(p.text), Word(q.text)], r.text)
  {
    ThenWords2(line, ts, w, p, q);
    ThenWord(line + " " + Show(p) + " " + Show(q), ts + [Word(w), Word(p.text)], q.text, r);
    assert ts + [Word(w), Word(p.text)] + [Word(q.text)] == ts + [Word(w), Word(p.text), Word(q.text)];
  }

  // ---------------------------------------------------------------------
  // Reading a line after a prefix
  // ---------------------------------------------------------------------

  function Shifted(l: Lexer, ts: seq<Token>): Lexer
  {
    l.(tokens := ts + l.tokens)
  }

  lemma StepShift(l: Lexer, ts: seq<Token>, c: char)
    ensures Step(Shifted(l, ts), c) == Shifted(Step(l, c), ts)
  {
  }

  /** The tokens already read do not influence how the rest is read. */
  lemma {:induction false} RunShift(l: Lexer, ts: seq<Token>, s: string)
    ensures Run(Shifted(l, ts), s) == Shifted(Run(l, s), ts)
    decreases |s|
  {
    if s != [] {
      RunShift(l, ts, s[..|s| - 1]);
      StepShift(Run(l, s[..|s| - 1]), ts, s[|s| - 1]);
    }
  }

  /** A command read after a prefix that ends between words adds its own tokens, or is rejected as it would be alone. */
  lemma TokensAfter(prefix: string, ts: seq<Token>, s: string)
    requires Run(Start, prefix) == Lexer(Between, ts, [])
    ensures Tokens(prefix + s) == (if Tokens(s).Some? then Some(ts + Tokens(s).value) else None)
  {
    RunAppend(Start, prefix, s);
    assert Lexer(Between, ts, []) == Shifted(Start, ts);
    RunShift(Start, ts, s);
    var r := Run(Start, s);
    if r.mode == Unquoted {
      assert ts + r.tokens + [Word(r.word)] == ts + (r.tokens + [Word(r.word)]);
    }
  }
}
