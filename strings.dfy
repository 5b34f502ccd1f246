/**
 * The pieces of Rust's `str` API the core relies on: `trim`, `starts_with`,
 * `split`, `lines`, `replace` and `join`, over `string = seq<char>`.
 */
module Strings {
  /**
   * Rust's `char::is_whitespace` restricted to ASCII: space, tab, line feed,
   * carriage return, vertical tab and form feed.
   */
  predicate IsWhitespace(c: char) {
    c == ' ' || c == '\t' || c == '\n' || c == '\r' || c == '\U{000B}' || c == '\U{000C}'
  }

  predicate AllWhitespace(s: string) {
    forall i | 0 <= i < |s| :: IsWhitespace(s[i])
  }

  /** `str::trim_start`: drops the leading whitespace. */
  function TrimStart(s: string): string
  {
    if s != [] && IsWhitespace(s[0]) then TrimStart(s[1..]) else s
  }

  /** `trim_start` removes a whitespace-only prefix and leaves a text that does not start with whitespace. */
  lemma {:induction false} TrimStartShape(s: string)
    ensures |TrimStart(s)| <= |s| && TrimStart(s) == s[|s| - |TrimStart(s)|..]
    ensures AllWhitespace(s[..|s| - |TrimStart(s)|])
    ensures TrimStart(s) == [] || !IsWhitespace(TrimStart(s)[0])
    decreases |s|
  {
    if s != [] && IsWhitespace(s[0]) {
      TrimStartShape(s[1..]);
      var k := |s[1..]| - |TrimStart(s[1..])|;
      assert s[..k + 1] == [s[0]] + s[1..][..k];
    }
  }

  /** `str::trim_end`: drops the trailing whitespace. */
  function TrimEnd(s: string): string
  {
    if s != [] && IsWhitespace(s[|s| - 1]) then TrimEnd(s[..|s| - 1]) else s
  }

  /** `trim_end` removes a whitespace-only suffix and leaves a text that does not end with whitespace. */
  lemma {:induction false} TrimEndShape(s: string)
    ensures |TrimEnd(s)| <= |s| && TrimEnd(s) == s[..|TrimEnd(s)|]
    ensures AllWhitespace(s[|TrimEnd(s)|..])
    ensures TrimEnd(s) == [] || !IsWhitespace(TrimEnd(s)[|TrimEnd(s)| - 1])
    decreases |s|
  {
    if s != [] && IsWhitespace(s[|s| - 1]) {
      var init := s[..|s| - 1];
      TrimEndShape(init);
      var k := |TrimEnd(init)|;
      assert s[k..] == init[k..] + [s[|s| - 1]];
    }
  }

  /** `str::trim`: the longest infix between a whitespace prefix and a whitespace suffix. */
  function Trim(s: string): (r: string)
  {
    TrimEnd(TrimStart(s))
  }

  /** The trimmed text sits between a whitespace-only prefix and suffix of the input and has none of its own at either end. */
  lemma TrimShape(s: string)
    ensures exists i, j :: 0 <= i <= j <= |s| && Trim(s) == s[i..j] && AllWhitespace(s[..i]) && AllWhitespace(s[j..])
    ensures Trim(s) == [] || (!IsWhitespace(Trim(s)[0]) && !IsWhitespace(Trim(s)[|Trim(s)| - 1]))
  {
    var t := TrimStart(s);
    TrimStartShape(s);
    TrimEndShape(t);
    var i := |s| - |t|;
    var j := i + |TrimEnd(t)|;
    assert Trim(s) == s[i..j];
    assert s[j..] == t[|TrimEnd(t)|..];
    if Trim(s) != [] {
      assert TrimEnd(t)[0] == t[0];
    }
  }

  lemma TrimStartOfTrimmedEnd(s: string)
    requires s == [] || !IsWhitespace(s[0])
    ensures TrimStart(TrimEnd(s)) == TrimEnd(s)
  {
    TrimEndShape(s);
    if TrimEnd(s) != [] {
      assert TrimEnd(s)[0] == s[0];
    }
  }

  /** Trimming twice is trimming once. */
  lemma TrimIdempotent(s: string)
    ensures Trim(Trim(s)) == Trim(s)
  {
    var t := TrimStart(s);
    TrimStartShape(s);
    TrimStartOfTrimmedEnd(t);
    TrimEndShape(t);
    TrimEndIdempotent(TrimEnd(t));
  }

  lemma TrimEndIdempotent(s: string)
    requires s == [] || !IsWhitespace(s[|s| - 1])
    ensures TrimEnd(s) == s
  {
  }

  /** A text that neither starts nor ends with whitespace is its own trimmed form. */
  lemma TrimUntouched(s: string)
    requires s != [] && !IsWhitespace(s[0]) && !IsWhitespace(s[|s| - 1])
    ensures Trim(s) == s
  {
  }

  /** The trimmed text is empty exactly when the input is all whitespace. */
  lemma TrimEmptyIff(s: string)
    ensures Trim(s) == [] <==> AllWhitespace(s)
  {
    TrimShape(s);
    if Trim(s) == [] {
      var i, j :| 0 <= i <= j <= |s| && Trim(s) == s[i..j] && AllWhitespace(s[..i]) && AllWhitespace(s[j..]);
      assert i == j;
      forall k | 0 <= k < |s| ensures IsWhitespace(s[k]) {
        if k < i { assert s[k] == s[..i][k]; } else { assert s[k] == s[j..][k - j]; }
      }
    } else {
      var i, j :| 0 <= i <= j <= |s| && Trim(s) == s[i..j] && AllWhitespace(s[..i]) && AllWhitespace(s[j..]);
      assert s[i] == Trim(s)[0];
    }
  }

  lemma {:induction false} TrimStartWhitespacePrefix(w: string, s: string)
    requires AllWhitespace(w)
    ensures TrimStart(w + s) == TrimStart(s)
    decreases |w|
  {
    if w != [] {
      assert (w + s)[1..] == w[1..] + s;
      TrimStartWhitespacePrefix(w[1..], s);
    } else {
      assert w + s == s;
    }
  }

  lemma {:induction false} TrimEndWhitespaceSuffix(s: string, w: string)
    requires AllWhitespace(w)
    ensures TrimEnd(s + w) == TrimEnd(s)
    decreases |w|
  {
    if w != [] {
      assert (s + w)[..|s + w| - 1] == s + w[..|w| - 1];
      TrimEndWhitespaceSuffix(s, w[..|w| - 1]);
    } else {
      assert s + w == s;
    }
  }

  lemma {:induction false} TrimStartKeepsSuffix(s: string, w: string)
    requires s == [] || !IsWhitespace(s[0])
    requires s != [] || AllWhitespace(w)
    ensures TrimStart(s + w) == if s == [] then [] else s + w
  {
    if s != [] {
      assert (s + w)[0] == s[0];
    } else {
      assert s + w == w;
      TrimStartAllWhitespace(w);
    }
  }

  lemma {:induction false} TrimStartAllWhitespace(w: string)
    requires AllWhitespace(w)
    ensures TrimStart(w) == []
    decreases |w|
  {
    if w != [] { TrimStartAllWhitespace(w[1..]); }
  }

  /** Whitespace added around a text does not change what `trim` returns. */
  lemma {:induction false} TrimSurrounded(w1: string, s: string, w2: string)
    requires AllWhitespace(w1) && AllWhitespace(w2)
    ensures Trim(w1 + s + w2) == Trim(s)
  {
    var sw := s + w2;
    assert w1 + s + w2 == w1 + sw;
    TrimStartWhitespacePrefix(w1, sw);
    TrimStartOfPadded(s, w2);
    var t := TrimStart(s);
    if t != [] {
      TrimEndWhitespaceSuffix(t, w2);
    }
    assert Trim(w1 + s + w2) == TrimEnd(TrimStart(s + w2));
  }

  lemma {:induction false} TrimStartOfPadded(s: string, w: string)
    requires AllWhitespace(w)
    ensures TrimStart(s + w) == if TrimStart(s) == [] then [] else TrimStart(s) + w
  {
    var t := TrimStart(s);
    TrimStartShape(s);
    var p := s[..|s| - |t|];
    assert s == p + t;
    assert s + w == p + (t + w);
    TrimStartWhitespacePrefix(p, t + w);
    TrimStartKeepsSuffix(t, w);
  }

  /** `str::starts_with` for a string pattern. */
  predicate StartsWith(s: string, prefix: string) {
    |prefix| <= |s| && s[..|prefix|] == prefix
  }

  /** Number of occurrences of `c` in `s`. */
  function CountChar(s: string, c: char): nat
  {
    if s == [] then 0 else CountChar(s[..|s| - 1], c) + (if s[|s| - 1] == c then 1 else 0)
  }

  /**
   * `str::split` on a single character: the maximal separator-free pieces,
   * always at least one (the empty string splits to one empty piece).
   */
  function Split(s: string, sep: char): (r: seq<string>)
    ensures |r| >= 1
  {
    if s == [] then [[]]
    else
      var r := Split(s[..|s| - 1], sep);
      if s[|s| - 1] == sep then r + [[]]
      else r[..|r| - 1] + [r[|r| - 1] + [s[|s| - 1]]]
  }

  /** `slice::join`: the parts with `sep` between consecutive ones. */
  function Join(parts: seq<string>, sep: string): string
  {
    if parts == [] then []
    else if |parts| == 1 then parts[0]
    else Join(parts[..|parts| - 1], sep) + sep + parts[|parts| - 1]
  }

  lemma JoinSnoc(parts: seq<string>, sep: string, x: string)
    requires parts != []
    ensures Join(parts + [x], sep) == Join(parts, sep) + sep + x
  {
    assert (parts + [x])[..|parts|] == parts;
  }

  /** The joined string starts with the first part. */
  lemma {:induction false} JoinPrefix(parts: seq<string>, sep: string)
    requires parts != []
    ensures |parts[0]| <= |Join(parts, sep)| && Join(parts, sep)[..|parts[0]|] == parts[0]
    decreases |parts|
  {
    if |parts| > 1 {
      var init := parts[..|parts| - 1];
      JoinPrefix(init, sep);
      assert init[0] == parts[0];
      var j := Join(init, sep);
      assert (j + sep + parts[|parts| - 1])[..|parts[0]|] == j[..|parts[0]|];
    }
  }

  lemma JoinExtendLast(parts: seq<string>, sep: string, x: string)
    requires parts != []
    ensures Join(parts[..|parts| - 1] + [parts[|parts| - 1] + x], sep) == Join(parts, sep) + x
  {
    var init := parts[..|parts| - 1];
    if init == [] {
    } else {
      JoinSnoc(init, sep, parts[|parts| - 1] + x);
      assert parts == init + [parts[|parts| - 1]];
      JoinSnoc(init, sep, parts[|parts| - 1]);
    }
  }

  /** There is one piece more than there are separators, and no piece holds a separator. */
  lemma {:induction false} SplitPieces(s: string, sep: char)
    ensures |Split(s, sep)| == CountChar(s, sep) + 1
    ensures forall i | 0 <= i < |Split(s, sep)| :: sep !in Split(s, sep)[i]
    decreases |s|
  {
    if s != [] {
      SplitPieces(s[..|s| - 1], sep);
    }
  }

  /** Splitting and joining back with the same separator gives the input back. */
  lemma {:induction false} SplitJoin(s: string, sep: char)
    ensures Join(Split(s, sep), [sep]) == s
    decreases |s|
  {
    if s != [] {
      var init := s[..|s| - 1];
      var r := Split(init, sep);
      SplitJoin(init, sep);
      assert s == init + [s[|s| - 1]];
      if s[|s| - 1] == sep {
        JoinSnoc(r, [sep], []);
      } else {
        JoinExtendLast(r, [sep], [s[|s| - 1]]);
      }
    }
  }

  /** A text with no separator splits into itself alone. */
  lemma {:induction false} SplitNoSeparator(s: string, sep: char)
    requires sep !in s
    ensures Split(s, sep) == [s]
    decreases |s|
  {
    if s != [] {
      var init := s[..|s| - 1];
      assert sep !in init;
      SplitNoSeparator(init, sep);
      assert s[|s| - 1] in s;
      assert Split(s, sep) == [init + [s[|s| - 1]]];
      assert init + [s[|s| - 1]] == s;
    }
  }

  /** Appending one character to the text extends the pieces as `split` would. */
  lemma SplitSnoc(s: string, c: char, sep: char)
    ensures Split(s + [c], sep) == (
      var r := Split(s, sep);
      if c == sep then r + [[]] else r[..|r| - 1] + [r[|r| - 1] + [c]])
  {
    assert (s + [c])[..|s + [c]| - 1] == s;
  }

  /** `s.replace(c, with)`: every occurrence of the character `c` replaced by the string `with`. */
  function ReplaceChar(s: string, c: char, with: string): string
  {
    if s == [] then [] else ReplaceChar(s[..|s| - 1], c, with) + (if s[|s| - 1] == c then with else [s[|s| - 1]])
  }

  /** `replace` works character by character, so it distributes over concatenation. */
  lemma {:induction false} ReplaceCharAppend(a: string, b: string, c: char, with: string)
    ensures ReplaceChar(a + b, c, with) == ReplaceChar(a, c, with) + ReplaceChar(b, c, with)
    decreases |b|
  {
    if b == [] {
      assert a + b == a;
    } else {
      var b' := b[..|b| - 1];
      assert (a + b)[..|a + b| - 1] == a + b';
      ReplaceCharAppend(a, b', c, with);
    }
  }

  /** Replacing a character that does not occur changes nothing. */
  lemma {:induction false} ReplaceCharAbsent(s: string, c: char, with: string)
    requires c !in s
    ensures ReplaceChar(s, c, with) == s
    decreases |s|
  {
    if s != [] {
      assert c !in s[..|s| - 1];
      ReplaceCharAbsent(s[..|s| - 1], c, with);
    }
  }

  /** The line terminator `\r\n` loses its `\r` as well. */
  function StripCarriageReturn(line: string): string
  {
    if line != [] && line[|line| - 1] == '\r' then line[..|line| - 1] else line
  }

  /**
   * `str::lines`: the text split at each `\n`, a `\r` before the `\n` removed,
   * and no final empty line when the text ends with a line terminator.
   */
  function Lines(s: string): seq<string>
  {
    var parts := Split(s, '\n');
    var last := parts[|parts| - 1];
    StripAll(parts[..|parts| - 1]) + (if last == [] then [] else [last])
  }

  /** `StripCarriageReturn` applied to every line. */
  function StripAll(lines: seq<string>): (r: seq<string>)
    ensures |r| == |lines|
  {
    if lines == [] then [] else StripAll(lines[..|lines| - 1]) + [StripCarriageReturn(lines[|lines| - 1])]
  }
}
