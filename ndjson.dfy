/** Newline-delimited JSON: one JSON value per line (rust/src/streaming/ndjson.rs). */
module Ndjson {
  import opened Wrappers
  import opened Strings
  import opened Json

  /** A trimmed line that could hold an object or an array. */
  predicate StartsLikeJson(t: string)
  {
    t != [] && (t[0] == '{' || t[0] == '[')
  }

  /**
   * `parse_ndjson_line`: a blank line, or one whose trimmed text does not
   * begin with `{` or `[`, is skipped without consulting the parser;
   * otherwise the trimmed text is parsed and a parse failure is `None`.
   */
  function ParseLine(codec: Codec, line: string): (r: Option<Json>)
    ensures r.Some? ==> StartsLikeJson(Trim(line)) && codec.parse(Trim(line)) == r
    ensures AllWhitespace(line) ==> r.None?
  {
    var trimmed := Trim(line);
    TrimEmptyIff(line);
    if trimmed == [] then None
    else if !StartsLikeJson(trimmed) then None
    else codec.parse(trimmed)
  }

  /** A line holds a value exactly when its trimmed text begins like one and the parser accepts that text. */
  lemma ParseLineAccepts(codec: Codec, line: string)
    ensures ParseLine(codec, line).Some? <==> StartsLikeJson(Trim(line)) && codec.parse(Trim(line)).Some?
  {
  }

  /** The answer depends only on the trimmed line. */
  lemma ParseLineTrimInvariant(codec: Codec, line: string)
    ensures ParseLine(codec, line) == ParseLine(codec, Trim(line))
  {
    TrimIdempotent(line);
  }

  /** Whitespace around a line, such as a `\r` before its `\n`, does not change its value. */
  lemma ParseLineSurrounded(codec: Codec, w1: string, line: string, w2: string)
    requires AllWhitespace(w1) && AllWhitespace(w2)
    ensures ParseLine(codec, w1 + line + w2) == ParseLine(codec, line)
  {
    TrimSurrounded(w1, line, w2);
  }

  /** Empty, blank and non-JSON lines give `None` whatever the parser would say. */
  lemma ParseLineRejectsExamples(codec: Codec)
    ensures ParseLine(codec, "") == None
    ensures ParseLine(codec, "   ") == None
    ensures ParseLine(codec, "hello world") == None
    ensures ParseLine(codec, "123") == None
  {
    TrimUntouched("hello world");
    TrimUntouched("123");
    TrimStartAllWhitespace("   ");
  }

  /**
   * `stringify_ndjson_line`: nothing for `null`; otherwise the serialised
   * value followed by one line feed.
   */
  function StringifyLine(codec: Codec, v: Json, compact: bool): (r: string)
    ensures r == [] <==> v.Null?
    ensures r != [] ==> r == codec.serialize(v, compact) + "\n"
  {
    if v.Null? then [] else codec.serialize(v, compact) + "\n"
  }

  /** `stringify_ndjson`: the lines of all values, concatenated in order. */
  function StringifyAll(codec: Codec, vs: seq<Json>, compact: bool): string
  {
    if vs == [] then [] else StringifyAll(codec, vs[..|vs| - 1], compact) + StringifyLine(codec, vs[|vs| - 1], compact)
  }

  /** Rendering two runs of values renders each and concatenates. */
  lemma {:induction false} StringifyAllAppend(codec: Codec, a: seq<Json>, b: seq<Json>, compact: bool)
    ensures StringifyAll(codec, a + b, compact) == StringifyAll(codec, a, compact) + StringifyAll(codec, b, compact)
    decreases |b|
  {
    if b == [] {
      assert a + b == a;
    } else {
      var b', x := b[..|b| - 1], b[|b| - 1];
      var ab := a + b;
      assert ab[..|ab| - 1] == a + b' && ab[|ab| - 1] == x;
      StringifyAllAppend(codec, a, b', compact);
      var sa, sb', l := StringifyAll(codec, a, compact), StringifyAll(codec, b', compact), StringifyLine(codec, x, compact);
      assert StringifyAll(codec, ab, compact) == (sa + sb') + l;
      assert StringifyAll(codec, b, compact) == sb' + l;
      assert (sa + sb') + l == sa + (sb' + l);
    }
  }

  /** `null` values contribute nothing. */
  lemma StringifyAllSkipsNull(codec: Codec, a: seq<Json>, b: seq<Json>, compact: bool)
    ensures StringifyAll(codec, a + [Null] + b, compact) == StringifyAll(codec, a + b, compact)
  {
    StringifyAllAppend(codec, a + [Null], b, compact);
    StringifyAllAppend(codec, a, b, compact);
    assert (a + [Null])[..|a|] == a;
  }

  /** `filter_map(parse_ndjson_line)`: the values of the lines that hold one, in order. */
  function ParseLines(codec: Codec, lines: seq<string>): (r: seq<Json>)
    ensures |r| <= |lines|
  {
    if lines == [] then []
    else
      ParseLines(codec, lines[..|lines| - 1])
        + match ParseLine(codec, lines[|lines| - 1]) case Some(v) => [v] case None => []
  }

  /** Parsing two runs of lines parses each and concatenates. */
  lemma {:induction false} ParseLinesAppend(codec: Codec, a: seq<string>, b: seq<string>)
    ensures ParseLines(codec, a + b) == ParseLines(codec, a) + ParseLines(codec, b)
    decreases |b|
  {
    if b == [] {
      assert a + b == a;
    } else {
      var b' := b[..|b| - 1];
      assert (a + b)[..|a + b| - 1] == a + b';
      ParseLinesAppend(codec, a, b');
    }
  }

  /** `parse_ndjson`: the values of all lines of the text. */
  function ParseAll(codec: Codec, data: string): seq<Json>
  {
    ParseLines(codec, Lines(data))
  }

  /**
   * What the round trip needs from the opaque codec for one value: its
   * compact text has no line feed, begins with `{` or `[`, does not end in
   * whitespace, and parses back to the value. serde_json gives this for
   * objects and arrays.
   */
  predicate CompactLineRoundTrips(codec: Codec, v: Json)
  {
    var t := codec.serialize(v, true);
    !v.Null? && '\n' !in t && StartsLikeJson(t) && !IsWhitespace(t[|t| - 1]) && codec.parse(t) == Some(v)
  }

  lemma CompactLineParses(codec: Codec, v: Json)
    requires CompactLineRoundTrips(codec, v)
    ensures ParseLine(codec, codec.serialize(v, true)) == Some(v)
  {
    var t := codec.serialize(v, true);
    TrimEndIdempotent(t);
  }

  lemma {:induction false} SplitAppendNoSeparator(s: string, u: string, sep: char)
    requires sep !in u
    ensures Split(s + u, sep) == (var r := Split(s, sep); r[..|r| - 1] + [r[|r| - 1] + u])
    decreases |u|
  {
    if u == [] {
      assert s + u == s;
      var r := Split(s, sep);
      assert r[|r| - 1] + u == r[|r| - 1];
      assert r[..|r| - 1] + [r[|r| - 1]] == r;
    } else {
      var u', c := u[..|u| - 1], u[|u| - 1];
      assert u == u' + [c];
      assert sep !in u' && c != sep;
      SplitAppendNoSeparator(s, u', sep);
      assert s + u == (s + u') + [c];
      SplitSnoc(s + u', c, sep);
      var R := Split(s, sep);
      var r' := Split(s + u', sep);
      assert r'[..|r'| - 1] == R[..|R| - 1];
      assert r'[|r'| - 1] == R[|R| - 1] + u';
      assert R[|R| - 1] + u' + [c] == R[|R| - 1] + u;
    }
  }

  lemma SplitCompleteLine(x: string, t: string, pieces: seq<string>)
    requires Split(x, '\n') == pieces + [[]]
    requires '\n' !in t
    ensures Split(x + t + "\n", '\n') == pieces + [t] + [[]]
  {
    SplitAppendNoSeparator(x, t, '\n');
    var R := pieces + [[]];
    assert R[..|R| - 1] == pieces && R[|R| - 1] + t == t;
    assert x + t + "\n" == (x + t) + ['\n'];
    SplitSnoc(x + t, '\n', '\n');
  }

  /** The compact text of values meeting the codec assumption splits into one piece per value and an empty tail. */
  lemma {:induction false} SplitStringifyAll(codec: Codec, vs: seq<Json>)
    requires forall i | 0 <= i < |vs| :: CompactLineRoundTrips(codec, vs[i])
    ensures Split(StringifyAll(codec, vs, true), '\n') == Serialized(codec, vs) + [[]]
    decreases |vs|
  {
    if vs != [] {
      var init := vs[..|vs| - 1];
      var v := vs[|vs| - 1];
      var t := codec.serialize(v, true);
      assert CompactLineRoundTrips(codec, v);
      SplitStringifyAll(codec, init);
      SplitCompleteLine(StringifyAll(codec, init, true), t, Serialized(codec, init));
      assert StringifyAll(codec, vs, true) == StringifyAll(codec, init, true) + t + "\n";
      assert Serialized(codec, vs) == Serialized(codec, init) + [t];
    }
  }

  /** The compact texts of the values, in order. */
  function Serialized(codec: Codec, vs: seq<Json>): (r: seq<string>)
    ensures |r| == |vs|
  {
    if vs == [] then [] else Serialized(codec, vs[..|vs| - 1]) + [codec.serialize(vs[|vs| - 1], true)]
  }

  /**
   * Writer and reader agree: rendering values compactly and parsing the text
   * gives the values back, when the codec round-trips each of them.
   */
  lemma ParseAllStringifyAll(codec: Codec, vs: seq<Json>)
    requires forall i | 0 <= i < |vs| :: CompactLineRoundTrips(codec, vs[i])
    ensures ParseAll(codec, StringifyAll(codec, vs, true)) == vs
  {
    var ts := Serialized(codec, vs);
    SplitStringifyAll(codec, vs);
    var lines := Lines(StringifyAll(codec, vs, true));
    SerializedUnstripped(codec, vs);
    assert lines == ts;
    ParseLinesOfRoundTrips(codec, vs);
  }

  lemma {:induction false} SerializedUnstripped(codec: Codec, vs: seq<Json>)
    requires forall i | 0 <= i < |vs| :: CompactLineRoundTrips(codec, vs[i])
    ensures StripAll(Serialized(codec, vs)) == Serialized(codec, vs)
    decreases |vs|
  {
    if vs != [] {
      var init := vs[..|vs| - 1];
      SerializedUnstripped(codec, init);
      assert CompactLineRoundTrips(codec, vs[|vs| - 1]);
      var ts := Serialized(codec, vs);
      assert ts[..|ts| - 1] == Serialized(codec, init);
    }
  }

  lemma {:induction false} ParseLinesOfRoundTrips(codec: Codec, vs: seq<Json>)
    requires forall i | 0 <= i < |vs| :: CompactLineRoundTrips(codec, vs[i])
    ensures ParseLines(codec, Serialized(codec, vs)) == vs
    decreases |vs|
  {
    if vs != [] {
      var init := vs[..|vs| - 1];
      ParseLinesOfRoundTrips(codec, init);
      var ts := Serialized(codec, vs);
      assert ts[..|ts| - 1] == Serialized(codec, init);
      assert CompactLineRoundTrips(codec, vs[|vs| - 1]);
      CompactLineParses(codec, vs[|vs| - 1]);
    }
  }
}
