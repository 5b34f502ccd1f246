/**
 * The NDJSON output-stream processor (rust/src/streaming/output_stream.rs):
 * text arrives in arbitrary chunks, complete lines are parsed as they
 * appear, the unfinished tail waits in a buffer, and lines that look like
 * objects but fail to parse are kept as parse errors.
 */
module OutputStream {
  import opened Wrappers
  import opened Strings
  import opened Json
  import opened Ndjson

  /** A line that began like an object but did not parse, with its 1-based line number. */
  datatype ParseError = ParseError(line: string, lineNumber: nat)

  /** The processor's whole state: the unfinished line, what it collected, and how many lines it has seen. */
  datatype Snapshot = Snapshot(buffer: string, messages: seq<Json>, errors: seq<ParseError>, lineCount: nat)

  const Empty := Snapshot([], [], [], 0)

  /** A line that failed to parse is an error only when its trimmed text begins with `{`. */
  predicate LooksLikeObject(line: string)
  {
    StartsWith(Trim(line), "{")
  }

  /** Handling one complete line: count it, then keep its value, or record a parse error if it looked like an object. */
  function HandleLine(codec: Codec, s: Snapshot, line: string): (r: Snapshot)
    ensures r.buffer == s.buffer && r.lineCount == s.lineCount + 1
    ensures r.messages == s.messages + match ParseLine(codec, line) case Some(v) => [v] case None => []
    ensures r.errors == s.errors + if ParseLine(codec, line).None? && LooksLikeObject(line) then [ParseError(line, r.lineCount)] else []
  {
    var n := s.lineCount + 1;
    match ParseLine(codec, line)
    case Some(v) => s.(messages := s.messages + [v], lineCount := n)
    case None =>
      if LooksLikeObject(line) then s.(errors := s.errors + [ParseError(line, n)], lineCount := n)
      else s.(lineCount := n)
  }

  /** Handling complete lines one after the other. */
  function ProcessLines(codec: Codec, s: Snapshot, lines: seq<string>): (r: Snapshot)
    ensures r.buffer == s.buffer && r.lineCount == s.lineCount + |lines|
  {
    if lines == [] then s else HandleLine(codec, ProcessLines(codec, s, lines[..|lines| - 1]), lines[|lines| - 1])
  }

  /** The reference semantics: one character at a time, a line feed completes the buffered line. */
  function FeedChar(codec: Codec, s: Snapshot, c: char): Snapshot
  {
    if c == '\n' then HandleLine(codec, s.(buffer := []), s.buffer) else s.(buffer := s.buffer + [c])
  }

  /** Feeding a text character by character. */
  function Feed(codec: Codec, s: Snapshot, text: string): Snapshot
  {
    if text == [] then s else FeedChar(codec, Feed(codec, s, text[..|text| - 1]), text[|text| - 1])
  }

  /**
   * `flush`: a whitespace-only buffer is left alone; otherwise the buffer is
   * taken (leaving it empty) and handled as one more line.
   */
  function FlushState(codec: Codec, s: Snapshot): (r: Snapshot)
    ensures Trim(s.buffer) == [] ==> r == s
    ensures Trim(s.buffer) != [] ==> r == HandleLine(codec, s.(buffer := []), s.buffer)
  {
    if Trim(s.buffer) == [] then s else HandleLine(codec, s.(buffer := []), s.buffer)
  }

  /** The invariant the processor keeps: no line feed waits in the buffer, and the errors are real, numbered in order, and within the count. */
  predicate WellFormed(codec: Codec, s: Snapshot)
  {
    && '\n' !in s.buffer
    && (forall i | 0 <= i < |s.errors| ::
          1 <= s.errors[i].lineNumber <= s.lineCount
          && ParseLine(codec, s.errors[i].line).None? && LooksLikeObject(s.errors[i].line))
    && (forall i, j | 0 <= i < j < |s.errors| :: s.errors[i].lineNumber < s.errors[j].lineNumber)
  }

  lemma HandleLineWellFormed(codec: Codec, s: Snapshot, line: string)
    requires WellFormed(codec, s)
    ensures WellFormed(codec, HandleLine(codec, s, line))
  {
  }

  /** Feeding text keeps the invariant. */
  lemma {:induction false} FeedWellFormed(codec: Codec, s: Snapshot, text: string)
    requires WellFormed(codec, s)
    ensures WellFormed(codec, Feed(codec, s, text))
    decreases |text|
  {
    if text != [] {
      var t := Feed(codec, s, text[..|text| - 1]);
      FeedWellFormed(codec, s, text[..|text| - 1]);
      if text[|text| - 1] == '\n' {
        HandleLineWellFormed(codec, t.(buffer := []), t.buffer);
      }
    }
  }

  /** Flushing keeps the invariant. */
  lemma FlushWellFormed(codec: Codec, s: Snapshot)
    requires WellFormed(codec, s)
    ensures WellFormed(codec, FlushState(codec, s))
  {
    if Trim(s.buffer) != [] {
      HandleLineWellFormed(codec, s.(buffer := []), s.buffer);
    }
  }

  /** Chunk invariance: feeding `a` and then `b` is feeding `a + b`, however the text is cut. */
  lemma {:induction false} FeedAppend(codec: Codec, s: Snapshot, a: string, b: string)
    ensures Feed(codec, s, a + b) == Feed(codec, Feed(codec, s, a), b)
    decreases |b|
  {
    if b == [] {
      assert a + b == a;
    } else {
      var b' := b[..|b| - 1];
      assert (a + b)[..|a + b| - 1] == a + b' && (a + b)[|a + b| - 1] == b[|b| - 1];
      FeedAppend(codec, s, a, b');
    }
  }

  /** Every line feed fed in completes exactly one line. */
  lemma {:induction false} FeedCountsLines(codec: Codec, s: Snapshot, text: string)
    ensures Feed(codec, s, text).lineCount == s.lineCount + CountChar(text, '\n')
    decreases |text|
  {
    if text != [] {
      FeedCountsLines(codec, s, text[..|text| - 1]);
    }
  }

  /** Messages and errors only grow at the end. */
  lemma {:induction false} FeedExtends(codec: Codec, s: Snapshot, text: string)
    ensures |s.messages| <= |Feed(codec, s, text).messages| && Feed(codec, s, text).messages[..|s.messages|] == s.messages
    ensures |s.errors| <= |Feed(codec, s, text).errors| && Feed(codec, s, text).errors[..|s.errors|] == s.errors
    decreases |text|
  {
    if text != [] {
      var t := Feed(codec, s, text[..|text| - 1]);
      FeedExtends(codec, s, text[..|text| - 1]);
      var r := Feed(codec, s, text);
      assert r.messages[..|t.messages|] == t.messages;
      assert r.errors[..|t.errors|] == t.errors;
      assert r.messages[..|s.messages|] == t.messages[..|s.messages|];
      assert r.errors[..|s.errors|] == t.errors[..|s.errors|];
    }
  }

  /** The state `process` leaves after splitting into `pieces`: all but the last handled, the last buffered. */
  function AfterPieces(codec: Codec, s: Snapshot, pieces: seq<string>): Snapshot
    requires |pieces| >= 1
  {
    ProcessLines(codec, s, pieces[..|pieces| - 1]).(buffer := pieces[|pieces| - 1])
  }

  /** One more character moves the split state exactly as it moves the character-wise state. */
  lemma AfterPiecesChar(codec: Codec, s: Snapshot, pieces: seq<string>, c: char)
    requires |pieces| >= 1
    ensures var n := |pieces|;
      FeedChar(codec, AfterPieces(codec, s, pieces), c)
      == AfterPieces(codec, s, if c == '\n' then pieces + [[]] else pieces[..n - 1] + [pieces[n - 1] + [c]])
  {
    var n := |pieces|;
    if c == '\n' {
      assert (pieces + [[]])[..n] == pieces;
      assert pieces[..n - 1 + 1] == pieces;
    } else {
      assert (pieces[..n - 1] + [pieces[n - 1] + [c]])[..n - 1] == pieces[..n - 1];
    }
  }

  /** Splitting the text with one more character, stated on the state `process` leaves. */
  lemma AfterSplitChar(codec: Codec, s: Snapshot, text: string, c: char)
    ensures FeedChar(codec, AfterPieces(codec, s, Split(text, '\n')), c) == AfterPieces(codec, s, Split(text + [c], '\n'))
  {
    SplitSnoc(text, c, '\n');
    AfterPiecesChar(codec, s, Split(text, '\n'), c);
  }

  /** Reading a text character by character from `s` reaches the state `process` leaves after splitting. */
  lemma {:induction false} FeedAfterPieces(codec: Codec, s: Snapshot, text: string)
    requires '\n' !in s.buffer
    ensures Feed(codec, s, text) == AfterPieces(codec, s, Split(s.buffer + text, '\n'))
    decreases |text|
  {
    if text == [] {
      assert s.buffer + text == s.buffer;
      SplitNoSeparator(s.buffer, '\n');
    } else {
      var text', c := text[..|text| - 1], text[|text| - 1];
      FeedAfterPieces(codec, s, text');
      assert s.buffer + text == (s.buffer + text') + [c];
      AfterSplitChar(codec, s, s.buffer + text', c);
    }
  }

  /**
   * The split used by `process` agrees with the reference: the pieces before
   * the last are handled as lines, the last one stays in the buffer.
   */
  lemma FeedSplit(codec: Codec, s: Snapshot, text: string)
    requires '\n' !in s.buffer
    ensures var pieces := Split(s.buffer + text, '\n');
      Feed(codec, s, text) == ProcessLines(codec, s, pieces[..|pieces| - 1]).(buffer := pieces[|pieces| - 1])
  {
    FeedAfterPieces(codec, s, text);
  }

  /** The messages collected by handling lines are the previous ones followed by those lines' values. */
  lemma {:induction false} ProcessLinesMessages(codec: Codec, s: Snapshot, lines: seq<string>)
    ensures ProcessLines(codec, s, lines).messages == s.messages + ParseLines(codec, lines)
    decreases |lines|
  {
    if lines != [] {
      ProcessLinesMessages(codec, s, lines[..|lines| - 1]);
    }
  }

  lemma {:induction false} ParseLinesStripped(codec: Codec, lines: seq<string>)
    ensures ParseLines(codec, StripAll(lines)) == ParseLines(codec, lines)
    decreases |lines|
  {
    if lines != [] {
      var init := lines[..|lines| - 1];
      var l := lines[|lines| - 1];
      ParseLinesStripped(codec, init);
      var stripped := StripAll(lines);
      assert stripped[..|stripped| - 1] == StripAll(init);
      if l != [] && l[|l| - 1] == '\r' {
        assert l == [] + l[..|l| - 1] + "\r";
        ParseLineSurrounded(codec, [], l[..|l| - 1], "\r");
      }
    }
  }

  /**
   * Streaming and batch parsing agree: feeding a text in any chunks and then
   * flushing collects exactly the values `parse_ndjson` finds in it.
   */
  lemma StreamMatchesBatch(codec: Codec, s: Snapshot, text: string)
    requires s.buffer == []
    ensures FlushState(codec, Feed(codec, s, text)).messages == s.messages + ParseAll(codec, text)
  {
    var pieces := Split(text, '\n');
    var init, last := pieces[..|pieces| - 1], pieces[|pieces| - 1];
    var q := ProcessLines(codec, s, init);
    assert Feed(codec, s, text) == q.(buffer := last) by {
      assert s.buffer + text == text;
      FeedSplit(codec, s, text);
    }
    var stripped := StripAll(init);
    var tail := if last == [] then [] else [last];
    assert q.messages == s.messages + ParseLines(codec, stripped) by {
      ProcessLinesMessages(codec, s, init);
      ParseLinesStripped(codec, init);
    }
    assert ParseAll(codec, text) == ParseLines(codec, stripped) + ParseLines(codec, tail) by {
      assert Lines(text) == stripped + tail;
      ParseLinesAppend(codec, stripped, tail);
    }
    FlushLast(codec, q, last);
  }

  /** Flushing a buffered last line adds its value, if it has one. */
  lemma FlushLast(codec: Codec, q: Snapshot, last: string)
    ensures FlushState(codec, q.(buffer := last)).messages == q.messages + ParseLines(codec, if last == [] then [] else [last])
  {
    if last != [] {
      assert [last][..0] == [];
      if Trim(last) == [] {
        TrimEmptyIff(last);
      }
    }
  }

  /** Chunk invariance with the closing flush: the same text in two chunks or one yields the same messages. */
  lemma ChunkedStreamMatchesBatch(codec: Codec, a: string, b: string)
    ensures FlushState(codec, Feed(codec, Feed(codec, Empty, a), b)).messages == ParseAll(codec, a + b)
  {
    FeedAppend(codec, Empty, a, b);
    StreamMatchesBatch(codec, Empty, a + b);
  }

  /**
   * The messages of type `t`, in order: each message of that type occurs as
   * often as among all messages, and no other message occurs.  The order is
   * given by SelectTypeAppend and SelectTypeOne.
   */
  function SelectType(ms: seq<Json>, t: string): (r: seq<Json>)
    ensures forall x :: multiset(r)[x] == if x.HasType(t) then multiset(ms)[x] else 0
    ensures |r| <= |ms|
  {
    if ms == [] then []
    else
      var r := SelectType(ms[..|ms| - 1], t);
      assert ms == ms[..|ms| - 1] + [ms[|ms| - 1]];
      if ms[|ms| - 1].HasType(t) then r + [ms[|ms| - 1]] else r
  }

  /** Filtering two runs of messages is filtering each and concatenating, so the filter keeps the messages' order. */
  lemma {:induction false} SelectTypeAppend(a: seq<Json>, b: seq<Json>, t: string)
    ensures SelectType(a + b, t) == SelectType(a, t) + SelectType(b, t)
    decreases |b|
  {
    if b == [] {
      assert a + b == a;
    } else {
      var b', m := b[..|b| - 1], b[|b| - 1];
      var tail := if m.HasType(t) then [m] else [];
      calc {
        SelectType(a + b, t);
        { assert (a + b)[..|a + b| - 1] == a + b' && (a + b)[|a + b| - 1] == m; }
        SelectType(a + b', t) + tail;
        { SelectTypeAppend(a, b', t); }
        SelectType(a, t) + SelectType(b', t) + tail;
        SelectType(a, t) + (SelectType(b', t) + tail);
        SelectType(a, t) + SelectType(b, t);
      }
    }
  }

  /** One message is kept exactly when it has type `t`. */
  lemma SelectTypeOne(m: Json, t: string)
    ensures SelectType([m], t) == if m.HasType(t) then [m] else []
  {
    assert [m][..0] == [];
  }

  /** The first message the predicate accepts. */
  function FindFirst(ms: seq<Json>, pred: Json -> bool): (r: Option<Json>)
    ensures r.None? <==> forall i | 0 <= i < |ms| :: !pred(ms[i])
    ensures r.Some? ==> exists i | 0 <= i < |ms| ::
      (ms[i] == r.value && pred(ms[i]) && forall j | 0 <= j < i :: !pred(ms[j]))
  {
    if ms == [] then None
    else if pred(ms[0]) then Some(ms[0])
    else
      var r := FindFirst(ms[1..], pred);
      assert forall i | 1 <= i < |ms| :: ms[i] == ms[1..][i - 1];
      r
  }

  /** A snapshot is the result of handling a line when each field is. */
  lemma HandleLineFields(codec: Codec, s: Snapshot, line: string, r: Snapshot)
    requires r.buffer == s.buffer && r.lineCount == s.lineCount + 1
    requires r.messages == s.messages + match ParseLine(codec, line) case Some(v) => [v] case None => []
    requires r.errors == s.errors + if ParseLine(codec, line).None? && LooksLikeObject(line) then [ParseError(line, r.lineCount)] else []
    ensures r == HandleLine(codec, s, line)
  {
  }

  /** Handling one more of the lines: the step the loop of `process` takes, with the buffer already set aside. */
  lemma ProcessLinesSnoc(codec: Codec, s: Snapshot, lines: seq<string>, i: nat, b: string)
    requires i < |lines|
    ensures ProcessLines(codec, s, lines[..i + 1]).(buffer := b)
         == HandleLine(codec, ProcessLines(codec, s, lines[..i]).(buffer := b), lines[i])
  {
    assert lines[..i + 1][..i] == lines[..i];
  }

  /** `JsonOutputStream`; the user callbacks are not part of this model. */
  class JsonOutputStream {
    const codec: Codec
    var buffer: string
    var messages: seq<Json>
    var errors: seq<ParseError>
    var lineCount: nat

    function State(): Snapshot
      reads this
    {
      Snapshot(buffer, messages, errors, lineCount)
    }

    ghost predicate Valid()
      reads this
    {
      WellFormed(codec, State())
    }

    /** `JsonOutputStream::new`. */
    constructor (codec: Codec)
      ensures Valid() && this.codec == codec && State() == Empty
    {
      this.codec := codec;
      buffer := [];
      messages := [];
      errors := [];
      lineCount := 0;
    }

    /**
     * `process`: append the chunk to the buffer, handle every complete line,
     * keep the unfinished tail, and return the values found in this call.
     */
    method Process(chunk: string) returns (newMessages: seq<Json>)
      requires Valid()
      modifies this
      ensures Valid()
      ensures State() == Feed(codec, old(State()), chunk)
      ensures messages == old(messages) + newMessages
    {
      ghost var s0 := State();
      var pieces := Split(buffer + chunk, '\n');
      var complete := pieces[..|pieces| - 1];
      buffer := pieces[|pieces| - 1];
      newMessages := [];
      var i := 0;
      while i < |complete|
        invariant 0 <= i <= |complete|
        invariant State() == ProcessLines(codec, s0, complete[..i]).(buffer := pieces[|pieces| - 1])
        invariant messages == s0.messages + newMessages
      {
        var parsed := HandleCompleteLine(complete[i]);
        if parsed.Some? {
          newMessages := newMessages + [parsed.value];
        }
        ProcessLinesSnoc(codec, s0, complete, i, pieces[|pieces| - 1]);
        i := i + 1;
      }
      assert complete[..i] == complete;
      FeedSplit(codec, s0, chunk);
      FeedWellFormed(codec, s0, chunk);
    }

    /** The body of the loop in `process`: count the line, then keep its value or record a parse error. */
    method HandleCompleteLine(line: string) returns (parsed: Option<Json>)
      modifies this
      ensures parsed == ParseLine(codec, line)
      ensures State() == HandleLine(codec, old(State()), line)
    {
      lineCount := lineCount + 1;
      parsed := ParseLine(codec, line);
      if parsed.Some? {
        messages := messages + [parsed.value];
      } else if LooksLikeObject(line) {
        errors := errors + [ParseError(line, lineCount)];
      }
      HandleLineFields(codec, old(State()), line, State());
    }

    /** `flush`: handle what is left in the buffer as a final line, unless it is only whitespace. */
    method Flush() returns (flushed: seq<Json>)
      requires Valid()
      modifies this
      ensures Valid()
      ensures State() == FlushState(codec, old(State()))
      ensures messages == old(messages) + flushed
    {
      FlushWellFormed(codec, State());
      if Trim(buffer) == [] {
        return [];
      }
      var line := buffer;
      buffer := [];
      lineCount := lineCount + 1;
      var parsed := ParseLine(codec, line);
      if parsed.Some? {
        messages := messages + [parsed.value];
        return [parsed.value];
      } else if LooksLikeObject(line) {
        errors := errors + [ParseError(line, lineCount)];
      }
      return [];
    }

    /** `reset`: back to the state of a new processor. */
    method Reset()
      modifies this
      ensures Valid() && State() == Empty
    {
      buffer := [];
      messages := [];
      errors := [];
      lineCount := 0;
    }

    /** `filter_by_type`: the collected messages whose `type` is the string `t`, in their order. */
    function FilterByType(t: string): (r: seq<Json>)
      reads this
      ensures forall x :: multiset(r)[x] == if x.HasType(t) then multiset(messages)[x] else 0
      ensures |r| <= |messages|
    {
      SelectType(messages, t)
    }

    /** `find`: the first collected message the predicate accepts. */
    function Find(pred: Json -> bool): (r: Option<Json>)
      reads this
      ensures r.None? <==> forall i | 0 <= i < |messages| :: !pred(messages[i])
      ensures r.Some? ==> exists i | 0 <= i < |messages| ::
        (messages[i] == r.value && pred(r.value) && forall j | 0 <= j < i :: !pred(messages[j]))
    {
      FindFirst(messages, pred)
    }
  }
}
