/**
 * The command-line parser of the `start-agent` and `stop-agent` programs
 * (rust/src/cli_parser.rs): a scanner that sorts the arguments into
 * `--key value` options, `--key` flags and positional words; the two option
 * records read from it; and the validation rules with their messages.
 *
 * The scanner is specified by a grouping of the arguments into items, the
 * unique grouping that obeys the scanner's rules, and by what each kind of
 * item contributes to the parsed result.
 */
module CliParser {
  import opened Wrappers
  import opened Strings

  /** An argument that starts with `--`. */
  predicate IsLong(arg: string)
  {
    StartsWith(arg, "--")
  }

  /** `trim_start_matches("--")`: every leading `--` is removed, not just the first. */
  function Key(arg: string): string
    decreases |arg|
  {
    if IsLong(arg) then Key(arg[2..]) else arg
  }

  /** The key is a suffix of the argument that does not start with `--`, and an argument not starting with `--` is its own key. */
  lemma {:induction false} KeySpec(arg: string)
    ensures !IsLong(Key(arg))
    ensures |Key(arg)| <= |arg| && Key(arg) == arg[|arg| - |Key(arg)|..]
    ensures !IsLong(arg) ==> Key(arg) == arg
    decreases |arg|
  {
    if IsLong(arg) {
      KeySpec(arg[2..]);
      assert arg[2..][|arg| - 2 - |Key(arg)|..] == arg[|arg| - |Key(arg)|..];
    }
  }

  // ---------------------------------------------------------------------
  // The grouping the scanner makes
  // ---------------------------------------------------------------------

  /** One step of the scanner: an option with its value, a flag, or a positional word (raw arguments). */
  datatype Item = OptionItem(arg: string, value: string) | FlagItem(arg: string) | PositionalItem(arg: string)

  /**
   * The scanner's reading of the arguments: a `--` argument followed by one
   * that does not start with `--` is an option and takes it as its value; a
   * `--` argument that is last or followed by another `--` argument is a
   * flag; anything else is positional.
   */
  function Items(args: seq<string>): seq<Item>
    decreases |args|
  {
    if args == [] then []
    else if !IsLong(args[0]) then [PositionalItem(args[0])] + Items(args[1..])
    else if |args| >= 2 && !IsLong(args[1]) then [OptionItem(args[0], args[1])] + Items(args[2..])
    else [FlagItem(args[0])] + Items(args[1..])
  }

  /** The arguments one item was read from. */
  function ArgsOf(it: Item): (r: seq<string>)
    ensures r != [] && r[0] == it.arg
  {
    match it
    case OptionItem(a, v) => [a, v]
    case FlagItem(a) => [a]
    case PositionalItem(a) => [a]
  }

  /** The arguments the items were read from, in order. */
  function Flatten(items: seq<Item>): seq<string>
  {
    if items == [] then [] else ArgsOf(items[0]) + Flatten(items[1..])
  }

  /** An item the scanner could produce on its own: options and flags are `--` arguments, values and positional words are not. */
  predicate ItemOk(it: Item)
  {
    match it
    case OptionItem(a, v) => IsLong(a) && !IsLong(v)
    case FlagItem(a) => IsLong(a)
    case PositionalItem(a) => !IsLong(a)
  }

  /** Items obeying the scanner's rules: each item is possible, and a flag is last or followed by another `--` argument. */
  predicate WellFormed(items: seq<Item>)
  {
    items == [] ||
      (&& ItemOk(items[0])
       && (items[0].FlagItem? && |items| > 1 ==> !items[1].PositionalItem?)
       && WellFormed(items[1..]))
  }

  /** The grouping loses, adds and reorders nothing. */
  lemma {:induction false} ItemsFlatten(args: seq<string>)
    ensures Flatten(Items(args)) == args
    decreases |args|
  {
    if args != [] {
      if !IsLong(args[0]) || |args| < 2 || IsLong(args[1]) {
        ItemsFlatten(args[1..]);
        assert [args[0]] + args[1..] == args;
      } else {
        ItemsFlatten(args[2..]);
        assert [args[0], args[1]] + args[2..] == args;
      }
    }
  }

  /** The first item's kind, as a fact about the arguments it starts with. */
  lemma ItemsHead(args: seq<string>)
    requires args != []
    ensures Items(args) != [] && Items(args)[0].arg == args[0]
    ensures Items(args)[0].PositionalItem? <==> !IsLong(args[0])
  {
  }

  /** The grouping obeys the scanner's rules. */
  lemma {:induction false} ItemsWellFormed(args: seq<string>)
    ensures WellFormed(Items(args))
    decreases |args|
  {
    if args != [] {
      if !IsLong(args[0]) {
        ItemsWellFormed(args[1..]);
      } else if |args| >= 2 && !IsLong(args[1]) {
        ItemsWellFormed(args[2..]);
      } else {
        ItemsWellFormed(args[1..]);
        if |args| >= 2 {
          ItemsHead(args[1..]);
        }
      }
    }
  }

  /** Flattening a non-empty list of items starts with the first item's argument. */
  lemma FlattenHead(items: seq<Item>)
    requires items != []
    ensures Flatten(items) != [] && Flatten(items)[0] == items[0].arg
  {
  }

  /** The grouping is the only one obeying the rules: any well-formed items are what the scanner reads back. */
  lemma {:induction false} ItemsUnique(items: seq<Item>)
    requires WellFormed(items)
    ensures Items(Flatten(items)) == items
    decreases |items|
  {
    if items != [] {
      var it, rest := items[0], items[1..];
      var args := Flatten(items);
      var tail := Flatten(rest);
      assert args == ArgsOf(it) + tail;
      ItemsUnique(rest);
      match it {
        case PositionalItem(a) =>
          assert args[1..] == tail;
        case OptionItem(a, v) =>
          assert args[1] == v && args[2..] == tail;
        case FlagItem(a) =>
          assert args[1..] == tail;
          if rest != [] {
            FlattenHead(rest);
            assert IsLong(args[1]) by {
              assert ItemOk(rest[0]);
            }
          }
      }
    }
  }

  // ---------------------------------------------------------------------
  // What the scanner collects
  // ---------------------------------------------------------------------

  /** `ParsedArgs`: the options map, the flags in order, the positional words in order. */
  datatype ParsedArgs = ParsedArgs(options: map<string, string>, flags: seq<string>, positional: seq<string>)
  {
    /** `get`. */
    function Get(key: string): Option<string>
    {
      if key in options then Some(options[key]) else None
    }

    /** `has_flag`: named as a flag or as an option key. */
    predicate HasFlag(key: string)
    {
      key in flags || key in options
    }

    /** `get_bool`. */
    predicate GetBool(key: string)
    {
      HasFlag(key)
    }
  }

  /** The options map after the items: each option inserts its value, a later one replacing an earlier. */
  function OptionsOf(items: seq<Item>): map<string, string>
  {
    if items == [] then map[]
    else
      var m := OptionsOf(items[..|items| - 1]);
      var it := items[|items| - 1];
      if it.OptionItem? then m[Key(it.arg) := it.value] else m
  }

  /** The keys of the flags, in order. */
  function FlagsOf(items: seq<Item>): seq<string>
  {
    if items == [] then []
    else
      var it := items[|items| - 1];
      FlagsOf(items[..|items| - 1]) + if it.FlagItem? then [Key(it.arg)] else []
  }

  /** The positional words, in order. */
  function PositionalsOf(items: seq<Item>): seq<string>
  {
    if items == [] then []
    else
      var it := items[|items| - 1];
      PositionalsOf(items[..|items| - 1]) + if it.PositionalItem? then [it.arg] else []
  }

  function Summary(items: seq<Item>): ParsedArgs
  {
    ParsedArgs(OptionsOf(items), FlagsOf(items), PositionalsOf(items))
  }

  /** What `parse_args` returns. */
  function Parsed(args: seq<string>): ParsedArgs
  {
    Summary(Items(args))
  }

  /** One more item, as the loop of `parse_args` adds it. */
  lemma SummarySnoc(items: seq<Item>, it: Item)
    ensures var s := Summary(items);
      Summary(items + [it]) == match it
        case OptionItem(a, v) => s.(options := s.options[Key(a) := v])
        case FlagItem(a) => s.(flags := s.flags + [Key(a)])
        case PositionalItem(a) => s.(positional := s.positional + [a])
  {
    assert (items + [it])[..|items|] == items;
  }

  /** The item the scanner reads at position `i`. */
  function NextItem(args: seq<string>, i: nat): (r: Item)
    requires i < |args|
    ensures i + |ArgsOf(r)| <= |args|
  {
    if !IsLong(args[i]) then PositionalItem(args[i])
    else if i + 1 < |args| && !IsLong(args[i + 1]) then OptionItem(args[i], args[i + 1])
    else FlagItem(args[i])
  }

  /** The scanner's reading from position `i` on: the item there, then the reading after it. */
  lemma ItemsFrom(args: seq<string>, i: nat)
    requires i < |args|
    ensures Items(args[i..]) == [NextItem(args, i)] + Items(args[i + |ArgsOf(NextItem(args, i))|..])
  {
    var s := args[i..];
    assert s[0] == args[i] && s[1..] == args[i + 1..];
    if |s| >= 2 {
      assert s[1] == args[i + 1] && s[2..] == args[i + 2..];
    }
  }

  /** One turn of the loop of `parse_args` moves one item from the unread part to the read part. */
  lemma ScanStep(args: seq<string>, done: seq<Item>, i: nat)
    requires i < |args| && Items(args) == done + Items(args[i..])
    ensures var next := NextItem(args, i);
      Items(args) == (done + [next]) + Items(args[i + |ArgsOf(next)|..])
  {
    var next := NextItem(args, i);
    ItemsFrom(args, i);
    assert done + ([next] + Items(args[i + |ArgsOf(next)|..])) == (done + [next]) + Items(args[i + |ArgsOf(next)|..]);
  }

  /** `parse_args`: the index-driven scan. */
  method ParseArgs(args: seq<string>) returns (parsed: ParsedArgs)
    ensures parsed == Parsed(args)
  {
    parsed := ParsedArgs(map[], [], []);
    ghost var done: seq<Item> := [];
    var i := 0;
    while i < |args|
      invariant 0 <= i <= |args|
      invariant Items(args) == done + Items(args[i..])
      invariant parsed == Summary(done)
    {
      var arg := args[i];
      ghost var start, before := i, parsed;
      ghost var next := NextItem(args, i);
      if IsLong(arg) {
        var key := Key(arg);
        if i + 1 < |args| {
          var value := args[i + 1];
          if !IsLong(value) {
            parsed := parsed.(options := parsed.options[key := value]);
            i := i + 1;
          } else {
            parsed := parsed.(flags := parsed.flags + [key]);
          }
        } else {
          parsed := parsed.(flags := parsed.flags + [key]);
        }
      } else {
        parsed := parsed.(positional := parsed.positional + [arg]);
      }
      i := i + 1;
      assert i == start + |ArgsOf(next)|;
      ScanStep(args, done, start);
      SummarySnoc(done, next);
      done := done + [next];
    }
    assert args[i..] == [];
    assert done + [] == done;
  }

  // ---------------------------------------------------------------------
  // What the parsed result means
  // ---------------------------------------------------------------------

  /** The item is an option whose key is `k`. */
  predicate SetsOption(it: Item, k: string)
  {
    it.OptionItem? && Key(it.arg) == k
  }

  /** The item is an option or a flag whose key is `k`. */
  predicate Names(it: Item, k: string)
  {
    !it.PositionalItem? && Key(it.arg) == k
  }

  /** Some item is an option with key `k`. */
  predicate SomeSets(items: seq<Item>, k: string)
  {
    exists i | 0 <= i < |items| :: SetsOption(items[i], k)
  }

  /** Item `i` is an option with key `k` and no later item is. */
  predicate LastSets(items: seq<Item>, k: string, i: nat)
  {
    i < |items| && SetsOption(items[i], k) && forall j | i < j < |items| :: !SetsOption(items[j], k)
  }

  lemma SomeSetsSnoc(items: seq<Item>, k: string)
    requires items != []
    ensures SomeSets(items, k) <==> SomeSets(items[..|items| - 1], k) || SetsOption(items[|items| - 1], k)
  {
    var n := |items|;
    var init := items[..n - 1];
    if SomeSets(items, k) && !SetsOption(items[n - 1], k) {
      var i :| 0 <= i < n && SetsOption(items[i], k);
      assert i < n - 1 && init[i] == items[i];
      assert SomeSets(init, k);
    }
    if SomeSets(init, k) {
      var i :| 0 <= i < n - 1 && SetsOption(init[i], k);
      assert items[i] == init[i];
      assert SomeSets(items, k);
    }
  }

  lemma LastSetsSnoc(items: seq<Item>, k: string, i: nat)
    requires items != [] && LastSets(items[..|items| - 1], k, i) && !SetsOption(items[|items| - 1], k)
    ensures LastSets(items, k, i)
  {
    var n := |items|;
    var init := items[..n - 1];
    assert items[i] == init[i];
    forall j | i < j < n ensures !SetsOption(items[j], k) {
      if j < n - 1 {
        assert items[j] == init[j];
      }
    }
  }

  /** `k` is an option key exactly when some option item has key `k`. */
  lemma {:induction false} OptionsKeys(items: seq<Item>, k: string)
    ensures k in OptionsOf(items) <==> SomeSets(items, k)
    decreases |items|
  {
    if items != [] {
      OptionsKeys(items[..|items| - 1], k);
      SomeSetsSnoc(items, k);
    }
  }

  /** The value of an option key is that of the last option item with that key: a later `--k v` replaces an earlier one. */
  lemma {:induction false} OptionsLast(items: seq<Item>, k: string)
    requires k in OptionsOf(items)
    ensures exists i: nat :: LastSets(items, k, i) && OptionsOf(items)[k] == items[i].value
    decreases |items|
  {
    assert items != [];
    var n := |items|;
    var init, last := items[..n - 1], items[n - 1];
    if SetsOption(last, k) {
      assert LastSets(items, k, n - 1);
    } else {
      OptionsLast(init, k);
      var i: nat :| LastSets(init, k, i) && OptionsOf(init)[k] == init[i].value;
      LastSetsSnoc(items, k, i);
      assert init[i] == items[i];
    }
  }

  /** Some item is a flag with key `k`. */
  predicate SomeFlag(items: seq<Item>, k: string)
  {
    exists i | 0 <= i < |items| :: items[i].FlagItem? && Key(items[i].arg) == k
  }

  lemma SomeFlagSnoc(items: seq<Item>, k: string)
    requires items != []
    ensures var last := items[|items| - 1];
      SomeFlag(items, k) <==> SomeFlag(items[..|items| - 1], k) || (last.FlagItem? && Key(last.arg) == k)
  {
    var n := |items|;
    var init := items[..n - 1];
    if SomeFlag(items, k) && !(items[n - 1].FlagItem? && Key(items[n - 1].arg) == k) {
      var i :| 0 <= i < n && items[i].FlagItem? && Key(items[i].arg) == k;
      assert init[i] == items[i];
    }
    if SomeFlag(init, k) {
      var i :| 0 <= i < n - 1 && init[i].FlagItem? && Key(init[i].arg) == k;
      assert init[i] == items[i];
    }
  }

  /** `k` is among the flags exactly when some flag item has key `k`. */
  lemma {:induction false} FlagsMeaning(items: seq<Item>, k: string)
    ensures k in FlagsOf(items) <==> SomeFlag(items, k)
    decreases |items|
  {
    if items != [] {
      FlagsMeaning(items[..|items| - 1], k);
      SomeFlagSnoc(items, k);
    }
  }

  /** `has_flag(k)` and `get_bool(k)` hold exactly when `--k` was given, as a flag or with a value. */
  lemma HasFlagMeaning(args: seq<string>, k: string)
    ensures var items := Items(args);
      Parsed(args).HasFlag(k) <==> exists i | 0 <= i < |items| :: Names(items[i], k)
    ensures Parsed(args).GetBool(k) == Parsed(args).HasFlag(k)
  {
    var items := Items(args);
    OptionsKeys(items, k);
    FlagsMeaning(items, k);
    if exists i | 0 <= i < |items| :: Names(items[i], k) {
      var i :| 0 <= i < |items| && Names(items[i], k);
      if items[i].FlagItem? {
        assert items[i].FlagItem? && Key(items[i].arg) == k;
      } else {
        assert SetsOption(items[i], k);
      }
    }
  }

  /** `get(k)` is the value of the last `--k v` and None when there is none. */
  lemma GetMeaning(args: seq<string>, k: string)
    ensures var items := Items(args);
      && (Parsed(args).Get(k).None? <==> !SomeSets(items, k))
      && (Parsed(args).Get(k).Some? ==> exists i: nat :: LastSets(items, k, i) && Parsed(args).Get(k).value == items[i].value)
  {
    OptionsKeys(Items(args), k);
    if k in OptionsOf(Items(args)) {
      OptionsLast(Items(args), k);
    }
  }

  lemma {:induction false} PositionalsAppend(a: seq<Item>, b: seq<Item>)
    ensures PositionalsOf(a + b) == PositionalsOf(a) + PositionalsOf(b)
    decreases |b|
  {
    if b == [] {
      assert a + b == a;
    } else {
      PositionalsAppend(a, b[..|b| - 1]);
      assert (a + b)[..|a + b| - 1] == a + b[..|b| - 1];
    }
  }

  lemma {:induction false} FlagsAppend(a: seq<Item>, b: seq<Item>)
    ensures FlagsOf(a + b) == FlagsOf(a) + FlagsOf(b)
    decreases |b|
  {
    if b == [] {
      assert a + b == a;
    } else {
      FlagsAppend(a, b[..|b| - 1]);
      assert (a + b)[..|a + b| - 1] == a + b[..|b| - 1];
    }
  }

  /** Items that set no option leave the options of what follows as they are. */
  lemma {:induction false} OptionsAfter(a: seq<Item>, b: seq<Item>)
    requires OptionsOf(a) == map[]
    ensures OptionsOf(a + b) == OptionsOf(b)
    decreases |b|
  {
    if b == [] {
      assert a + b == a;
    } else {
      OptionsAfter(a, b[..|b| - 1]);
      assert (a + b)[..|a + b| - 1] == a + b[..|b| - 1];
    }
  }

  /** Without any `--` argument everything is positional, in input order, and there are no options or flags. */
  lemma {:induction false} AllPositional(args: seq<string>)
    requires forall i | 0 <= i < |args| :: !IsLong(args[i])
    ensures Parsed(args) == ParsedArgs(map[], [], args)
    decreases |args|
  {
    if args != [] {
      var head, rest := [PositionalItem(args[0])], Items(args[1..]);
      assert Summary(rest) == ParsedArgs(map[], [], args[1..]) by {
        assert forall i | 0 <= i < |args[1..]| :: args[1..][i] == args[i + 1];
        AllPositional(args[1..]);
      }
      assert Items(args) == head + rest;
      assert Summary(head) == ParsedArgs(map[], [], [args[0]]) by {
        SummarySnoc([], head[0]);
        assert [] + [head[0]] == head;
      }
      assert PositionalsOf(head + rest) == [args[0]] + args[1..] by {
        PositionalsAppend(head, rest);
      }
      assert FlagsOf(head + rest) == [] by {
        FlagsAppend(head, rest);
      }
      assert OptionsOf(head + rest) == map[] by {
        OptionsAfter(head, rest);
      }
      assert [args[0]] + args[1..] == args;
    }
  }

  /** `--k` with the key written after any number of `--`. */
  lemma KeyOfLong(k: string)
    requires !IsLong(k)
    ensures IsLong("--" + k) && Key("--" + k) == k
  {
    assert ("--" + k)[..2] == "--";
    assert ("--" + k)[2..] == k;
  }

  /** The summary of two items, one added after the other. */
  lemma SummaryPair(a: Item, b: Item)
    ensures Summary([a, b]) == (var s := Summary([a]); match b
        case OptionItem(x, v) => s.(options := s.options[Key(x) := v])
        case FlagItem(x) => s.(flags := s.flags + [Key(x)])
        case PositionalItem(x) => s.(positional := s.positional + [x]))
    ensures Summary([a]) == match a
        case OptionItem(x, v) => ParsedArgs(map[Key(x) := v], [], [])
        case FlagItem(x) => ParsedArgs(map[], [Key(x)], [])
        case PositionalItem(x) => ParsedArgs(map[], [], [x])
  {
    SummarySnoc([a], b);
    assert [a] + [b] == [a, b];
    SummarySnoc([], a);
    assert [] + [a] == [a];
  }

  /** Reading three arguments that start with an option. */
  lemma ItemsOfThree(a: string, v: string, c: string)
    requires IsLong(a) && !IsLong(v)
    ensures Items([a, v, c]) == [OptionItem(a, v), if IsLong(c) then FlagItem(c) else PositionalItem(c)]
  {
    var args := [a, v, c];
    ItemsFrom(args, 0);
    assert args[0..] == args;
    ItemsFrom(args, 2);
    assert args[3..] == [];
  }

  /** `--f v --g`: `f` has the value `v` and `g` is a flag (the scanner's first test case, in general). */
  lemma OptionThenFlag(f: string, v: string, g: string)
    requires !IsLong(f) && !IsLong(v) && !IsLong(g)
    ensures Parsed(["--" + f, v, "--" + g]).Get(f) == Some(v)
    ensures Parsed(["--" + f, v, "--" + g]).HasFlag(g)
    ensures Parsed(["--" + f, v, "--" + g]).positional == []
  {
    KeyOfLong(f);
    KeyOfLong(g);
    ItemsOfThree("--" + f, v, "--" + g);
    SummaryPair(OptionItem("--" + f, v), FlagItem("--" + g));
  }

  /** `--f v p`: `f` has the value `v` and `p` is the one positional word (the second test case, in general). */
  lemma OptionThenPositional(f: string, v: string, p: string)
    requires !IsLong(f) && !IsLong(v) && !IsLong(p)
    ensures Parsed(["--" + f, v, p]).Get(f) == Some(v)
    ensures Parsed(["--" + f, v, p]).positional == [p]
  {
    KeyOfLong(f);
    ItemsOfThree("--" + f, v, p);
    SummaryPair(OptionItem("--" + f, v), PositionalItem(p));
  }

  // ---------------------------------------------------------------------
  // The option records of the two programs
  // ---------------------------------------------------------------------

  /** `StartAgentOptions`. */
  datatype StartAgentOptions = StartAgentOptions(
    tool: Option<string>,
    workingDirectory: Option<string>,
    prompt: Option<string>,
    systemPrompt: Option<string>,
    appendSystemPrompt: Option<string>,
    model: Option<string>,
    fallbackModel: Option<string>,
    verbose: bool,
    replayUserMessages: bool,
    resume: Option<string>,
    sessionId: Option<string>,
    forkSession: bool,
    isolation: string,
    screenName: Option<string>,
    containerName: Option<string>,
    dryRun: bool,
    detached: bool,
    attached: bool,
    help: bool)

  /** `parse_start_agent_args`: the record read from the parsed arguments. */
  function ParseStart(args: seq<string>): StartAgentOptions
  {
    StartOptionsOf(Parsed(args))
  }

  /** Isolation defaults to `none`, attached is the opposite of detached, `-h` also asks for help. */
  function StartOptionsOf(p: ParsedArgs): StartAgentOptions
  {
    var detached := p.GetBool("detached");
    var isolation := match p.Get("isolation") case Some(s) => s case None => "none";
    StartAgentOptions(
      p.Get("tool"), p.Get("working-directory"), p.Get("prompt"), p.Get("system-prompt"),
      p.Get("append-system-prompt"), p.Get("model"), p.Get("fallback-model"),
      p.GetBool("verbose"), p.GetBool("replay-user-messages"), p.Get("resume"), p.Get("session-id"),
      p.GetBool("fork-session"), isolation, p.Get("screen-name"), p.Get("container-name"),
      p.GetBool("dry-run"), detached, !detached, p.GetBool("help") || p.GetBool("h"))
  }

  /** `StopAgentOptions`. */
  datatype StopAgentOptions = StopAgentOptions(
    isolation: Option<string>,
    screenName: Option<string>,
    containerName: Option<string>,
    dryRun: bool,
    help: bool)

  /** `parse_stop_agent_args`: no default isolation here. */
  function ParseStop(args: seq<string>): StopAgentOptions
  {
    var p := Parsed(args);
    StopAgentOptions(p.Get("isolation"), p.Get("screen-name"), p.Get("container-name"),
      p.GetBool("dry-run"), p.GetBool("help") || p.GetBool("h"))
  }

  /**
   * What the start options say about the arguments: the isolation is the
   * value of the last `--isolation v`, or `none` without one; the run is
   * detached exactly when `--detached` was given, and attached otherwise;
   * help is asked for by `--help` or `-h` written as `--h`.
   */
  lemma StartMeaning(args: seq<string>)
    ensures var o := ParseStart(args); var items := Items(args);
      && (!SomeSets(items, "isolation") ==> o.isolation == "none")
      && (SomeSets(items, "isolation") ==> exists i: nat :: LastSets(items, "isolation", i) && o.isolation == items[i].value)
      && (o.detached <==> exists i | 0 <= i < |items| :: Names(items[i], "detached"))
      && o.attached == !o.detached
      && (o.help <==> exists i | 0 <= i < |items| :: Names(items[i], "help") || Names(items[i], "h"))
  {
    var items := Items(args);
    GetMeaning(args, "isolation");
    HasFlagMeaning(args, "detached");
    HasFlagMeaning(args, "help");
    HasFlagMeaning(args, "h");
  }

  /** What the stop options say about the arguments: isolation is given only by `--isolation v`. */
  lemma StopMeaning(args: seq<string>)
    ensures var o := ParseStop(args); var items := Items(args);
      && (o.isolation.None? <==> !SomeSets(items, "isolation"))
      && (o.isolation.Some? ==> exists i: nat :: LastSets(items, "isolation", i) && o.isolation.value == items[i].value)
  {
    GetMeaning(args, "isolation");
  }

  /** Reading `--a x --b y --c z`: three options, in order. */
  lemma ItemsOfPairs(a: string, x: string, b: string, y: string, c: string, z: string)
    requires IsLong(a) && IsLong(b) && IsLong(c) && !IsLong(x) && !IsLong(y) && !IsLong(z)
    ensures Items([a, x, b, y, c, z]) == [OptionItem(a, x), OptionItem(b, y), OptionItem(c, z)]
  {
    var args := [a, x, b, y, c, z];
    assert args[0..] == args;
    ItemsFrom(args, 0);
    ItemsFrom(args, 2);
    ItemsFrom(args, 4);
    assert args[6..] == [];
  }

  /** The options of three option items. */
  lemma OptionsOfThree(a: Item, b: Item, c: Item)
    requires a.OptionItem? && b.OptionItem? && c.OptionItem?
    ensures Summary([a, b, c]) == ParsedArgs(map[Key(a.arg) := a.value][Key(b.arg) := b.value][Key(c.arg) := c.value], [], [])
  {
    SummaryPair(a, b);
    SummarySnoc([a, b], c);
    assert [a, b] + [c] == [a, b, c];
  }

  /** An argument whose first character is not `-` is not long. */
  lemma NotLong(arg: string)
    requires arg != [] && arg[0] != '-'
    ensures !IsLong(arg)
  {
  }

  /** `--f x --g y --h z`: three options and nothing else. */
  lemma ThreeOptions(f: string, x: string, g: string, y: string, h: string, z: string)
    requires !IsLong(f) && !IsLong(g) && !IsLong(h) && !IsLong(x) && !IsLong(y) && !IsLong(z)
    ensures Parsed(["--" + f, x, "--" + g, y, "--" + h, z]) == ParsedArgs(map[f := x][g := y][h := z], [], [])
  {
    KeyOfLong(f);
    KeyOfLong(g);
    KeyOfLong(h);
    ItemsOfPairs("--" + f, x, "--" + g, y, "--" + h, z);
    OptionsOfThree(OptionItem("--" + f, x), OptionItem("--" + g, y), OptionItem("--" + h, z));
  }

  /** `--tool t --working-directory w --prompt p` gives those three and the default isolation `none` (a test case, in general). */
  lemma StartBasic(t: string, w: string, p: string)
    requires !IsLong(t) && !IsLong(w) && !IsLong(p)
    ensures var o := ParseStart(["--" + "tool", t, "--" + "working-directory", w, "--" + "prompt", p]);
      o.tool == Some(t) && o.workingDirectory == Some(w) && o.prompt == Some(p) && o.isolation == "none"
  {
    var args := ["--" + "tool", t, "--" + "working-directory", w, "--" + "prompt", p];
    NotLong("tool");
    NotLong("working-directory");
    NotLong("prompt");
    ThreeOptions("tool", t, "working-directory", w, "prompt", p);
    var parsed := Parsed(args);
    assert parsed.Get("tool") == Some(t);
    assert parsed.Get("working-directory") == Some(w);
    assert parsed.Get("prompt") == Some(p);
    assert parsed.Get("isolation") == None;
  }

  // ---------------------------------------------------------------------
  // Validation
  // ---------------------------------------------------------------------

  /** `ValidationResult`. */
  datatype ValidationResult = ValidationResult(valid: bool, errors: seq<string>)

  const ToolRequired := "--tool is required"
  const WorkingDirectoryRequired := "--working-directory is required"
  const ScreenNameRequired := "--screen-name is required for screen isolation"
  const ContainerNameRequired := "--container-name is required for docker isolation"
  const StartIsolationInvalid := "--isolation must be one of: none, screen, docker"
  const IsolationRequired := "--isolation is required"
  const StopIsolationInvalid := "--isolation must be one of: screen, docker"

  /** The message when the condition holds, nothing otherwise. */
  function When(b: bool, message: string): seq<string>
  {
    if b then [message] else []
  }

  /** The errors of `validate_start_agent_options`, rule by rule in the source's order. */
  function StartErrors(o: StartAgentOptions): seq<string>
  {
    When(o.tool.None?, ToolRequired)
    + When(o.workingDirectory.None?, WorkingDirectoryRequired)
    + When(o.isolation == "screen" && o.screenName.None?, ScreenNameRequired)
    + When(o.isolation == "docker" && o.containerName.None?, ContainerNameRequired)
    + When(o.isolation !in ["none", "screen", "docker"], StartIsolationInvalid)
  }

  /** What a startable configuration needs: a tool, a working directory, a known isolation and the name it uses. */
  predicate StartOk(o: StartAgentOptions)
  {
    && o.tool.Some? && o.workingDirectory.Some?
    && (o.isolation == "none" || o.isolation == "screen" || o.isolation == "docker")
    && (o.isolation == "screen" ==> o.screenName.Some?)
    && (o.isolation == "docker" ==> o.containerName.Some?)
  }

  /** `validate_start_agent_options`: each failed rule pushes its message; valid means no messages. */
  method ValidateStartAgentOptions(o: StartAgentOptions) returns (result: ValidationResult)
    ensures result.errors == StartErrors(o)
    ensures result.valid <==> StartOk(o)
  {
    var errors: seq<string> := [];
    if o.tool.None? {
      errors := errors + [ToolRequired];
    }
    if o.workingDirectory.None? {
      errors := errors + [WorkingDirectoryRequired];
    }
    if o.isolation == "screen" && o.screenName.None? {
      errors := errors + [ScreenNameRequired];
    }
    if o.isolation == "docker" && o.containerName.None? {
      errors := errors + [ContainerNameRequired];
    }
    if o.isolation !in ["none", "screen", "docker"] {
      errors := errors + [StartIsolationInvalid];
    }
    result := ValidationResult(errors == [], errors);
    StartValidIff(o);
  }

  /** The options are valid exactly when they are startable. */
  lemma StartValidIff(o: StartAgentOptions)
    ensures StartErrors(o) == [] <==> StartOk(o)
  {
  }

  /**
   * Each message is reported exactly when its rule fails; the two name
   * messages exclude each other and the unknown-isolation message; and the
   * list holds at most one message per rule.
   */
  lemma StartErrorsMeaning(o: StartAgentOptions)
    ensures ToolRequired in StartErrors(o) <==> o.tool.None?
    ensures WorkingDirectoryRequired in StartErrors(o) <==> o.workingDirectory.None?
    ensures ScreenNameRequired in StartErrors(o) <==> o.isolation == "screen" && o.screenName.None?
    ensures ContainerNameRequired in StartErrors(o) <==> o.isolation == "docker" && o.containerName.None?
    ensures StartIsolationInvalid in StartErrors(o) <==> o.isolation != "none" && o.isolation != "screen" && o.isolation != "docker"
    ensures |StartErrors(o)| <= 3
    ensures StartIsolationInvalid in StartErrors(o) ==> ScreenNameRequired !in StartErrors(o) && ContainerNameRequired !in StartErrors(o)
  {
  }

  /** A missing tool is always reported, and first (the missing-tool test case, in general). */
  lemma MissingToolReported(o: StartAgentOptions)
    requires o.tool.None?
    ensures StartErrors(o) != [] && StartErrors(o)[0] == ToolRequired
  {
  }

  /** The errors of `validate_stop_agent_options`: the name rules apply only once an isolation is given. */
  function StopErrors(o: StopAgentOptions): seq<string>
  {
    match o.isolation
    case None => [IsolationRequired]
    case Some(iso) =>
      When(iso !in ["screen", "docker"], StopIsolationInvalid)
      + When(iso == "screen" && o.screenName.None?, ScreenNameRequired)
      + When(iso == "docker" && o.containerName.None?, ContainerNameRequired)
  }

  /** What a stoppable configuration needs: screen with a session name, or docker with a container name. */
  predicate StopOk(o: StopAgentOptions)
  {
    || (o.isolation == Some("screen") && o.screenName.Some?)
    || (o.isolation == Some("docker") && o.containerName.Some?)
  }

  /** `validate_stop_agent_options`. */
  method ValidateStopAgentOptions(o: StopAgentOptions) returns (result: ValidationResult)
    ensures result.errors == StopErrors(o)
    ensures result.valid <==> StopOk(o)
  {
    var errors: seq<string> := [];
    if o.isolation.None? {
      errors := errors + [IsolationRequired];
    }
    if o.isolation.Some? {
      var isolation := o.isolation.value;
      if isolation !in ["screen", "docker"] {
        errors := errors + [StopIsolationInvalid];
      }
      if isolation == "screen" && o.screenName.None? {
        errors := errors + [ScreenNameRequired];
      }
      if isolation == "docker" && o.containerName.None? {
        errors := errors + [ContainerNameRequired];
      }
    }
    result := ValidationResult(errors == [], errors);
    StopValidIff(o);
  }

  lemma StopValidIff(o: StopAgentOptions)
    ensures StopErrors(o) == [] <==> StopOk(o)
  {
  }

  /** With no isolation given, the only message is that it is required: the other rules need an isolation. */
  lemma StopWithoutIsolation(o: StopAgentOptions)
    requires o.isolation.None?
    ensures StopErrors(o) == [IsolationRequired]
  {
  }

  /** The default stop options (the missing-isolation test case) report exactly that isolation is required. */
  lemma StopDefaultsReported()
    ensures StopErrors(StopAgentOptions(None, None, None, false, false)) == [IsolationRequired]
  {
    StopWithoutIsolation(StopAgentOptions(None, None, None, false, false));
  }

  /** Screen isolation with a session name is valid, whatever else is set (the valid-stop test case, in general). */
  lemma StopScreenValid(o: StopAgentOptions)
    requires o.isolation == Some("screen") && o.screenName.Some?
    ensures StopErrors(o) == []
  {
  }

  /** The message of an unknown isolation and the two name messages cannot occur together for stop either. */
  lemma StopErrorsMeaning(o: StopAgentOptions)
    ensures IsolationRequired in StopErrors(o) <==> o.isolation.None?
    ensures StopIsolationInvalid in StopErrors(o) <==> o.isolation.Some? && o.isolation.value != "screen" && o.isolation.value != "docker"
    ensures ScreenNameRequired in StopErrors(o) <==> o.isolation == Some("screen") && o.screenName.None?
    ensures ContainerNameRequired in StopErrors(o) <==> o.isolation == Some("docker") && o.containerName.None?
    ensures |StopErrors(o)| <= 1
  {
  }
}
