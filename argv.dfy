/**
 * Command-line argument vectors as the adapters build them: a sequence of
 * switches (`--verbose`) and flags that take the next argument as their
 * value (`--model <id>`).  `Render` flattens such a list into the argument
 * vector handed to the program; `Parse` reads one back given the set of
 * flag names that take a value.  Their round trip is what "each value flag is
 * immediately followed by its value" means.
 */
module Argv {
  import opened Wrappers

  datatype Flag = Switch(name: string) | Valued(name: string, value: string)

  function Words(f: Flag): seq<string>
  {
    match f
    case Switch(n) => [n]
    case Valued(n, v) => [n, v]
  }

  /** The argument vector of a flag list, in order. */
  function Render(fs: seq<Flag>): seq<string>
  {
    if fs == [] then [] else Render(fs[..|fs| - 1]) + Words(fs[|fs| - 1])
  }

  lemma {:induction false} RenderAppend(a: seq<Flag>, b: seq<Flag>)
    ensures Render(a + b) == Render(a) + Render(b)
    decreases |b|
  {
    if b == [] {
      assert a + b == a;
    } else {
      assert (a + b)[..|a + b| - 1] == a + b[..|b| - 1];
      RenderAppend(a, b[..|b| - 1]);
    }
  }

  lemma RenderOne(f: Flag)
    ensures Render([f]) == Words(f)
  {
    assert [f][..0] == [];
  }

  /** Switch names never take a value; value flags always do. */
  predicate Fits(fs: seq<Flag>, valued: set<string>)
  {
    forall f | f in fs :: (f.name in valued <==> f.Valued?)
  }

  /** Reads an argument vector back into flags, or None when a value flag comes last without its value. */
  function Parse(argv: seq<string>, valued: set<string>): Option<seq<Flag>>
    decreases |argv|
  {
    if argv == [] then Some([])
    else if argv[0] in valued then
      if |argv| < 2 then None
      else
        match Parse(argv[2..], valued)
        case Some(rest) => Some([Valued(argv[0], argv[1])] + rest)
        case None => None
    else
      match Parse(argv[1..], valued)
      case Some(rest) => Some([Switch(argv[0])] + rest)
      case None => None
  }

  /** Rendering then parsing gives back the flags, so no value is ever mistaken for a flag. */
  lemma {:induction false} ParseRender(fs: seq<Flag>, valued: set<string>)
    requires Fits(fs, valued)
    ensures Parse(Render(fs), valued) == Some(fs)
    decreases |fs|
  {
    if fs != [] {
      var f, rest := fs[0], fs[1..];
      assert fs == [f] + rest;
      RenderAppend([f], rest);
      RenderOne(f);
      assert Fits(rest, valued) by {
        forall g | g in rest ensures (g.name in valued <==> g.Valued?) {
          assert g in fs;
        }
      }
      ParseRender(rest, valued);
      var argv := Render(fs);
      assert f in fs;
      if f.Valued? {
        assert argv[2..] == Render(rest);
      } else {
        assert argv[1..] == Render(rest);
      }
    }
  }

  /** The flag `name` with the option's value, when there is one. */
  function IfSome(name: string, v: Option<string>): seq<Flag>
  {
    if v.Some? then [Valued(name, v.value)] else []
  }

  /** The switch `name` when the option is set. */
  function IfSet(name: string, b: bool): seq<Flag>
  {
    if b then [Switch(name)] else []
  }

  /** `Some(v)` when `b` holds. */
  function When(b: bool, v: string): Option<string>
  {
    if b then Some(v) else None
  }

  /** Rendering one more optional value flag. */
  lemma RenderSnocValued(fs: seq<Flag>, name: string, v: Option<string>)
    ensures Render(fs + IfSome(name, v)) == Render(fs) + (if v.Some? then [name, v.value] else [])
  {
    if v.Some? {
      assert (fs + IfSome(name, v))[..|fs|] == fs;
    } else {
      assert fs + IfSome(name, v) == fs;
    }
  }

  /** Rendering one more optional switch. */
  lemma RenderSnocSwitch(fs: seq<Flag>, name: string, b: bool)
    ensures Render(fs + IfSet(name, b)) == Render(fs) + (if b then [name] else [])
  {
    if b {
      assert (fs + IfSet(name, b))[..|fs|] == fs;
    } else {
      assert fs + IfSet(name, b) == fs;
    }
  }

  /** The first argument of a rendered list is the name of its first flag. */
  lemma RenderHead(f: Flag, rest: seq<Flag>)
    ensures Render([f] + rest) != [] && Render([f] + rest)[0] == f.name
  {
    RenderAppend([f], rest);
    RenderOne(f);
  }

  /**
   * One `if let Some(x) = ... { args.push(name); args.push(x) }` step of a
   * `build_args`; `fs` is the flag list the arguments pushed so far render.
   */
  method PushValued(args: seq<string>, ghost fs: seq<Flag>, name: string, v: Option<string>) returns (r: seq<string>)
    requires args == Render(fs)
    ensures r == Render(fs + IfSome(name, v))
  {
    r := args;
    if v.Some? {
      r := r + [name, v.value];
    }
    RenderSnocValued(fs, name, v);
  }

  /** One `if flag { args.push(name) }` step of a `build_args`. */
  method PushSwitch(args: seq<string>, ghost fs: seq<Flag>, name: string, b: bool) returns (r: seq<string>)
    requires args == Render(fs)
    ensures r == Render(fs + IfSet(name, b))
  {
    r := args;
    if b {
      r := r + [name];
    }
    RenderSnocSwitch(fs, name, b);
  }
}
