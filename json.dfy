/**
 * The JSON value the core passes around (serde_json's `Value`), the
 * accessors it uses on it (`get`, `as_str`, `as_u64`, `is_null`, object
 * `insert`), and the parser/serialiser, which are not part of this model and
 * appear as an opaque `Codec` value.
 */
module Json {
  import opened Wrappers

  /** A JSON number: an integer, or a non-integral value kept as its literal. */
  datatype Number = Int(value: int) | Float(literal: string)

  /** A JSON value (RFC 8259, section 3); object members keep their insertion order. */
  datatype Json =
    | Null
    | Bool(b: bool)
    | Num(n: Number)
    | Str(s: string)
    | Arr(items: seq<Json>)
    | Obj(members: seq<(string, Json)>)
  {
    /** `Value::get(key)`: the member value of an object, absent for a missing key or a non-object. */
    function Get(key: string): Option<Json>
    {
      if Obj? then Lookup(members, key) else None
    }

    /** `Value::as_str`. */
    function AsStr(): (r: Option<string>)
      ensures r.Some? <==> Str?
    {
      if Str? then Some(s) else None
    }

    /** `Value::as_u64`: present only for an integer in the range 0 .. 2^64 - 1. */
    function AsU64(): (r: Option<nat>)
      ensures r.Some? <==> Num? && n.Int? && 0 <= n.value < U64_LIMIT
      ensures r.Some? ==> r.value == n.value && r.value < U64_LIMIT
    {
      if Num? && n.Int? && 0 <= n.value < U64_LIMIT then Some(n.value) else None
    }

    /** `msg.get(key).and_then(|v| v.as_str())`. */
    function GetStr(key: string): Option<string>
    {
      match Get(key)
      case Some(v) => v.AsStr()
      case None => None
    }

    /** `msg.get(key).and_then(|v| v.as_u64())`. */
    function GetU64(key: string): Option<nat>
    {
      match Get(key)
      case Some(v) => v.AsU64()
      case None => None
    }

    /** `msg.get("type").and_then(|v| v.as_str()) == Some(t)`. */
    predicate HasType(t: string)
    {
      GetStr("type") == Some(t)
    }
  }

  const U64_LIMIT: nat := 0x1_0000_0000_0000_0000

  predicate HasKey(members: seq<(string, Json)>, key: string)
  {
    exists i | 0 <= i < |members| :: members[i].0 == key
  }

  /** The value of the first member named `key`. */
  function Lookup(members: seq<(string, Json)>, key: string): Option<Json>
  {
    if members == [] then None
    else if members[0].0 == key then Some(members[0].1)
    else Lookup(members[1..], key)
  }

  /** A lookup finds a value exactly when the key is present, and then it is the value of the first member with that key. */
  lemma {:induction false} LookupFirst(members: seq<(string, Json)>, key: string)
    ensures Lookup(members, key).Some? <==> HasKey(members, key)
    ensures Lookup(members, key).Some? ==> exists i | 0 <= i < |members| ::
      (members[i] == (key, Lookup(members, key).value) && forall j | 0 <= j < i :: members[j].0 != key)
  {
    if members != [] && members[0].0 != key {
      var r := Lookup(members[1..], key);
      LookupFirst(members[1..], key);
      assert HasKey(members, key) ==> HasKey(members[1..], key) by {
        if HasKey(members, key) {
          var i :| 0 <= i < |members| && members[i].0 == key;
          assert members[1..][i - 1].0 == key;
        }
      }
      assert HasKey(members[1..], key) ==> HasKey(members, key) by {
        if HasKey(members[1..], key) {
          var i :| 0 <= i < |members[1..]| && members[1..][i].0 == key;
          assert members[i + 1].0 == key;
        }
      }
      if r.Some? {
        var i :| 0 <= i < |members[1..]| && members[1..][i] == (key, r.value)
          && forall j | 0 <= j < i :: members[1..][j].0 != key;
        assert members[i + 1] == (key, r.value);
        forall j | 0 <= j < i + 1 ensures members[j].0 != key {
          if j > 0 { assert members[j] == members[1..][j - 1]; }
        }
      }
    } else if members != [] {
      assert members[0].0 == key;
    }
  }

  /** `get` finds a member exactly for an object holding the key, and the value is that member's. */
  lemma GetMember(v: Json, key: string)
    ensures v.Get(key).Some? <==> v.Obj? && HasKey(v.members, key)
    ensures v.Get(key).Some? ==> (key, v.Get(key).value) in v.members
  {
    if v.Obj? {
      LookupFirst(v.members, key);
      if v.Get(key).Some? {
        var i :| 0 <= i < |v.members| && v.members[i] == (key, v.Get(key).value)
          && forall j | 0 <= j < i :: v.members[j].0 != key;
        assert v.members[i] in v.members;
      }
    }
  }

  /**
   * serde_json's `Map::insert`: the value of an existing key is replaced in
   * place, a new key is appended.
   */
  function Insert(members: seq<(string, Json)>, key: string, value: Json): (r: seq<(string, Json)>)
    ensures |r| == if HasKey(members, key) then |members| else |members| + 1
  {
    if members == [] then [(key, value)]
    else if members[0].0 == key then [(key, value)] + members[1..]
    else
      assert HasKey(members, key) <==> HasKey(members[1..], key) by {
        if HasKey(members, key) {
          var i :| 0 <= i < |members| && members[i].0 == key;
          assert members[1..][i - 1].0 == key;
        }
        if HasKey(members[1..], key) {
          var i :| 0 <= i < |members[1..]| && members[1..][i].0 == key;
          assert members[i + 1].0 == key;
        }
      }
      [members[0]] + Insert(members[1..], key, value)
  }

  /** After `insert(key, value)` the key holds `value`, and every other key keeps its value. */
  lemma {:induction false} LookupInsert(members: seq<(string, Json)>, key: string, value: Json, other: string)
    ensures Lookup(Insert(members, key, value), key) == Some(value)
    ensures other != key ==> Lookup(Insert(members, key, value), other) == Lookup(members, other)
  {
    if members != [] && members[0].0 != key {
      LookupInsert(members[1..], key, value, other);
      var r := Insert(members, key, value);
      assert r[1..] == Insert(members[1..], key, value);
    } else if members != [] {
      var r := Insert(members, key, value);
      assert r[1..] == members[1..];
    }
  }

  /** No two members share a key, as in every object serde_json builds. */
  predicate DistinctKeys(members: seq<(string, Json)>)
  {
    forall i, j | 0 <= i < j < |members| :: members[i].0 != members[j].0
  }

  /** Looking up in a concatenation looks in the first part, then in the second. */
  lemma {:induction false} LookupAppend(a: seq<(string, Json)>, b: seq<(string, Json)>, key: string)
    ensures Lookup(a + b, key) == if HasKey(a, key) then Lookup(a, key) else Lookup(b, key)
  {
    if a == [] {
      assert a + b == b;
    } else {
      assert (a + b)[1..] == a[1..] + b;
      LookupAppend(a[1..], b, key);
      if a[0].0 != key {
        assert HasKey(a, key) ==> HasKey(a[1..], key) by {
          if HasKey(a, key) {
            var i :| 0 <= i < |a| && a[i].0 == key;
            assert a[1..][i - 1].0 == key;
          }
        }
        assert HasKey(a[1..], key) ==> HasKey(a, key) by {
          if HasKey(a[1..], key) {
            var i :| 0 <= i < |a[1..]| && a[1..][i].0 == key;
            assert a[i + 1].0 == key;
          }
        }
      }
    }
  }

  /** `for (k, v) in members { obj.insert(k, v) }`. */
  function InsertAll(base: seq<(string, Json)>, members: seq<(string, Json)>): seq<(string, Json)>
  {
    if members == [] then base
    else
      var last := members[|members| - 1];
      Insert(InsertAll(base, members[..|members| - 1]), last.0, last.1)
  }

  /** After inserting distinct-keyed members, their keys hold their values and every other key keeps its old value. */
  lemma {:induction false} LookupInsertAll(base: seq<(string, Json)>, members: seq<(string, Json)>, key: string)
    requires DistinctKeys(members)
    ensures Lookup(InsertAll(base, members), key) == if HasKey(members, key) then Lookup(members, key) else Lookup(base, key)
  {
    if members != [] {
      var init, last := members[..|members| - 1], members[|members| - 1];
      assert members == init + [last];
      LookupInsertAll(base, init, key);
      LookupInsert(InsertAll(base, init), last.0, last.1, key);
      LookupAppend(init, [last], key);
      assert HasKey(members, key) <==> HasKey(init, key) || last.0 == key by {
        if HasKey(members, key) {
          var i :| 0 <= i < |members| && members[i].0 == key;
          if i < |init| { assert init[i].0 == key; }
        }
        if HasKey(init, key) {
          var i :| 0 <= i < |init| && init[i].0 == key;
          assert members[i].0 == key;
        }
        assert members[|init|].0 == last.0;
      }
      if last.0 == key {
        assert !HasKey(init, key);
      }
    }
  }

  /**
   * The JSON text codec (serde_json's `from_str`, `to_string` and
   * `to_string_pretty`), not modelled here: `parse` answers `None` for text
   * that is not one JSON value, `serialize(v, compact)` renders a value
   * compactly or pretty-printed.
   */
  datatype Codec = Codec(parse: string -> Option<Json>, serialize: (Json, bool) -> string)

  /** `json!({"type": t, "content": c})`. */
  function TypedContent(t: string, content: string): (r: Json)
    ensures r.HasType(t) && r.GetStr("content") == Some(content)
  {
    var members := [("type", Str(t)), ("content", Str(content))];
    assert members[1..][0].0 == "content";
    assert Lookup(members, "content") == Lookup(members[1..], "content");
    Obj(members)
  }
}
