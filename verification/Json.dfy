/** JSON values as Python holds them: a dictionary is its entries in insertion order.
    `json.dumps` followed by `json.loads` is the identity on them. */
module Json {
  import opened Wrappers

  datatype Json =
    | Null
    | Bool(b: bool)
    | Int(n: int)
    | Float(r: real)
    | Str(s: string)
    | List(items: seq<Json>)
    | Dict(entries: seq<Entry>)

  datatype Entry = Entry(key: string, value: Json)

  /** A text some program may try to `json.loads`: the encoding of a value, or not JSON. */
  datatype Text = Encoded(value: Json) | Garbage(raw: string)

  /** `d.get(key)` */
  function Get(entries: seq<Entry>, key: string): Option<Json> {
    if entries == [] then None
    else if entries[0].key == key then Some(entries[0].value)
    else Get(entries[1..], key)
  }

  /** `d[key] = value`: in place if the key is there, at the end if it is not. */
  function Put(entries: seq<Entry>, e: Entry): seq<Entry> {
    if entries == [] then [e]
    else if entries[0].key == e.key then [e] + entries[1..]
    else [entries[0]] + Put(entries[1..], e)
  }

  /** `{**base, **extra}` */
  function Spread(base: seq<Entry>, extra: seq<Entry>): seq<Entry>
    decreases |extra|
  {
    if extra == [] then base else Spread(Put(base, extra[0]), extra[1..])
  }

  /** `isinstance(v, str)`, as an optional string. */
  function AsString(v: Option<Json>): Option<string> {
    match v
    case Some(Str(s)) => Some(s)
    case _ => None
  }

  predicate Truthy(v: Json) {
    match v
    case Null => false
    case Bool(b) => b
    case Int(n) => n != 0
    case Float(r) => r != 0.0
    case Str(s) => s != ""
    case List(items) => items != []
    case Dict(entries) => entries != []
  }

  /** The seven values Python counts as false. */
  const FALSY: set<Json> := {Null, Bool(false), Int(0), Float(0.0), Str(""), List([]), Dict([])}

  lemma TruthyIff(v: Json)
    ensures Truthy(v) <==> v !in FALSY
  {
  }

  function Keys(entries: seq<Entry>): set<string> {
    set e | e in entries :: e.key
  }

  lemma {:induction false} GetPut(entries: seq<Entry>, e: Entry, key: string)
    ensures Get(Put(entries, e), key) == if key == e.key then Some(e.value) else Get(entries, key)
  {
    if entries != [] && entries[0].key != e.key {
      GetPut(entries[1..], e, key);
      assert ([entries[0]] + Put(entries[1..], e))[1..] == Put(entries[1..], e);
    } else if entries != [] {
      assert ([e] + entries[1..])[1..] == entries[1..];
    }
  }

  /** Spreading entries that do not use a key leaves the value under it alone. */
  lemma {:induction false} GetSpread(base: seq<Entry>, extra: seq<Entry>, key: string)
    requires key !in Keys(extra)
    ensures Get(Spread(base, extra), key) == Get(base, key)
    decreases |extra|
  {
    if extra != [] {
      assert extra[0].key in Keys(extra);
      assert Keys(extra[1..]) <= Keys(extra);
      GetPut(base, extra[0], key);
      GetSpread(Put(base, extra[0]), extra[1..], key);
    }
  }

  /** No key occurs twice, as in any dictionary. */
  ghost predicate DistinctKeys(entries: seq<Entry>) {
    forall i, j :: 0 <= i < j < |entries| ==> entries[i].key != entries[j].key
  }

  lemma {:induction false} GetAt(entries: seq<Entry>, i: nat)
    requires i < |entries| && DistinctKeys(entries)
    ensures Get(entries, entries[i].key) == Some(entries[i].value)
  {
    if i > 0 {
      assert entries[1..][i - 1] == entries[i];
      GetAt(entries[1..], i - 1);
    }
  }

  /** Spreading a dictionary puts its values over those of the base. */
  lemma {:induction false} SpreadWins(base: seq<Entry>, extra: seq<Entry>, key: string)
    requires DistinctKeys(extra)
    ensures Get(Spread(base, extra), key) == if Get(extra, key).Some? then Get(extra, key) else Get(base, key)
    decreases |extra|
  {
    if extra != [] {
      var put, rest := Put(base, extra[0]), extra[1..];
      SpreadWins(put, rest, key);
      GetPut(base, extra[0], key);
      if key == extra[0].key {
        GetNone(rest, key);
      }
    }
  }

  lemma {:induction false} GetNone(entries: seq<Entry>, key: string)
    ensures Get(entries, key).None? <==> key !in Keys(entries)
  {
    if entries != [] {
      GetNone(entries[1..], key);
      assert Keys(entries) == {entries[0].key} + Keys(entries[1..]);
    }
  }
}
