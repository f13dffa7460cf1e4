/** agent/sanitize.py: every string leaf of a tool result is capped and tagged before it
    reaches the language model, and the playbook strips the tags off again
    (eval/rule_llm.py:68-70). */
module Sanitize {
  import opened Json
  import opened Text

  const OPEN := "<untrusted>"
  const CLOSE := "</untrusted>"
  const MARK := "\U{2026}[truncated]"
  const MAX_STR := 2000

  /** The cap on one string, before tagging. */
  function Capped(s: string): string {
    if |s| > MAX_STR then s[..MAX_STR] + MARK else s
  }

  function Wrap(s: string): string {
    OPEN + Capped(s) + CLOSE
  }

  /** What the playbook does to an identifier before it cites it. */
  function Unwrap(s: string): string {
    RemoveAll(RemoveAll(s, OPEN), CLOSE)
  }

  function Sanitize(v: Json): Json {
    match v
    case Str(s) => Str(Wrap(s))
    case List(items) => List(seq(|items|, i requires 0 <= i < |items| => Sanitize(items[i])))
    case Dict(entries) =>
      Dict(seq(|entries|, i requires 0 <= i < |entries| =>
        Entry(entries[i].key, Sanitize(entries[i].value))))
    case _ => v
  }

  /** `contains_suspicious`, for any pattern to search for. */
  predicate ContainsSuspicious(v: Json, hit: string -> bool) {
    match v
    case Str(s) => hit(s)
    case List(items) => exists i :: 0 <= i < |items| && ContainsSuspicious(items[i], hit)
    case Dict(entries) => exists i :: 0 <= i < |entries| && ContainsSuspicious(entries[i].value, hit)
    case _ => false
  }

  // ---- what these functions mean ------------------------------------------------------

  /** The string leaves of a value, from left to right. Keys are not leaves. */
  function Leaves(v: Json): seq<string>
    decreases v, 0
  {
    match v
    case Str(s) => [s]
    case List(items) => LeavesOfItems(items)
    case Dict(entries) => LeavesOfEntries(entries)
    case _ => []
  }

  function LeavesOfItems(items: seq<Json>): seq<string> {
    if items == [] then [] else Leaves(items[0]) + LeavesOfItems(items[1..])
  }

  function LeavesOfEntries(entries: seq<Entry>): seq<string> {
    if entries == [] then [] else Leaves(entries[0].value) + LeavesOfEntries(entries[1..])
  }

  /** Two values that differ at most in the text of their string leaves. */
  ghost predicate SameShape(a: Json, b: Json) {
    match (a, b)
    case (Str(_), Str(_)) => true
    case (List(xs), List(ys)) => |xs| == |ys| && forall i :: 0 <= i < |xs| ==> SameShape(xs[i], ys[i])
    case (Dict(xs), Dict(ys)) =>
      && |xs| == |ys|
      && forall i :: 0 <= i < |xs| ==> xs[i].key == ys[i].key && SameShape(xs[i].value, ys[i].value)
    case _ => a == b && !a.Str? && !a.List? && !a.Dict?
  }

  function WrapEach(leaves: seq<string>): (r: seq<string>)
    ensures |r| == |leaves|
  {
    seq(|leaves|, i requires 0 <= i < |leaves| => Wrap(leaves[i]))
  }

  lemma WrapEachConcat(xs: seq<string>, ys: seq<string>)
    ensures WrapEach(xs + ys) == WrapEach(xs) + WrapEach(ys)
  {
  }

  lemma {:induction false} SanitizeIsFaithful(v: Json)
    ensures SameShape(v, Sanitize(v))
    ensures Leaves(Sanitize(v)) == WrapEach(Leaves(v))
    decreases v, 0
  {
    match v
    case List(items) => SanitizeItems(items, Sanitize(v).items);
    case Dict(entries) => SanitizeEntries(entries, Sanitize(v).entries);
    case _ =>
  }

  lemma {:induction false} SanitizeItems(items: seq<Json>, out: seq<Json>)
    requires |out| == |items| && forall i :: 0 <= i < |items| ==> out[i] == Sanitize(items[i])
    ensures forall i :: 0 <= i < |items| ==> SameShape(items[i], out[i])
    ensures LeavesOfItems(out) == WrapEach(LeavesOfItems(items))
    decreases items
  {
    if items != [] {
      SanitizeIsFaithful(items[0]);
      SanitizeItems(items[1..], out[1..]);
      WrapEachConcat(Leaves(items[0]), LeavesOfItems(items[1..]));
      assert forall i :: 0 < i < |items| ==> items[i] == items[1..][i - 1] && out[i] == out[1..][i - 1];
    }
  }

  lemma {:induction false} SanitizeEntries(entries: seq<Entry>, out: seq<Entry>)
    requires |out| == |entries|
    requires forall i :: 0 <= i < |entries| ==> out[i] == Entry(entries[i].key, Sanitize(entries[i].value))
    ensures forall i :: 0 <= i < |entries| ==> SameShape(entries[i].value, out[i].value)
    ensures LeavesOfEntries(out) == WrapEach(LeavesOfEntries(entries))
    decreases entries
  {
    if entries != [] {
      SanitizeIsFaithful(entries[0].value);
      SanitizeEntries(entries[1..], out[1..]);
      WrapEachConcat(Leaves(entries[0].value), LeavesOfEntries(entries[1..]));
      assert forall i :: 0 < i < |entries| ==> entries[i] == entries[1..][i - 1] && out[i] == out[1..][i - 1];
    }
  }

  /** A value is determined by its shape and the text of its leaves. */
  lemma {:induction false} ShapeAndLeavesDetermine(a: Json, b: Json, restA: seq<string>, restB: seq<string>)
    requires SameShape(a, b) && Leaves(a) + restA == Leaves(b) + restB
    ensures a == b && restA == restB
    decreases a, 0
  {
    if a.Str? {
      assert (Leaves(a) + restA)[0] == a.s && (Leaves(b) + restB)[0] == b.s;
      assert (Leaves(a) + restA)[1..] == restA && (Leaves(b) + restB)[1..] == restB;
    } else if a.List? {
      ItemsDetermined(a.items, b.items, restA, restB);
    } else if a.Dict? {
      EntriesDetermined(a.entries, b.entries, restA, restB);
    } else {
      assert Leaves(a) + restA == restA && Leaves(b) + restB == restB;
    }
  }

  lemma {:induction false} ItemsDetermined(xs: seq<Json>, ys: seq<Json>, restA: seq<string>, restB: seq<string>)
    requires |xs| == |ys| && forall i :: 0 <= i < |xs| ==> SameShape(xs[i], ys[i])
    requires LeavesOfItems(xs) + restA == LeavesOfItems(ys) + restB
    ensures xs == ys && restA == restB
    decreases xs
  {
    if xs == [] {
      assert LeavesOfItems(xs) + restA == restA && LeavesOfItems(ys) + restB == restB;
    } else {
      var tailA, tailB := LeavesOfItems(xs[1..]) + restA, LeavesOfItems(ys[1..]) + restB;
      assert Leaves(xs[0]) + tailA == LeavesOfItems(xs) + restA;
      assert Leaves(ys[0]) + tailB == LeavesOfItems(ys) + restB;
      ShapeAndLeavesDetermine(xs[0], ys[0], tailA, tailB);
      ItemsDetermined(xs[1..], ys[1..], restA, restB);
      assert xs == [xs[0]] + xs[1..] && ys == [ys[0]] + ys[1..];
    }
  }

  lemma {:induction false} EntriesDetermined(xs: seq<Entry>, ys: seq<Entry>, restA: seq<string>, restB: seq<string>)
    requires |xs| == |ys|
    requires forall i :: 0 <= i < |xs| ==> xs[i].key == ys[i].key && SameShape(xs[i].value, ys[i].value)
    requires LeavesOfEntries(xs) + restA == LeavesOfEntries(ys) + restB
    ensures xs == ys && restA == restB
    decreases xs
  {
    if xs == [] {
      assert LeavesOfEntries(xs) + restA == restA && LeavesOfEntries(ys) + restB == restB;
    } else {
      var tailA, tailB := LeavesOfEntries(xs[1..]) + restA, LeavesOfEntries(ys[1..]) + restB;
      assert Leaves(xs[0].value) + tailA == LeavesOfEntries(xs) + restA;
      assert Leaves(ys[0].value) + tailB == LeavesOfEntries(ys) + restB;
      ShapeAndLeavesDetermine(xs[0].value, ys[0].value, tailA, tailB);
      EntriesDetermined(xs[1..], ys[1..], restA, restB);
      assert xs == [xs[0]] + xs[1..] && ys == [ys[0]] + ys[1..];
    }
  }

  /** A leaf as it must leave the sanitizer. */
  ghost function Tagged(s: string): string {
    "<untrusted>" + (if |s| <= 2000 then s else s[..2000] + "\U{2026}[truncated]") + "</untrusted>"
  }

  lemma WrapIsTagged(s: string)
    ensures Wrap(s) == Tagged(s)
  {
  }

  /** Sanitizing is exactly this: keep the shape, the keys and every other scalar, and put each
      string leaf, cut at 2000 characters, between the two tags. Nothing else does both. */
  lemma SanitizeIsLeafwiseWrap(v: Json, out: Json)
    ensures out == Sanitize(v) <==>
            && SameShape(v, out) && |Leaves(out)| == |Leaves(v)|
            && forall k :: 0 <= k < |Leaves(v)| ==> Leaves(out)[k] == Tagged(Leaves(v)[k])
  {
    hide Wrap, Tagged;
    SanitizeIsFaithful(v);
    forall k | 0 <= k < |Leaves(v)| ensures WrapEach(Leaves(v))[k] == Tagged(Leaves(v)[k]) {
      WrapIsTagged(Leaves(v)[k]);
    }
    if SameShape(v, out) && Leaves(out) == WrapEach(Leaves(v)) {
      ShapeIsEuclidean(v, out, Sanitize(v));
      assert Leaves(out) + [] == Leaves(Sanitize(v)) + [];
      ShapeAndLeavesDetermine(out, Sanitize(v), [], []);
    }
  }

  lemma {:induction false} ShapeIsEuclidean(v: Json, a: Json, b: Json)
    requires SameShape(v, a) && SameShape(v, b)
    ensures SameShape(a, b)
  {
    match v
    case List(items) =>
      forall i | 0 <= i < |items| ensures SameShape(a.items[i], b.items[i]) {
        ShapeIsEuclidean(items[i], a.items[i], b.items[i]);
      }
    case Dict(entries) =>
      forall i | 0 <= i < |entries|
        ensures a.entries[i].key == b.entries[i].key && SameShape(a.entries[i].value, b.entries[i].value)
      {
        ShapeIsEuclidean(entries[i].value, a.entries[i].value, b.entries[i].value);
      }
    case _ =>
  }

  function Total(leaves: seq<string>): nat {
    if leaves == [] then 0 else |leaves[0]| + Total(leaves[1..])
  }

  lemma {:induction false} TotalBound(leaves: seq<string>, each: nat)
    requires forall s <- leaves :: |s| <= each
    ensures Total(leaves) <= each * |leaves|
  {
    if leaves != [] {
      TotalBound(leaves[1..], each);
      assert leaves[0] in leaves;
      assert each * |leaves| == each + each * |leaves[1..]|;
    }
  }

  /** No leaf leaves the sanitizer longer than 2035 characters, so a whole result carries at
      most 2035 characters of text per string leaf it has. */
  lemma SanitizedSize(v: Json)
    ensures forall s <- Leaves(Sanitize(v)) :: |s| <= 2035
    ensures |Leaves(Sanitize(v))| == |Leaves(v)|
    ensures Total(Leaves(Sanitize(v))) <= 2035 * |Leaves(v)|
  {
    SanitizeIsFaithful(v);
    assert |OPEN| == 11 && |CLOSE| == 12 && |MARK| == 12;
    forall s <- Leaves(Sanitize(v)) ensures |s| <= 2035 {
      var i :| 0 <= i < |Leaves(v)| && s == Wrap(Leaves(v)[i]);
    }
    TotalBound(Leaves(Sanitize(v)), 2035);
  }

  /** The recursive search finds a hit exactly when some string leaf is one. */
  lemma {:induction false} SuspiciousIffSomeLeaf(v: Json, hit: string -> bool)
    ensures ContainsSuspicious(v, hit) <==> exists s <- Leaves(v) :: hit(s)
    decreases v, 0
  {
    match v
    case Str(s) =>
      assert s in Leaves(v);
    case List(items) => SuspiciousItems(items, hit);
    case Dict(entries) => SuspiciousEntries(entries, hit);
    case _ =>
  }

  lemma {:induction false} SuspiciousItems(items: seq<Json>, hit: string -> bool)
    ensures (exists i :: 0 <= i < |items| && ContainsSuspicious(items[i], hit)) <==>
            exists s <- LeavesOfItems(items) :: hit(s)
    decreases items
  {
    if items != [] {
      SuspiciousIffSomeLeaf(items[0], hit);
      SuspiciousItems(items[1..], hit);
      assert forall i :: 0 < i < |items| ==> items[i] == items[1..][i - 1];
      assert forall s :: s in LeavesOfItems(items) <==> s in Leaves(items[0]) || s in LeavesOfItems(items[1..]);
      if i :| 0 <= i < |items| && ContainsSuspicious(items[i], hit) {
        if i > 0 {
          assert ContainsSuspicious(items[1..][i - 1], hit);
        }
      }
    }
  }

  lemma {:induction false} SuspiciousEntries(entries: seq<Entry>, hit: string -> bool)
    ensures (exists i :: 0 <= i < |entries| && ContainsSuspicious(entries[i].value, hit)) <==>
            exists s <- LeavesOfEntries(entries) :: hit(s)
    decreases entries
  {
    if entries != [] {
      SuspiciousIffSomeLeaf(entries[0].value, hit);
      SuspiciousEntries(entries[1..], hit);
      assert forall i :: 0 < i < |entries| ==> entries[i] == entries[1..][i - 1];
      assert forall s :: s in LeavesOfEntries(entries) <==>
        (s in Leaves(entries[0].value) || s in LeavesOfEntries(entries[1..]));
      if i :| 0 <= i < |entries| && ContainsSuspicious(entries[i].value, hit) {
        if i > 0 {
          assert ContainsSuspicious(entries[1..][i - 1].value, hit);
        }
      }
    }
  }

  // ---- the round trip -----------------------------------------------------------------

  lemma RemoveFromClose()
    ensures RemoveAll(CLOSE, OPEN) == CLOSE
    ensures RemoveAll(CLOSE, CLOSE) == []
  {
    assert CLOSE[1..] == "/untrusted>";
    assert CLOSE[1..][..|OPEN|][0] != OPEN[0];
    assert CLOSE[..|OPEN|][1] != OPEN[1];
    assert |CLOSE[1..][1..]| < |OPEN|;
    assert RemoveAll(CLOSE[1..], OPEN) == [CLOSE[1..][0]] + CLOSE[1..][1..];
    assert CLOSE == [CLOSE[0]] + CLOSE[1..];
    assert CLOSE[..|CLOSE|] == CLOSE && CLOSE[|CLOSE|..] == [];
  }

  /** The wrapper's own tags always come off cleanly, whatever is between them. */
  lemma UnwrapOfTagged(s: string)
    ensures Unwrap(OPEN + s + CLOSE) == Unwrap(s)
  {
    var t := OPEN + s + CLOSE;
    assert t[..|OPEN|] == OPEN && t[|OPEN|..] == s + CLOSE;
    assert CLOSE[0] == '<' && '<' !in OPEN[1..] && '<' !in CLOSE[1..];
    RemoveFromClose();
    RemoveAllSeam(s, CLOSE, OPEN);
    RemoveAllSeam(RemoveAll(s, OPEN), CLOSE, CLOSE);
    assert RemoveAll(t, OPEN) == RemoveAll(s, OPEN) + CLOSE;
    assert RemoveAll(RemoveAll(s, OPEN), CLOSE) + [] == RemoveAll(RemoveAll(s, OPEN), CLOSE);
  }

  ghost predicate TagFree(s: string) {
    !Contains(s, OPEN) && !Contains(s, CLOSE)
  }

  lemma UnwrapIdentity(s: string)
    ensures Unwrap(s) == s <==> TagFree(s)
    ensures |Unwrap(s)| <= |s|
    ensures |Unwrap(s)| < |s| ==> |Unwrap(s)| + |OPEN| <= |s|
  {
    RemoveAllIdentity(s, OPEN);
    RemoveAllIdentity(RemoveAll(s, OPEN), CLOSE);
  }

  lemma UnwrapKeepsEllipses(s: string)
    ensures Occurrences(Unwrap(s), MARK[0]) == Occurrences(s, MARK[0])
  {
    assert MARK[0] !in OPEN && MARK[0] !in CLOSE;
    RemoveAllKeepsOthers(s, OPEN, MARK[0]);
    RemoveAllKeepsOthers(RemoveAll(s, OPEN), CLOSE, MARK[0]);
  }

  lemma UnwrapOfMarked(s: string)
    ensures Unwrap(s + MARK) == Unwrap(s) + MARK
  {
    assert MARK[0] !in OPEN && MARK[0] !in CLOSE && '<' !in MARK;
    NoTagInMark(OPEN);
    NoTagInMark(CLOSE);
    RemoveAllSeam(s, MARK, OPEN);
    RemoveAllSeam(RemoveAll(s, OPEN), MARK, CLOSE);
  }

  lemma NoTagInMark(tag: string)
    requires tag != [] && tag[0] == '<'
    ensures RemoveAll(MARK, tag) == MARK
  {
    ContainsHead(MARK, tag);
    RemoveAllIdentity(MARK, tag);
  }

  /** A string already cut at the cap, with the marker where the cut was. */
  predicate LooksTruncated(s: string) {
    |s| == MAX_STR + |MARK| && s[MAX_STR..] == MARK
  }

  /** Stripping the tags recovers the wrapped string exactly when it contains neither tag
      and either fits under the cap or already looks like a truncated string. */
  lemma RoundTripIff(s: string)
    ensures Unwrap(Tagged(s)) == s <==> TagFree(s) && (|s| <= 2000 || LooksTruncated(s))
  {
    WrapIsTagged(s);
    UnwrapOfTagged(Capped(s));
    UnwrapIdentity(s);
    if |s| > MAX_STR {
      RoundTripAboveTheCap(s);
    }
  }

  lemma RoundTripAboveTheCap(s: string)
    requires |s| > MAX_STR
    ensures Unwrap(Capped(s)) == s <==> TagFree(s) && LooksTruncated(s)
  {
    var head := s[..MAX_STR];
    assert |MARK| == 12;
    UnwrapOfMarked(head);
    UnwrapIdentity(head);
    UnwrapIdentity(s);
    if LooksTruncated(s) {
      assert s == head + MARK;
    }
    if Unwrap(Capped(s)) == s {
      var u := Unwrap(head);
      assert s == u + MARK;
      if |u| < MAX_STR {
        // The cut falls inside the marker, so the head has one ellipsis more than its own remains.
        var k := MAX_STR - |u|;
        assert head == u + MARK[..k];
        assert MARK[..k] == [MARK[0]] + MARK[1..k];
        UnwrapKeepsEllipses(head);
        OccurrencesConcat(u, MARK[..k], MARK[0]);
        OccurrencesConcat([MARK[0]], MARK[1..k], MARK[0]);
        assert false;
      }
      assert u == head;
      assert s[MAX_STR..] == MARK;
    }
  }

  /** Under the cap, wrapping is invisible to whoever strips the tags, even when the text
      itself contains tags. */
  lemma WrapIsInvisible(s: string)
    requires |s| <= MAX_STR
    ensures Unwrap(Wrap(s)) == Unwrap(s)
  {
    UnwrapOfTagged(s);
  }
}
