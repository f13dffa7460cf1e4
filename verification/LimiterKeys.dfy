/** The limiter under calls for many keys: keys do not influence each other, so each one is
    a single-key history, and a set of keys can be granted only so much in any window. */
module LimiterKeys {
  import opened RateLimit
  import opened TokenClock
  import opened LimiterHistory

  /** One `try_acquire`: its key and the clock readings it takes under the lock. */
  datatype Call = Call(key: string, created: real, now: real)

  /** The lock orders the clock readings of successive calls. */
  ghost predicate Ordered(trace: seq<Call>) {
    && (forall i :: 0 <= i < |trace| ==> trace[i].created <= trace[i].now)
    && (forall i, j :: 0 <= i < j < |trace| ==> trace[i].now <= trace[j].created)
  }

  /** The table of buckets after a trace of calls on a fresh limiter. */
  function Play(cfg: Config, trace: seq<Call>): Table {
    if trace == [] then map[]
    else
      var call := trace[|trace| - 1];
      Acquire(cfg, Play(cfg, trace[..|trace| - 1]), call.key, call.created, call.now).table
  }

  /** The answers along a trace. */
  function Verdicts(cfg: Config, trace: seq<Call>): (ds: seq<bool>)
    ensures |ds| == |trace|
  {
    if trace == [] then []
    else
      var n := |trace| - 1;
      Verdicts(cfg, trace[..n]) +
      [Acquire(cfg, Play(cfg, trace[..n]), trace[n].key, trace[n].created, trace[n].now).granted]
  }

  /** Which calls of a trace are for one key. */
  function Mask(trace: seq<Call>, key: string): (mask: seq<bool>)
    ensures |mask| == |trace|
  {
    seq(|trace|, i requires 0 <= i < |trace| => trace[i].key == key)
  }

  function Times(trace: seq<Call>): (times: seq<real>)
    ensures |times| == |trace|
  {
    seq(|trace|, i requires 0 <= i < |trace| => trace[i].now)
  }

  /** The times of the calls for one key. */
  function TimesOf(trace: seq<Call>, key: string): seq<real> {
    Keep(Times(trace), Mask(trace, key))
  }

  /** The answers to the calls for one key. */
  function VerdictsOf(cfg: Config, trace: seq<Call>, key: string): seq<bool> {
    Keep(Verdicts(cfg, trace), Mask(trace, key))
  }

  /** How many calls for these keys were granted between `from` and `to`. */
  function GrantsIn(trace: seq<Call>, ds: seq<bool>, keys: set<string>, from: real, to: real): nat
    requires |trace| == |ds|
  {
    if trace == [] then 0
    else
      var n := |trace| - 1;
      GrantsIn(trace[..n], ds[..n], keys, from, to) +
      if ds[n] && trace[n].key in keys && from <= trace[n].now <= to then 1 else 0
  }

  lemma KeepSnoc<T>(xs: seq<T>, mask: seq<bool>, x: T, b: bool)
    requires |xs| == |mask|
    ensures Keep(xs + [x], mask + [b]) == if b then Keep(xs, mask) + [x] else Keep(xs, mask)
  {
    assert (xs + [x])[..|xs|] == xs && (mask + [b])[..|mask|] == mask;
  }

  lemma KeepKeySnoc<T>(xs: seq<T>, trace: seq<Call>, key: string)
    requires trace != [] && |xs| == |trace|
    ensures var n := |trace| - 1;
            Keep(xs, Mask(trace, key)) ==
            if trace[n].key == key then Keep(xs[..n], Mask(trace[..n], key)) + [xs[n]]
            else Keep(xs[..n], Mask(trace[..n], key))
  {
    var n := |trace| - 1;
    assert xs == xs[..n] + [xs[n]];
    assert Mask(trace, key) == Mask(trace[..n], key) + [trace[n].key == key];
    KeepSnoc(xs[..n], Mask(trace[..n], key), xs[n], trace[n].key == key);
  }

  lemma TimesOfSnoc(trace: seq<Call>, key: string)
    requires trace != []
    ensures var n := |trace| - 1;
            TimesOf(trace, key) ==
            if trace[n].key == key then TimesOf(trace[..n], key) + [trace[n].now] else TimesOf(trace[..n], key)
  {
    KeepKeySnoc(Times(trace), trace, key);
    assert Times(trace)[..|trace| - 1] == Times(trace[..|trace| - 1]);
  }

  lemma VerdictsOfSnoc(cfg: Config, trace: seq<Call>, key: string)
    requires trace != []
    ensures var n := |trace| - 1;
            VerdictsOf(cfg, trace, key) ==
            if trace[n].key == key then VerdictsOf(cfg, trace[..n], key) + [Verdicts(cfg, trace)[n]]
            else VerdictsOf(cfg, trace[..n], key)
    ensures Verdicts(cfg, trace)[..|trace| - 1] == Verdicts(cfg, trace[..|trace| - 1])
  {
    assert Verdicts(cfg, trace)[..|trace| - 1] == Verdicts(cfg, trace[..|trace| - 1]);
    KeepKeySnoc(Verdicts(cfg, trace), trace, key);
  }

  /** The calls for one key are in order, between the first creation and the last reading. */
  lemma {:induction false} TimesOfInOrder(trace: seq<Call>, key: string, origin: real, end: real)
    requires Ordered(trace)
    requires trace != [] ==> origin <= trace[0].now && trace[|trace| - 1].now <= end
    ensures InOrder(origin, TimesOf(trace, key))
    ensures forall i :: 0 <= i < |TimesOf(trace, key)| ==> TimesOf(trace, key)[i] <= end
  {
    if trace != [] {
      var n := |trace| - 1;
      TimesOfSnoc(trace, key);
      if n > 0 {
        assert trace[n - 1].now <= trace[n].created;
      }
      TimesOfInOrder(trace[..n], key, origin, trace[n].now);
    }
  }

  /** When the bucket of a key was created: at the first call for it. */
  function Creation(trace: seq<Call>, key: string): real
    requires trace != []
  {
    var n := |trace| - 1;
    if n == 0 || (trace[n].key == key && TimesOf(trace[..n], key) == []) then trace[n].created
    else Creation(trace[..n], key)
  }

  lemma {:induction false} CreationIsEarly(trace: seq<Call>, key: string)
    requires Ordered(trace) && TimesOf(trace, key) != []
    ensures Creation(trace, key) <= TimesOf(trace, key)[0]
  {
    var n := |trace| - 1;
    TimesOfSnoc(trace, key);
    if n > 0 && TimesOf(trace[..n], key) != [] {
      CreationIsEarly(trace[..n], key);
    }
  }

  lemma AfterSnoc(cfg: Config, origin: real, times: seq<real>, t: real)
    ensures After(cfg, origin, times + [t]) == Spent(Refilled(cfg, After(cfg, origin, times), t))
  {
    assert (times + [t])[..|times|] == times;
  }

  lemma DecisionsSnoc(cfg: Config, origin: real, times: seq<real>, t: real)
    ensures Decisions(cfg, origin, times + [t]) ==
            Decisions(cfg, origin, times) + [Admits(Refilled(cfg, After(cfg, origin, times), t))]
  {
    var all := times + [t];
    forall m | 0 <= m < |all|
      ensures Decisions(cfg, origin, all)[m] == Admits(Refilled(cfg, After(cfg, origin, all[..m]), all[m]))
    {
    }
    assert all[..|times|] == times;
    assert forall m :: 0 <= m < |times| ==> all[..m] == times[..m];
  }

  /** Each bucket of the table is the bucket of its own key's history, and a key has a bucket
      exactly when it has been called. */
  lemma {:induction false} BucketOfKey(cfg: Config, trace: seq<Call>, key: string)
    ensures key in Play(cfg, trace) <==> TimesOf(trace, key) != []
    ensures key in Play(cfg, trace) ==>
              Play(cfg, trace)[key] == After(cfg, Creation(trace, key), TimesOf(trace, key))
  {
    if trace != [] {
      var n := |trace| - 1;
      var init := TimesOf(trace[..n], key);
      BucketOfKey(cfg, trace[..n], key);
      TimesOfSnoc(trace, key);
      if trace[n].key == key {
        AfterSnoc(cfg, Creation(trace, key), init, trace[n].now);
        if init == [] {
          assert After(cfg, trace[n].created, init) == Level(cfg.capacity, trace[n].created);
        } else {
          assert Creation(trace, key) == Creation(trace[..n], key);
        }
      }
    }
  }

  /** The answer to the next call for a key is the answer of the key's own history. */
  lemma NextVerdict(cfg: Config, trace: seq<Call>, key: string, origin: real, created: real, now: real)
    requires cfg.refill >= 0.0 && Ordered(trace)
    requires trace != [] ==> origin <= trace[0].now && trace[|trace| - 1].now <= created
    requires origin <= now && created <= now
    ensures Acquire(cfg, Play(cfg, trace), key, created, now).granted ==
            Admits(Refilled(cfg, After(cfg, origin, TimesOf(trace, key)), now))
  {
    var times := TimesOf(trace, key);
    BucketOfKey(cfg, trace, key);
    TimesOfInOrder(trace, key, origin, now);
    SameBucket(cfg, origin, times, now);
    if times == [] {
      assert After(cfg, created, times) == Level(cfg.capacity, created);
      SameBucket(cfg, created, times, now);
    } else {
      CreationIsEarly(trace, key);
      SameBucket(cfg, Creation(trace, key), times, now);
    }
  }

  /** Per-key projection: whatever calls for other keys are interleaved, the answers on one
      key are those of a limiter that only ever saw that key, created at any earlier time. */
  lemma {:induction false} KeysAreIndependent(cfg: Config, trace: seq<Call>, key: string, origin: real)
    requires cfg.refill >= 0.0 && Ordered(trace)
    requires trace != [] ==> origin <= trace[0].now
    ensures VerdictsOf(cfg, trace, key) == Decisions(cfg, origin, TimesOf(trace, key))
  {
    if trace != [] {
      var n := |trace| - 1;
      var call := trace[n];
      TimesOfSnoc(trace, key);
      VerdictsOfSnoc(cfg, trace, key);
      KeysAreIndependent(cfg, trace[..n], key, origin);
      if call.key == key {
        assert n > 0 ==> trace[n - 1].now <= call.created;
        NextVerdict(cfg, trace[..n], key, origin, call.created, call.now);
        DecisionsSnoc(cfg, origin, TimesOf(trace[..n], key), call.now);
      }
    }
  }

  /** The grants of one key between two instants, on its own history. */
  function CountIn(times: seq<real>, ds: seq<bool>, from: real, to: real): nat
    requires |times| == |ds|
  {
    if times == [] then 0
    else
      var n := |times| - 1;
      CountIn(times[..n], ds[..n], from, to) + if ds[n] && from <= times[n] <= to then 1 else 0
  }

  lemma CountInSnoc(times: seq<real>, ds: seq<bool>, t: real, d: bool, from: real, to: real)
    requires |times| == |ds|
    ensures CountIn(times + [t], ds + [d], from, to) ==
            CountIn(times, ds, from, to) + if d && from <= t <= to then 1 else 0
  {
    assert (times + [t])[..|times|] == times && (ds + [d])[..|ds|] == ds;
  }

  lemma {:induction false} GrantsOfOneKey(cfg: Config, trace: seq<Call>, key: string, from: real, to: real)
    ensures |TimesOf(trace, key)| == |VerdictsOf(cfg, trace, key)|
    ensures GrantsIn(trace, Verdicts(cfg, trace), {key}, from, to) ==
            CountIn(TimesOf(trace, key), VerdictsOf(cfg, trace, key), from, to)
  {
    if trace != [] {
      var n := |trace| - 1;
      GrantsOfOneKey(cfg, trace[..n], key, from, to);
      TimesOfSnoc(trace, key);
      VerdictsOfSnoc(cfg, trace, key);
      CountInSnoc(TimesOf(trace[..n], key), VerdictsOf(cfg, trace[..n], key),
                  trace[n].now, Verdicts(cfg, trace)[n], from, to);
    }
  }

  lemma {:induction false} CountInIsCount(times: seq<real>, ds: seq<bool>, from: real, to: real, i: nat)
    requires |times| == |ds| && i <= |times|
    requires forall m :: 0 <= m < i ==> times[m] < from
    ensures CountIn(times, ds, from, to) <= Count(ds[i..])
    decreases |times|
  {
    if i < |times| {
      var n := |times| - 1;
      CountInIsCount(times[..n], ds[..n], from, to, i);
      assert ds[..n][i..] == ds[i..][..n - i];
    } else if |times| > 0 {
      CountInIsCount(times[..i - 1], ds[..i - 1], from, to, i - 1);
      assert ds[..i - 1][i - 1..] == [] && ds[i..] == [];
    }
  }

  /** The window that ends with the last grant before `to` covers every grant in it. */
  lemma WindowEndingInGrant(cfg: Config, origin: real, times: seq<real>, from: real, to: real)
    requires cfg.refill >= 0.0 && InOrder(origin, times) && times != []
    requires Decisions(cfg, origin, times)[|times| - 1] && from <= times[|times| - 1] <= to
    ensures CountIn(times, Decisions(cfg, origin, times), from, to) as real <=
            cfg.capacity + Drip(cfg, to) - Drip(cfg, from)
  {
    var n, ds := |times| - 1, Decisions(cfg, origin, times);
    var i := FirstIn(times, from, n);
    CountInIsCount(times, ds, from, to, i);
    assert Count(ds[i..n]) as real + 1.0 <= cfg.capacity + Drip(cfg, times[n]) - Drip(cfg, times[i]) by {
      GrantedIffEarned(cfg, origin, times, n);
    }
    CountSnoc(ds, i, n);
    assert ds[i..n + 1] == ds[i..];
    DripMonotonic(cfg, from, times[i]);
    DripMonotonic(cfg, times[n], to);
  }

  /** One key is granted at most capacity + refill * length in any window of time. */
  lemma {:induction false} OneKeyWindow(cfg: Config, origin: real, times: seq<real>, from: real, to: real)
    requires cfg.refill >= 0.0 && cfg.capacity >= 0.0 && InOrder(origin, times) && from <= to
    ensures CountIn(times, Decisions(cfg, origin, times), from, to) as real <=
            cfg.capacity + Drip(cfg, to) - Drip(cfg, from)
  {
    hide Drip, Decisions;
    DripMonotonic(cfg, from, to);
    if times != [] {
      var n, ds := |times| - 1, Decisions(cfg, origin, times);
      if ds[n] && from <= times[n] <= to {
        WindowEndingInGrant(cfg, origin, times, from, to);
      } else {
        assert times == times[..n] + [times[n]];
        DecisionsSnoc(cfg, origin, times[..n], times[n]);
        CountInSnoc(times[..n], Decisions(cfg, origin, times[..n]), times[n], ds[n], from, to);
        OneKeyWindow(cfg, origin, times[..n], from, to);
      }
    }
  }

  lemma FirstIn(times: seq<real>, from: real, n: nat) returns (i: nat)
    requires n < |times| && from <= times[n]
    requires forall i, j :: 0 <= i < j < |times| ==> times[i] <= times[j]
    ensures i <= n && from <= times[i] && forall m :: 0 <= m < i ==> times[m] < from
  {
    i := 0;
    while times[i] < from
      decreases n - i
      invariant i <= n && forall m :: 0 <= m < i ==> times[m] < from
    {
      i := i + 1;
    }
  }

  lemma {:induction false} GrantsOfUnion(trace: seq<Call>, ds: seq<bool>, keys: set<string>, key: string,
                                          from: real, to: real)
    requires |trace| == |ds| && key !in keys
    ensures GrantsIn(trace, ds, keys + {key}, from, to) ==
            GrantsIn(trace, ds, keys, from, to) + GrantsIn(trace, ds, {key}, from, to)
  {
    if trace != [] {
      GrantsOfUnion(trace[..|trace| - 1], ds[..|trace| - 1], keys, key, from, to);
    }
  }

  lemma {:induction false} GrantsOfNone(trace: seq<Call>, ds: seq<bool>, from: real, to: real)
    requires |trace| == |ds|
    ensures GrantsIn(trace, ds, {}, from, to) == 0
  {
    if trace != [] {
      GrantsOfNone(trace[..|trace| - 1], ds[..|trace| - 1], from, to);
    }
  }

  /** `m` equal shares, added up. */
  function Shares(m: nat, each: real): real {
    m as real * each
  }

  lemma SharesAre(m: nat, each: real)
    ensures Shares(m, each) == m as real * each
  {
  }

  lemma OneMoreShare(m: nat, each: real)
    ensures Shares(m + 1, each) == Shares(m, each) + each
  {
  }

  lemma {:induction false} ManyKeysWindow(cfg: Config, trace: seq<Call>, keys: set<string>, from: real, to: real)
    requires cfg.refill >= 0.0 && cfg.capacity >= 0.0 && Ordered(trace) && from <= to
    ensures GrantsIn(trace, Verdicts(cfg, trace), keys, from, to) as real <=
            Shares(|keys|, cfg.capacity + (Drip(cfg, to) - Drip(cfg, from)))
    decreases |keys|
  {
    var ds := Verdicts(cfg, trace);
    if keys == {} {
      GrantsOfNone(trace, ds, from, to);
    } else {
      var key :| key in keys;
      var rest := keys - {key};
      ManyKeysWindow(cfg, trace, rest, from, to);
      GrantsOfUnion(trace, ds, rest, key, from, to);
      assert rest + {key} == keys && |keys| == |rest| + 1;
      OneOfManyKeys(cfg, trace, key, from, to);
      OneMoreShare(|rest|, cfg.capacity + (Drip(cfg, to) - Drip(cfg, from)));
    }
  }

  /** Over every interleaving of calls, m keys together are granted at most
      m * (capacity + refill * length) in any window of time. */
  lemma GrantsInAnyWindow(cfg: Config, trace: seq<Call>, keys: set<string>, from: real, to: real)
    requires cfg.refill >= 0.0 && cfg.capacity >= 0.0 && Ordered(trace) && from <= to
    ensures GrantsIn(trace, Verdicts(cfg, trace), keys, from, to) as real <=
            |keys| as real * (cfg.capacity + cfg.refill * (to - from))
  {
    hide Drip, Verdicts, GrantsIn, Shares;
    ManyKeysWindow(cfg, trace, keys, from, to);
    DripIs(cfg, from, to);
    SharesAre(|keys|, cfg.capacity + cfg.refill * (to - from));
  }

  lemma OneOfManyKeys(cfg: Config, trace: seq<Call>, key: string, from: real, to: real)
    requires cfg.refill >= 0.0 && cfg.capacity >= 0.0 && Ordered(trace) && from <= to
    ensures GrantsIn(trace, Verdicts(cfg, trace), {key}, from, to) as real <=
            cfg.capacity + (Drip(cfg, to) - Drip(cfg, from))
  {
    var origin := if trace == [] then 0.0 else trace[0].now;
    GrantsOfOneKey(cfg, trace, key, from, to);
    KeysAreIndependent(cfg, trace, key, origin);
    TimesOfInOrder(trace, key, origin, if trace == [] then 0.0 else trace[|trace| - 1].now);
    OneKeyWindow(cfg, origin, TimesOf(trace, key), from, to);
  }
}
