/** The token bucket measured on a clock that ticks in tokens.

    If a bucket earns `refill` tokens a second, then at time t it has been offered
    `refill * t` tokens since time zero. On that clock one key's whole history is a
    non-decreasing sequence `c`, and its bucket a recursive function of that sequence.
  */
module TokenClock {
  import opened RateLimit

  ghost predicate Monotonic(c: seq<real>) {
    forall i, j :: 0 <= i < j < |c| ==> c[i] <= c[j]
  }

  function Spend(tokens: real): real {
    if tokens >= 1.0 then tokens - 1.0 else tokens
  }

  /** The tokens in the bucket at `now`, after calls at the instants `c`. */
  function At(cap: real, c: seq<real>, now: real): real {
    if c == [] then cap
    else
      var n := |c| - 1;
      Min(cap, Spend(At(cap, c[..n], c[n])) + now - c[n])
  }

  /** The tokens call `n` finds before it is decided. */
  function Offer(cap: real, c: seq<real>, n: nat): real
    requires n < |c|
  {
    At(cap, c[..n], c[n])
  }

  /** The answer of every call. */
  function Answers(cap: real, c: seq<real>): (ds: seq<bool>)
    ensures |ds| == |c|
  {
    seq(|c|, n requires 0 <= n < |c| => Offer(cap, c, n) >= 1.0)
  }

  /** How many calls of a stretch were granted. */
  function Count(ds: seq<bool>): nat {
    if ds == [] then 0 else Count(ds[..|ds| - 1]) + if ds[|ds| - 1] then 1 else 0
  }

  /** What the window from call `i` to call `n` may still grant just before call `n`. */
  function Room(cap: real, c: seq<real>, ds: seq<bool>, i: nat, n: nat): real
    requires i <= n < |c| == |ds|
  {
    cap + c[n] - c[i] - Count(ds[i..n]) as real
  }

  /** A choice of answers in which no window ending with a granted call holds more grants
      than the capacity plus what was earned during it. It does not mention buckets. */
  ghost predicate WindowSafe(cap: real, c: seq<real>, ds: seq<bool>)
    requires |c| == |ds|
  {
    forall i: nat, j: nat :: i <= j < |ds| && ds[j] ==> Room(cap, c, ds, i, j) >= 1.0
  }

  lemma CountSnoc(ds: seq<bool>, i: nat, n: nat)
    requires i <= n < |ds|
    ensures Count(ds[i..n + 1]) == Count(ds[i..n]) + if ds[n] then 1 else 0
  {
    assert ds[i..n + 1][..n - i] == ds[i..n];
  }

  lemma {:induction false} CountSplit(ds: seq<bool>, i: nat, n: nat)
    requires i <= n <= |ds|
    ensures Count(ds[..n]) == Count(ds[..i]) + Count(ds[i..n])
    decreases n
  {
    if i < n {
      CountSplit(ds, i, n - 1);
      CountSnoc(ds, 0, n - 1);
      CountSnoc(ds, i, n - 1);
      assert ds[0..n - 1] == ds[..n - 1] && ds[0..n] == ds[..n];
    } else {
      assert ds[i..n] == [];
    }
  }

  lemma AnswersPrefix(cap: real, c: seq<real>, n: nat)
    requires n <= |c|
    ensures Answers(cap, c)[..n] == Answers(cap, c[..n])
  {
    forall m | 0 <= m < n
      ensures Answers(cap, c)[m] == Answers(cap, c[..n])[m]
    {
      assert c[..n][..m] == c[..m];
    }
  }

  /** One decision and one refill: the recurrence of the token level. */
  lemma OfferStep(cap: real, c: seq<real>, n: nat)
    requires 0 < n < |c|
    ensures Offer(cap, c, n) == Min(cap, Spend(Offer(cap, c, n - 1)) + c[n] - c[n - 1])
  {
    assert c[..n][..n - 1] == c[..n - 1];
  }

  lemma RoomStep(cap: real, c: seq<real>, ds: seq<bool>, i: nat, n: nat)
    requires i < n < |c| == |ds|
    ensures Room(cap, c, ds, i, n) ==
            Room(cap, c, ds, i, n - 1) - (if ds[n - 1] then 1.0 else 0.0) + c[n] - c[n - 1]
  {
    CountSnoc(ds, i, n - 1);
  }

  /** The level a bucket has before call `n` if the answers so far were `ds`, whoever chose
      them; it goes below zero when they overdraw it. */
  function LevelUnder(cap: real, c: seq<real>, ds: seq<bool>, n: nat): real
    requires n < |c| == |ds|
  {
    if n == 0 then cap
    else Min(cap, LevelUnder(cap, c, ds, n - 1) - (if ds[n - 1] then 1.0 else 0.0) + c[n] - c[n - 1])
  }

  /** Exact closed form: the level before a decision is the room of the tightest window. */
  lemma {:induction false} ClosedForm(cap: real, c: seq<real>, ds: seq<bool>, n: nat)
    requires n < |c| == |ds|
    ensures forall i: nat :: i <= n ==> LevelUnder(cap, c, ds, n) <= Room(cap, c, ds, i, n)
    ensures exists i: nat :: (i <= n && LevelUnder(cap, c, ds, n) == Room(cap, c, ds, i, n))
  {
    assert ds[n..n] == [];
    assert Room(cap, c, ds, n, n) == cap;
    if n > 0 {
      ClosedForm(cap, c, ds, n - 1);
      forall i: nat | i < n
        ensures Room(cap, c, ds, i, n) ==
                Room(cap, c, ds, i, n - 1) - (if ds[n - 1] then 1.0 else 0.0) + c[n] - c[n - 1]
      {
        RoomStep(cap, c, ds, i, n);
      }
      var k: nat :| k <= n - 1 && LevelUnder(cap, c, ds, n - 1) == Room(cap, c, ds, k, n - 1);
      assert LevelUnder(cap, c, ds, n) == Room(cap, c, ds, k, n) ||
             LevelUnder(cap, c, ds, n) == Room(cap, c, ds, n, n);
    }
  }

  /** Answers that never take a token that is not there are the window-safe ones. */
  lemma NeverOverdrawnIffWindowSafe(cap: real, c: seq<real>, ds: seq<bool>)
    requires |c| == |ds|
    ensures (forall n: nat :: n < |ds| && ds[n] ==> LevelUnder(cap, c, ds, n) >= 1.0) <==>
            WindowSafe(cap, c, ds)
  {
    forall n: nat | n < |ds|
      ensures LevelUnder(cap, c, ds, n) >= 1.0 <==>
              forall i: nat :: i <= n ==> Room(cap, c, ds, i, n) >= 1.0
    {
      ClosedForm(cap, c, ds, n);
    }
  }

  /** The code's bucket is the bucket under its own answers. */
  lemma {:induction false} OfferIsLevel(cap: real, c: seq<real>, n: nat)
    requires n < |c|
    ensures Offer(cap, c, n) == LevelUnder(cap, c, Answers(cap, c), n)
  {
    if n > 0 {
      OfferIsLevel(cap, c, n - 1);
      OfferStep(cap, c, n);
    }
  }

  /** A call is granted exactly when granting it keeps every window ending now within bounds. */
  lemma GrantedIffEveryWindowFits(cap: real, c: seq<real>, n: nat)
    requires n < |c|
    ensures Answers(cap, c)[n] <==>
            forall i: nat :: i <= n ==> Room(cap, c, Answers(cap, c), i, n) >= 1.0
  {
    OfferIsLevel(cap, c, n);
    ClosedForm(cap, c, Answers(cap, c), n);
  }

  /** The bucket's own answers overfill no window. */
  lemma AnswersAreWindowSafe(cap: real, c: seq<real>)
    ensures WindowSafe(cap, c, Answers(cap, c))
  {
    forall j: nat | j < |c|
      ensures Answers(cap, c)[j] ==>
              forall i: nat :: i <= j ==> Room(cap, c, Answers(cap, c), i, j) >= 1.0
    {
      GrantedIffEveryWindowFits(cap, c, j);
    }
  }

  /** Greedy optimality: at every point the bucket has granted at least as many calls as
      any window-safe rival. */
  lemma {:induction false} GreedyIsOptimal(cap: real, c: seq<real>, rival: seq<bool>, n: nat)
    requires |rival| == |c| && WindowSafe(cap, c, rival) && n <= |c|
    ensures Count(rival[..n]) <= Count(Answers(cap, c)[..n])
    decreases n
  {
    var ds := Answers(cap, c);
    if n > 0 {
      var m := n - 1;
      GreedyIsOptimal(cap, c, rival, m);
      CountSnoc(ds, 0, m);
      CountSnoc(rival, 0, m);
      assert forall xs: seq<bool>, k :: 0 <= k <= |xs| ==> xs[0..k] == xs[..k];
      if rival[m] && !ds[m] {
        var i := TightWindow(cap, c, m);
        assert Room(cap, c, rival, i, m) >= 1.0;
        GreedyIsOptimal(cap, c, rival, i);
        CountSplit(ds, i, m);
        CountSplit(rival, i, m);
      }
    }
  }

  /** Every denial is explained by a window that has no room left. */
  lemma TightWindow(cap: real, c: seq<real>, n: nat) returns (i: nat)
    requires n < |c| && !Answers(cap, c)[n]
    ensures i <= n && Room(cap, c, Answers(cap, c), i, n) < 1.0
  {
    GrantedIffEveryWindowFits(cap, c, n);
    i :| i <= n && Room(cap, c, Answers(cap, c), i, n) < 1.0;
  }

  /** The members of a sequence that a mask keeps. */
  function Keep<T>(xs: seq<T>, mask: seq<bool>): (ys: seq<T>)
    requires |xs| == |mask|
  {
    if xs == [] then []
    else
      var n := |xs| - 1;
      Keep(xs[..n], mask[..n]) + if mask[n] then [xs[n]] else []
  }

  /** Denied calls are invisible: whichever of them are deleted, the bucket is the same at
      every later instant. */
  lemma {:induction false} DeletionKeepsTheBucket(cap: real, c: seq<real>, mask: seq<bool>, now: real)
    requires Monotonic(c) && |mask| == |c|
    requires forall n :: 0 <= n < |c| && Answers(cap, c)[n] ==> mask[n]
    requires c != [] ==> c[|c| - 1] <= now
    ensures At(cap, Keep(c, mask), now) == At(cap, c, now)
  {
    if c != [] {
      var n := |c| - 1;
      var init, x := c[..n], c[n];
      AnswersPrefix(cap, c, n);
      assert forall k :: 0 <= k < n ==> Answers(cap, init)[k] == Answers(cap, c)[k];
      DeletionKeepsTheBucket(cap, init, mask[..n], x);
      if mask[n] {
        var kept := Keep(c, mask);
        assert kept == Keep(init, mask[..n]) + [x];
        assert kept[..|kept| - 1] == Keep(init, mask[..n]);
      } else {
        DeletionKeepsTheBucket(cap, init, mask[..n], now);
        assert !Answers(cap, c)[n] && At(cap, init, x) < 1.0;
        assert Keep(c, mask) == Keep(init, mask[..n]);
      }
    }
  }

  /** ... and every answer that remains is the one it was. */
  lemma {:induction false} DeniedCallsAreInvisible(cap: real, c: seq<real>, mask: seq<bool>)
    requires Monotonic(c) && |mask| == |c|
    requires forall n :: 0 <= n < |c| && Answers(cap, c)[n] ==> mask[n]
    ensures Answers(cap, Keep(c, mask)) == Keep(Answers(cap, c), mask)
  {
    if c != [] {
      var n := |c| - 1;
      var init := c[..n];
      AnswersPrefix(cap, c, n);
      assert forall k :: 0 <= k < n ==> Answers(cap, init)[k] == Answers(cap, c)[k];
      DeniedCallsAreInvisible(cap, init, mask[..n]);
      assert Answers(cap, c)[..n] == Answers(cap, init);
      if mask[n] {
        var kept := Keep(c, mask);
        assert kept == Keep(init, mask[..n]) + [c[n]];
        assert kept[..|kept| - 1] == Keep(init, mask[..n]);
        AnswersPrefix(cap, kept, |kept| - 1);
        DeletionKeepsTheBucket(cap, init, mask[..n], c[n]);
        assert Answers(cap, kept)[|kept| - 1] == Answers(cap, c)[n];
        assert Answers(cap, kept) == Answers(cap, kept)[..|kept| - 1] + [Answers(cap, c)[n]];
        assert Keep(Answers(cap, c), mask) == Keep(Answers(cap, init), mask[..n]) + [Answers(cap, c)[n]];
      } else {
        assert Keep(c, mask) == Keep(init, mask[..n]);
        assert Keep(Answers(cap, c), mask) == Keep(Answers(cap, init), mask[..n]);
      }
    }
  }
}
