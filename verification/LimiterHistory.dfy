/** What the limiter guarantees over the whole history of calls on one key: its buckets
    are buckets on the token clock, so everything proved there holds of the code's own
    refill arithmetic. */
module LimiterHistory {
  import opened RateLimit
  import opened TokenClock

  /** The clock is monotonic, and the bucket is created no later than the first call. */
  ghost predicate InOrder(origin: real, times: seq<real>) {
    && (times != [] ==> origin <= times[0])
    && (forall i, j :: 0 <= i < j < |times| ==> times[i] <= times[j])
  }

  /** The bucket after a history of calls at the given times. */
  function After(cfg: Config, origin: real, times: seq<real>): Level {
    if times == [] then Level(cfg.capacity, origin)
    else Spent(Refilled(cfg, After(cfg, origin, times[..|times| - 1]), times[|times| - 1]))
  }

  /** The answer of every call of the history. */
  function Decisions(cfg: Config, origin: real, times: seq<real>): (ds: seq<bool>)
    ensures |ds| == |times|
  {
    seq(|times|, n requires 0 <= n < |times| =>
      Admits(Refilled(cfg, After(cfg, origin, times[..n]), times[n])))
  }

  /** The token clock: what a bucket would have been offered since time zero. */
  function Drip(cfg: Config, t: real): real {
    cfg.refill * t
  }

  /** The history on the token clock. */
  function Earned(cfg: Config, times: seq<real>): (c: seq<real>)
    ensures |c| == |times|
  {
    seq(|times|, i requires 0 <= i < |times| => Drip(cfg, times[i]))
  }

  lemma DripMonotonic(cfg: Config, a: real, b: real)
    requires cfg.refill >= 0.0 && a <= b
    ensures Drip(cfg, a) <= Drip(cfg, b)
  {
    assert cfg.refill * (b - a) >= 0.0;
  }

  lemma DripOver(cfg: Config, from: real, to: real)
    ensures Drip(cfg, to) - Drip(cfg, from) == Gain(cfg, to - from)
  {
  }

  lemma EarnedMonotonic(cfg: Config, origin: real, times: seq<real>)
    requires cfg.refill >= 0.0 && InOrder(origin, times)
    ensures Monotonic(Earned(cfg, times))
  {
    forall i, j | 0 <= i < j < |times|
      ensures Earned(cfg, times)[i] <= Earned(cfg, times)[j]
    {
      DripMonotonic(cfg, times[i], times[j]);
    }
  }

  /** The code's refill, on the token clock. */
  lemma RefillOnTokenClock(cfg: Config, l: Level, now: real)
    ensures Refilled(cfg, l, now).tokens ==
            Min(cfg.capacity, l.tokens + Drip(cfg, now) - Drip(cfg, l.last))
  {
    assert Gain(cfg, now - l.last) == Drip(cfg, now) - Drip(cfg, l.last);
  }

  /** The code's bucket is the bucket on the token clock; when it was created does not
      matter. */
  lemma {:induction false} SameBucket(cfg: Config, origin: real, times: seq<real>, now: real)
    requires cfg.refill >= 0.0 && InOrder(origin, times)
    requires if times == [] then origin <= now else times[|times| - 1] <= now
    ensures Refilled(cfg, After(cfg, origin, times), now).tokens ==
            At(cfg.capacity, Earned(cfg, times), Drip(cfg, now))
  {
    RefillOnTokenClock(cfg, After(cfg, origin, times), now);
    if times == [] {
      DripMonotonic(cfg, origin, now);
    } else {
      var n := |times| - 1;
      SameBucket(cfg, origin, times[..n], times[n]);
      assert Earned(cfg, times)[..n] == Earned(cfg, times[..n]);
    }
  }

  /** The code's answers are the answers on the token clock. */
  lemma SameAnswers(cfg: Config, origin: real, times: seq<real>)
    requires cfg.refill >= 0.0 && InOrder(origin, times)
    ensures Decisions(cfg, origin, times) == Answers(cfg.capacity, Earned(cfg, times))
  {
    forall n | 0 <= n < |times|
      ensures Decisions(cfg, origin, times)[n] == Answers(cfg.capacity, Earned(cfg, times))[n]
    {
      SameBucket(cfg, origin, times[..n], times[n]);
      assert Earned(cfg, times)[..n] == Earned(cfg, times[..n]);
    }
  }

  /** The token level before call `n` is exactly the room of the tightest window ending now:
      capacity, plus what was earned during it, minus what was granted during it. */
  lemma TokensAreTheTightestWindow(cfg: Config, origin: real, times: seq<real>, n: nat)
    requires cfg.refill >= 0.0 && InOrder(origin, times) && n < |times|
    ensures var tokens := Refilled(cfg, After(cfg, origin, times[..n]), times[n]).tokens;
            var ds := Decisions(cfg, origin, times);
            && (forall i: nat :: i <= n ==> tokens <= Room(cfg.capacity, Earned(cfg, times), ds, i, n))
            && (exists i: nat :: (i <= n && tokens == Room(cfg.capacity, Earned(cfg, times), ds, i, n)))
  {
    SameAnswers(cfg, origin, times);
    SameBucket(cfg, origin, times[..n], times[n]);
    assert Earned(cfg, times)[..n] == Earned(cfg, times[..n]);
    OfferIsLevel(cfg.capacity, Earned(cfg, times), n);
    ClosedForm(cfg.capacity, Earned(cfg, times), Decisions(cfg, origin, times), n);
  }

  lemma GrantedIffEarned(cfg: Config, origin: real, times: seq<real>, n: nat)
    requires cfg.refill >= 0.0 && InOrder(origin, times) && n < |times|
    ensures Decisions(cfg, origin, times)[n] <==>
            forall i: nat :: i <= n ==>
              Count(Decisions(cfg, origin, times)[i..n]) as real + 1.0 <=
              cfg.capacity + Drip(cfg, times[n]) - Drip(cfg, times[i])
  {
    var ds, c := Decisions(cfg, origin, times), Earned(cfg, times);
    SameAnswers(cfg, origin, times);
    GrantedIffEveryWindowFits(cfg.capacity, c, n);
    assert forall i: nat :: i <= n ==>
      (Room(cfg.capacity, c, ds, i, n) ==
       cfg.capacity + Drip(cfg, times[n]) - Drip(cfg, times[i]) - Count(ds[i..n]) as real);
  }

  lemma DripIs(cfg: Config, from: real, to: real)
    ensures Drip(cfg, to) - Drip(cfg, from) == cfg.refill * (to - from)
  {
  }

  /** `try_acquire` says yes exactly when every window that would then end in a grant stays
      within capacity + refill * (its length). */
  lemma GrantedIffWindowsFit(cfg: Config, origin: real, times: seq<real>, n: nat)
    requires cfg.refill >= 0.0 && InOrder(origin, times) && n < |times|
    ensures Decisions(cfg, origin, times)[n] <==>
            forall i: nat :: i <= n ==>
              Count(Decisions(cfg, origin, times)[i..n]) as real + 1.0 <=
              cfg.capacity + cfg.refill * (times[n] - times[i])
  {
    hide Drip, Decisions, Count;
    GrantedIffEarned(cfg, origin, times, n);
    forall i: nat | i <= n
      ensures Drip(cfg, times[n]) - Drip(cfg, times[i]) == cfg.refill * (times[n] - times[i])
    {
      DripIs(cfg, times[i], times[n]);
    }
  }

  /** No admission policy that keeps every window within bounds ever gets ahead. */
  lemma LimiterIsGreedyOptimal(cfg: Config, origin: real, times: seq<real>, rival: seq<bool>, n: nat)
    requires cfg.refill >= 0.0 && InOrder(origin, times) && n <= |times| == |rival|
    requires WindowSafe(cfg.capacity, Earned(cfg, times), rival)
    ensures WindowSafe(cfg.capacity, Earned(cfg, times), Decisions(cfg, origin, times))
    ensures Count(rival[..n]) <= Count(Decisions(cfg, origin, times)[..n])
  {
    SameAnswers(cfg, origin, times);
    AnswersAreWindowSafe(cfg.capacity, Earned(cfg, times));
    GreedyIsOptimal(cfg.capacity, Earned(cfg, times), rival, n);
  }

  lemma {:induction false} KeepEarned(cfg: Config, times: seq<real>, mask: seq<bool>)
    requires |times| == |mask|
    ensures Earned(cfg, Keep(times, mask)) == Keep(Earned(cfg, times), mask)
  {
    if times != [] {
      var n := |times| - 1;
      KeepEarned(cfg, times[..n], mask[..n]);
      var init := Keep(times[..n], mask[..n]);
      assert Earned(cfg, init + [times[n]]) == Earned(cfg, init) + [Drip(cfg, times[n])];
      assert Earned(cfg, times)[..n] == Earned(cfg, times[..n]);
    }
  }

  lemma {:induction false} KeepInOrder(origin: real, times: seq<real>, mask: seq<bool>)
    requires |times| == |mask| && InOrder(origin, times)
    ensures InOrder(origin, Keep(times, mask))
    ensures forall t <- Keep(times, mask) :: t in times
  {
    if times != [] {
      KeepInOrder(origin, times[..|times| - 1], mask[..|times| - 1]);
      var init := Keep(times[..|times| - 1], mask[..|times| - 1]);
      assert forall i :: 0 <= i < |init| ==> init[i] in init;
      assert forall t <- init :: t in times;
    }
  }

  /** Deleting any set of denied calls from a run changes none of the other answers, even if
      the bucket is then created later. */
  lemma LimiterForgetsDenials(cfg: Config, origin: real, later: real, times: seq<real>, mask: seq<bool>)
    requires cfg.refill >= 0.0 && InOrder(origin, times) && |mask| == |times|
    requires forall n :: 0 <= n < |times| && Decisions(cfg, origin, times)[n] ==> mask[n]
    requires Keep(times, mask) != [] ==> later <= Keep(times, mask)[0]
    ensures Decisions(cfg, later, Keep(times, mask)) == Keep(Decisions(cfg, origin, times), mask)
  {
    KeepInOrder(origin, times, mask);
    SameAnswers(cfg, origin, times);
    SameAnswers(cfg, later, Keep(times, mask));
    KeepEarned(cfg, times, mask);
    EarnedMonotonic(cfg, origin, times);
    DeniedCallsAreInvisible(cfg.capacity, Earned(cfg, times), mask);
  }
}
