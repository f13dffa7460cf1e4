/** eval/chaos.py, the lock-contention scenario: two sessions, one row lock, and a stop event,
    as steps that any scheduler may interleave. */
module Chaos {

  datatype Session = Holder | Waiter

  /** Where the holder thread is; `Checking` and `Sleeping` are its hold loop. */
  datatype HolderPc = HConnecting | HUpdating | HStarted | Checking | Sleeping | HRollback | HDone

  datatype WaiterPc = Waiting | WConnecting | WUpdating | WRollback | WDone

  /** `owners`: the sessions whose open transaction has updated the row. */
  datatype State = State(holder: HolderPc, waiter: WaiterPc, owners: set<Session>, started: bool, stop: bool)

  datatype Action =
    | Connect(who: Session)
    | Update(who: Session)
    | UpdateFails
    | SetStarted
    | Check
    | Wake
    | StartSeen
    | StartTimesOut
    | Rollback(who: Session)
    | Stop

  function Start(): State {
    State(HConnecting, Waiting, {}, false, false)
  }

  /** The database lets a session update the row unless another session has. */
  predicate MayUpdate(s: State, who: Session) {
    s.owners <= {who}
  }

  predicate Enabled(s: State, a: Action) {
    match a
    case Connect(who) => if who.Holder? then s.holder.HConnecting? else s.waiter.WConnecting?
    case Update(who) => (if who.Holder? then s.holder.HUpdating? else s.waiter.WUpdating?) && MayUpdate(s, who)
    case UpdateFails => s.waiter.WUpdating?
    case SetStarted => s.holder.HStarted?
    case Check => s.holder.Checking?
    case Wake => s.holder.Sleeping?
    case StartSeen => s.waiter.Waiting? && s.started
    case StartTimesOut => s.waiter.Waiting?
    case Rollback(who) => if who.Holder? then s.holder.HRollback? else s.waiter.WRollback?
    case Stop => !s.stop
  }

  function Do(s: State, a: Action): State
    requires Enabled(s, a)
  {
    match a
    case Connect(who) => if who.Holder? then s.(holder := HUpdating) else s.(waiter := WUpdating)
    case Update(who) =>
      var owned := s.(owners := s.owners + {who});
      if who.Holder? then owned.(holder := HStarted) else owned.(waiter := WRollback)
    case UpdateFails => s.(waiter := WRollback)
    case SetStarted => s.(holder := Checking, started := true)
    case Check => s.(holder := if s.stop then HRollback else Sleeping)
    case Wake => s.(holder := Checking)
    case StartSeen => s.(waiter := WConnecting)
    case StartTimesOut => s.(waiter := WConnecting)
    case Rollback(who) =>
      var freed := s.(owners := s.owners - {who});
      if who.Holder? then freed.(holder := HDone) else freed.(waiter := WDone)
    case Stop => s.(stop := true)
  }

  /** A schedule each of whose steps can be taken. */
  predicate Runs(s: State, schedule: seq<Action>)
    decreases |schedule|
  {
    schedule == [] || (Enabled(s, schedule[0]) && Runs(Do(s, schedule[0]), schedule[1..]))
  }

  function After(s: State, schedule: seq<Action>): State
    requires Runs(s, schedule)
    decreases |schedule|
  {
    if schedule == [] then s else After(Do(s, schedule[0]), schedule[1..])
  }

  predicate InHoldLoop(s: State) {
    s.holder.Checking? || s.holder.Sleeping?
  }

  predicate Finished(s: State) {
    s.holder.HDone? && s.waiter.WDone?
  }

  // ---- safety ----------------------------------------------------------------------------------

  ghost predicate Inv(s: State) {
    && !(Holder in s.owners && Waiter in s.owners)
    && (Holder in s.owners <==> s.holder.HStarted? || InHoldLoop(s) || s.holder.HRollback?)
    && (Waiter in s.owners ==> s.waiter.WRollback?)
    && (InHoldLoop(s) || s.holder.HRollback? || s.holder.HDone? ==> s.started)
    && (s.holder.HRollback? || s.holder.HDone? ==> s.stop)
  }

  lemma {:induction false} RunKeepsInv(s: State, schedule: seq<Action>)
    requires Inv(s) && Runs(s, schedule)
    ensures Inv(After(s, schedule))
    decreases |schedule|
  {
    if schedule != [] {
      RunKeepsInv(Do(s, schedule[0]), schedule[1..]);
    }
  }

  lemma OwnersCases(s: State)
    ensures Holder !in s.owners ==> s.owners <= {Waiter}
    ensures Waiter !in s.owners ==> s.owners <= {Holder}
  {
    forall who <- s.owners ensures who == Holder || who == Waiter {
      assert who.Holder? || who.Waiter?;
    }
  }

  /** In every interleaving, also when the waiter's wait times out and it gets there first: at
      most one session owns the row; while the holder is in its hold loop it is that session,
      and the waiter's update cannot go through; a finished session owns nothing. */
  lemma OneOwner(schedule: seq<Action>)
    requires Runs(Start(), schedule)
    ensures var s := After(Start(), schedule);
            && |s.owners| <= 1
            && (InHoldLoop(s) ==> s.owners == {Holder} && s.started && !Enabled(s, Update(Waiter)))
            && (s.waiter.WDone? ==> Waiter !in s.owners)
            && (s.holder.HDone? ==> Holder !in s.owners)
  {
    RunKeepsInv(Start(), schedule);
    var s := After(Start(), schedule);
    OwnersCases(s);
    if Holder in s.owners {
      assert s.owners == {Holder};
    } else if Waiter in s.owners {
      assert s.owners == {Waiter};
    } else {
      assert s.owners == {};
    }
  }

  /** The contention lasts: from the moment the holder is in its loop until `stop` is called,
      it stays there, and no update of the waiter goes through. */
  lemma {:induction false} BlockedUntilStop(s: State, schedule: seq<Action>)
    requires Inv(s) && InHoldLoop(s) && Runs(s, schedule) && !After(s, schedule).stop
    ensures InHoldLoop(After(s, schedule)) && Update(Waiter) !in schedule
    decreases |schedule|
  {
    if schedule != [] {
      StopStays(Do(s, schedule[0]), schedule[1..]);
      BlockedUntilStop(Do(s, schedule[0]), schedule[1..]);
      assert schedule == [schedule[0]] + schedule[1..];
    }
  }

  lemma {:induction false} StopStays(s: State, schedule: seq<Action>)
    requires Runs(s, schedule)
    ensures s.stop ==> After(s, schedule).stop
    decreases |schedule|
  {
    if schedule != [] {
      StopStays(Do(s, schedule[0]), schedule[1..]);
    }
  }

  /** The waiter has waited properly: it is past its wait only if the row was taken before. */
  ghost predicate InTurn(s: State) {
    && (!s.waiter.Waiting? ==> s.started)
    && (s.started <==> !s.holder.HConnecting? && !s.holder.HUpdating? && !s.holder.HStarted?)
    && (Waiter in s.owners ==> s.holder.HDone?)
  }

  lemma {:induction false} RunKeepsTurn(s: State, schedule: seq<Action>)
    requires Inv(s) && InTurn(s) && Runs(s, schedule) && StartTimesOut !in schedule
    ensures InTurn(After(s, schedule))
    decreases |schedule|
  {
    if schedule != [] {
      assert forall a :: a in schedule[1..] ==> a in schedule;
      RunKeepsTurn(Do(s, schedule[0]), schedule[1..]);
    }
  }

  /** Unless its wait times out, the waiter connects only after the holder has announced that
      it holds the row, and gets the row only after the holder has given it back. */
  lemma WaiterWaits(schedule: seq<Action>)
    requires Runs(Start(), schedule) && StartTimesOut !in schedule
    ensures var s := After(Start(), schedule);
            && (!s.waiter.Waiting? ==> SetStarted in schedule && s.started)
            && (Waiter in s.owners ==> s.holder.HDone? && s.stop)
  {
    RunKeepsTurn(Start(), schedule);
    RunKeepsInv(Start(), schedule);
    StartedWasSet(Start(), schedule);
  }

  lemma {:induction false} StartedWasSet(s: State, schedule: seq<Action>)
    requires Runs(s, schedule)
    ensures After(s, schedule).started ==> s.started || SetStarted in schedule
    decreases |schedule|
  {
    if schedule != [] {
      StartedWasSet(Do(s, schedule[0]), schedule[1..]);
    }
  }

  /** Where a session stands: before its update, between update and rollback, or after. */
  predicate BeforeUpdate(s: State, who: Session) {
    if who.Holder? then s.holder.HConnecting? || s.holder.HUpdating?
    else s.waiter.Waiting? || s.waiter.WConnecting? || s.waiter.WUpdating?
  }

  predicate AfterRollback(s: State, who: Session) {
    if who.Holder? then s.holder.HDone? else s.waiter.WDone?
  }

  lemma {:induction false} OwnershipOver(s: State, schedule: seq<Action>, who: Session)
    requires Runs(s, schedule) && (BeforeUpdate(s, who) || AfterRollback(s, who) ==> who !in s.owners)
    ensures who in After(s, schedule).owners <==>
            (who in s.owners || Update(who) in schedule) && Rollback(who) !in schedule
    ensures !BeforeUpdate(s, who) ==> Update(who) !in schedule
    ensures AfterRollback(s, who) ==> Rollback(who) !in schedule
    decreases |schedule|
  {
    if schedule != [] {
      assert schedule == [schedule[0]] + schedule[1..];
      OwnershipOver(Do(s, schedule[0]), schedule[1..], who);
    }
  }

  /** A session owns the row exactly from its own update to its own rollback. */
  lemma OwnsFromUpdateToRollback(schedule: seq<Action>, who: Session)
    requires Runs(Start(), schedule)
    ensures who in After(Start(), schedule).owners <==> Update(who) in schedule && Rollback(who) !in schedule
  {
    OwnershipOver(Start(), schedule, who);
  }

  // ---- progress --------------------------------------------------------------------------------

  /** A step of a thread that needs neither a failing update nor a timeout. */
  predicate Ordinary(a: Action) {
    !a.Stop? && !a.UpdateFails? && !a.StartTimesOut?
  }

  ghost predicate CanMove(s: State) {
    exists a: Action :: Ordinary(a) && Enabled(s, a)
  }

  lemma MovesUntilFinished(s: State)
    requires Inv(s)
    ensures CanMove(s) <==> !Finished(s)
  {
    OwnersCases(s);
    if s.waiter.WRollback? {
      assert Enabled(s, Rollback(Waiter));
    } else if s.holder.HConnecting? {
      assert Enabled(s, Connect(Holder));
    } else if s.holder.HUpdating? {
      assert Enabled(s, Update(Holder));
    } else if s.holder.HStarted? {
      assert Enabled(s, SetStarted);
    } else if s.holder.Checking? {
      assert Enabled(s, Check);
    } else if s.holder.Sleeping? {
      assert Enabled(s, Wake);
    } else if s.holder.HRollback? {
      assert Enabled(s, Rollback(Holder));
    } else if s.waiter.Waiting? {
      assert Enabled(s, StartSeen);
    } else if s.waiter.WConnecting? {
      assert Enabled(s, Connect(Waiter));
    } else if s.waiter.WUpdating? {
      assert Enabled(s, Update(Waiter));
    }
  }

  /** No interleaving deadlocks: until both threads are finished one of them can take an
      ordinary step. */
  lemma NeverStuck(schedule: seq<Action>)
    requires Runs(Start(), schedule)
    ensures CanMove(After(Start(), schedule)) <==> !Finished(After(Start(), schedule))
  {
    RunKeepsInv(Start(), schedule);
    MovesUntilFinished(After(Start(), schedule));
  }

  /** How many steps are left at most once `stop` has been called. */
  function Rank(s: State): nat {
    (match s.holder
     case HConnecting => 6
     case HUpdating => 5
     case HStarted => 4
     case Sleeping => 3
     case Checking => 2
     case HRollback => 1
     case HDone => 0) +
    (match s.waiter
     case Waiting => 4
     case WConnecting => 3
     case WUpdating => 2
     case WRollback => 1
     case WDone => 0)
  }

  lemma {:induction false} StepsAreBounded(s: State, schedule: seq<Action>)
    requires s.stop && Runs(s, schedule)
    ensures |schedule| + Rank(After(s, schedule)) <= Rank(s)
    decreases |schedule|
  {
    if schedule != [] {
      StepsAreBounded(Do(s, schedule[0]), schedule[1..]);
    }
  }

  /** After `stop`, whenever it comes and whatever order the threads run in, they take at most
      ten steps, can always take one until both are finished, and then the row is free. */
  lemma StopFinishesBoth(before: seq<Action>, schedule: seq<Action>)
    requires Runs(Start(), before) && After(Start(), before).stop && Runs(After(Start(), before), schedule)
    ensures var s := After(After(Start(), before), schedule);
            && |schedule| <= 10
            && (CanMove(s) <==> !Finished(s))
            && (Finished(s) ==> s.owners == {})
  {
    var s := After(Start(), before);
    RunKeepsInv(Start(), before);
    RunKeepsInv(s, schedule);
    StepsAreBounded(s, schedule);
    var end := After(s, schedule);
    MovesUntilFinished(end);
    OwnersCases(end);
  }
}
