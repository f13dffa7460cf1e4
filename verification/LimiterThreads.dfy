/** `try_acquire` as threads run it: every step between taking and releasing the lock is
    separate, and any schedule may interleave them with other threads and with the clock. */
module LimiterThreads {
  import opened Wrappers
  import opened RateLimit
  import opened LimiterKeys

  /** Where a thread is inside `try_acquire`, with its local variables. */
  datatype Pc =
    | Outside
    | Entered(key: string)
    | Found(key: string, created: real)
    | Timed(key: string, created: real, now: real)
    | Filled(key: string, created: real, now: real)
    | Leaving(granted: bool)

  /** A decision, in the order in which decisions are taken. */
  datatype Entry = Entry(thread: nat, call: Call, granted: bool)

  datatype Answer = Answer(thread: nat, granted: bool)

  datatype State = State(clock: real, holder: Option<nat>, table: Table, pcs: seq<Pc>,
                         log: seq<Entry>, answers: seq<Answer>)

  datatype Action =
    | Tick(seconds: real)
    | Enter(thread: nat, key: string)
    | Find(thread: nat)
    | ReadClock(thread: nat)
    | Refill(thread: nat)
    | Decide(thread: nat)
    | Leave(thread: nat)

  /** One step of the schedule. A step that its thread cannot take now (above all, entering
      while the lock is held) leaves the state alone: the thread is blocked. */
  function Do(cfg: Config, s: State, a: Action): State {
    match a
    case Tick(seconds) =>
      if seconds >= 0.0 then s.(clock := s.clock + seconds) else s
    case Enter(t, key) =>
      if t < |s.pcs| && s.pcs[t].Outside? && s.holder.None?
      then s.(holder := Some(t), pcs := s.pcs[t := Entered(key)]) else s
    case Find(t) =>
      if t < |s.pcs| && s.pcs[t].Entered? then
        s.(table := Opened(cfg, s.table, s.pcs[t].key, s.clock),
           pcs := s.pcs[t := Found(s.pcs[t].key, s.clock)])
      else s
    case ReadClock(t) =>
      if t < |s.pcs| && s.pcs[t].Found?
      then s.(pcs := s.pcs[t := Timed(s.pcs[t].key, s.pcs[t].created, s.clock)]) else s
    case Refill(t) =>
      if t < |s.pcs| && s.pcs[t].Timed? && s.pcs[t].key in s.table then
        var pc := s.pcs[t];
        s.(table := s.table[pc.key := Refilled(cfg, s.table[pc.key], pc.now)],
           pcs := s.pcs[t := Filled(pc.key, pc.created, pc.now)])
      else s
    case Decide(t) =>
      if t < |s.pcs| && s.pcs[t].Filled? && s.pcs[t].key in s.table then
        var pc := s.pcs[t];
        var granted := Admits(s.table[pc.key]);
        s.(table := s.table[pc.key := Spent(s.table[pc.key])],
           pcs := s.pcs[t := Leaving(granted)],
           log := s.log + [Entry(t, Call(pc.key, pc.created, pc.now), granted)])
      else s
    case Leave(t) =>
      if t < |s.pcs| && s.pcs[t].Leaving? then
        s.(holder := None, pcs := s.pcs[t := Outside],
           answers := s.answers + [Answer(t, s.pcs[t].granted)])
      else s
  }

  /** A fresh limiter, with any number of threads outside it. */
  function Start(threads: nat, clock: real): State {
    State(clock, None, map[], seq(threads, _ => Outside), [], [])
  }

  /** The state after a schedule. */
  function Run(cfg: Config, s: State, schedule: seq<Action>): State {
    if schedule == [] then s
    else Do(cfg, Run(cfg, s, schedule[..|schedule| - 1]), schedule[|schedule| - 1])
  }

  /** The log as a trace of calls, with the answers that were given. */
  function Calls(log: seq<Entry>): (trace: seq<Call>)
    ensures |trace| == |log|
  {
    seq(|log|, i requires 0 <= i < |log| => log[i].call)
  }

  function Grants(log: seq<Entry>): (ds: seq<bool>)
    ensures |ds| == |log|
  {
    seq(|log|, i requires 0 <= i < |log| => log[i].granted)
  }

  function AnswersOf(log: seq<Entry>): (answers: seq<Answer>)
    ensures |answers| == |log|
  {
    seq(|log|, i requires 0 <= i < |log| => Answer(log[i].thread, log[i].granted))
  }

  /** The table a thread in the critical section sees, from the one before it entered. */
  ghost predicate MidCall(cfg: Config, base: Table, pc: Pc, table: Table) {
    match pc
    case Outside => false
    case Entered(_) => table == base
    case Found(key, created) => table == Opened(cfg, base, key, created)
    case Timed(key, created, _) => table == Opened(cfg, base, key, created)
    case Filled(key, created, now) =>
      var open := Opened(cfg, base, key, created);
      table == open[key := Refilled(cfg, open[key], now)]
    case Leaving(_) => table == base
  }

  ghost predicate ClockInOrder(s: State, pc: Pc) {
    var earlier := if s.log == [] then [] else [s.log[|s.log| - 1].call.now];
    match pc
    case Found(_, created) => created <= s.clock && forall t <- earlier :: t <= created
    case Timed(_, created, now) => created <= now <= s.clock && forall t <- earlier :: t <= created
    case Filled(_, created, now) => created <= now <= s.clock && forall t <- earlier :: t <= created
    case _ => true
  }

  ghost predicate Inv(cfg: Config, s: State) {
    && (forall t :: 0 <= t < |s.pcs| && !s.pcs[t].Outside? ==> s.holder == Some(t))
    && Grants(s.log) == Verdicts(cfg, Calls(s.log))
    && Ordered(Calls(s.log))
    && (forall e <- s.log :: e.call.now <= s.clock)
    && match s.holder
       case None =>
         s.table == Play(cfg, Calls(s.log)) && s.answers == AnswersOf(s.log)
       case Some(t) =>
         && t < |s.pcs|
         && MidCall(cfg, Play(cfg, Calls(s.log)), s.pcs[t], s.table)
         && ClockInOrder(s, s.pcs[t])
         && if s.pcs[t].Leaving?
            then s.answers + [Answer(t, s.pcs[t].granted)] == AnswersOf(s.log)
            else s.answers == AnswersOf(s.log)
  }

  lemma Logged(cfg: Config, log: seq<Entry>, e: Entry)
    ensures Calls(log + [e]) == Calls(log) + [e.call]
    ensures Grants(log + [e]) == Grants(log) + [e.granted]
    ensures AnswersOf(log + [e]) == AnswersOf(log) + [Answer(e.thread, e.granted)]
    ensures Play(cfg, Calls(log + [e])) ==
            Acquire(cfg, Play(cfg, Calls(log)), e.call.key, e.call.created, e.call.now).table
    ensures Verdicts(cfg, Calls(log + [e])) == Verdicts(cfg, Calls(log)) +
            [Acquire(cfg, Play(cfg, Calls(log)), e.call.key, e.call.created, e.call.now).granted]
  {
    var trace := Calls(log) + [e.call];
    assert Calls(log + [e]) == trace && trace[..|log|] == Calls(log);
  }

  lemma OrderedSnoc(trace: seq<Call>, call: Call)
    requires Ordered(trace) && call.created <= call.now
    requires trace != [] ==> trace[|trace| - 1].now <= call.created
    ensures Ordered(trace + [call])
  {
    forall i, j | 0 <= i < j < |trace| + 1
      ensures (trace + [call])[i].now <= (trace + [call])[j].created
    {
      if j == |trace| && i < j - 1 {
        assert trace[i].now <= trace[j - 1].created <= trace[j - 1].now;
      }
    }
  }

  /** The critical section as a whole is one `Acquire`. */
  lemma MidCallEnds(cfg: Config, base: Table, key: string, created: real, now: real, table: Table)
    requires MidCall(cfg, base, Filled(key, created, now), table)
    ensures key in table
    ensures Acquire(cfg, base, key, created, now) ==
            Acquired(table[key := Spent(table[key])], Admits(table[key]))
  {
    var open := Opened(cfg, base, key, created);
    assert table[key := Spent(table[key])] == open[key := Spent(table[key])];
  }

  lemma DecideKeepsInv(cfg: Config, s: State, t: nat)
    requires Inv(cfg, s)
    requires t < |s.pcs| && s.pcs[t].Filled? && s.pcs[t].key in s.table
    ensures Inv(cfg, Do(cfg, s, Decide(t)))
  {
    hide Gain, Play, Verdicts, Acquire;
    var pc := s.pcs[t];
    var e := Entry(t, Call(pc.key, pc.created, pc.now), Admits(s.table[pc.key]));
    var s' := Do(cfg, s, Decide(t));
    assert s'.log == s.log + [e] && s'.holder == Some(t) && s'.pcs[t] == Leaving(e.granted);
    assert Grants(s'.log) == Verdicts(cfg, Calls(s'.log)) && s'.table == Play(cfg, Calls(s'.log)) &&
           Calls(s'.log) == Calls(s.log) + [e.call] &&
           AnswersOf(s'.log) == s.answers + [Answer(t, e.granted)] by {
      MidCallEnds(cfg, Play(cfg, Calls(s.log)), pc.key, pc.created, pc.now, s.table);
      Logged(cfg, s.log, e);
    }
    assert Ordered(Calls(s'.log)) by {
      OrderedSnoc(Calls(s.log), e.call);
    }
  }

  lemma RefillKeepsInv(cfg: Config, s: State, t: nat)
    requires Inv(cfg, s)
    requires t < |s.pcs| && s.pcs[t].Timed? && s.pcs[t].key in s.table
    ensures Inv(cfg, Do(cfg, s, Refill(t)))
  {
  }

  lemma OutsideTheBucketKeepsInv(cfg: Config, s: State, a: Action)
    requires Inv(cfg, s) && (a.Tick? || a.Enter? || a.Leave?)
    ensures Inv(cfg, Do(cfg, s, a))
  {
    hide Gain, Play, Verdicts;
  }

  lemma FindingKeepsInv(cfg: Config, s: State, a: Action)
    requires Inv(cfg, s) && (a.Find? || a.ReadClock?)
    ensures Inv(cfg, Do(cfg, s, a))
  {
    hide Gain, Play, Verdicts;
  }

  lemma StepKeepsInv(cfg: Config, s: State, a: Action)
    requires Inv(cfg, s)
    ensures Inv(cfg, Do(cfg, s, a))
  {
    match a
    case Tick(_) => OutsideTheBucketKeepsInv(cfg, s, a);
    case Enter(_, _) => OutsideTheBucketKeepsInv(cfg, s, a);
    case Leave(_) => OutsideTheBucketKeepsInv(cfg, s, a);
    case Find(_) => FindingKeepsInv(cfg, s, a);
    case ReadClock(_) => FindingKeepsInv(cfg, s, a);
    case Refill(t) =>
      if t < |s.pcs| && s.pcs[t].Timed? && s.pcs[t].key in s.table { RefillKeepsInv(cfg, s, t); }
    case Decide(t) =>
      if t < |s.pcs| && s.pcs[t].Filled? && s.pcs[t].key in s.table { DecideKeepsInv(cfg, s, t); }
  }

  lemma {:induction false} RunKeepsInv(cfg: Config, threads: nat, clock: real, schedule: seq<Action>)
    ensures Inv(cfg, Run(cfg, Start(threads, clock), schedule))
  {
    if schedule != [] {
      var n := |schedule| - 1;
      RunKeepsInv(cfg, threads, clock, schedule[..n]);
      StepKeepsInv(cfg, Run(cfg, Start(threads, clock), schedule[..n]), schedule[n]);
    }
  }

  /** Linearization: under every schedule the decisions, in the order in which they were
      taken, are those of the sequential limiter; each thread is told its own decision, in
      that order; and once the lock is free the buckets are the sequential limiter's too. */
  lemma EveryScheduleIsSequential(cfg: Config, threads: nat, clock: real, schedule: seq<Action>)
    ensures var s := Run(cfg, Start(threads, clock), schedule);
            && Grants(s.log) == Verdicts(cfg, Calls(s.log))
            && Ordered(Calls(s.log))
            && s.answers <= AnswersOf(s.log) && |s.log| <= |s.answers| + 1
            && (s.holder.None? ==> s.answers == AnswersOf(s.log) && s.table == Play(cfg, Calls(s.log)))
  {
    RunKeepsInv(cfg, threads, clock, schedule);
  }

  /** Mutual exclusion: only entering tests the lock, yet no two threads are ever inside. */
  lemma MutualExclusion(cfg: Config, threads: nat, clock: real, schedule: seq<Action>, t: nat, u: nat)
    ensures var s := Run(cfg, Start(threads, clock), schedule);
            t < |s.pcs| && u < |s.pcs| && !s.pcs[t].Outside? && !s.pcs[u].Outside? ==> t == u
  {
    RunKeepsInv(cfg, threads, clock, schedule);
  }

  /** Every bucket stays between empty and full, and none was touched in the future. */
  ghost predicate Sound(cfg: Config, table: Table, clock: real) {
    forall k <- table :: 0.0 <= table[k].tokens <= cfg.capacity && table[k].last <= clock
  }

  lemma StepKeepsSound(cfg: Config, s: State, a: Action)
    requires cfg.capacity >= 0.0 && cfg.refill >= 0.0
    requires Inv(cfg, s) && Sound(cfg, s.table, s.clock)
    ensures var s' := Do(cfg, s, a); Sound(cfg, s'.table, s'.clock)
  {
    if a.Refill? && a.thread < |s.pcs| && s.pcs[a.thread].Timed? && s.pcs[a.thread].key in s.table {
      var pc := s.pcs[a.thread];
      assert s.table[pc.key].last <= pc.now by {
        BucketBefore(cfg, s, a.thread);
      }
      GainNonNegative(cfg, pc.now - s.table[pc.key].last);
    }
  }

  lemma BucketBefore(cfg: Config, s: State, t: nat)
    requires Inv(cfg, s) && t < |s.pcs| && s.pcs[t].Timed? && s.pcs[t].key in s.table
    ensures s.table[s.pcs[t].key].last <= s.pcs[t].now
  {
    var pc := s.pcs[t];
    var base := Play(cfg, Calls(s.log));
    if pc.key in base {
      TouchedByACall(cfg, Calls(s.log), pc.key);
    }
  }

  lemma {:induction false} TouchedByACall(cfg: Config, trace: seq<Call>, key: string)
    requires key in Play(cfg, trace) && Ordered(trace)
    ensures trace != [] && Play(cfg, trace)[key].last <= trace[|trace| - 1].now
  {
    var n := |trace| - 1;
    if trace[n].key != key {
      TouchedByACall(cfg, trace[..n], key);
      assert trace[n - 1].now <= trace[n].created;
    }
  }

  /** 0 <= tokens <= capacity and last <= clock hold of every bucket, at every step. */
  lemma {:induction false} BucketsStaySound(cfg: Config, threads: nat, clock: real, schedule: seq<Action>)
    requires cfg.capacity >= 0.0 && cfg.refill >= 0.0
    ensures var s := Run(cfg, Start(threads, clock), schedule); Sound(cfg, s.table, s.clock)
  {
    if schedule != [] {
      var n := |schedule| - 1;
      BucketsStaySound(cfg, threads, clock, schedule[..n]);
      RunKeepsInv(cfg, threads, clock, schedule[..n]);
      StepKeepsSound(cfg, Run(cfg, Start(threads, clock), schedule[..n]), schedule[n]);
    }
  }
}
