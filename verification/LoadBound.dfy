/** How much work the limiter lets through to the tools themselves, over every interleaving
    of concurrent calls (mcp_server/tools/base.py:44-92 on top of mcp_server/rate_limit.py). */
module LoadBound {
  import opened Wrappers
  import opened RateLimit
  import opened Tools
  import opened Pipeline
  import opened Contexts
  import L = LimiterKeys
  import H = LimiterHistory

  ghost predicate During(t: Option<real>, from: real, to: real) {
    t.Some? && from <= t.value <= to
  }

  /** Let through by the limiter between two instants. */
  ghost function GrantedIn(tool: string, from: real, to: real): Call -> bool {
    (c: Call) => c.tool == tool && During(c.grantedAt, from, to)
  }

  /** Whose tool body started between two instants. */
  ghost function StartedIn(tool: string, from: real, to: real): Call -> bool {
    (c: Call) => c.tool == tool && During(c.startedAt, from, to)
  }

  /** Of those, the ones the limiter had already let through before. */
  ghost function HeldBack(tool: string, from: real, to: real): Call -> bool {
    (c: Call) => c.tool == tool && During(c.startedAt, from, to) && c.grantedAt.Some? && c.grantedAt.value < from
  }

  ghost function EverGranted(tool: string): Call -> bool {
    (c: Call) => c.tool == tool && c.grantedAt.Some?
  }

  ghost function EverStarted(tool: string): Call -> bool {
    (c: Call) => c.tool == tool && c.startedAt.Some?
  }

  ghost function FoundInvalid(tool: string): Call -> bool {
    (c: Call) => c.tool == tool && c.pc.Exiting? && c.pc.exit.status.InvalidInput?
  }

  /** Let through, not rejected, body not started yet. */
  ghost function Waiting(tool: string): Call -> bool {
    (c: Call) => c.tool == tool && (c.pc.Admitted? || c.pc.Validated? || c.pc.Entered?)
  }

  // ---- the history fields mean what they say ----------------------------------------------

  ghost predicate TimesOf(c: Call, clock0: real, clock: real) {
    && (c.grantedAt.Some? ==> clock0 <= c.grantedAt.value <= clock)
    && (c.startedAt.Some? ==> c.grantedAt.Some? && c.grantedAt.value <= c.startedAt.value <= clock)
    && match c.pc
       case Begun => c.grantedAt.None?
       case Running(_) => c.startedAt.Some?
       case Exiting(exit, _) =>
         (match exit.status
          case RateLimited => c.grantedAt.None?
          case InvalidInput => c.grantedAt.Some? && c.startedAt.None?
          case _ => c.startedAt.Some?)
       case _ => c.grantedAt.Some? && c.startedAt.None?
  }

  ghost predicate TimesAgree(s: State, clock0: real) {
    clock0 <= s.clock && forall i :: 0 <= i < |s.calls| ==> TimesOf(s.calls[i], clock0, s.clock)
  }

  lemma MovedKeepsTimes(cfg: Config, s: State, a: Action, clock0: real)
    requires TimesAgree(s, clock0) && Enabled(s, a) && !a.Tick? && !a.Begin?
    ensures TimesOf(Moved(cfg, s, a).0, clock0, s.clock)
  {
    assert TimesOf(s.calls[a.call], clock0, s.clock);
  }

  lemma StepKeepsTimes(cfg: Config, s: State, a: Action, clock0: real)
    requires TimesAgree(s, clock0)
    ensures TimesAgree(Do(cfg, s, a), clock0)
  {
    if Enabled(s, a) && !a.Tick? && !a.Begin? {
      MovedKeepsTimes(cfg, s, a, clock0);
    }
  }

  // ---- the limiter's history and the calls agree -------------------------------------------

  ghost predicate TraceInOrder(cfg: Config, s: State) {
    && s.ledger.table == L.Play(cfg, s.trace)
    && L.Ordered(s.trace)
    && forall i :: 0 <= i < |s.trace| ==> s.trace[i].now <= s.clock
  }

  ghost predicate GrantsAgree(cfg: Config, s: State) {
    forall tool, from, to ::
      L.GrantsIn(s.trace, L.Verdicts(cfg, s.trace), {tool}, from, to) == Count(s.calls, GrantedIn(tool, from, to))
  }

  lemma Played(cfg: Config, trace: seq<L.Call>, call: L.Call)
    ensures L.Play(cfg, trace + [call]) ==
            Acquire(cfg, L.Play(cfg, trace), call.key, call.created, call.now).table
    ensures L.Verdicts(cfg, trace + [call]) == L.Verdicts(cfg, trace) +
            [Acquire(cfg, L.Play(cfg, trace), call.key, call.created, call.now).granted]
  {
    assert (trace + [call])[..|trace|] == trace;
  }

  lemma StepKeepsTrace(cfg: Config, s: State, a: Action)
    requires TraceInOrder(cfg, s)
    ensures TraceInOrder(cfg, Do(cfg, s, a))
  {
    hide Gain;
    if Enabled(s, a) && a.TryAcquire? {
      Played(cfg, s.trace, L.Call(s.calls[a.call].tool, s.clock, s.clock));
    }
  }

  lemma QuietStepKeepsTable(cfg: Config, s: State, a: Action)
    requires Enabled(s, a) && !a.TryAcquire?
    ensures Do(cfg, s, a).trace == s.trace && Do(cfg, s, a).ledger.table == s.ledger.table
  {
  }

  lemma GrantsSnoc(cfg: Config, trace: seq<L.Call>, call: L.Call, tool: string, from: real, to: real)
    ensures L.GrantsIn(trace + [call], L.Verdicts(cfg, trace + [call]), {tool}, from, to) ==
            L.GrantsIn(trace, L.Verdicts(cfg, trace), {tool}, from, to) +
            if Acquire(cfg, L.Play(cfg, trace), call.key, call.created, call.now).granted && call.key == tool &&
               from <= call.now <= to then 1 else 0
  {
    Played(cfg, trace, call);
    assert (trace + [call])[..|trace|] == trace;
    assert L.Verdicts(cfg, trace + [call])[..|trace|] == L.Verdicts(cfg, trace);
  }

  lemma StepKeepsGrants(cfg: Config, s: State, a: Action, clock0: real)
    requires TraceInOrder(cfg, s) && TimesAgree(s, clock0) && GrantsAgree(cfg, s)
    ensures GrantsAgree(cfg, Do(cfg, s, a))
  {
    hide Gain, L.GrantsIn, L.Verdicts, L.Play, Count;
    if Enabled(s, a) {
      var s' := Do(cfg, s, a);
      forall tool, from, to
        ensures L.GrantsIn(s'.trace, L.Verdicts(cfg, s'.trace), {tool}, from, to) ==
                Count(s'.calls, GrantedIn(tool, from, to))
      {
        CountAfter(cfg, s, a, GrantedIn(tool, from, to));
        if a.TryAcquire? {
          assert TimesOf(s.calls[a.call], clock0, s.clock);
          GrantsSnoc(cfg, s.trace, L.Call(s.calls[a.call].tool, s.clock, s.clock), tool, from, to);
        } else {
          QuietStepKeepsTable(cfg, s, a);
        }
      }
    }
  }

  lemma {:induction false} HistoryAgrees(cfg: Config, clock: real, schedule: seq<Action>)
    ensures var s := Run(cfg, Start(clock), schedule);
            TimesAgree(s, clock) && TraceInOrder(cfg, s) && GrantsAgree(cfg, s)
  {
    if schedule != [] {
      var n := |schedule| - 1;
      var s, a := Run(cfg, Start(clock), schedule[..n]), schedule[n];
      HistoryAgrees(cfg, clock, schedule[..n]);
      StepKeepsTimes(cfg, s, a, clock);
      StepKeepsTrace(cfg, s, a);
      StepKeepsGrants(cfg, s, a, clock);
    }
  }

  // ---- what the limiter guarantees about the tools ----------------------------------------

  /** Every grant is accounted for: a body that started, an invalid input, or a call still on
      its way to its body. */
  lemma GrantsAreConserved(cfg: Config, clock: real, schedule: seq<Action>, tool: string)
    ensures var s := Run(cfg, Start(clock), schedule);
            L.GrantsIn(s.trace, L.Verdicts(cfg, s.trace), {tool}, clock, s.clock) ==
            Count(s.calls, EverStarted(tool)) + Count(s.calls, FoundInvalid(tool)) + Count(s.calls, Waiting(tool))
  {
    var s := Run(cfg, Start(clock), schedule);
    HistoryAgrees(cfg, clock, schedule);
    var notStarted := (c: Call) => FoundInvalid(tool)(c) || Waiting(tool)(c);
    forall c <- s.calls
      ensures GrantedIn(tool, clock, s.clock)(c) == EverGranted(tool)(c)
      ensures EverGranted(tool)(c) <==> EverStarted(tool)(c) || notStarted(c)
      ensures !(EverStarted(tool)(c) && notStarted(c))
      ensures !(FoundInvalid(tool)(c) && Waiting(tool)(c))
    {
      var i :| 0 <= i < |s.calls| && s.calls[i] == c;
      assert TimesOf(s.calls[i], clock, s.clock);
    }
    CountSame(s.calls, GrantedIn(tool, clock, s.clock), EverGranted(tool));
    CountSplit(s.calls, EverGranted(tool), EverStarted(tool), notStarted);
    CountSplit(s.calls, notStarted, FoundInvalid(tool), Waiting(tool));
  }

  lemma GrantsInWindow(cfg: Config, clock: real, schedule: seq<Action>, tool: string, from: real, to: real)
    requires cfg.capacity >= 0.0 && cfg.refill >= 0.0 && from <= to
    ensures Count(Run(cfg, Start(clock), schedule).calls, GrantedIn(tool, from, to)) as real <=
            cfg.capacity + Gain(cfg, to - from)
  {
    HistoryAgrees(cfg, clock, schedule);
    L.OneOfManyKeys(cfg, Run(cfg, Start(clock), schedule).trace, tool, from, to);
    H.DripOver(cfg, from, to);
  }

  /** The bodies that start in a window are at most capacity + refill * length, plus those
      that were let through before the window and held back until it. */
  lemma StartsInWindow(cfg: Config, clock: real, schedule: seq<Action>, tool: string, from: real, to: real)
    requires cfg.capacity >= 0.0 && cfg.refill >= 0.0 && from <= to
    ensures var s := Run(cfg, Start(clock), schedule);
            Count(s.calls, StartedIn(tool, from, to)) as real <=
            cfg.capacity + Gain(cfg, to - from) + Count(s.calls, HeldBack(tool, from, to)) as real
  {
    var s := Run(cfg, Start(clock), schedule);
    HistoryAgrees(cfg, clock, schedule);
    GrantsInWindow(cfg, clock, schedule, tool, from, to);
    forall c <- s.calls
      ensures StartedIn(tool, from, to)(c) ==> GrantedIn(tool, from, to)(c) || HeldBack(tool, from, to)(c)
    {
      var i :| 0 <= i < |s.calls| && s.calls[i] == c;
      assert TimesOf(s.calls[i], clock, s.clock);
    }
    CountAtMost(s.calls, StartedIn(tool, from, to), GrantedIn(tool, from, to), HeldBack(tool, from, to));
  }

  /** In one context, a later call is let through no earlier than an earlier one's body starts. */
  ghost predicate TurnsInOrder(s: State) {
    forall i, j :: 0 <= i < j < |s.calls| && s.calls[i].context == s.calls[j].context &&
                   s.calls[i].startedAt.Some? && s.calls[j].grantedAt.Some? ==>
      s.calls[i].startedAt.value <= s.calls[j].grantedAt.value
  }

  lemma MovedTimes(cfg: Config, s: State, a: Action)
    requires Enabled(s, a) && !a.Tick? && !a.Begin?
    ensures var (c, c') := (s.calls[a.call], Moved(cfg, s, a).0);
            && InFlight(c) && c'.context == c.context
            && (c'.grantedAt == c.grantedAt || c'.grantedAt == Some(s.clock))
            && (c'.startedAt == c.startedAt || c'.startedAt == Some(s.clock))
  {
  }

  lemma StepKeepsTurns(cfg: Config, s: State, a: Action, clock0: real)
    requires TurnsInOrder(s) && OneAtATime(s) && TimesAgree(s, clock0)
    ensures TurnsInOrder(Do(cfg, s, a))
  {
    hide Moved;
    if Enabled(s, a) && !a.Tick? && !a.Begin? {
      MovedTimes(cfg, s, a);
      assert forall i :: 0 <= i < |s.calls| ==> TimesOf(s.calls[i], clock0, s.clock);
    }
  }

  lemma {:induction false} TurnsAlwaysInOrder(cfg: Config, clock: real, schedule: seq<Action>)
    ensures TurnsInOrder(Run(cfg, Start(clock), schedule))
  {
    if schedule != [] {
      var n := |schedule| - 1;
      TurnsAlwaysInOrder(cfg, clock, schedule[..n]);
      OneAtATimeAlways(cfg, clock, schedule[..n]);
      HistoryAgrees(cfg, clock, schedule[..n]);
      StepKeepsTurns(cfg, Run(cfg, Start(clock), schedule[..n]), schedule[n], clock);
    }
  }

  /** Each context holds back at most one call until a window. */
  lemma HeldBackByContext(cfg: Config, clock: real, schedule: seq<Action>, tool: string, from: real, to: real)
    ensures var s := Run(cfg, Start(clock), schedule);
            Count(s.calls, HeldBack(tool, from, to)) <= |ContextsOf(s.calls, tool)|
  {
    var s := Run(cfg, Start(clock), schedule);
    TurnsAlwaysInOrder(cfg, clock, schedule);
    CountByContext(s.calls, HeldBack(tool, from, to));
    SubsetIsSmaller(ContextsWith(s.calls, HeldBack(tool, from, to)), ContextsOf(s.calls, tool));
  }

  /** Whatever the delays, the bodies that start in a window are at most
      capacity + refill * length plus one for each context that has called the tool. */
  lemma StartsPerContext(cfg: Config, clock: real, schedule: seq<Action>, tool: string, from: real, to: real)
    requires cfg.capacity >= 0.0 && cfg.refill >= 0.0 && from <= to
    ensures var s := Run(cfg, Start(clock), schedule);
            Count(s.calls, StartedIn(tool, from, to)) as real <=
            cfg.capacity + Gain(cfg, to - from) + |ContextsOf(s.calls, tool)| as real
  {
    hide Run, Gain;
    StartsInWindow(cfg, clock, schedule, tool, from, to);
    HeldBackByContext(cfg, clock, schedule, tool, from, to);
  }

  function Nobody(): Call -> bool {
    (c: Call) => false
  }

  /** If no call takes longer than `delay` from the limiter to its body, the bodies that start
      in a window are at most capacity + refill * (length + delay). */
  lemma PromptStartsInWindow(cfg: Config, clock: real, schedule: seq<Action>, tool: string, from: real, to: real,
                             delay: real)
    requires cfg.capacity >= 0.0 && cfg.refill >= 0.0 && from <= to && delay >= 0.0
    requires forall c <- Run(cfg, Start(clock), schedule).calls ::
               c.tool == tool && c.grantedAt.Some? && c.startedAt.Some? ==>
               c.startedAt.value - c.grantedAt.value <= delay
    ensures Count(Run(cfg, Start(clock), schedule).calls, StartedIn(tool, from, to)) as real <=
            cfg.capacity + Gain(cfg, to - from + delay)
  {
    var s := Run(cfg, Start(clock), schedule);
    HistoryAgrees(cfg, clock, schedule);
    GrantsInWindow(cfg, clock, schedule, tool, from - delay, to);
    assert to - (from - delay) == to - from + delay;
    forall c <- s.calls
      ensures StartedIn(tool, from, to)(c) ==> GrantedIn(tool, from - delay, to)(c) || Nobody()(c)
    {
      var i :| 0 <= i < |s.calls| && s.calls[i] == c;
      assert TimesOf(s.calls[i], clock, s.clock);
    }
    CountAtMost(s.calls, StartedIn(tool, from, to), GrantedIn(tool, from - delay, to), Nobody());
    CountNone(s.calls, Nobody());
  }

  // ---- the simple bound, and when it holds -------------------------------------------------

  /** In every run and every window, at most capacity + refill * length bodies start. */
  ghost predicate SimpleBound(cfg: Config) {
    forall clock: real, schedule: seq<Action>, tool: string, from: real, to: real :: from <= to ==>
      Count(Run(cfg, Start(clock), schedule).calls, StartedIn(tool, from, to)) as real <=
      cfg.capacity + Gain(cfg, to - from)
  }

  lemma GainOfNothing(cfg: Config, seconds: real)
    requires cfg.refill == 0.0 || seconds == 0.0
    ensures Gain(cfg, seconds) == 0.0
  {
  }

  /** Without refill the whole run is one window. */
  lemma BoundWithoutRefill(cfg: Config, clock: real, schedule: seq<Action>, tool: string, from: real, to: real)
    requires cfg.capacity >= 0.0 && cfg.refill == 0.0 && from <= to
    ensures Count(Run(cfg, Start(clock), schedule).calls, StartedIn(tool, from, to)) as real <=
            cfg.capacity + Gain(cfg, to - from)
  {
    var s := Run(cfg, Start(clock), schedule);
    HistoryAgrees(cfg, clock, schedule);
    GrantsInWindow(cfg, clock, schedule, tool, clock, s.clock);
    GainOfNothing(cfg, s.clock - clock);
    GainOfNothing(cfg, to - from);
    forall c <- s.calls
      ensures StartedIn(tool, from, to)(c) ==> GrantedIn(tool, clock, s.clock)(c) || Nobody()(c)
    {
      var i :| 0 <= i < |s.calls| && s.calls[i] == c;
      assert TimesOf(s.calls[i], clock, s.clock);
    }
    CountAtMost(s.calls, StartedIn(tool, from, to), GrantedIn(tool, clock, s.clock), Nobody());
    CountNone(s.calls, Nobody());
  }

  /** A bucket that never holds a whole token grants nothing. */
  lemma BoundWithoutAToken(cfg: Config, clock: real, schedule: seq<Action>, tool: string, from: real, to: real)
    requires 0.0 <= cfg.capacity < 1.0 && cfg.refill >= 0.0 && from <= to
    ensures Count(Run(cfg, Start(clock), schedule).calls, StartedIn(tool, from, to)) as real <=
            cfg.capacity + Gain(cfg, to - from)
  {
    NothingGranted(cfg, clock, schedule);
    var s := Run(cfg, Start(clock), schedule);
    HistoryAgrees(cfg, clock, schedule);
    forall c <- s.calls ensures !StartedIn(tool, from, to)(c) {
      var i :| 0 <= i < |s.calls| && s.calls[i] == c;
      assert TimesOf(s.calls[i], clock, s.clock);
    }
    CountNone(s.calls, StartedIn(tool, from, to));
    GainNonNegative(cfg, to - from);
  }

  lemma {:induction false} NothingGranted(cfg: Config, clock: real, schedule: seq<Action>)
    requires cfg.capacity < 1.0
    ensures forall i :: 0 <= i < |Run(cfg, Start(clock), schedule).calls| ==>
              Run(cfg, Start(clock), schedule).calls[i].grantedAt.None?
  {
    if schedule != [] {
      var n := |schedule| - 1;
      var s, a := Run(cfg, Start(clock), schedule[..n]), schedule[n];
      NothingGranted(cfg, clock, schedule[..n]);
      if Enabled(s, a) && a.TryAcquire? {
        assert !Acquire(cfg, s.ledger.table, s.calls[a.call].tool, s.clock, s.clock).granted;
      }
    }
  }

  // The run that breaks the bound: calls are let through one refill apart, each is held back
  // just before its body, and then all bodies start at once.

  function Id(n: nat): string {
    seq(n, _ => 'x')
  }

  function Admissions(n: nat, tool: string, gap: real): seq<Action> {
    if n == 0 then []
    else Admissions(n - 1, tool, gap) +
         [Begin(n - 1, tool, [], Id(n - 1)), TryAcquire(n - 1), Validate(n - 1, NoModel), EnterGauge(n - 1), Tick(gap)]
  }

  function Starts(n: nat): seq<Action> {
    if n == 0 then [] else Starts(n - 1) + [StartBody(n - 1)]
  }

  ghost predicate AllHeld(s: State, n: nat, tool: string, gap: real) {
    && |s.calls| == n
    && (forall i :: 0 <= i < n ==> s.calls[i].pc.Entered? && s.calls[i].tool == tool &&
                                   s.calls[i].context == i && |s.calls[i].id| == i)
    && (tool in s.ledger.table <==> n > 0)
    && (n > 0 ==> s.ledger.table[tool].tokens >= 0.0 && s.clock - s.ledger.table[tool].last == gap)
  }

  /** One more call is let through, because a whole token has been earned meanwhile. */
  lemma OneMoreHeld(cfg: Config, s: State, n: nat, tool: string, gap: real)
    requires AllHeld(s, n, tool, gap) && cfg.capacity >= 1.0 && gap >= 0.0 && Gain(cfg, gap) == 1.0
    ensures var s1 := Do(cfg, s, Begin(n, tool, [], Id(n)));
            var s2 := Do(cfg, s1, TryAcquire(n));
            var s3 := Do(cfg, s2, Validate(n, NoModel));
            var s4 := Do(cfg, s3, EnterGauge(n));
            AllHeld(Do(cfg, s4, Tick(gap)), n + 1, tool, gap)
  {
    var s1 := Do(cfg, s, Begin(n, tool, [], Id(n)));
    assert Enabled(s, Begin(n, tool, [], Id(n)));
    assert s1.calls[n] == Call(n, tool, [], Id(n), Begun, None, None);
    FullTokenIsGranted(cfg, s1.ledger.table, tool, s1.clock, gap);
    var s2 := Do(cfg, s1, TryAcquire(n));
    assert s2.calls[n].pc.Admitted?;
    var s3 := Do(cfg, s2, Validate(n, NoModel));
    assert s3.calls[n].pc.Validated?;
    var s4 := Do(cfg, s3, EnterGauge(n));
    assert s4.ledger.table == s2.ledger.table;
    assert s4.calls == s.calls + [s4.calls[n]] && s4.calls[n].pc.Entered?;
  }

  lemma FullTokenIsGranted(cfg: Config, table: Table, tool: string, now: real, gap: real)
    requires cfg.capacity >= 1.0 && Gain(cfg, gap) == 1.0
    requires tool in table ==> table[tool].tokens >= 0.0 && now - table[tool].last == gap
    ensures var r := Acquire(cfg, table, tool, now, now);
            r.granted && tool in r.table && r.table[tool].tokens >= 0.0 && r.table[tool].last == now
  {
    if tool !in table {
      GainOfNothing(cfg, now - now);
    }
  }

  lemma NoneHeld(tool: string, gap: real)
    ensures AllHeld(Start(0.0), 0, tool, gap)
  {
  }

  lemma {:induction false} AdmissionsHold(cfg: Config, n: nat, tool: string, gap: real)
    requires cfg.capacity >= 1.0 && gap >= 0.0 && Gain(cfg, gap) == 1.0
    ensures AllHeld(Run(cfg, Start(0.0), Admissions(n, tool, gap)), n, tool, gap)
  {
    hide AllHeld, Do;
    if n == 0 {
      NoneHeld(tool, gap);
    } else {
      var m, before := n - 1, Admissions(n - 1, tool, gap);
      var a, b, c, d, e := Begin(m, tool, [], Id(m)), TryAcquire(m), Validate(m, NoModel), EnterGauge(m), Tick(gap);
      AdmissionsHold(cfg, m, tool, gap);
      OneMoreHeld(cfg, Run(cfg, Start(0.0), before), m, tool, gap);
      RunSnoc(cfg, Start(0.0), before, a);
      RunSnoc(cfg, Start(0.0), before + [a], b);
      RunSnoc(cfg, Start(0.0), before + [a] + [b], c);
      RunSnoc(cfg, Start(0.0), before + [a] + [b] + [c], d);
      RunSnoc(cfg, Start(0.0), before + [a] + [b] + [c] + [d], e);
      assert before + [a, b, c, d, e] == before + [a] + [b] + [c] + [d] + [e];
    }
  }

  ghost predicate FirstStarted(s: State, n: nat, k: nat, tool: string, t: real) {
    && |s.calls| == n && s.clock == t && k <= n
    && forall i :: 0 <= i < n ==>
         (s.calls[i].tool == tool &&
          if i < k then s.calls[i].startedAt == Some(t) else s.calls[i].pc.Entered?)
  }

  lemma {:induction false} StartsStartAll(cfg: Config, s: State, n: nat, k: nat, tool: string)
    requires FirstStarted(s, n, 0, tool, s.clock) && k <= n
    ensures FirstStarted(Run(cfg, s, Starts(k)), n, k, tool, s.clock)
  {
    if k > 0 {
      StartsStartAll(cfg, s, n, k - 1, tool);
      RunSnoc(cfg, s, Starts(k - 1), StartBody(k - 1));
      var before := Run(cfg, s, Starts(k - 1));
      assert Enabled(before, StartBody(k - 1));
    }
  }

  lemma {:induction false} CountAll(calls: seq<Call>, f: Call -> bool)
    requires forall i :: 0 <= i < |calls| ==> f(calls[i])
    ensures Count(calls, f) == |calls|
  {
    if calls != [] {
      CountAll(calls[..|calls| - 1], f);
    }
  }

  /** Any number of bodies can be made to start at one instant. */
  lemma BurstAtOneInstant(cfg: Config, n: nat, tool: string) returns (schedule: seq<Action>, t: real)
    requires cfg.capacity >= 1.0 && cfg.refill > 0.0
    ensures Count(Run(cfg, Start(0.0), schedule).calls, StartedIn(tool, t, t)) == n
  {
    var gap := 1.0 / cfg.refill;
    assert Gain(cfg, gap) == 1.0;
    AdmissionsHold(cfg, n, tool, gap);
    var held := Run(cfg, Start(0.0), Admissions(n, tool, gap));
    t := held.clock;
    StartsStartAll(cfg, held, n, n, tool);
    schedule := Admissions(n, tool, gap) + Starts(n);
    RunConcat(cfg, Start(0.0), Admissions(n, tool, gap), Starts(n));
    CountAll(Run(cfg, Start(0.0), schedule).calls, StartedIn(tool, t, t));
  }

  /** The limiter bounds the calls it lets through, not the bodies: counted at the bodies, the
      bound holds in every run exactly when nothing is ever refilled or granted. */
  lemma SimpleBoundIff(cfg: Config)
    requires cfg.capacity >= 0.0 && cfg.refill >= 0.0
    ensures SimpleBound(cfg) <==> cfg.refill == 0.0 || cfg.capacity < 1.0
  {
    if cfg.refill == 0.0 {
      forall clock: real, schedule: seq<Action>, tool: string, from: real, to: real | from <= to
        ensures Count(Run(cfg, Start(clock), schedule).calls, StartedIn(tool, from, to)) as real <=
                cfg.capacity + Gain(cfg, to - from)
      {
        BoundWithoutRefill(cfg, clock, schedule, tool, from, to);
      }
    } else if cfg.capacity < 1.0 {
      forall clock: real, schedule: seq<Action>, tool: string, from: real, to: real | from <= to
        ensures Count(Run(cfg, Start(clock), schedule).calls, StartedIn(tool, from, to)) as real <=
                cfg.capacity + Gain(cfg, to - from)
      {
        BoundWithoutAToken(cfg, clock, schedule, tool, from, to);
      }
    } else {
      var n := cfg.capacity.Floor + 1;
      var schedule, t := BurstAtOneInstant(cfg, n, "get_database_health");
      GainOfNothing(cfg, t - t);
      assert Count(Run(cfg, Start(0.0), schedule).calls, StartedIn("get_database_health", t, t)) as real > cfg.capacity;
    }
  }
}
