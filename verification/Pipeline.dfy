/** Concurrent tool calls: the wrapper of mcp_server/tools/base.py cut into the steps that
    other calls may come between, one execution context per call in flight. */
module Pipeline {
  import opened Wrappers
  import opened Json
  import opened RateLimit
  import opened Tools
  import L = LimiterKeys

  /** How far a call with a known exit has got. */
  datatype Stage =
    | Unlogged
    | Logged(durationMs: real)
    | Counted(durationMs: real)
    | Metered
    | Replied(envelope: seq<Entry>)
    | Returned(envelope: seq<Entry>)

  datatype Pc =
    | Begun
    | Admitted
    | Validated(params: Json)
    | Entered(params: Json)
    | Running(params: Json)
    | Exiting(exit: Exit, stage: Stage)

  /** One call. The two times are history: when the limiter let it through, and when the
      tool's own code started. */
  datatype Call = Call(context: nat, tool: string, kwargs: seq<Entry>, id: string, pc: Pc,
                       grantedAt: Option<real>, startedAt: Option<real>)

  /** `trace` is the history of the limiter. */
  datatype State = State(clock: real, ledger: Ledger, calls: seq<Call>, trace: seq<L.Call>)

  datatype Action =
    | Tick(seconds: real)
    | Begin(context: nat, tool: string, kwargs: seq<Entry>, id: string)
    | TryAcquire(call: nat)
    | Validate(call: nat, verdict: Verdict)
    | EnterGauge(call: nat)
    | StartBody(call: nat)
    | FinishBody(call: nat, body: Body)
    | AuditExit(call: nat, durationMs: real)
    | CountExit(call: nat)
    | ObserveExit(call: nat)
    | Reply(call: nat)
    | Return(call: nat)

  predicate InFlight(c: Call) {
    !(c.pc.Exiting? && c.pc.stage.Returned?)
  }

  /** Inside the `try ... finally` around the gauge. */
  predicate InRegion(c: Call) {
    match c.pc
    case Entered(_) => true
    case Running(_) => true
    case Exiting(exit, stage) => (exit.status.Ok? || exit.status.Error?) && !stage.Returned?
    case _ => false
  }

  predicate IsTimed(c: Call) {
    c.pc.Exiting? && !c.pc.stage.Unlogged? && !c.pc.stage.Logged? && !c.pc.stage.Counted?
  }

  predicate IsCounted(c: Call) {
    c.pc.Exiting? && !c.pc.stage.Unlogged? && !c.pc.stage.Logged?
  }

  predicate HasLine(c: Call) {
    c.pc.Exiting? && !c.pc.stage.Unlogged?
  }

  /** Whether an action can happen now. Contexts run one call at a time, and correlation ids
      are never reused. */
  predicate Enabled(s: State, a: Action) {
    match a
    case Tick(seconds) => seconds >= 0.0
    case Begin(context, _, _, id) =>
      && (forall c <- s.calls :: InFlight(c) ==> c.context != context)
      && (forall c <- s.calls :: c.id != id)
    case TryAcquire(i) => i < |s.calls| && s.calls[i].pc.Begun?
    case Validate(i, _) => i < |s.calls| && s.calls[i].pc.Admitted?
    case EnterGauge(i) => i < |s.calls| && s.calls[i].pc.Validated?
    case StartBody(i) => i < |s.calls| && s.calls[i].pc.Entered?
    case FinishBody(i, _) => i < |s.calls| && s.calls[i].pc.Running?
    case AuditExit(i, _) => i < |s.calls| && s.calls[i].pc.Exiting? && s.calls[i].pc.stage.Unlogged?
    case CountExit(i) => i < |s.calls| && s.calls[i].pc.Exiting? && s.calls[i].pc.stage.Logged?
    case ObserveExit(i) => i < |s.calls| && s.calls[i].pc.Exiting? && s.calls[i].pc.stage.Counted?
    case Reply(i) => i < |s.calls| && s.calls[i].pc.Exiting? && s.calls[i].pc.stage.Metered?
    case Return(i) => i < |s.calls| && s.calls[i].pc.Exiting? && s.calls[i].pc.stage.Replied?
  }

  /** The call after its own action, and the ledger it leaves. */
  function Moved(cfg: Config, s: State, a: Action): (Call, Ledger)
    requires Enabled(s, a) && !a.Tick? && !a.Begin?
  {
    var c, l := s.calls[a.call], s.ledger;
    match a
    case TryAcquire(_) =>
      var r := Acquire(cfg, l.table, c.tool, s.clock, s.clock);
      if r.granted then (c.(pc := Admitted, grantedAt := Some(s.clock)), l.(table := r.table))
      else (c.(pc := Exiting(RefusedExit(c.kwargs), Unlogged)), l.(table := r.table))
    case Validate(_, v) =>
      if v.Rejected? then (c.(pc := Exiting(InvalidExit(c.kwargs, v.text, v.errors), Unlogged)), l)
      else (c.(pc := Validated(LoggedParams(c.kwargs, v))), l)
    case EnterGauge(_) => (c.(pc := Entered(c.pc.params)), Shifted(l, c.tool, 1))
    case StartBody(_) => (c.(pc := Running(c.pc.params), startedAt := Some(s.clock)), l)
    case FinishBody(_, body) => (c.(pc := Exiting(BodyExit(c.pc.params, body), Unlogged)), l)
    case AuditExit(_, d) =>
      (c.(pc := Exiting(c.pc.exit, Logged(d))), Audited(l, c.context, c.tool, c.pc.exit, d))
    case CountExit(_) =>
      (c.(pc := Exiting(c.pc.exit, Stage.Counted(c.pc.stage.durationMs))),
       Tools.Counted(l, Series(c.tool, c.pc.exit.status)))
    case ObserveExit(_) =>
      (c.(pc := Exiting(c.pc.exit, Metered)),
       Timed(l, Series(c.tool, c.pc.exit.status), c.pc.stage.durationMs))
    case Reply(_) =>
      (c.(pc := Exiting(c.pc.exit, Replied(Envelope(CurrentId(l, c.context), c.tool, c.pc.exit)))), l)
    case Return(_) =>
      (c.(pc := Exiting(c.pc.exit, Stage.Returned(c.pc.stage.envelope))),
       if InRegion(c) then Shifted(l, c.tool, -1) else l)
  }

  /** One step; an action that cannot happen now leaves the state alone. */
  function Do(cfg: Config, s: State, a: Action): State {
    if !Enabled(s, a) then s
    else
      match a
      case Tick(seconds) => s.(clock := s.clock + seconds)
      case Begin(context, tool, kwargs, id) =>
        s.(ledger := WithNewId(s.ledger, context, id),
           calls := s.calls + [Call(context, tool, kwargs, id, Begun, None, None)])
      case _ =>
        var (c, l) := Moved(cfg, s, a);
        s.(ledger := l, calls := s.calls[a.call := c],
           trace := if a.TryAcquire? then s.trace + [L.Call(c.tool, s.clock, s.clock)] else s.trace)
  }

  function Start(clock: real): State {
    State(clock, EMPTY_LEDGER, [], [])
  }

  function Run(cfg: Config, s: State, schedule: seq<Action>): State {
    if schedule == [] then s
    else Do(cfg, Run(cfg, s, schedule[..|schedule| - 1]), schedule[|schedule| - 1])
  }

  lemma RunSnoc(cfg: Config, s: State, schedule: seq<Action>, a: Action)
    ensures Run(cfg, s, schedule + [a]) == Do(cfg, Run(cfg, s, schedule), a)
  {
    assert (schedule + [a])[..|schedule|] == schedule;
  }

  lemma {:induction false} RunConcat(cfg: Config, s: State, xs: seq<Action>, ys: seq<Action>)
    ensures Run(cfg, s, xs + ys) == Run(cfg, Run(cfg, s, xs), ys)
  {
    if ys == [] {
      assert xs + ys == xs;
    } else {
      var n := |ys| - 1;
      RunConcat(cfg, s, xs, ys[..n]);
      assert (xs + ys)[..|xs + ys| - 1] == xs + ys[..n];
    }
  }

  // ---- counting calls --------------------------------------------------------------------

  function Count(calls: seq<Call>, f: Call -> bool): nat {
    if calls == [] then 0
    else Count(calls[..|calls| - 1], f) + if f(calls[|calls| - 1]) then 1 else 0
  }

  lemma CountPush(calls: seq<Call>, c: Call, f: Call -> bool)
    ensures Count(calls + [c], f) == Count(calls, f) + if f(c) then 1 else 0
  {
    assert (calls + [c])[..|calls|] == calls;
  }

  lemma {:induction false} CountSet(calls: seq<Call>, i: nat, c: Call, f: Call -> bool)
    requires i < |calls|
    ensures Count(calls[i := c], f) ==
            Count(calls, f) - (if f(calls[i]) then 1 else 0) + if f(c) then 1 else 0
  {
    var n := |calls| - 1;
    if i == n {
      assert calls[i := c][..n] == calls[..n];
    } else {
      assert calls[i := c][..n] == calls[..n][i := c];
      CountSet(calls[..n], i, c, f);
    }
  }

  lemma {:induction false} CountAtMost(calls: seq<Call>, f: Call -> bool, g: Call -> bool, h: Call -> bool)
    requires forall c <- calls :: f(c) ==> g(c) || h(c)
    ensures Count(calls, f) <= Count(calls, g) + Count(calls, h)
  {
    if calls != [] {
      CountAtMost(calls[..|calls| - 1], f, g, h);
    }
  }

  lemma {:induction false} CountSplit(calls: seq<Call>, f: Call -> bool, g: Call -> bool, h: Call -> bool)
    requires forall c <- calls :: (f(c) <==> g(c) || h(c)) && !(g(c) && h(c))
    ensures Count(calls, f) == Count(calls, g) + Count(calls, h)
  {
    if calls != [] {
      CountSplit(calls[..|calls| - 1], f, g, h);
    }
  }

  /** What one step does to the number of calls with a property. */
  lemma CountAfter(cfg: Config, s: State, a: Action, f: Call -> bool)
    requires Enabled(s, a)
    ensures Count(Do(cfg, s, a).calls, f) ==
            match a
            case Tick(_) => Count(s.calls, f)
            case Begin(context, tool, kwargs, id) =>
              Count(s.calls, f) + if f(Call(context, tool, kwargs, id, Begun, None, None)) then 1 else 0
            case _ =>
              Count(s.calls, f) - (if f(s.calls[a.call]) then 1 else 0) + if f(Moved(cfg, s, a).0) then 1 else 0
  {
    match a
    case Tick(_) =>
    case Begin(context, tool, kwargs, id) =>
      CountPush(s.calls, Call(context, tool, kwargs, id, Begun, None, None), f);
    case _ => CountSet(s.calls, a.call, Moved(cfg, s, a).0, f);
  }

  function IsTool(tool: string): Call -> bool {
    (c: Call) => c.tool == tool
  }

  function CountedAs(tool: string, status: Status): Call -> bool {
    (c: Call) => c.tool == tool && IsCounted(c) && c.pc.exit.status == status
  }

  function TimedAs(tool: string, status: Status): Call -> bool {
    (c: Call) => c.tool == tool && IsTimed(c) && c.pc.exit.status == status
  }

  function IsAudited(tool: string, status: Status): Call -> bool {
    (c: Call) => c.tool == tool && HasLine(c) && c.pc.exit.status == status
  }

  function IsPending(tool: string): Call -> bool {
    (c: Call) => c.tool == tool && !IsCounted(c)
  }

  function IsInRegion(tool: string): Call -> bool {
    (c: Call) => c.tool == tool && InRegion(c)
  }

  // ---- the ledgers agree with the calls ----------------------------------------------------

  ghost predicate MetricsAgree(s: State) {
    forall tool, status ::
      && CounterOf(s.ledger, Series(tool, status)) == Count(s.calls, CountedAs(tool, status))
      && |HistogramOf(s.ledger, Series(tool, status))| == Count(s.calls, TimedAs(tool, status))
  }

  ghost predicate GaugeAgrees(s: State) {
    forall tool :: GaugeOf(s.ledger, tool) == Count(s.calls, IsInRegion(tool))
  }

  function LinesOf(log: seq<LogLine>, tool: string, status: Status): nat {
    if log == [] then 0
    else
      var r := log[|log| - 1].record;
      LinesOf(log[..|log| - 1], tool, status) + if r.tool == tool && r.status == status then 1 else 0
  }

  ghost predicate LogAgrees(s: State) {
    forall tool, status :: LinesOf(s.ledger.log, tool, status) == Count(s.calls, IsAudited(tool, status))
  }

  lemma StepKeepsCounter(cfg: Config, s: State, a: Action, tool: string, status: Status)
    requires MetricsAgree(s) && Enabled(s, a)
    ensures CounterOf(Do(cfg, s, a).ledger, Series(tool, status)) ==
            Count(Do(cfg, s, a).calls, CountedAs(tool, status))
  {
    CountAfter(cfg, s, a, CountedAs(tool, status));
  }

  lemma StepKeepsHistogram(cfg: Config, s: State, a: Action, tool: string, status: Status)
    requires MetricsAgree(s) && Enabled(s, a)
    ensures |HistogramOf(Do(cfg, s, a).ledger, Series(tool, status))| ==
            Count(Do(cfg, s, a).calls, TimedAs(tool, status))
  {
    CountAfter(cfg, s, a, TimedAs(tool, status));
  }

  lemma StepKeepsMetrics(cfg: Config, s: State, a: Action)
    requires MetricsAgree(s)
    ensures MetricsAgree(Do(cfg, s, a))
  {
    hide Moved, Enabled;
    if Enabled(s, a) {
      forall tool, status
        ensures CounterOf(Do(cfg, s, a).ledger, Series(tool, status)) ==
                Count(Do(cfg, s, a).calls, CountedAs(tool, status))
        ensures |HistogramOf(Do(cfg, s, a).ledger, Series(tool, status))| ==
                Count(Do(cfg, s, a).calls, TimedAs(tool, status))
      {
        StepKeepsCounter(cfg, s, a, tool, status);
        StepKeepsHistogram(cfg, s, a, tool, status);
      }
    }
  }

  lemma StepKeepsGauge(cfg: Config, s: State, a: Action)
    requires GaugeAgrees(s)
    ensures GaugeAgrees(Do(cfg, s, a))
  {
    if Enabled(s, a) {
      forall tool ensures GaugeOf(Do(cfg, s, a).ledger, tool) == Count(Do(cfg, s, a).calls, IsInRegion(tool)) {
        CountAfter(cfg, s, a, IsInRegion(tool));
      }
    }
  }

  lemma LinesOfSnoc(log: seq<LogLine>, line: LogLine, tool: string, status: Status)
    ensures LinesOf(log + [line], tool, status) ==
            LinesOf(log, tool, status) + if line.record.tool == tool && line.record.status == status then 1 else 0
  {
    assert (log + [line])[..|log|] == log;
  }

  /** Only auditing writes to the log, and it appends one line, of the call's own tool and status. */
  lemma StepAppends(cfg: Config, s: State, a: Action)
    requires Enabled(s, a)
    ensures var log' := Do(cfg, s, a).ledger.log;
            if a.AuditExit? then
              exists line :: (&& log' == s.ledger.log + [line] && line.record.tool == s.calls[a.call].tool
                              && line.record.status == s.calls[a.call].pc.exit.status)
            else log' == s.ledger.log
  {
    if a.AuditExit? {
      var log' := Do(cfg, s, a).ledger.log;
      assert log' == s.ledger.log + [log'[|s.ledger.log|]];
    }
  }

  /** Only auditing makes a call one that has been audited. */
  lemma StepAudits(cfg: Config, s: State, a: Action, tool: string, status: Status)
    requires Enabled(s, a) && !a.Tick? && !a.Begin?
    ensures var (c, c') := (s.calls[a.call], Moved(cfg, s, a).0);
            IsAudited(tool, status)(c') ==
            if a.AuditExit? then c.tool == tool && c.pc.exit.status == status else IsAudited(tool, status)(c)
    ensures a.AuditExit? ==> !IsAudited(tool, status)(s.calls[a.call])
  {
  }

  lemma StepKeepsLineCount(cfg: Config, s: State, a: Action, tool: string, status: Status)
    requires LogAgrees(s) && Enabled(s, a)
    ensures LinesOf(Do(cfg, s, a).ledger.log, tool, status) == Count(Do(cfg, s, a).calls, IsAudited(tool, status))
  {
    hide Moved, Do, LinesOf, Count;
    CountAfter(cfg, s, a, IsAudited(tool, status));
    StepAppends(cfg, s, a);
    if a.AuditExit? {
      StepAudits(cfg, s, a, tool, status);
      var line :| (&& Do(cfg, s, a).ledger.log == s.ledger.log + [line]
                   && line.record.tool == s.calls[a.call].tool
                   && line.record.status == s.calls[a.call].pc.exit.status);
      LinesOfSnoc(s.ledger.log, line, tool, status);
    } else if !a.Tick? && !a.Begin? {
      StepAudits(cfg, s, a, tool, status);
    }
  }

  lemma StepKeepsLog(cfg: Config, s: State, a: Action)
    requires LogAgrees(s)
    ensures LogAgrees(Do(cfg, s, a))
  {
    hide Moved, LinesOf, Count;
    if Enabled(s, a) {
      forall tool, status
        ensures LinesOf(Do(cfg, s, a).ledger.log, tool, status) == Count(Do(cfg, s, a).calls, IsAudited(tool, status))
      {
        StepKeepsLineCount(cfg, s, a, tool, status);
      }
    }
  }

  // ---- identities ----------------------------------------------------------------------

  /** The audit line of a call that has been audited. */
  ghost predicate LineOf(line: LogLine, c: Call) {
    && HasLine(c)
    && line.context == c.context && line.record.correlationId == c.id && line.record.tool == c.tool
    && line.record.status == c.pc.exit.status && line.record.params == c.pc.exit.params
    && line.record.rowCount == c.pc.exit.rowCount && line.record.error == c.pc.exit.error
  }

  ghost predicate IdsAgree(s: State) {
    && (forall i, j :: 0 <= i < j < |s.calls| ==> s.calls[i].id != s.calls[j].id)
    && (forall i, j :: 0 <= i < j < |s.calls| && InFlight(s.calls[i]) && InFlight(s.calls[j]) ==>
          s.calls[i].context != s.calls[j].context)
    && (forall i :: 0 <= i < |s.calls| && InFlight(s.calls[i]) ==>
          CurrentId(s.ledger, s.calls[i].context) == s.calls[i].id)
  }

  ghost predicate Written(log: seq<LogLine>, c: Call) {
    exists k :: 0 <= k < |log| && LineOf(log[k], c)
  }

  ghost predicate Explained(calls: seq<Call>, line: LogLine) {
    exists i :: 0 <= i < |calls| && LineOf(line, calls[i])
  }

  /** Audited calls and audit lines correspond one to one. */
  ghost predicate LinesAgree(s: State) {
    && (forall i :: 0 <= i < |s.calls| && HasLine(s.calls[i]) ==> Written(s.ledger.log, s.calls[i]))
    && (forall k :: 0 <= k < |s.ledger.log| ==> Explained(s.calls, s.ledger.log[k]))
    && (forall k, m :: 0 <= k < m < |s.ledger.log| ==>
          s.ledger.log[k].record.correlationId != s.ledger.log[m].record.correlationId)
  }

  ghost predicate EnvelopeAgrees(c: Call) {
    c.pc.Exiting? ==>
      match c.pc.stage
      case Replied(envelope) => envelope == Envelope(c.id, c.tool, c.pc.exit)
      case Returned(envelope) => envelope == Envelope(c.id, c.tool, c.pc.exit)
      case _ => true
  }

  ghost predicate EnvelopesAgree(s: State) {
    forall i :: 0 <= i < |s.calls| ==> EnvelopeAgrees(s.calls[i])
  }

  /** A call's own steps never change who it is. */
  lemma MovedIsSameCall(cfg: Config, s: State, a: Action)
    requires Enabled(s, a) && !a.Tick? && !a.Begin?
    ensures var (c, l) := Moved(cfg, s, a);
            && c.id == s.calls[a.call].id && c.context == s.calls[a.call].context
            && c.tool == s.calls[a.call].tool && InFlight(s.calls[a.call])
            && l.currentIds == s.ledger.currentIds
  {
  }

  lemma BeginKeepsIds(cfg: Config, s: State, a: Action)
    requires IdsAgree(s) && Enabled(s, a) && a.Begin?
    ensures IdsAgree(Do(cfg, s, a))
  {
    assert forall i :: 0 <= i < |s.calls| ==> s.calls[i] in s.calls;
  }

  lemma MoveKeepsIds(cfg: Config, s: State, a: Action)
    requires IdsAgree(s) && Enabled(s, a) && !a.Begin? && !a.Tick?
    ensures IdsAgree(Do(cfg, s, a))
  {
    hide Moved;
    MovedIsSameCall(cfg, s, a);
    var s', i := Do(cfg, s, a), a.call;
    assert s'.calls == s.calls[i := s'.calls[i]] && s'.ledger.currentIds == s.ledger.currentIds;
  }

  lemma StepKeepsIds(cfg: Config, s: State, a: Action)
    requires IdsAgree(s)
    ensures IdsAgree(Do(cfg, s, a))
  {
    if Enabled(s, a) && a.Begin? {
      BeginKeepsIds(cfg, s, a);
    } else if Enabled(s, a) && !a.Tick? {
      MoveKeepsIds(cfg, s, a);
    }
  }

  lemma StepKeepsEnvelopes(cfg: Config, s: State, a: Action)
    requires IdsAgree(s) && EnvelopesAgree(s)
    ensures EnvelopesAgree(Do(cfg, s, a))
  {
  }

  /** Only the audit step touches the log, and it writes the line of its own call. */
  lemma MovedLine(cfg: Config, s: State, a: Action)
    requires Enabled(s, a) && !a.Tick? && !a.Begin? && IdsAgree(s)
    ensures var (c, l) := Moved(cfg, s, a);
            if a.AuditExit? then
              && !HasLine(s.calls[a.call]) && |l.log| == |s.ledger.log| + 1
              && l.log[..|s.ledger.log|] == s.ledger.log && LineOf(l.log[|s.ledger.log|], c)
            else
              && l.log == s.ledger.log && HasLine(c) == HasLine(s.calls[a.call])
              && (forall line :: LineOf(line, s.calls[a.call]) ==> LineOf(line, c))
  {
  }

  lemma QuietStepKeepsLines(cfg: Config, s: State, a: Action)
    requires IdsAgree(s) && LinesAgree(s) && Enabled(s, a) && !a.AuditExit? && !a.Tick? && !a.Begin?
    ensures LinesAgree(Do(cfg, s, a))
  {
    hide Moved, LineOf;
    MovedLine(cfg, s, a);
    var s' := Do(cfg, s, a);
    forall i | 0 <= i < |s'.calls| && HasLine(s'.calls[i]) ensures Written(s'.ledger.log, s'.calls[i]) {
      assert Written(s.ledger.log, s.calls[i]);
      var k :| 0 <= k < |s.ledger.log| && LineOf(s.ledger.log[k], s.calls[i]);
      assert LineOf(s'.ledger.log[k], s'.calls[i]);
    }
    forall k | 0 <= k < |s'.ledger.log| ensures Explained(s'.calls, s'.ledger.log[k]) {
      assert Explained(s.calls, s.ledger.log[k]);
      var i :| 0 <= i < |s.calls| && LineOf(s.ledger.log[k], s.calls[i]);
      assert LineOf(s'.ledger.log[k], s'.calls[i]);
    }
  }

  lemma BeginKeepsLines(cfg: Config, s: State, a: Action)
    requires LinesAgree(s) && Enabled(s, a) && a.Begin?
    ensures LinesAgree(Do(cfg, s, a))
  {
    var s' := Do(cfg, s, a);
    forall i | 0 <= i < |s'.calls| && HasLine(s'.calls[i]) ensures Written(s'.ledger.log, s'.calls[i]) {
      assert s'.calls[i] == s.calls[i];
    }
    forall k | 0 <= k < |s'.ledger.log| ensures Explained(s'.calls, s'.ledger.log[k]) {
      assert Explained(s.calls, s.ledger.log[k]);
      var i :| 0 <= i < |s.calls| && LineOf(s.ledger.log[k], s.calls[i]);
      assert s'.calls[i] == s.calls[i];
    }
  }

  /** Every line already in the log belongs to some call other than the one being audited. */
  lemma OldLineStays(cfg: Config, s: State, a: Action, k: nat) returns (i: nat)
    requires IdsAgree(s) && LinesAgree(s) && Enabled(s, a) && a.AuditExit? && k < |s.ledger.log|
    ensures i < |s.calls| && i != a.call && LineOf(s.ledger.log[k], s.calls[i])
    ensures k < |Do(cfg, s, a).ledger.log| && Do(cfg, s, a).ledger.log[k] == s.ledger.log[k]
    ensures Do(cfg, s, a).calls[i] == s.calls[i]
  {
    MovedLine(cfg, s, a);
    assert Explained(s.calls, s.ledger.log[k]);
    i :| 0 <= i < |s.calls| && LineOf(s.ledger.log[k], s.calls[i]);
    assert Do(cfg, s, a).ledger.log[..|s.ledger.log|] == s.ledger.log;
  }

  lemma AuditWrites(cfg: Config, s: State, a: Action, i: nat)
    requires IdsAgree(s) && LinesAgree(s) && Enabled(s, a) && a.AuditExit?
    requires i < |Do(cfg, s, a).calls| && HasLine(Do(cfg, s, a).calls[i])
    ensures Written(Do(cfg, s, a).ledger.log, Do(cfg, s, a).calls[i])
  {
    MovedLine(cfg, s, a);
    var s', n := Do(cfg, s, a), |s.ledger.log|;
    if i == a.call {
      assert LineOf(s'.ledger.log[n], s'.calls[i]);
    } else {
      assert Written(s.ledger.log, s.calls[i]);
      var k :| 0 <= k < n && LineOf(s.ledger.log[k], s.calls[i]);
      assert s'.ledger.log[..n][k] == s.ledger.log[k];
      assert LineOf(s'.ledger.log[k], s'.calls[i]);
    }
  }

  lemma AuditExplains(cfg: Config, s: State, a: Action, k: nat)
    requires IdsAgree(s) && LinesAgree(s) && Enabled(s, a) && a.AuditExit?
    requires k < |Do(cfg, s, a).ledger.log|
    ensures Explained(Do(cfg, s, a).calls, Do(cfg, s, a).ledger.log[k])
  {
    MovedLine(cfg, s, a);
    var s' := Do(cfg, s, a);
    if k < |s.ledger.log| {
      var i := OldLineStays(cfg, s, a, k);
      assert LineOf(s'.ledger.log[k], s'.calls[i]);
    } else {
      assert LineOf(s'.ledger.log[k], s'.calls[a.call]);
    }
  }

  lemma AuditIsNew(cfg: Config, s: State, a: Action, k: nat)
    requires IdsAgree(s) && LinesAgree(s) && Enabled(s, a) && a.AuditExit? && k < |s.ledger.log|
    ensures |Do(cfg, s, a).ledger.log| == |s.ledger.log| + 1
    ensures Do(cfg, s, a).ledger.log[k] == s.ledger.log[k]
    ensures s.ledger.log[k].record.correlationId !=
            Do(cfg, s, a).ledger.log[|s.ledger.log|].record.correlationId
  {
    MovedLine(cfg, s, a);
    var i := OldLineStays(cfg, s, a, k);
  }

  lemma AuditLinesDistinct(cfg: Config, s: State, a: Action, k: nat, m: nat)
    requires IdsAgree(s) && LinesAgree(s) && Enabled(s, a) && a.AuditExit?
    requires k < m < |Do(cfg, s, a).ledger.log|
    ensures Do(cfg, s, a).ledger.log[k].record.correlationId != Do(cfg, s, a).ledger.log[m].record.correlationId
  {
    MovedLine(cfg, s, a);
    AuditIsNew(cfg, s, a, k);
    if m < |s.ledger.log| {
      AuditIsNew(cfg, s, a, m);
    }
  }

  lemma AuditKeepsLines(cfg: Config, s: State, a: Action)
    requires IdsAgree(s) && LinesAgree(s) && Enabled(s, a) && a.AuditExit?
    ensures LinesAgree(Do(cfg, s, a))
  {
    var s' := Do(cfg, s, a);
    forall i | 0 <= i < |s'.calls| && HasLine(s'.calls[i]) ensures Written(s'.ledger.log, s'.calls[i]) {
      AuditWrites(cfg, s, a, i);
    }
    forall k | 0 <= k < |s'.ledger.log| ensures Explained(s'.calls, s'.ledger.log[k]) {
      AuditExplains(cfg, s, a, k);
    }
    forall k, m | 0 <= k < m < |s'.ledger.log|
      ensures s'.ledger.log[k].record.correlationId != s'.ledger.log[m].record.correlationId
    {
      AuditLinesDistinct(cfg, s, a, k, m);
    }
  }

  lemma StepKeepsLines(cfg: Config, s: State, a: Action)
    requires IdsAgree(s) && LinesAgree(s)
    ensures LinesAgree(Do(cfg, s, a))
  {
    if Enabled(s, a) {
      match a
      case Tick(_) =>
      case Begin(_, _, _, _) => BeginKeepsLines(cfg, s, a);
      case AuditExit(_, _) => AuditKeepsLines(cfg, s, a);
      case _ => QuietStepKeepsLines(cfg, s, a);
    }
  }

  // ---- every reachable state -------------------------------------------------------------

  ghost predicate LedgersAgree(s: State) {
    MetricsAgree(s) && GaugeAgrees(s) && LogAgrees(s) && IdsAgree(s) && LinesAgree(s) && EnvelopesAgree(s)
  }

  lemma {:induction false} LedgersAgreeAlways(cfg: Config, clock: real, schedule: seq<Action>)
    ensures LedgersAgree(Run(cfg, Start(clock), schedule))
  {
    if schedule != [] {
      var n := |schedule| - 1;
      var s, a := Run(cfg, Start(clock), schedule[..n]), schedule[n];
      LedgersAgreeAlways(cfg, clock, schedule[..n]);
      StepKeepsMetrics(cfg, s, a);
      StepKeepsGauge(cfg, s, a);
      StepKeepsLog(cfg, s, a);
      StepKeepsIds(cfg, s, a);
      StepKeepsEnvelopes(cfg, s, a);
      StepKeepsLines(cfg, s, a);
    }
  }

  /** The calls of a tool whose status is one of the last `4 - k`, by order of declaration. */
  function HasStatusFrom(tool: string, k: nat): Call -> bool {
    (c: Call) => c.tool == tool && IsCounted(c) && Rank(c.pc.exit.status) >= k
  }

  function Rank(s: Status): nat {
    match s
    case Ok => 0
    case Error => 1
    case InvalidInput => 2
    case RateLimited => 3
  }

  lemma CallsByStatus(calls: seq<Call>, tool: string)
    ensures Count(calls, IsTool(tool)) ==
            Count(calls, CountedAs(tool, Ok)) + Count(calls, CountedAs(tool, Error)) +
            Count(calls, CountedAs(tool, InvalidInput)) + Count(calls, CountedAs(tool, RateLimited)) +
            Count(calls, IsPending(tool))
  {
    CountSplit(calls, IsTool(tool), HasStatusFrom(tool, 0), IsPending(tool));
    CountSplit(calls, HasStatusFrom(tool, 0), CountedAs(tool, Ok), HasStatusFrom(tool, 1));
    CountSplit(calls, HasStatusFrom(tool, 1), CountedAs(tool, Error), HasStatusFrom(tool, 2));
    CountSplit(calls, HasStatusFrom(tool, 2), CountedAs(tool, InvalidInput), CountedAs(tool, RateLimited));
  }

  /** Conservation: in every reachable state the calls begun for a tool are its four counters
      plus the calls still pending, and the gauge is the calls inside the execute region. */
  lemma CallsAreConserved(cfg: Config, clock: real, schedule: seq<Action>, tool: string)
    ensures var s := Run(cfg, Start(clock), schedule);
            && Count(s.calls, IsTool(tool)) ==
               CounterOf(s.ledger, Series(tool, Ok)) + CounterOf(s.ledger, Series(tool, Error)) +
               CounterOf(s.ledger, Series(tool, InvalidInput)) + CounterOf(s.ledger, Series(tool, RateLimited)) +
               Count(s.calls, IsPending(tool))
            && GaugeOf(s.ledger, tool) == Count(s.calls, IsInRegion(tool))
  {
    LedgersAgreeAlways(cfg, clock, schedule);
    CallsByStatus(Run(cfg, Start(clock), schedule).calls, tool);
  }

  lemma {:induction false} CountNone(calls: seq<Call>, f: Call -> bool)
    requires forall c <- calls :: !f(c)
    ensures Count(calls, f) == 0
  {
    if calls != [] {
      CountNone(calls[..|calls| - 1], f);
    }
  }

  lemma {:induction false} CountSame(calls: seq<Call>, f: Call -> bool, g: Call -> bool)
    requires forall c <- calls :: f(c) == g(c)
    ensures Count(calls, f) == Count(calls, g)
  {
    if calls != [] {
      CountSame(calls[..|calls| - 1], f, g);
    }
  }

  /** Once nothing is in flight, audit lines, counter and histogram agree series by series,
      they add up to the calls made, and every gauge is back at zero. */
  lemma DrainedLedgersAgree(cfg: Config, clock: real, schedule: seq<Action>, tool: string, status: Status)
    requires forall c <- Run(cfg, Start(clock), schedule).calls :: !InFlight(c)
    ensures var s := Run(cfg, Start(clock), schedule);
            && LinesOf(s.ledger.log, tool, status) == CounterOf(s.ledger, Series(tool, status)) ==
               |HistogramOf(s.ledger, Series(tool, status))|
            && Count(s.calls, IsPending(tool)) == 0 && GaugeOf(s.ledger, tool) == 0
  {
    var s := Run(cfg, Start(clock), schedule);
    LedgersAgreeAlways(cfg, clock, schedule);
    CountSame(s.calls, IsAudited(tool, status), CountedAs(tool, status));
    CountSame(s.calls, IsAudited(tool, status), TimedAs(tool, status));
    CountNone(s.calls, IsPending(tool));
    CountNone(s.calls, IsInRegion(tool));
  }

  /** The audit line of a returned call, the only one, and the envelope it agrees with. */
  ghost predicate MatchesItsLine(s: State, c: Call, k: nat)
    requires c.pc.Exiting? && c.pc.stage.Returned?
  {
    && k < |s.ledger.log| && LineOf(s.ledger.log[k], c)
    && (forall m :: 0 <= m < |s.ledger.log| && LineOf(s.ledger.log[m], c) ==> m == k)
    && Get(c.pc.stage.envelope, "correlation_id") == Some(Str(s.ledger.log[k].record.correlationId))
    && Get(c.pc.stage.envelope, "tool") == Some(Str(s.ledger.log[k].record.tool))
    && Get(c.pc.stage.envelope, "status") == Some(Str(StatusName(s.ledger.log[k].record.status)))
  }

  lemma ReturnedInState(s: State, i: nat) returns (k: nat)
    requires LinesAgree(s) && EnvelopesAgree(s) && i < |s.calls|
    requires !InFlight(s.calls[i]) && Keys(s.calls[i].pc.exit.tail) !! RESERVED
    ensures MatchesItsLine(s, s.calls[i], k)
  {
    hide Envelope, Get, Keys;
    var c := s.calls[i];
    assert EnvelopeAgrees(c) && Written(s.ledger.log, c);
    EnvelopeFields(c.id, c.tool, c.pc.exit);
    k :| 0 <= k < |s.ledger.log| && LineOf(s.ledger.log[k], c);
  }

  /** A call that has returned has exactly one audit line, and its envelope carries that
      line's correlation id, tool and status. */
  lemma ReturnedCallMatchesItsLine(cfg: Config, clock: real, schedule: seq<Action>, i: nat)
    requires i < |Run(cfg, Start(clock), schedule).calls|
    requires var c := Run(cfg, Start(clock), schedule).calls[i]; !InFlight(c) && Keys(c.pc.exit.tail) !! RESERVED
    ensures var s := Run(cfg, Start(clock), schedule); exists k: nat :: MatchesItsLine(s, s.calls[i], k)
  {
    hide Run, MetricsAgree, GaugeAgrees, LogAgrees, LinesAgree, EnvelopesAgree, IdsAgree, MatchesItsLine;
    LedgersAgreeAlways(cfg, clock, schedule);
    var k := ReturnedInState(Run(cfg, Start(clock), schedule), i);
  }
}
