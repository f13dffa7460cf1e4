/** What one execution context sees of the concurrent pipeline: its calls come one after the
    other, and its part of the audit log tells them in that order. */
module Contexts {
  import opened RateLimit
  import opened Tools
  import opened Pipeline
  import S = LoopSafety

  /** A context begins a call only when all its earlier ones have returned. */
  ghost predicate OneAtATime(s: State) {
    forall i, j :: 0 <= i < j < |s.calls| && s.calls[i].context == s.calls[j].context ==> !InFlight(s.calls[i])
  }

  lemma StepKeepsOneAtATime(cfg: Config, s: State, a: Action)
    requires OneAtATime(s)
    ensures OneAtATime(Do(cfg, s, a))
  {
    if Enabled(s, a) && a.Begin? {
      assert forall i :: 0 <= i < |s.calls| ==> s.calls[i] in s.calls;
    } else if Enabled(s, a) && !a.Tick? {
      MoveKeepsOneAtATime(cfg, s, a);
    }
  }

  lemma MoveKeepsOneAtATime(cfg: Config, s: State, a: Action)
    requires OneAtATime(s) && Enabled(s, a) && !a.Begin? && !a.Tick?
    ensures OneAtATime(Do(cfg, s, a))
  {
    hide Moved;
    MovedIsSameCall(cfg, s, a);
  }

  lemma {:induction false} OneAtATimeAlways(cfg: Config, clock: real, schedule: seq<Action>)
    ensures OneAtATime(Run(cfg, Start(clock), schedule))
  {
    if schedule != [] {
      var n := |schedule| - 1;
      OneAtATimeAlways(cfg, clock, schedule[..n]);
      StepKeepsOneAtATime(cfg, Run(cfg, Start(clock), schedule[..n]), schedule[n]);
    }
  }

  // ---- the audit trail of a context --------------------------------------------------------

  /** The ids of a context's audited calls, in the order in which the calls began. */
  function AuditedIds(calls: seq<Call>, context: nat): seq<string> {
    if calls == [] then []
    else
      var n := |calls| - 1;
      if calls[n].context == context && HasLine(calls[n]) then AuditedIds(calls[..n], context) + [calls[n].id]
      else AuditedIds(calls[..n], context)
  }

  lemma {:induction false} AuditedIdsSet(calls: seq<Call>, i: nat, c: Call, context: nat)
    requires i < |calls|
    requires c.context == calls[i].context && c.id == calls[i].id && HasLine(c) == HasLine(calls[i])
    ensures AuditedIds(calls[i := c], context) == AuditedIds(calls, context)
  {
    var n := |calls| - 1;
    if i == n {
      assert calls[i := c][..n] == calls[..n];
    } else {
      assert calls[i := c][..n] == calls[..n][i := c];
      AuditedIdsSet(calls[..n], i, c, context);
    }
  }

  /** Auditing the last call of a context adds its id at the end. */
  lemma {:induction false} AuditedIdsLast(calls: seq<Call>, i: nat, c: Call, context: nat)
    requires i < |calls|
    requires forall j :: i < j < |calls| ==> calls[j].context != calls[i].context
    requires c.context == calls[i].context && !HasLine(calls[i]) && HasLine(c)
    ensures AuditedIds(calls[i := c], context) ==
            if c.context == context then AuditedIds(calls, context) + [c.id] else AuditedIds(calls, context)
  {
    var n := |calls| - 1;
    if i == n {
      assert calls[i := c][..n] == calls[..n];
    } else {
      assert calls[i := c][..n] == calls[..n][i := c];
      AuditedIdsLast(calls[..n], i, c, context);
    }
  }

  ghost predicate TrailsAgree(s: State) {
    forall context :: S.Trail(s.ledger.log, context) == AuditedIds(s.calls, context)
  }

  lemma StepKeepsTrail(cfg: Config, s: State, a: Action, context: nat)
    requires TrailsAgree(s) && OneAtATime(s) && IdsAgree(s) && Enabled(s, a)
    ensures S.Trail(Do(cfg, s, a).ledger.log, context) == AuditedIds(Do(cfg, s, a).calls, context)
  {
    hide Moved, LineOf, OneAtATime, IdsAgree;
    match a
    case Tick(_) =>
    case Begin(_, _, _, _) =>
      assert Do(cfg, s, a).calls[..|s.calls|] == s.calls;
    case AuditExit(_, _) => AuditKeepsTrail(cfg, s, a, context);
    case _ =>
      MovedIsSameCall(cfg, s, a);
      MovedLine(cfg, s, a);
      AuditedIdsSet(s.calls, a.call, Moved(cfg, s, a).0, context);
  }

  lemma AuditKeepsTrail(cfg: Config, s: State, a: Action, context: nat)
    requires TrailsAgree(s) && OneAtATime(s) && IdsAgree(s) && Enabled(s, a) && a.AuditExit?
    ensures S.Trail(Do(cfg, s, a).ledger.log, context) == AuditedIds(Do(cfg, s, a).calls, context)
  {
    hide Moved, IdsAgree;
    var (c, l) := Moved(cfg, s, a);
    MovedIsSameCall(cfg, s, a);
    MovedLine(cfg, s, a);
    AuditedIdsLast(s.calls, a.call, c, context);
  }

  /** In every reachable state the audit lines of a context carry, in order, the ids of its
      audited calls in the order in which they began, whatever other contexts do in between. */
  lemma {:induction false} TrailsAgreeAlways(cfg: Config, clock: real, schedule: seq<Action>)
    ensures TrailsAgree(Run(cfg, Start(clock), schedule))
  {
    if schedule != [] {
      var n := |schedule| - 1;
      var s, a := Run(cfg, Start(clock), schedule[..n]), schedule[n];
      TrailsAgreeAlways(cfg, clock, schedule[..n]);
      OneAtATimeAlways(cfg, clock, schedule[..n]);
      LedgersAgreeAlways(cfg, clock, schedule[..n]);
      if Enabled(s, a) {
        forall context ensures S.Trail(Do(cfg, s, a).ledger.log, context) == AuditedIds(Do(cfg, s, a).calls, context) {
          StepKeepsTrail(cfg, s, a, context);
        }
      }
    }
  }

  // ---- counting by context -----------------------------------------------------------------

  function ContextsOf(calls: seq<Call>, tool: string): (contexts: set<nat>)
    ensures forall c <- calls :: c.tool == tool ==> c.context in contexts
  {
    set c | c in calls && c.tool == tool :: c.context
  }

  function ContextsWith(calls: seq<Call>, f: Call -> bool): set<nat> {
    set c | c in calls && f(c) :: c.context
  }

  lemma {:induction false} CountByContext(calls: seq<Call>, f: Call -> bool)
    requires forall i, j :: 0 <= i < j < |calls| && f(calls[i]) && f(calls[j]) ==> calls[i].context != calls[j].context
    ensures Count(calls, f) == |ContextsWith(calls, f)|
  {
    if calls != [] {
      var n := |calls| - 1;
      CountByContext(calls[..n], f);
      assert calls == calls[..n] + [calls[n]];
      if f(calls[n]) {
        assert ContextsWith(calls, f) == ContextsWith(calls[..n], f) + {calls[n].context};
        assert calls[n].context !in ContextsWith(calls[..n], f);
      } else {
        assert ContextsWith(calls, f) == ContextsWith(calls[..n], f);
      }
    }
  }

  lemma {:induction false} SubsetIsSmaller(a: set<nat>, b: set<nat>)
    requires a <= b
    ensures |a| <= |b|
  {
    assert b == a + (b - a);
  }
}
