/** The step-by-step pipeline and the sequential wrapper are the same thing: a call whose
    steps nobody interrupts does exactly what `Tools.Serve` (and so `ToolServer.Call`) says. */
module Solo {
  import opened Wrappers
  import opened Json
  import opened RateLimit
  import opened Tools
  import opened Pipeline

  /** All the steps of one call, in program order. Steps its exit skips are not enabled. */
  function Steps(i: nat, c: Input): seq<Action> {
    [Begin(c.context, c.tool, c.kwargs, c.id), TryAcquire(i), Validate(i, c.verdict), EnterGauge(i), StartBody(i),
     FinishBody(i, c.body)] + ClosingSteps(i, c)
  }

  function ClosingSteps(i: nat, c: Input): seq<Action> {
    [AuditExit(i, c.durationMs), CountExit(i), ObserveExit(i), Reply(i), Return(i)]
  }

  lemma RunStep(cfg: Config, s: State, a: Action, rest: seq<Action>)
    ensures Run(cfg, s, [a] + rest) == Run(cfg, Do(cfg, s, a), rest)
  {
    RunConcat(cfg, s, [a], rest);
    assert [a][..0] == [];
    assert Run(cfg, s, [a]) == Do(cfg, Run(cfg, s, [a][..0]), a);
  }

  /** Auditing and recording a call. */
  lemma AuditThenRecord(cfg: Config, s: State, i: nat, c: Input, e: Exit)
    requires i < |s.calls| && s.calls[i].pc == Exiting(e, Unlogged)
    requires s.calls[i].context == c.context && s.calls[i].tool == c.tool
    ensures var s' := Run(cfg, s, [AuditExit(i, c.durationMs), CountExit(i), ObserveExit(i)]);
            && s'.ledger == Closed(s.ledger, c, e).ledger
            && s'.calls == s.calls[i := s.calls[i].(pc := Exiting(e, Metered))]
            && s'.clock == s.clock
  {
    var audit, count, observe := AuditExit(i, c.durationMs), CountExit(i), ObserveExit(i);
    RunStep(cfg, s, audit, [count, observe]);
    assert [audit, count, observe] == [audit] + [count, observe];
    var s1 := Do(cfg, s, audit);
    assert s1.calls == s.calls[i := s.calls[i].(pc := Exiting(e, Logged(c.durationMs)))];
    RunStep(cfg, s1, count, [observe]);
    assert [count, observe] == [count] + [observe];
    var s2 := Do(cfg, s1, count);
    assert s2.calls == s.calls[i := s.calls[i].(pc := Exiting(e, Stage.Counted(c.durationMs)))];
    RunStep(cfg, s2, observe, []);
    assert [observe] == [observe] + [];
  }

  /** Replying and leaving the gauge. */
  lemma ReplyThenReturn(cfg: Config, s: State, i: nat, e: Exit)
    requires i < |s.calls| && s.calls[i].pc == Exiting(e, Metered)
    ensures var s' := Run(cfg, s, [Reply(i), Return(i)]);
            var c := s.calls[i];
            var envelope := Envelope(CurrentId(s.ledger, c.context), c.tool, e);
            && s'.ledger == (if e.status.Ok? || e.status.Error? then Shifted(s.ledger, c.tool, -1) else s.ledger)
            && s'.calls == s.calls[i := c.(pc := Exiting(e, Stage.Returned(envelope)))]
            && s'.clock == s.clock
  {
    RunStep(cfg, s, Reply(i), [Return(i)]);
    assert [Reply(i), Return(i)] == [Reply(i)] + [Return(i)];
    var s1 := Do(cfg, s, Reply(i));
    RunStep(cfg, s1, Return(i), []);
    assert [Return(i)] == [Return(i)] + [];
  }

  /** The closing steps of a call, outside and inside the gauge. */
  lemma ClosingIsClosed(cfg: Config, s: State, i: nat, c: Input, e: Exit)
    requires i < |s.calls| && s.calls[i].pc == Exiting(e, Unlogged)
    requires s.calls[i].context == c.context && s.calls[i].tool == c.tool
    ensures var s' := Run(cfg, s, ClosingSteps(i, c));
            var closed := Closed(s.ledger, c, e);
            && s'.ledger == (if e.status.Ok? || e.status.Error? then Shifted(closed.ledger, c.tool, -1)
                             else closed.ledger)
            && s'.calls == s.calls[i := s.calls[i].(pc := Exiting(e, Stage.Returned(closed.envelope)))]
            && s'.clock == s.clock
  {
    var first, second := [AuditExit(i, c.durationMs), CountExit(i), ObserveExit(i)], [Reply(i), Return(i)];
    AuditThenRecord(cfg, s, i, c, e);
    ReplyThenReturn(cfg, Run(cfg, s, first), i, e);
    RunConcat(cfg, s, first, second);
    assert ClosingSteps(i, c) == first + second;
  }

  /** Steps that are not enabled for this call do nothing. */
  lemma SkipToClosing(cfg: Config, s: State, i: nat, c: Input, skipped: seq<Action>)
    requires i < |s.calls| && s.calls[i].pc.Exiting?
    requires forall a <- skipped :: a in [Validate(i, c.verdict), EnterGauge(i), StartBody(i), FinishBody(i, c.body)]
    ensures Run(cfg, s, skipped) == s
  {
    if skipped != [] {
      SkipToClosing(cfg, s, i, c, skipped[..|skipped| - 1]);
      var last := skipped[|skipped| - 1];
      assert last in skipped;
      assert !Enabled(s, last);
    }
  }

  /** The steps between the limiter and the exit. */
  lemma BodySteps(cfg: Config, s: State, i: nat, c: Input)
    requires i < |s.calls| && s.calls[i].pc.Admitted?
    requires s.calls[i].tool == c.tool && s.calls[i].kwargs == c.kwargs
    ensures var s' := Run(cfg, s, [Validate(i, c.verdict), EnterGauge(i), StartBody(i), FinishBody(i, c.body)]);
            var e := if c.verdict.Rejected? then InvalidExit(c.kwargs, c.verdict.text, c.verdict.errors)
                     else BodyExit(LoggedParams(c.kwargs, c.verdict), c.body);
            && s'.ledger == (if c.verdict.Rejected? then s.ledger else Shifted(s.ledger, c.tool, 1))
            && |s'.calls| == |s.calls| && s'.calls[..i] == s.calls[..i] && s'.clock == s.clock
            && s'.calls[i].pc == Exiting(e, Unlogged) && s'.calls[i].context == s.calls[i].context
            && s'.calls[i].tool == c.tool
  {
    var v, g, b, f := Validate(i, c.verdict), EnterGauge(i), StartBody(i), FinishBody(i, c.body);
    RunStep(cfg, s, v, [g, b, f]);
    assert [v, g, b, f] == [v] + [g, b, f];
    var s1 := Do(cfg, s, v);
    if c.verdict.Rejected? {
      SkipToClosing(cfg, s1, i, c, [g, b, f]);
    } else {
      RunStep(cfg, s1, g, [b, f]);
      assert [g, b, f] == [g] + [b, f];
      var s2 := Do(cfg, s1, g);
      RunStep(cfg, s2, b, [f]);
      assert [b, f] == [b] + [f];
      var s3 := Do(cfg, s2, b);
      RunStep(cfg, s3, f, []);
      assert [f] == [f] + [];
    }
  }

  /** Refinement: run alone, the steps of a call leave the ledger and the envelope that the
      sequential wrapper leaves. */
  lemma UninterruptedCallIsServe(cfg: Config, s: State, c: Input)
    requires Enabled(s, Begin(c.context, c.tool, c.kwargs, c.id)) && c.created == c.now == s.clock
    ensures var s' := Run(cfg, s, Steps(|s.calls|, c));
            var served := Serve(cfg, s.ledger, c);
            && s'.ledger == served.ledger
            && |s'.calls| == |s.calls| + 1 && s'.calls[..|s.calls|] == s.calls
            && s'.calls[|s.calls|].pc.Exiting?
            && s'.calls[|s.calls|].pc.stage == Stage.Returned(served.envelope)
  {
    hide Closed, Inside, Envelope, Gain;
    var i := |s.calls|;
    var begin, acquire := Begin(c.context, c.tool, c.kwargs, c.id), TryAcquire(i);
    var body := [Validate(i, c.verdict), EnterGauge(i), StartBody(i), FinishBody(i, c.body)];
    var s1 := Do(cfg, s, begin);
    var s2 := Do(cfg, s1, acquire);
    var s3 := Run(cfg, s2, body);
    assert Steps(i, c) == [begin] + ([acquire] + (body + ClosingSteps(i, c)));
    RunStep(cfg, s, begin, [acquire] + (body + ClosingSteps(i, c)));
    RunStep(cfg, s1, acquire, body + ClosingSteps(i, c));
    RunConcat(cfg, s2, body, ClosingSteps(i, c));
    assert s1.calls[..i] == s.calls && s2.calls[..i] == s.calls;
    if s2.calls[i].pc.Admitted? {
      BodySteps(cfg, s2, i, c);
    } else {
      SkipToClosing(cfg, s2, i, c, body);
    }
    ClosingIsClosed(cfg, s3, i, c, s3.calls[i].pc.exit);
    ServeIsItsExit(cfg, s.ledger, c);
  }
}
