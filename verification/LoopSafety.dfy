/** What every run of the agent loop guarantees, whatever the model does. */
module LoopSafety {
  import opened Wrappers
  import opened Json
  import opened Tools
  import opened Schemas
  import opened Loop

  // ---- the protocol on the model ------------------------------------------------------------

  /** A batch of results answers a turn: same length, same ids, same order. */
  ghost predicate Answers(turn: Turn, results: seq<ToolResult>) {
    && turn.final.None? && turn.toolCalls != [] && |results| == |turn.toolCalls|
    && forall j :: 0 <= j < |results| ==> results[j].toolUseId == turn.toolCalls[j].id
  }

  /** start (next_turn submit)* with at most one trailing next_turn. */
  ghost predicate Protocol(trace: seq<Event>) {
    && trace != [] && trace[0].Started?
    && forall i {:trigger trace[i]} :: 0 < i < |trace| ==>
         match trace[i]
         case Started(_) => false
         case Asked(_) => !trace[i - 1].Asked?
         case Submitted(results) => trace[i - 1].Asked? && Answers(trace[i - 1].turn, results)
  }

  function Asks(trace: seq<Event>): nat {
    if trace == [] then 0
    else Asks(trace[..|trace| - 1]) + if trace[|trace| - 1].Asked? then 1 else 0
  }

  /** Every turn of the trace is what the model answers at that point. */
  ghost predicate Consistent(policy: Policy, trace: seq<Event>) {
    forall i :: 0 <= i < |trace| && trace[i].Asked? ==> policy(trace[..i]) == Some(trace[i].turn)
  }

  lemma ProtocolSnoc(trace: seq<Event>, e: Event)
    requires Protocol(trace)
    requires match e
             case Started(_) => false
             case Asked(_) => !trace[|trace| - 1].Asked?
             case Submitted(results) => trace[|trace| - 1].Asked? && Answers(trace[|trace| - 1].turn, results)
    ensures Protocol(trace + [e])
    ensures Asks(trace + [e]) == Asks(trace) + if e.Asked? then 1 else 0
  {
    assert (trace + [e])[..|trace|] == trace;
  }

  lemma ConsistentSnoc(policy: Policy, trace: seq<Event>, e: Event)
    requires Consistent(policy, trace) && (e.Asked? ==> policy(trace) == Some(e.turn))
    ensures Consistent(policy, trace + [e])
  {
    forall i | 0 <= i < |trace| + 1 && (trace + [e])[i].Asked?
      ensures policy((trace + [e])[..i]) == Some((trace + [e])[i].turn)
    {
      assert (trace + [e])[..i] == trace[..i];
      assert i == |trace| ==> trace[..i] == trace;
    }
  }

  lemma ObserveAnswers(a: Agent, st: Conversation, c: ToolCall, results: seq<ToolResult>)
    ensures var o := Observe(a, st, c, results);
            && o.conversation.trace == st.trace
            && (o.results.Some? ==> |o.results.value| == |results| + 1 && o.results.value[..|results|] == results &&
                                    o.results.value[|results|].toolUseId == c.id)
  {
    hide Serve, ServeAll;
  }

  lemma {:induction false} CallAllAnswers(a: Agent, st: Conversation, calls: seq<ToolCall>)
    ensures CallAll(a, st, calls).conversation.trace == st.trace
    ensures CallAll(a, st, calls).results.Some? ==>
              && |CallAll(a, st, calls).results.value| == |calls|
              && forall j :: 0 <= j < |calls| ==> CallAll(a, st, calls).results.value[j].toolUseId == calls[j].id
  {
    hide Observe;
    if calls != [] {
      var n := |calls| - 1;
      CallAllAnswers(a, st, calls[..n]);
      var before := CallAll(a, st, calls[..n]);
      if before.results.Some? {
        ObserveAnswers(a, before.conversation, calls[n], before.results.value);
      }
    }
  }

  // ---- the audit trail ------------------------------------------------------------------------

  /** The correlation ids of the audit records one context has written. */
  function Trail(log: seq<LogLine>, context: nat): seq<string> {
    if log == [] then []
    else
      var n := |log| - 1;
      if log[n].context == context then Trail(log[..n], context) + [log[n].record.correlationId]
      else Trail(log[..n], context)
  }

  /** What the theorems need of the world: ids are never empty, tools leave the reserved keys
      to the wrapper, and the calls of other contexts really are in other contexts. */
  ghost predicate Sane(a: Agent) {
    forall k: nat ::
      && a.world(k).id != "" && Respectful(a.world(k).body)
      && forall o <- a.world(k).others :: o.context != a.context
  }

  /** The calls of a list that `call_tool` passes on to the server. */
  function OnAllowlist(calls: seq<ToolCall>): nat {
    if calls == [] then 0
    else OnAllowlist(calls[..|calls| - 1]) + if calls[|calls| - 1].name in ALLOWLIST then 1 else 0
  }

  function AnsweredCalls(asked: Event, e: Event): nat {
    if asked.Asked? && e.Submitted? then OnAllowlist(asked.turn.toolCalls) else 0
  }

  /** ... over all the turns of a trace that were answered. */
  function Executed(trace: seq<Event>): nat {
    if |trace| < 2 then 0
    else Executed(trace[..|trace| - 1]) + AnsweredCalls(trace[|trace| - 2], trace[|trace| - 1])
  }

  /** The loop's own list of ids is the audit trail of its context since `log0`. */
  ghost predicate IdsAreTrail(a: Agent, log0: seq<LogLine>, st: Conversation) {
    Trail(st.ledger.log, a.context) == Trail(log0, a.context) + st.ids
  }

  lemma ServeTrail(a: Agent, l: Ledger, c: Input)
    ensures Trail(Serve(a.cfg, l, c).ledger.log, a.context) ==
            if c.context == a.context then Trail(l.log, a.context) + [c.id] else Trail(l.log, a.context)
  {
    OneCallOneRecord(a.cfg, l, c);
    var log' := Serve(a.cfg, l, c).ledger.log;
    assert log'[..|log'| - 1] == l.log;
  }

  lemma {:induction false} OthersLeaveNoTrail(a: Agent, l: Ledger, others: seq<Input>)
    requires forall o <- others :: o.context != a.context
    ensures Trail(ServeAll(a.cfg, l, others).log, a.context) == Trail(l.log, a.context)
  {
    if others != [] {
      var n := |others| - 1;
      assert others[n] in others;
      OthersLeaveNoTrail(a, l, others[..n]);
      ServeTrail(a, ServeAll(a.cfg, l, others[..n]), others[n]);
    }
  }

  /** The id in the envelope is the one in the audit record, and it is never empty. */
  lemma ServeReportsItsId(a: Agent, l: Ledger, c: Input, ids: seq<string>)
    requires Respectful(c.body) && c.id != ""
    ensures WithId(ids, Serve(a.cfg, l, c).envelope) == ids + [c.id]
  {
    hide Serve;
    OneCallOneRecord(a.cfg, l, c);
  }

  /** A tool call adds to both sides, or, off the allowlist, to neither. */
  lemma ObserveTrail(a: Agent, log0: seq<LogLine>, st: Conversation, c: ToolCall, results: seq<ToolResult>)
    requires Sane(a) && IdsAreTrail(a, log0, st)
    ensures IdsAreTrail(a, log0, Observe(a, st, c, results).conversation)
    ensures Observe(a, st, c, results).results.Some? ==>
              |Observe(a, st, c, results).conversation.ids| == |st.ids| + if c.name in ALLOWLIST then 1 else 0
  {
    hide Serve, ServeAll;
    if c.name !in ALLOWLIST {
      var u := UnknownTool(c.name);
      assert Keys(u) == {"status", "tool", "error"};
      GetNone(u, "correlation_id");
    } else if c.arguments.Dict? {
      var w := a.world(st.served);
      var before := ServeAll(a.cfg, st.ledger, w.others);
      var input := InputOf(a.context, c.name, c.arguments.entries, w);
      OthersLeaveNoTrail(a, st.ledger, w.others);
      ServeTrail(a, before, input);
      ServeReportsItsId(a, before, input, st.ids);
      assert Trail(log0, a.context) + st.ids + [w.id] == Trail(log0, a.context) + (st.ids + [w.id]);
    }
  }

  lemma {:induction false} CallAllTrail(a: Agent, log0: seq<LogLine>, st: Conversation, calls: seq<ToolCall>)
    requires Sane(a) && IdsAreTrail(a, log0, st)
    ensures IdsAreTrail(a, log0, CallAll(a, st, calls).conversation)
    ensures CallAll(a, st, calls).results.Some? ==>
              |CallAll(a, st, calls).conversation.ids| == |st.ids| + OnAllowlist(calls)
  {
    if calls != [] {
      var n := |calls| - 1;
      CallAllTrail(a, log0, st, calls[..n]);
      var before := CallAll(a, st, calls[..n]);
      if before.results.Some? {
        ObserveTrail(a, log0, before.conversation, calls[n], before.results.value);
      }
    }
  }

  // ---- whole runs -------------------------------------------------------------------------------

  /** Exactly one of the diagnosis and the error is set. */
  predicate OneOfTwo(r: RunResult) {
    r.diagnosis.Some? <==> r.error.None?
  }

  /** The model may be asked next. */
  ghost predicate Ready(a: Agent, trace: seq<Event>) {
    Protocol(trace) && !trace[|trace| - 1].Asked? && Consistent(a.policy, trace)
  }

  ghost predicate Followed(a: Agent, trace: seq<Event>, asks: nat) {
    Protocol(trace) && Consistent(a.policy, trace) && Asks(trace) == asks
  }

  lemma AskingKeeps(a: Agent, trace: seq<Event>, turn: Turn)
    requires Ready(a, trace) && a.policy(trace) == Some(turn)
    ensures Followed(a, trace + [Asked(turn)], Asks(trace) + 1)
  {
    ProtocolSnoc(trace, Asked(turn));
    ConsistentSnoc(a.policy, trace, Asked(turn));
  }

  lemma RoundKeeps(a: Agent, st: Conversation, turn: Turn)
    requires Ready(a, st.trace) && a.policy(st.trace) == Some(turn) && turn.final.None? && turn.toolCalls != []
    ensures var o := CallAll(a, st.(trace := st.trace + [Asked(turn)]), turn.toolCalls);
            && Followed(a, o.conversation.trace, Asks(st.trace) + 1)
            && (o.results.Some? ==>
                  && Ready(a, o.conversation.trace + [Submitted(o.results.value)])
                  && Asks(o.conversation.trace + [Submitted(o.results.value)]) == Asks(st.trace) + 1)
  {
    hide CallAll;
    var asked := st.(trace := st.trace + [Asked(turn)]);
    AskingKeeps(a, st.trace, turn);
    CallAllAnswers(a, asked, turn.toolCalls);
    var o := CallAll(a, asked, turn.toolCalls);
    if o.results.Some? {
      ProtocolSnoc(asked.trace, Submitted(o.results.value));
      ConsistentSnoc(a.policy, asked.trace, Submitted(o.results.value));
    }
  }

  lemma JudgedOneOfTwo(raw: Text, ids: seq<string>)
    ensures OneOfTwo(Judge(raw, ids))
  {
  }

  lemma ReadyIsFollowed(a: Agent, trace: seq<Event>)
    ensures Ready(a, trace) ==> Followed(a, trace, Asks(trace))
  {
  }

  lemma {:induction false} ContinueProtocol(a: Agent, st: Conversation, steps: nat, maxSteps: int)
    requires Ready(a, st.trace)
    ensures var end := Continue(a, st, steps, maxSteps);
            && Followed(a, end.conversation.trace, Asks(end.conversation.trace))
            && Asks(end.conversation.trace) <= Asks(st.trace) + steps
            && (end.outcome.Finished? ==> OneOfTwo(end.outcome.result))
    decreases steps
  {
    hide CallAll, Judge, Ready, Followed, Asks;
    ReadyIsFollowed(a, st.trace);
    if steps > 0 && a.policy(st.trace).Some? {
      var turn := a.policy(st.trace).value;
      AskingKeeps(a, st.trace, turn);
      AsksOfFollowed(a, st.trace + [Asked(turn)], Asks(st.trace) + 1);
      if turn.final.Some? {
        JudgedOneOfTwo(turn.final.value, st.ids);
      } else if turn.toolCalls != [] {
        RoundKeeps(a, st, turn);
        var o := CallAll(a, st.(trace := st.trace + [Asked(turn)]), turn.toolCalls);
        AsksOfFollowed(a, o.conversation.trace, Asks(st.trace) + 1);
        if o.results.Some? {
          var next := o.conversation.(trace := o.conversation.trace + [Submitted(o.results.value)]);
          ContinueProtocol(a, next, steps - 1, maxSteps);
        }
      }
    }
  }

  lemma AsksOfFollowed(a: Agent, trace: seq<Event>, asks: nat)
    requires Followed(a, trace, asks)
    ensures Asks(trace) == asks
  {
  }

  /** For any model and any world, the calls on the model follow the protocol, ask it at most
      `max_steps` times, submit for each batch exactly the results it asked for, and end in
      exactly one of a diagnosis and an error. */
  lemma LoopProtocol(a: Agent, l: Ledger, question: string, maxSteps: int)
    ensures var end := Run(a, l, question, maxSteps);
            && Protocol(end.conversation.trace) && end.conversation.trace[0] == Started(question)
            && Consistent(a.policy, end.conversation.trace)
            && Asks(end.conversation.trace) <= Steps(maxSteps)
            && (end.outcome.Finished? ==> OneOfTwo(end.outcome.result))
  {
    ContinueProtocol(a, Opening(l, question), Steps(maxSteps), maxSteps);
    ContinueExtends(a, Opening(l, question), Steps(maxSteps), maxSteps);
  }

  lemma {:induction false} ContinueExtends(a: Agent, st: Conversation, steps: nat, maxSteps: int)
    ensures st.trace <= Continue(a, st, steps, maxSteps).conversation.trace
    decreases steps
  {
    hide CallAll, Judge;
    if steps > 0 && a.policy(st.trace).Some? {
      var turn := a.policy(st.trace).value;
      var asked := st.(trace := st.trace + [Asked(turn)]);
      if turn.final.None? && turn.toolCalls != [] {
        CallAllAnswers(a, asked, turn.toolCalls);
        var observed := CallAll(a, asked, turn.toolCalls);
        if observed.results.Some? {
          var next := observed.conversation;
          ContinueExtends(a, next.(trace := next.trace + [Submitted(observed.results.value)]), steps - 1, maxSteps);
        }
      }
    }
  }

  /** A trace whose last turn, if it is unanswered, asked for nothing or was final. */
  ghost predicate Settled(trace: seq<Event>) {
    trace != [] && (trace[|trace| - 1].Asked? ==>
      trace[|trace| - 1].turn.final.Some? || trace[|trace| - 1].turn.toolCalls == [])
  }

  lemma {:induction false} ContinueSettles(a: Agent, st: Conversation, steps: nat, maxSteps: int)
    requires Settled(st.trace)
    ensures var end := Continue(a, st, steps, maxSteps);
            end.outcome.Finished? ==> Settled(end.conversation.trace)
    decreases steps
  {
    hide CallAll, Judge;
    if steps > 0 && a.policy(st.trace).Some? {
      var turn := a.policy(st.trace).value;
      var asked := st.(trace := st.trace + [Asked(turn)]);
      if turn.final.None? && turn.toolCalls != [] {
        var observed := CallAll(a, asked, turn.toolCalls);
        if observed.results.Some? {
          var next := observed.conversation;
          ContinueSettles(a, next.(trace := next.trace + [Submitted(observed.results.value)]), steps - 1, maxSteps);
        }
      }
    }
  }

  /** A run that returns a result leaves no batch of calls unanswered. */
  lemma FinishedRunsSettle(a: Agent, l: Ledger, question: string, maxSteps: int)
    ensures var end := Run(a, l, question, maxSteps);
            end.outcome.Finished? ==> Settled(end.conversation.trace)
  {
    ContinueSettles(a, Opening(l, question), Steps(maxSteps), maxSteps);
  }

  lemma ExecutedAsking(trace: seq<Event>, turn: Turn)
    requires trace != []
    ensures Executed(trace + [Asked(turn)]) == Executed(trace)
  {
    ExecutedSnoc(trace, Asked(turn));
  }

  lemma {:induction false} ExecutedSnoc(trace: seq<Event>, e: Event)
    requires trace != []
    ensures Executed(trace + [e]) == Executed(trace) + AnsweredCalls(trace[|trace| - 1], e)
  {
    assert (trace + [e])[..|trace + [e]| - 1] == trace;
  }

  /** The state between two iterations, and its reported ids so far. */
  ghost predicate Tracked(a: Agent, log0: seq<LogLine>, st: Conversation) {
    && IdsAreTrail(a, log0, st) && Protocol(st.trace)
    && !st.trace[|st.trace| - 1].Asked? && |st.ids| == Executed(st.trace)
  }

  lemma AskedTracked(a: Agent, log0: seq<LogLine>, st: Conversation, turn: Turn)
    requires Sane(a) && Tracked(a, log0, st)
    ensures var asked := st.(trace := st.trace + [Asked(turn)]);
            && IdsAreTrail(a, log0, asked) && |asked.ids| == Executed(asked.trace)
  {
    ExecutedAsking(st.trace, turn);
  }

  lemma IterationTracked(a: Agent, log0: seq<LogLine>, st: Conversation, turn: Turn)
    requires Sane(a) && Tracked(a, log0, st) && turn.final.None? && turn.toolCalls != []
    ensures var observed := CallAll(a, st.(trace := st.trace + [Asked(turn)]), turn.toolCalls);
            && IdsAreTrail(a, log0, observed.conversation)
            && (observed.results.Some? ==>
                  var next := observed.conversation;
                  Tracked(a, log0, next.(trace := next.trace + [Submitted(observed.results.value)])))
  {
    var asked := st.(trace := st.trace + [Asked(turn)]);
    AskedTracked(a, log0, st, turn);
    ProtocolSnoc(st.trace, Asked(turn));
    CallAllAnswers(a, asked, turn.toolCalls);
    CallAllTrail(a, log0, asked, turn.toolCalls);
    var observed := CallAll(a, asked, turn.toolCalls);
    if observed.results.Some? {
      ProtocolSnoc(asked.trace, Submitted(observed.results.value));
      ExecutedSnoc(asked.trace, Submitted(observed.results.value));
    }
  }

  lemma {:induction false} ContinueTrail(a: Agent, log0: seq<LogLine>, st: Conversation, steps: nat, maxSteps: int)
    requires Sane(a) && Tracked(a, log0, st)
    ensures var end := Continue(a, st, steps, maxSteps);
            && IdsAreTrail(a, log0, end.conversation)
            && (end.outcome.Finished? ==>
                  end.outcome.result.toolCallIds == end.conversation.ids &&
                  |end.conversation.ids| == Executed(end.conversation.trace))
    decreases steps
  {
    hide CallAll;
    if steps > 0 && a.policy(st.trace).Some? {
      var turn := a.policy(st.trace).value;
      AskedTracked(a, log0, st, turn);
      if turn.final.None? && turn.toolCalls != [] {
        IterationTracked(a, log0, st, turn);
        var observed := CallAll(a, st.(trace := st.trace + [Asked(turn)]), turn.toolCalls);
        if observed.results.Some? {
          var next := observed.conversation;
          ContinueTrail(a, log0, next.(trace := next.trace + [Submitted(observed.results.value)]), steps - 1, maxSteps);
        }
      }
    }
  }

  /** The ids a run reports are exactly the correlation ids of the audit records its context
      wrote, in order, however many records other contexts wrote in between; and they are as
      many as the allowlisted calls it executed. */
  lemma RunIdsAreTheAuditTrail(a: Agent, l: Ledger, question: string, maxSteps: int)
    requires Sane(a)
    ensures var end := Run(a, l, question, maxSteps);
            && Trail(end.conversation.ledger.log, a.context) == Trail(l.log, a.context) + end.conversation.ids
            && (end.outcome.Finished? ==>
                  end.outcome.result.toolCallIds == end.conversation.ids &&
                  |end.conversation.ids| == Executed(end.conversation.trace))
  {
    assert Trail(l.log, a.context) + [] == Trail(l.log, a.context);
    ContinueTrail(a, l.log, Opening(l, question), Steps(maxSteps), maxSteps);
  }

  // ---- evidence -----------------------------------------------------------------------------------

  lemma {:induction false} DiagnosisWasParsed(a: Agent, st: Conversation, steps: nat, maxSteps: int)
    ensures var end := Continue(a, st, steps, maxSteps);
            end.outcome.Finished? && end.outcome.result.diagnosis.Some? ==>
              ValidDiagnosis(end.outcome.result.diagnosis.value)
    decreases steps
  {
    hide CallAll, ParseDiagnosis, ValidDiagnosis;
    if steps > 0 && a.policy(st.trace).Some? {
      var turn := a.policy(st.trace).value;
      var asked := st.(trace := st.trace + [Asked(turn)]);
      if turn.final.Some? {
        if turn.final.value.Encoded? {
          AcceptedIsValid(turn.final.value.value);
        }
      } else if turn.toolCalls != [] {
        var observed := CallAll(a, asked, turn.toolCalls);
        if observed.results.Some? {
          var next := observed.conversation;
          DiagnosisWasParsed(a, next.(trace := next.trace + [Submitted(observed.results.value)]), steps - 1, maxSteps);
        }
      }
    }
  }

  lemma {:induction false} OnTrail(log: seq<LogLine>, since: nat, context: nat, id: string)
    requires since <= |log|
    requires Trail(log[..since], context) <= Trail(log, context)
    requires id in Trail(log, context)[|Trail(log[..since], context)|..]
    ensures exists k :: since <= k < |log| && log[k].context == context && log[k].record.correlationId == id
    decreases |log|
  {
    var start := Trail(log[..since], context);
    var n := |log| - 1;
    assert log[..|log|] == log;
    assert since <= n;
    assert log[..n][..since] == log[..since];
    TrailGrows(log[..n], since, context);
    if !(log[n].context == context && log[n].record.correlationId == id) {
      assert id in Trail(log[..n], context)[|start|..];
      OnTrail(log[..n], since, context, id);
      var k :| since <= k < n && log[..n][k].context == context && log[..n][k].record.correlationId == id;
      assert log[k] == log[..n][k];
    }
  }

  lemma {:induction false} TrailGrows(log: seq<LogLine>, since: nat, context: nat)
    requires since <= |log|
    ensures Trail(log[..since], context) <= Trail(log, context)
    decreases |log|
  {
    if since == |log| {
      assert log[..since] == log;
    } else {
      assert log[..|log| - 1][..since] == log[..since];
      TrailGrows(log[..|log| - 1], since, context);
    }
  }

  lemma {:induction false} ServeAllAppends(a: Agent, l: Ledger, others: seq<Input>)
    ensures l.log <= ServeAll(a.cfg, l, others).log
  {
    if others != [] {
      var n := |others| - 1;
      ServeAllAppends(a, l, others[..n]);
      OneCallOneRecord(a.cfg, ServeAll(a.cfg, l, others[..n]), others[n]);
    }
  }

  lemma {:induction false} CallAllAppends(a: Agent, st: Conversation, calls: seq<ToolCall>)
    ensures st.ledger.log <= CallAll(a, st, calls).conversation.ledger.log
  {
    if calls != [] {
      var n := |calls| - 1;
      CallAllAppends(a, st, calls[..n]);
      var before := CallAll(a, st, calls[..n]);
      if before.results.Some? && calls[n].name in ALLOWLIST && calls[n].arguments.Dict? {
        var w, mid := a.world(before.conversation.served), before.conversation;
        ServeAllAppends(a, mid.ledger, w.others);
        OneCallOneRecord(a.cfg, ServeAll(a.cfg, mid.ledger, w.others),
                         InputOf(a.context, calls[n].name, calls[n].arguments.entries, w));
      }
    }
  }

  /** The audit log is append-only. */
  lemma {:induction false} ContinueAppends(a: Agent, st: Conversation, steps: nat, maxSteps: int)
    ensures st.ledger.log <= Continue(a, st, steps, maxSteps).conversation.ledger.log
    decreases steps
  {
    hide CallAll, Judge;
    if steps > 0 && a.policy(st.trace).Some? {
      var turn := a.policy(st.trace).value;
      var asked := st.(trace := st.trace + [Asked(turn)]);
      if turn.final.None? && turn.toolCalls != [] {
        CallAllAppends(a, asked, turn.toolCalls);
        var observed := CallAll(a, asked, turn.toolCalls);
        if observed.results.Some? {
          var next := observed.conversation;
          ContinueAppends(a, next.(trace := next.trace + [Submitted(observed.results.value)]), steps - 1, maxSteps);
        }
      }
    }
  }

  lemma {:induction false} RecordIsOnTrail(log: seq<LogLine>, since: nat, context: nat, k: nat)
    requires since <= k < |log| && log[k].context == context
    ensures Trail(log[..since], context) <= Trail(log, context)
    ensures log[k].record.correlationId in Trail(log, context)[|Trail(log[..since], context)|..]
    decreases |log|
  {
    var n, start := |log| - 1, Trail(log[..since], context);
    assert log[..n][..since] == log[..since];
    TrailGrows(log, since, context);
    TrailGrows(log[..n], since, context);
    if k < n {
      assert log[..n][k] == log[k];
      RecordIsOnTrail(log[..n], since, context, k);
      assert Trail(log[..n], context)[|start|..] <= Trail(log, context)[|start|..];
    } else {
      assert Trail(log, context)[|start|..] == Trail(log[..n], context)[|start|..] + [log[n].record.correlationId];
    }
  }

  /** Some audit record of this context, no older than `since`, has this id. */
  ghost predicate HasRecord(log: seq<LogLine>, since: nat, context: nat, id: string) {
    exists k :: since <= k < |log| && log[k].context == context && log[k].record.correlationId == id
  }

  lemma RecordedIffOnTrail(log: seq<LogLine>, since: nat, context: nat, id: string)
    requires since <= |log|
    ensures Trail(log[..since], context) <= Trail(log, context)
    ensures HasRecord(log, since, context, id) <==>
            id in Trail(log, context)[|Trail(log[..since], context)|..]
  {
    hide Trail;
    TrailGrows(log, since, context);
    if HasRecord(log, since, context, id) {
      var k :| since <= k < |log| && log[k].context == context && log[k].record.correlationId == id;
      RecordIsOnTrail(log, since, context, k);
    } else if id in Trail(log, context)[|Trail(log[..since], context)|..] {
      OnTrail(log, since, context, id);
    }
  }

  /** The run wrote an audit record with an id exactly when the run reports the id. */
  lemma RunRecordedIffReported(a: Agent, l: Ledger, question: string, maxSteps: int, id: string)
    requires Sane(a)
    requires Run(a, l, question, maxSteps).outcome.Finished?
    ensures var end := Run(a, l, question, maxSteps);
            && |l.log| <= |end.conversation.ledger.log|
            && (HasRecord(end.conversation.ledger.log, |l.log|, a.context, id) <==>
                id in end.outcome.result.toolCallIds)
  {
    hide Run, Trail, HasRecord;
    var end := Run(a, l, question, maxSteps);
    var log := end.conversation.ledger.log;
    RunAppends(a, l, question, maxSteps);
    assert log[..|l.log|] == l.log;
    RunIdsAreTheAuditTrail(a, l, question, maxSteps);
    RecordedIffOnTrail(log, |l.log|, a.context, id);
    assert Trail(log, a.context)[|Trail(l.log, a.context)|..] == end.outcome.result.toolCallIds;
  }

  lemma RunAppends(a: Agent, l: Ledger, question: string, maxSteps: int)
    ensures l.log <= Run(a, l, question, maxSteps).conversation.ledger.log
  {
    ContinueAppends(a, Opening(l, question), Steps(maxSteps), maxSteps);
  }

  /** Every id a diagnosis cites belongs to a record this run wrote to the audit log. */
  ghost predicate EvidenceIsReal(d: Diagnosis, log: seq<LogLine>, since: nat, context: nat) {
    forall f <- d.findings, e <- f.evidence :: HasRecord(log, since, context, e)
  }

  /** Exactly when the evidence of a finished run's diagnosis is real: every cited id is one
      the run itself reports. Nothing in the schema checks that. */
  lemma EvidenceIsRealIff(a: Agent, l: Ledger, question: string, maxSteps: int)
    requires Sane(a)
    requires var o := Run(a, l, question, maxSteps).outcome; o.Finished? && o.result.diagnosis.Some?
    ensures var end := Run(a, l, question, maxSteps);
            var d := end.outcome.result.diagnosis.value;
            EvidenceIsReal(d, end.conversation.ledger.log, |l.log|, a.context) <==>
            forall f <- d.findings, e <- f.evidence :: e in end.outcome.result.toolCallIds
  {
    hide Run, HasRecord;
    var d := Run(a, l, question, maxSteps).outcome.result.diagnosis.value;
    forall f <- d.findings, e <- f.evidence
      ensures HasRecord(Run(a, l, question, maxSteps).conversation.ledger.log, |l.log|, a.context, e) <==>
              e in Run(a, l, question, maxSteps).outcome.result.toolCallIds
    {
      RunRecordedIffReported(a, l, question, maxSteps, e);
    }
  }

  /** A returned diagnosis backs every finding with at least one id from its own list; so if
      that list passes the documented cross-check against the run's ids, its evidence is real. */
  lemma EvidenceIsSound(a: Agent, l: Ledger, question: string, maxSteps: int)
    requires Sane(a)
    requires var o := Run(a, l, question, maxSteps).outcome; o.Finished? && o.result.diagnosis.Some?
    ensures var end := Run(a, l, question, maxSteps);
            var d := end.outcome.result.diagnosis.value;
            && ValidDiagnosis(d)
            && ((forall id <- d.allToolCalls :: id in end.outcome.result.toolCallIds) ==>
                  EvidenceIsReal(d, end.conversation.ledger.log, |l.log|, a.context))
  {
    hide EvidenceIsReal;
    DiagnosisWasParsed(a, Opening(l, question), Steps(maxSteps), maxSteps);
    EvidenceIsRealIff(a, l, question, maxSteps);
  }

  /** A model that answers at once with a diagnosis citing one made-up id. */
  function Fabricated(id: string): Diagnosis {
    Diagnosis("made up", [Finding("fabricated", [id], High, "n/a")], [id])
  }

  function Liar(id: string): Policy {
    trace => Some(Turn([], Some(Encoded(EncodeDiagnosis(Fabricated(id))))))
  }

  /** The schema alone does not tie evidence to the run: whatever the id, a model can have a
      diagnosis that cites it accepted, in a run that called no tool and wrote no record. */
  lemma FabricationPassesTheSchema(a: Agent, id: string, l: Ledger, question: string, maxSteps: int)
    requires a.policy == Liar(id) && maxSteps > 0
    ensures var o := Run(a, l, question, maxSteps).outcome;
            && o.Finished? && o.result.diagnosis == Some(Fabricated(id)) && o.result.toolCallIds == []
            && Run(a, l, question, maxSteps).conversation.ledger == l
  {
    var d := Fabricated(id);
    assert ValidFinding(d.findings[0]);
    Schemas.RoundTrip(d);
    assert a.policy([Started(question)]) == Some(Turn([], Some(Encoded(EncodeDiagnosis(d)))));
  }
}
