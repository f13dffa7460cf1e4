/** How a run of the agent loop ends, and which tools it calls: both can be read off the calls
    on the model, without knowing how the loop is written. */
module LoopOutcome {
  import opened Wrappers
  import opened Json
  import opened Tools
  import opened Schemas
  import opened Loop
  import opened LoopSafety
  import San = Sanitize

  // ---- how a run ends ------------------------------------------------------------------------

  /** A call of one of the eight tools with arguments that cannot be unpacked. */
  predicate Malformed(c: ToolCall) {
    IsTool(c.name) && !c.arguments.Dict?
  }

  predicate IsTool(name: string) {
    name == "check_database_connection" || name == "get_database_health" || name == "get_active_connections" ||
    name == "get_slow_queries" || name == "get_lock_information" || name == "explain_slow_query" ||
    name == "get_table_statistics" || name == "get_index_usage"
  }

  lemma ObserveRaisesIff(a: Agent, st: Conversation, c: ToolCall, results: seq<ToolResult>)
    ensures Observe(a, st, c, results).results.None? <==> Malformed(c)
  {
    hide Serve, ServeAll;
  }

  lemma {:induction false} CallAllRaisesIff(a: Agent, st: Conversation, calls: seq<ToolCall>)
    ensures CallAll(a, st, calls).results.None? <==> exists c <- calls :: Malformed(c)
  {
    hide Observe, Malformed;
    if calls != [] {
      var n := |calls| - 1;
      var before := CallAll(a, st, calls[..n]);
      CallAllRaisesIff(a, st, calls[..n]);
      assert forall c :: c in calls <==> c in calls[..n] || c == calls[n];
      if before.results.Some? {
        ObserveRaisesIff(a, before.conversation, calls[n], before.results.value);
      }
    }
  }

  function Parsed(raw: Text): Option<Diagnosis> {
    if raw.Encoded? then ParseDiagnosis(raw.value) else None
  }

  /** What the calls on the model say the outcome must be, when at most `limit` turns may be
      asked for. If the model was asked last, its turn decides: a final answer, nothing at all,
      or calls of which one is malformed. If not, then either all turns have been used up, or
      the model itself raised. */
  ghost predicate EndsAsItMust(policy: Policy, trace: seq<Event>, ids: seq<string>, outcome: Outcome, limit: nat,
                               maxSteps: int)
    requires trace != []
  {
    match trace[|trace| - 1]
    case Asked(turn) =>
      (match turn.final
       case Some(raw) =>
         outcome == Finished(RunResult(Parsed(raw), Some(raw), ids,
                                       if Parsed(raw).None? then Some(SchemaMismatch) else None))
       case None =>
         if turn.toolCalls == [] then outcome == Finished(RunResult(None, None, ids, Some(EmptyTurn)))
         else outcome == Crashed && exists c <- turn.toolCalls :: Malformed(c))
    case _ =>
      && Asks(trace) <= limit
      && if Asks(trace) == limit then outcome == Finished(RunResult(None, None, ids, Some(StepsExhausted(maxSteps))))
         else outcome == Crashed && policy(trace) == None
  }

  lemma JudgedAsItMust(raw: Text, ids: seq<string>)
    ensures Judge(raw, ids) == RunResult(Parsed(raw), Some(raw), ids,
                                         if Parsed(raw).None? then Some(SchemaMismatch) else None)
  {
  }

  lemma {:induction false} ContinueEnds(a: Agent, st: Conversation, steps: nat, maxSteps: int)
    requires Ready(a, st.trace)
    ensures var end := Continue(a, st, steps, maxSteps);
            && end.conversation.trace != []
            && EndsAsItMust(a.policy, end.conversation.trace, end.conversation.ids, end.outcome,
                            Asks(st.trace) + steps, maxSteps)
    decreases steps
  {
    hide CallAll, Judge, Asks, ParseDiagnosis;
    if steps > 0 && a.policy(st.trace).Some? {
      var turn := a.policy(st.trace).value;
      var asked := st.(trace := st.trace + [Asked(turn)]);
      if turn.final.Some? {
        JudgedAsItMust(turn.final.value, st.ids);
      } else if turn.toolCalls != [] {
        var observed := CallAll(a, asked, turn.toolCalls);
        RoundKeeps(a, st, turn);
        CallAllAnswers(a, asked, turn.toolCalls);
        CallAllRaisesIff(a, asked, turn.toolCalls);
        if observed.results.Some? {
          var next := observed.conversation;
          ContinueEnds(a, next.(trace := next.trace + [Submitted(observed.results.value)]), steps - 1, maxSteps);
        }
      }
    }
  }

  /** For any model and world, the calls made on the model determine the outcome. A run gives
      up only when it has asked for `max_steps` turns, none of them final or empty; it raises
      only when the model does or asks for a malformed call; and every result is the one its
      last turn calls for. */
  lemma RunEndsAsItMust(a: Agent, l: Ledger, question: string, maxSteps: int)
    ensures var end := Run(a, l, question, maxSteps);
            && end.conversation.trace != []
            && EndsAsItMust(a.policy, end.conversation.trace, end.conversation.ids, end.outcome,
                            if maxSteps > 0 then maxSteps else 0, maxSteps)
  {
    hide Continue, EndsAsItMust;
    assert [Started(question)][..0] == [] && Asks([]) == 0;
    ContinueEnds(a, Opening(l, question), Steps(maxSteps), maxSteps);
  }

  // ---- which tools a run calls ---------------------------------------------------------------

  /** One call of the inner loop: what the server is asked, what the model is shown, and which
      id is kept. A name that is no tool reaches nobody. */
  lemma CallTells(a: Agent, st: Conversation, c: ToolCall, results: seq<ToolResult>)
    requires !Malformed(c)
    ensures var o := Observe(a, st, c, results);
            var w := a.world(st.served);
            var served := Serve(a.cfg, ServeAll(a.cfg, st.ledger, w.others),
                                Input(a.context, c.name, if c.arguments.Dict? then c.arguments.entries else [], w.id,
                                      w.created, w.now, w.verdict, w.body, w.durationMs));
            if IsTool(c.name) then
              && o.conversation.ledger == served.ledger && o.conversation.served == st.served + 1
              && o.results == Some(results + [ToolResult(c.id, Encoded(San.Sanitize(Dict(served.envelope))))])
              && o.conversation.ids ==
                 (match Get(served.envelope, "correlation_id")
                  case Some(Str(id)) => if id == "" then st.ids else st.ids + [id]
                  case _ => st.ids)
            else
              && o.conversation == st
              && o.results == Some(results + [ToolResult(c.id, Encoded(San.Sanitize(Dict([
                   Entry("status", Str("unknown_tool")), Entry("tool", Str(c.name)),
                   Entry("error", Str("tool '" + c.name + "' not in allowlist"))]))))])
  {
    hide Serve, ServeAll, San.Sanitize;
    if !IsTool(c.name) {
      GetNone(UnknownTool(c.name), "correlation_id");
    }
  }

  /** The tools named in the audit records one context has written. */
  function ToolTrail(log: seq<LogLine>, context: nat): seq<string> {
    if log == [] then []
    else
      var n := |log| - 1;
      if log[n].context == context then ToolTrail(log[..n], context) + [log[n].record.tool]
      else ToolTrail(log[..n], context)
  }

  /** The tools a batch of calls asks for. */
  function ToolNames(calls: seq<ToolCall>): seq<string> {
    if calls == [] then []
    else
      var n := |calls| - 1;
      if IsTool(calls[n].name) then ToolNames(calls[..n]) + [calls[n].name] else ToolNames(calls[..n])
  }

  /** ... over all the turns of a trace that were answered. */
  function ToolsAsked(trace: seq<Event>): seq<string> {
    if |trace| < 2 then []
    else
      var n := |trace| - 1;
      ToolsAsked(trace[..n]) +
      if trace[n - 1].Asked? && trace[n].Submitted? then ToolNames(trace[n - 1].turn.toolCalls) else []
  }

  lemma ServeToolTrail(a: Agent, l: Ledger, c: Input)
    ensures ToolTrail(Serve(a.cfg, l, c).ledger.log, a.context) ==
            if c.context == a.context then ToolTrail(l.log, a.context) + [c.tool] else ToolTrail(l.log, a.context)
  {
    hide Serve;
    OneCallOneRecord(a.cfg, l, c);
    var log' := Serve(a.cfg, l, c).ledger.log;
    assert log'[..|log'| - 1] == l.log;
  }

  lemma {:induction false} OthersToolTrail(a: Agent, l: Ledger, others: seq<Input>)
    requires forall o <- others :: o.context != a.context
    ensures ToolTrail(ServeAll(a.cfg, l, others).log, a.context) == ToolTrail(l.log, a.context)
  {
    if others != [] {
      var n := |others| - 1;
      assert others[n] in others;
      OthersToolTrail(a, l, others[..n]);
      ServeToolTrail(a, ServeAll(a.cfg, l, others[..n]), others[n]);
    }
  }

  lemma {:induction false} CallAllTools(a: Agent, st: Conversation, calls: seq<ToolCall>)
    requires Sane(a)
    ensures var o := CallAll(a, st, calls);
            o.results.Some? ==>
              ToolTrail(o.conversation.ledger.log, a.context) == ToolTrail(st.ledger.log, a.context) + ToolNames(calls)
  {
    hide Serve, ServeAll, Observe, Malformed, ToolTrail;
    if calls != [] {
      var n := |calls| - 1;
      var before := CallAll(a, st, calls[..n]);
      CallAllTools(a, st, calls[..n]);
      if before.results.Some? {
        ObserveRaisesIff(a, before.conversation, calls[n], before.results.value);
        if !Malformed(calls[n]) {
          OneCallTool(a, before.conversation, calls[n], before.results.value);
        }
      }
    }
  }

  lemma OneCallTool(a: Agent, st: Conversation, c: ToolCall, results: seq<ToolResult>)
    requires Sane(a) && !Malformed(c)
    ensures ToolTrail(Observe(a, st, c, results).conversation.ledger.log, a.context) ==
            ToolTrail(st.ledger.log, a.context) + if IsTool(c.name) then [c.name] else []
  {
    hide Serve, ServeAll, Observe, ToolTrail;
    CallTells(a, st, c, results);
    if IsTool(c.name) {
      var w := a.world(st.served);
      OthersToolTrail(a, st.ledger, w.others);
      ServeToolTrail(a, ServeAll(a.cfg, st.ledger, w.others),
                     Input(a.context, c.name, if c.arguments.Dict? then c.arguments.entries else [], w.id,
                           w.created, w.now, w.verdict, w.body, w.durationMs));
    }
  }

  lemma {:induction false} ToolsAskedSnoc(trace: seq<Event>, e: Event)
    requires trace != []
    ensures ToolsAsked(trace + [e]) == ToolsAsked(trace) +
            if trace[|trace| - 1].Asked? && e.Submitted? then ToolNames(trace[|trace| - 1].turn.toolCalls) else []
  {
    assert (trace + [e])[..|trace|] == trace;
  }

  lemma {:induction false} ContinueTools(a: Agent, st: Conversation, steps: nat, maxSteps: int, before: seq<string>)
    requires Sane(a) && st.trace != [] && !st.trace[|st.trace| - 1].Asked?
    requires ToolTrail(st.ledger.log, a.context) == before + ToolsAsked(st.trace)
    ensures var end := Continue(a, st, steps, maxSteps);
            end.outcome.Finished? ==>
              ToolTrail(end.conversation.ledger.log, a.context) == before + ToolsAsked(end.conversation.trace)
    decreases steps
  {
    hide CallAll, Judge, ToolTrail, ToolsAsked, ToolNames;
    if steps > 0 && a.policy(st.trace).Some? {
      var turn := a.policy(st.trace).value;
      var asked := st.(trace := st.trace + [Asked(turn)]);
      ToolsAskedSnoc(st.trace, Asked(turn));
      assert ToolsAsked(asked.trace) == ToolsAsked(st.trace);
      if turn.final.None? && turn.toolCalls != [] {
        var observed := CallAll(a, asked, turn.toolCalls);
        CallAllAnswers(a, asked, turn.toolCalls);
        CallAllTools(a, asked, turn.toolCalls);
        if observed.results.Some? {
          var next := observed.conversation;
          ToolsAskedSnoc(asked.trace, Submitted(observed.results.value));
          ContinueTools(a, next.(trace := next.trace + [Submitted(observed.results.value)]), steps - 1, maxSteps,
                        before);
        }
      }
    }
  }

  /** The audit records a finished run wrote name, in order, exactly the tools that its model
      asked for, and nothing else. */
  lemma RunCallsWhatTheModelAsked(a: Agent, l: Ledger, question: string, maxSteps: int)
    requires Sane(a)
    ensures var end := Run(a, l, question, maxSteps);
            end.outcome.Finished? ==>
              ToolTrail(end.conversation.ledger.log, a.context) ==
              ToolTrail(l.log, a.context) + ToolsAsked(end.conversation.trace)
  {
    hide Continue, ToolTrail;
    assert ToolTrail(l.log, a.context) + [] == ToolTrail(l.log, a.context);
    ContinueTools(a, Opening(l, question), Steps(maxSteps), maxSteps, ToolTrail(l.log, a.context));
  }
}
