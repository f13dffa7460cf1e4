/** agent/loop.py and agent/mcp_client.py: the bounded plan, call, observe, diagnose loop.

    The language model is an arbitrary function of the conversation so far, which may also
    raise. Tools run in a world that decides, call by call, what the limiter's clock reads,
    what the input model and the tool body do, and which complete calls of other contexts
    come first on the same server.
  */
module Loop {
  import opened Wrappers
  import opened Json
  import opened RateLimit
  import opened Tools
  import San = Sanitize
  import opened Schemas

  datatype ToolCall = ToolCall(id: string, name: string, arguments: Json)
  datatype ToolResult = ToolResult(toolUseId: string, content: Text)
  datatype Turn = Turn(toolCalls: seq<ToolCall>, final: Option<Text>)

  /** The calls the loop makes on the model, with what passed through them. */
  datatype Event =
    | Started(question: string)
    | Asked(turn: Turn)
    | Submitted(results: seq<ToolResult>)

  type Policy = seq<Event> -> Option<Turn>

  /** What the world contributes to one tool call of this run. */
  datatype Contribution = Contribution(others: seq<Input>, id: string, created: real, now: real,
                                       verdict: Verdict, body: Body, durationMs: real)

  /** One run: the server's limiter settings, the execution context, the model, the world. */
  datatype Agent = Agent(cfg: Config, context: nat, policy: Policy, world: nat -> Contribution)

  datatype LoopError = SchemaMismatch | EmptyTurn | StepsExhausted(maxSteps: int)

  datatype RunResult = RunResult(diagnosis: Option<Diagnosis>, rawFinal: Option<Text>,
                                 toolCallIds: seq<string>, error: Option<LoopError>)

  /** `run` returns a result, or an exception of the model or of a malformed call escapes. */
  datatype Outcome = Finished(result: RunResult) | Crashed

  /** The state of a run. `served` counts the calls that reached the server. */
  datatype Conversation = Conversation(trace: seq<Event>, ids: seq<string>, ledger: Ledger, served: nat)

  /** `_TOOLS_BY_NAME` */
  const ALLOWLIST := {
    "check_database_connection", "get_database_health", "get_active_connections", "get_slow_queries",
    "get_lock_information", "explain_slow_query", "get_table_statistics", "get_index_usage"}

  function UnknownTool(name: string): seq<Entry> {
    [Entry("status", Str("unknown_tool")), Entry("tool", Str(name)),
     Entry("error", Str("tool '" + name + "' not in allowlist"))]
  }

  function InputOf(context: nat, tool: string, kwargs: seq<Entry>, w: Contribution): Input {
    Input(context, tool, kwargs, w.id, w.created, w.now, w.verdict, w.body, w.durationMs)
  }

  /** Complete calls of other contexts, one after the other. */
  function ServeAll(cfg: Config, l: Ledger, others: seq<Input>): Ledger {
    if others == [] then l
    else Serve(cfg, ServeAll(cfg, l, others[..|others| - 1]), others[|others| - 1]).ledger
  }

  datatype Called = Called(conversation: Conversation, envelope: Option<seq<Entry>>)

  /** `call_tool`: only a name on the allowlist reaches the server, and unpacking arguments
      that are not a dictionary raises. */
  function CallTool(a: Agent, st: Conversation, name: string, arguments: Json): Called {
    if name !in ALLOWLIST then Called(st, Some(UnknownTool(name)))
    else if !arguments.Dict? then Called(st, None)
    else
      var w := a.world(st.served);
      var served := Serve(a.cfg, ServeAll(a.cfg, st.ledger, w.others),
                          InputOf(a.context, name, arguments.entries, w));
      Called(st.(ledger := served.ledger, served := st.served + 1), Some(served.envelope))
  }

  /** `if cid: tool_call_ids.append(cid)` */
  function WithId(ids: seq<string>, envelope: seq<Entry>): seq<string> {
    match AsString(Get(envelope, "correlation_id"))
    case Some(id) => if id != "" then ids + [id] else ids
    case None => ids
  }

  datatype Observed = Observed(conversation: Conversation, results: Option<seq<ToolResult>>)

  /** One iteration of the inner loop. */
  function Observe(a: Agent, st: Conversation, c: ToolCall, results: seq<ToolResult>): Observed {
    var called := CallTool(a, st, c.name, c.arguments);
    match called.envelope
    case None => Observed(called.conversation, None)
    case Some(envelope) =>
      Observed(called.conversation.(ids := WithId(called.conversation.ids, envelope)),
               Some(results + [ToolResult(c.id, Encoded(San.Sanitize(Dict(envelope))))]))
  }

  /** The inner loop over a turn's calls. */
  function CallAll(a: Agent, st: Conversation, calls: seq<ToolCall>): Observed {
    if calls == [] then Observed(st, Some([]))
    else
      var before := CallAll(a, st, calls[..|calls| - 1]);
      match before.results
      case None => before
      case Some(results) => Observe(a, before.conversation, calls[|calls| - 1], results)
  }

  /** What a final answer becomes. */
  function Judge(raw: Text, ids: seq<string>): RunResult {
    match (if raw.Encoded? then ParseDiagnosis(raw.value) else None)
    case Some(d) => RunResult(Some(d), Some(raw), ids, None)
    case None => RunResult(None, Some(raw), ids, Some(SchemaMismatch))
  }

  datatype Ended = Ended(conversation: Conversation, outcome: Outcome)

  /** The rest of a run with `steps` iterations left. */
  function Continue(a: Agent, st: Conversation, steps: nat, maxSteps: int): Ended
    decreases steps
  {
    if steps == 0 then
      Ended(st, Finished(RunResult(None, None, st.ids, Some(StepsExhausted(maxSteps)))))
    else
      match a.policy(st.trace)
      case None => Ended(st, Crashed)
      case Some(turn) =>
        var asked := st.(trace := st.trace + [Asked(turn)]);
        if turn.final.Some? then Ended(asked, Finished(Judge(turn.final.value, st.ids)))
        else if turn.toolCalls == [] then
          Ended(asked, Finished(RunResult(None, None, st.ids, Some(EmptyTurn))))
        else
          var observed := CallAll(a, asked, turn.toolCalls);
          match observed.results
          case None => Ended(observed.conversation, Crashed)
          case Some(results) =>
            var next := observed.conversation;
            Continue(a, next.(trace := next.trace + [Submitted(results)]), steps - 1, maxSteps)
  }

  function Steps(maxSteps: int): nat {
    if maxSteps < 0 then 0 else maxSteps
  }

  function Opening(l: Ledger, question: string): Conversation {
    Conversation([Started(question)], [], l, 0)
  }

  /** `run` */
  function Run(a: Agent, l: Ledger, question: string, maxSteps: int): Ended {
    Continue(a, Opening(l, question), Steps(maxSteps), maxSteps)
  }

  // ---- the loop as it is written -----------------------------------------------------------

  /** A model seen from the loop: a policy, and the calls made on it so far. */
  class Llm {
    const policy: Policy
    var trace: seq<Event>

    constructor (policy: Policy)
      ensures this.policy == policy && trace == []
    {
      this.policy := policy;
      trace := [];
    }

    method Start(question: string)
      modifies this
      ensures trace == old(trace) + [Started(question)]
    {
      trace := trace + [Started(question)];
    }

    method NextTurn() returns (turn: Option<Turn>)
      modifies this
      ensures turn == policy(old(trace))
      ensures trace == if turn.Some? then old(trace) + [Asked(turn.value)] else old(trace)
    {
      turn := policy(trace);
      if turn.Some? {
        trace := trace + [Asked(turn.value)];
      }
    }

    method SubmitToolResults(results: seq<ToolResult>)
      modifies this
      ensures trace == old(trace) + [Submitted(results)]
    {
      trace := trace + [Submitted(results)];
    }
  }

  /** The calls other contexts complete before ours. */
  method Meanwhile(server: ToolServer, others: seq<Input>)
    requires server.Valid()
    modifies server, server.limiter, server.limiter.buckets.Values
    ensures server.Valid()
    ensures forall b <- server.limiter.buckets.Values :: b in old(server.limiter.buckets.Values) || fresh(b)
    ensures server.Contents() == ServeAll(server.limiter.Settings(), old(server.Contents()), others)
  {
    for i := 0 to |others|
      invariant server.Valid()
      invariant forall b <- server.limiter.buckets.Values :: b in old(server.limiter.buckets.Values) || fresh(b)
      invariant server.Contents() == ServeAll(server.limiter.Settings(), old(server.Contents()), others[..i])
    {
      var _ := server.Call(others[i]);
      assert others[..i + 1][..i] == others[..i];
    }
    assert others[..|others|] == others;
  }

  /** The body of `run`'s inner loop, from `call_tool` to the new tool result. */
  method ObserveCall(ghost a: Agent, world: nat -> Contribution, context: nat, server: ToolServer,
                     c: ToolCall, served: nat, ids: seq<string>, results: seq<ToolResult>,
                     ghost trace: seq<Event>)
    returns (observed: Option<(ToolResult, seq<string>, nat)>)
    requires server.Valid() && a.cfg == server.limiter.Settings() && a.world == world && a.context == context
    modifies server, server.limiter, server.limiter.buckets.Values
    ensures server.Valid()
    ensures forall b <- server.limiter.buckets.Values :: b in old(server.limiter.buckets.Values) || fresh(b)
    ensures var o := Observe(a, Conversation(trace, ids, old(server.Contents()), served), c, results);
            match observed
            case None => o.results.None? && o.conversation.ledger == server.Contents() &&
                         o.conversation.trace == trace && o.conversation.ids == ids
            case Some((r, ids', served')) =>
              o == Observed(Conversation(trace, ids', server.Contents(), served'), Some(results + [r]))
  {
    var envelope: seq<Entry>;
    var served' := served;
    if c.name !in ALLOWLIST {
      envelope := UnknownTool(c.name);
    } else if !c.arguments.Dict? {
      return None;
    } else {
      var w := world(served);
      Meanwhile(server, w.others);
      envelope := server.Call(InputOf(context, c.name, c.arguments.entries, w));
      served' := served + 1;
    }
    return Some((ToolResult(c.id, Encoded(San.Sanitize(Dict(envelope)))), WithId(ids, envelope), served'));
  }

  /** `run`'s inner loop. */
  method CallTurn(ghost a: Agent, world: nat -> Contribution, context: nat, server: ToolServer,
                  calls: seq<ToolCall>, served: nat, ids: seq<string>, ghost trace: seq<Event>)
    returns (observed: Option<(seq<ToolResult>, seq<string>, nat)>)
    requires server.Valid() && a.cfg == server.limiter.Settings() && a.world == world && a.context == context
    modifies server, server.limiter, server.limiter.buckets.Values
    ensures server.Valid()
    ensures forall b <- server.limiter.buckets.Values :: b in old(server.limiter.buckets.Values) || fresh(b)
    ensures var o := CallAll(a, Conversation(trace, ids, old(server.Contents()), served), calls);
            match observed
            case None => o.results.None? && o.conversation.ledger == server.Contents() && o.conversation.trace == trace
            case Some((results, ids', served')) =>
              o == Observed(Conversation(trace, ids', server.Contents(), served'), Some(results))
  {
    hide Observe, Serve, ServeAll;
    ghost var st := Conversation(trace, ids, server.Contents(), served);
    var results: seq<ToolResult>, ids', served' := [], ids, served;
    for i := 0 to |calls|
      invariant server.Valid()
      invariant forall b <- server.limiter.buckets.Values :: b in old(server.limiter.buckets.Values) || fresh(b)
      invariant CallAll(a, st, calls[..i]) ==
                Observed(Conversation(trace, ids', server.Contents(), served'), Some(results))
    {
      assert calls[..i + 1][..i] == calls[..i];
      var one := ObserveCall(a, world, context, server, calls[i], served', ids', results, trace);
      if one.None? {
        CrashSticks(a, st, calls, i + 1);
        return None;
      }
      results, ids', served' := results + [one.value.0], one.value.1, one.value.2;
    }
    assert calls[..|calls|] == calls;
    return Some((results, ids', served'));
  }

  datatype Progress = Goes(ids: seq<string>, served: nat) | Stops(outcome: Outcome)

  /** One iteration of `run`'s outer loop. */
  method TakeTurn(ghost a: Agent, world: nat -> Contribution, context: nat, server: ToolServer, llm: Llm,
                  ids: seq<string>, served: nat, ghost steps: nat, ghost maxSteps: int)
    returns (progress: Progress)
    requires server.Valid() && steps > 0
    requires a == Agent(server.limiter.Settings(), context, llm.policy, world)
    modifies llm, server, server.limiter, server.limiter.buckets.Values
    ensures server.Valid()
    ensures forall b <- server.limiter.buckets.Values :: b in old(server.limiter.buckets.Values) || fresh(b)
    ensures var end := Continue(a, Conversation(old(llm.trace), ids, old(server.Contents()), served), steps, maxSteps);
            match progress
            case Goes(ids', served') =>
              end == Continue(a, Conversation(llm.trace, ids', server.Contents(), served'), steps - 1, maxSteps)
            case Stops(outcome) =>
              end.outcome == outcome && end.conversation.trace == llm.trace &&
              end.conversation.ledger == server.Contents()
  {
    var next := llm.NextTurn();
    if next.None? {
      return Stops(Crashed);
    }
    var turn := next.value;
    if turn.final.Some? {
      return Stops(Finished(Judge(turn.final.value, ids)));
    }
    if turn.toolCalls == [] {
      return Stops(Finished(RunResult(None, None, ids, Some(EmptyTurn))));
    }
    var observed := CallTurn(a, world, context, server, turn.toolCalls, served, ids, llm.trace);
    if observed.None? {
      return Stops(Crashed);
    }
    llm.SubmitToolResults(observed.value.0);
    return Goes(observed.value.1, observed.value.2);
  }

  /** `run`, on a fresh model and any server. */
  method RunLoop(ghost a: Agent, world: nat -> Contribution, context: nat, server: ToolServer, llm: Llm,
                 question: string, maxSteps: int)
    returns (outcome: Outcome)
    requires server.Valid() && llm.trace == []
    requires a == Agent(server.limiter.Settings(), context, llm.policy, world)
    modifies llm, server, server.limiter, server.limiter.buckets.Values
    ensures server.Valid()
    ensures var end := Run(a, old(server.Contents()), question, maxSteps);
            outcome == end.outcome && llm.trace == end.conversation.trace &&
            server.Contents() == end.conversation.ledger
  {
    hide CallAll, Observe, CallTool, Judge, Serve;
    ghost var goal := Run(a, server.Contents(), question, maxSteps);
    llm.Start(question);
    assert llm.trace == [Started(question)];
    var ids: seq<string>, served := [], 0;
    for step := 0 to Steps(maxSteps)
      invariant server.Valid()
      invariant forall b <- server.limiter.buckets.Values :: b in old(server.limiter.buckets.Values) || fresh(b)
      invariant goal ==
                Continue(a, Conversation(llm.trace, ids, server.Contents(), served), Steps(maxSteps) - step, maxSteps)
    {
      var progress := TakeTurn(a, world, context, server, llm, ids, served, Steps(maxSteps) - step, maxSteps);
      if progress.Stops? {
        return progress.outcome;
      }
      ids, served := progress.ids, progress.served;
    }
    return Finished(RunResult(None, None, ids, Some(StepsExhausted(maxSteps))));
  }

  /** Once a call of a turn has raised, the turn has. */
  lemma {:induction false} CrashSticks(a: Agent, st: Conversation, calls: seq<ToolCall>, i: nat)
    requires i <= |calls| && CallAll(a, st, calls[..i]).results.None?
    ensures CallAll(a, st, calls) == CallAll(a, st, calls[..i])
    decreases |calls|
  {
    if i == |calls| {
      assert calls[..i] == calls;
    } else {
      assert calls[..|calls| - 1][..i] == calls[..i];
      CrashSticks(a, st, calls[..|calls| - 1], i);
    }
  }
}
