/** agent/llm.py: what each provider adapter sends over the wire, as the loop drives it.

    The provider's reply is an arbitrary function of the messages sent, and decoding a text
    as JSON (after stripping white space) is an arbitrary function of the text. */
module Transcripts {
  import opened Wrappers
  import opened Json
  import opened Loop
  import opened LoopSafety
  import T = Text
  import Tools

  type Decoder = string -> Text

  // ---- the neutral history ----------------------------------------------------------------

  datatype Asking = Asking(id: string, name: string, arguments: Json)

  /** One thing said, whatever the provider's message format. */
  datatype Item =
    | Question(text: string)
    | Requests(calls: seq<Asking>)
    | Answer(id: string, content: Text)

  function Askings(calls: seq<ToolCall>): (r: seq<Asking>)
    ensures |r| == |calls|
  {
    seq(|calls|, i requires 0 <= i < |calls| => Asking(calls[i].id, calls[i].name, calls[i].arguments))
  }

  function AnswersOf(results: seq<ToolResult>): (r: seq<Item>)
    ensures |r| == |results|
  {
    seq(|results|, i requires 0 <= i < |results| => Answer(results[i].toolUseId, results[i].content))
  }

  function ItemsOf(e: Event): seq<Item> {
    match e
    case Started(question) => [Question(question)]
    case Asked(turn) => [Requests(Askings(turn.toolCalls))]
    case Submitted(results) => AnswersOf(results)
  }

  function History(trace: seq<Event>): seq<Item> {
    if trace == [] then [] else History(trace[..|trace| - 1]) + ItemsOf(trace[|trace| - 1])
  }

  /** Reads a history from left to right and keeps the ids still to be answered. There is no
      result when an answer comes out of turn, or when something else is said before every
      request has been answered. */
  function Pending(items: seq<Item>): Option<seq<string>> {
    if items == [] then Some([])
    else
      match (Pending(items[..|items| - 1]), items[|items| - 1])
      case (Some(ids), Question(_)) => if ids == [] then Some([]) else None
      case (Some(ids), Requests(calls)) =>
        if ids == [] then Some(seq(|calls|, i requires 0 <= i < |calls| => calls[i].id)) else None
      case (Some(ids), Answer(id, _)) => if ids != [] && ids[0] == id then Some(ids[1..]) else None
      case (None, _) => None
  }

  function Ids(calls: seq<ToolCall>): (ids: seq<string>)
    ensures |ids| == |calls|
  {
    seq(|calls|, i requires 0 <= i < |calls| => calls[i].id)
  }

  lemma {:induction false} AnswersConsume(items: seq<Item>, results: seq<ToolResult>, n: nat)
    requires n <= |results|
    requires Pending(items).Some? && |Pending(items).value| == |results|
    requires forall j :: 0 <= j < |results| ==> results[j].toolUseId == Pending(items).value[j]
    ensures Pending(items + AnswersOf(results)[..n]) == Some(Pending(items).value[n..])
  {
    var answers := AnswersOf(results);
    if n == 0 {
      assert items + answers[..0] == items;
    } else {
      AnswersConsume(items, results, n - 1);
      assert (items + answers[..n])[..|items| + n - 1] == items + answers[..n - 1];
    }
  }

  lemma {:induction false} RequestsPend(items: seq<Item>, calls: seq<ToolCall>)
    requires Pending(items) == Some([])
    ensures Pending(items + [Requests(Askings(calls))]) == Some(Ids(calls))
  {
    assert (items + [Requests(Askings(calls))])[..|items|] == items;
    assert Ids(calls) == seq(|calls|, i requires 0 <= i < |calls| => Askings(calls)[i].id);
  }

  lemma {:induction false} AllAnswersConsume(items: seq<Item>, turn: Turn, results: seq<ToolResult>)
    requires Pending(items) == Some(Ids(turn.toolCalls)) && Answers(turn, results)
    ensures Pending(items + AnswersOf(results)) == Some([])
  {
    AnswersConsume(items, results, |results|);
    assert AnswersOf(results)[..|results|] == AnswersOf(results);
    assert Ids(turn.toolCalls)[|results|..] == [];
  }

  lemma {:induction false} PendingQuestion(question: string)
    ensures Pending([Question(question)]) == Some([])
  {
    assert [Question(question)][..0] == [];
    assert Pending([]) == Some([]);
  }

  function StillPending(last: Event): seq<string> {
    if last.Asked? then Ids(last.turn.toolCalls) else []
  }

  /** The loop's protocol keeps every history well paired: all requests of a turn are answered
      exactly once, in order and with their own ids, before anything else is said. */
  lemma {:induction false} ProtocolIsPaired(trace: seq<Event>)
    requires Protocol(trace)
    ensures Pending(History(trace)) == Some(StillPending(trace[|trace| - 1]))
  {
    var n := |trace| - 1;
    var init, items := trace[..n], History(trace[..n]);
    if n == 0 {
      assert init == [] && items == [] && items + ItemsOf(trace[0]) == [Question(trace[0].question)];
      PendingQuestion(trace[0].question);
    } else {
      assert Protocol(init);
      ProtocolIsPaired(init);
      if trace[n].Asked? {
        RequestsPend(items, trace[n].turn.toolCalls);
      } else {
        AllAnswersConsume(items, trace[n - 1].turn, trace[n].results);
      }
    }
  }

  /** A model whose final turns ask for no calls, as every adapter's do. */
  ghost predicate FinalsAskNothing(policy: Policy) {
    forall trace :: policy(trace).Some? && policy(trace).value.final.Some? ==> policy(trace).value.toolCalls == []
  }

  /** What a history leaves pending is what the last turn of the run left; and a run that
      returned a result has had every request answered. */
  lemma RunsArePaired(a: Agent, l: Tools.Ledger, question: string, maxSteps: int)
    requires FinalsAskNothing(a.policy)
    ensures var end := Run(a, l, question, maxSteps);
            var trace := end.conversation.trace;
            && trace != [] && Pending(History(trace)) == Some(StillPending(trace[|trace| - 1]))
            && (end.outcome.Finished? ==> Pending(History(trace)) == Some([]))
  {
    hide Run, History, Pending;
    var trace := Run(a, l, question, maxSteps).conversation.trace;
    LoopProtocol(a, l, question, maxSteps);
    ProtocolIsPaired(trace);
    FinishedRunsSettle(a, l, question, maxSteps);
  }

  // ---- Anthropic ----------------------------------------------------------------------------

  datatype Block = ToolUse(id: string, name: string, input: Json) | TextBlock(text: string) | OtherBlock

  datatype AnthropicMessage =
    | UserText(text: string)
    | Assistant(content: seq<Block>)
    | ToolResults(results: seq<ToolResult>)

  /** `x or {}` */
  function OrEmpty(v: Json): Json {
    if Truthy(v) then v else Dict([])
  }

  /** The blocks that are kept, the calls they ask for, and the texts between them. */
  function Kept(blocks: seq<Block>): seq<Block> {
    if blocks == [] then []
    else
      match blocks[|blocks| - 1]
      case ToolUse(id, name, input) => Kept(blocks[..|blocks| - 1]) + [ToolUse(id, name, OrEmpty(input))]
      case TextBlock(_) => Kept(blocks[..|blocks| - 1]) + [blocks[|blocks| - 1]]
      case OtherBlock => Kept(blocks[..|blocks| - 1])
  }

  function CallsOf(blocks: seq<Block>): seq<ToolCall> {
    if blocks == [] then []
    else
      match blocks[|blocks| - 1]
      case ToolUse(id, name, input) => CallsOf(blocks[..|blocks| - 1]) + [ToolCall(id, name, OrEmpty(input))]
      case _ => CallsOf(blocks[..|blocks| - 1])
  }

  function TextsOf(blocks: seq<Block>): seq<string> {
    if blocks == [] then []
    else
      match blocks[|blocks| - 1]
      case TextBlock(text) => TextsOf(blocks[..|blocks| - 1]) + [text]
      case _ => TextsOf(blocks[..|blocks| - 1])
  }

  function AnthropicTurn(decode: Decoder, blocks: seq<Block>): Turn {
    if CallsOf(blocks) != [] then Turn(CallsOf(blocks), None)
    else Turn([], Some(decode(T.Join("\n", TextsOf(blocks)))))
  }

  // ---- what a reply means -------------------------------------------------------------------

  ghost function Given(input: Json): Json {
    if input in FALSY then Dict([]) else input
  }

  /** One block, as the turn reports it and as the transcript records it. */
  ghost predicate UseReads(b: Block, c: ToolCall) {
    b.ToolUse? && c == ToolCall(b.id, b.name, Given(b.input))
  }

  ghost predicate BlockKept(b: Block, kept: Block) {
    match b
    case ToolUse(id, name, input) => kept == ToolUse(id, name, Given(input))
    case TextBlock(_) => kept == b
    case OtherBlock => false
  }

  /** How the adapter must read a reply: the calls are its tool uses and the record its tool
      uses and texts, in order and nothing else; without a tool use the turn is final, and its
      answer is the texts, one to a line. */
  ghost predicate AnthropicReads(decode: Decoder, blocks: seq<Block>, content: seq<Block>, turn: Turn) {
    var uses := Where(blocks, (b: Block) => b.ToolUse?);
    var texts := Where(blocks, (b: Block) => b.TextBlock?);
    var kept := Where(blocks, (b: Block) => !b.OtherBlock?);
    && |turn.toolCalls| == |uses|
    && (forall k :: 0 <= k < |uses| ==> uses[k] < |blocks| && UseReads(blocks[uses[k]], turn.toolCalls[k]))
    && |content| == |kept|
    && (forall k :: 0 <= k < |kept| ==> kept[k] < |blocks| && BlockKept(blocks[kept[k]], content[k]))
    && (turn.final.None? <==> uses != [])
    && (uses == [] ==> exists parts: seq<string> ::
          && |parts| == |texts|
          && (forall k :: 0 <= k < |texts| ==> texts[k] < |blocks| && blocks[texts[k]] == TextBlock(parts[k]))
          && turn.final == Some(decode(T.Join("\n", parts))))
  }

  lemma GivenIs(input: Json)
    ensures OrEmpty(input) == Given(input)
  {
    TruthyIff(input);
  }

  lemma {:induction false} CallsAreUses(blocks: seq<Block>)
    ensures var uses := Where(blocks, (b: Block) => b.ToolUse?);
            && |CallsOf(blocks)| == |uses|
            && forall k :: 0 <= k < |uses| ==> uses[k] < |blocks| && UseReads(blocks[uses[k]], CallsOf(blocks)[k])
  {
    hide OrEmpty, Given;
    if blocks != [] {
      var last := blocks[|blocks| - 1];
      CallsAreUses(blocks[..|blocks| - 1]);
      if last.ToolUse? {
        GivenIs(last.input);
      }
    }
  }

  lemma {:induction false} KeptAreBlocks(blocks: seq<Block>)
    ensures var kept := Where(blocks, (b: Block) => !b.OtherBlock?);
            && |Kept(blocks)| == |kept|
            && forall k :: 0 <= k < |kept| ==> kept[k] < |blocks| && BlockKept(blocks[kept[k]], Kept(blocks)[k])
  {
    hide OrEmpty, Given;
    if blocks != [] {
      var last := blocks[|blocks| - 1];
      KeptAreBlocks(blocks[..|blocks| - 1]);
      if last.ToolUse? {
        GivenIs(last.input);
      }
    }
  }

  lemma {:induction false} TextsAreBlocks(blocks: seq<Block>)
    ensures var texts := Where(blocks, (b: Block) => b.TextBlock?);
            && |TextsOf(blocks)| == |texts|
            && forall k :: 0 <= k < |texts| ==> texts[k] < |blocks| && blocks[texts[k]] == TextBlock(TextsOf(blocks)[k])
  {
    if blocks != [] {
      TextsAreBlocks(blocks[..|blocks| - 1]);
    }
  }

  /** Every block of a reply ends up where it must, with its own id, name and arguments. */
  lemma AnthropicTurnTells(decode: Decoder, blocks: seq<Block>)
    ensures AnthropicReads(decode, blocks, Kept(blocks), AnthropicTurn(decode, blocks))
  {
    hide CallsOf, Kept, TextsOf, UseReads, BlockKept;
    CallsAreUses(blocks);
    KeptAreBlocks(blocks);
    TextsAreBlocks(blocks);
  }

  /** The adapter's messages after the loop has driven it through a trace. */
  function AnthropicMessages(provider: seq<AnthropicMessage> -> Option<seq<Block>>, trace: seq<Event>)
    : seq<AnthropicMessage>
  {
    if trace == [] then []
    else
      var before := AnthropicMessages(provider, trace[..|trace| - 1]);
      match trace[|trace| - 1]
      case Started(question) => [UserText(question)]
      case Asked(_) =>
        (match provider(before) case Some(blocks) => before + [Assistant(Kept(blocks))] case None => before)
      case Submitted(results) => before + [ToolResults(results)]
  }

  /** The adapter as a model for the loop. */
  function AnthropicPolicy(decode: Decoder, provider: seq<AnthropicMessage> -> Option<seq<Block>>): Policy {
    trace =>
      match provider(AnthropicMessages(provider, trace))
      case Some(blocks) => Some(AnthropicTurn(decode, blocks))
      case None => None
  }

  class AnthropicLLM {
    const decode: Decoder
    const provider: seq<AnthropicMessage> -> Option<seq<Block>>
    var messages: seq<AnthropicMessage>
    /** The calls made on this object, for the proof. */
    ghost var trace: seq<Event>

    ghost predicate Valid()
      reads this
    {
      messages == AnthropicMessages(provider, trace)
    }

    constructor (decode: Decoder, provider: seq<AnthropicMessage> -> Option<seq<Block>>)
      ensures Valid() && trace == [] && this.decode == decode && this.provider == provider
    {
      this.decode, this.provider := decode, provider;
      messages, trace := [], [];
    }

    method Start(user: string)
      requires Valid()
      modifies this
      ensures Valid() && trace == old(trace) + [Started(user)]
      ensures messages == [UserText(user)]
    {
      messages := [UserText(user)];
      trace := trace + [Started(user)];
      assert trace[..|trace| - 1] == old(trace);
    }

    /** `next_turn`: what the policy answers, recorded in the transcript. */
    method NextTurn() returns (turn: Option<Turn>)
      requires Valid()
      modifies this
      ensures turn == AnthropicPolicy(decode, provider)(old(trace))
      ensures turn.Some? <==> provider(old(messages)).Some?
      ensures Valid() && old(messages) <= messages
      ensures turn.Some? ==>
                && |messages| == |old(messages)| + 1 && messages[|old(messages)|].Assistant?
                && AnthropicReads(decode, provider(old(messages)).value, messages[|old(messages)|].content, turn.value)
      ensures trace == if turn.Some? then old(trace) + [Asked(turn.value)] else old(trace)
    {
      var resp := provider(messages);
      if resp.None? {
        return None;
      }
      var content := resp.value;
      var assistantContent: seq<Block>, toolCalls: seq<ToolCall>, textParts: seq<string> := [], [], [];
      for i := 0 to |content|
        invariant messages == old(messages) && trace == old(trace)
        invariant assistantContent == Kept(content[..i])
        invariant toolCalls == CallsOf(content[..i])
        invariant textParts == TextsOf(content[..i])
      {
        assert content[..i + 1][..i] == content[..i];
        match content[i]
        case ToolUse(id, name, input) =>
          toolCalls := toolCalls + [ToolCall(id, name, OrEmpty(input))];
          assistantContent := assistantContent + [ToolUse(id, name, OrEmpty(input))];
        case TextBlock(text) =>
          textParts := textParts + [text];
          assistantContent := assistantContent + [TextBlock(text)];
        case OtherBlock =>
      }
      assert content[..|content|] == content;
      messages := messages + [Assistant(assistantContent)];
      turn := if toolCalls != [] then Some(Turn(toolCalls, None))
              else Some(Turn([], Some(decode(T.Join("\n", textParts)))));
      trace := trace + [Asked(turn.value)];
      assert trace[..|trace| - 1] == old(trace);
      AnthropicTurnTells(decode, content);
    }

    method SubmitToolResults(results: seq<ToolResult>)
      requires Valid()
      modifies this
      ensures Valid() && trace == old(trace) + [Submitted(results)]
      ensures messages == old(messages) + [ToolResults(results)]
    {
      messages := messages + [ToolResults(results)];
      trace := trace + [Submitted(results)];
      assert trace[..|trace| - 1] == old(trace);
    }
  }

  function Uses(blocks: seq<Block>): seq<Asking> {
    if blocks == [] then []
    else
      match blocks[|blocks| - 1]
      case ToolUse(id, name, input) => Uses(blocks[..|blocks| - 1]) + [Asking(id, name, input)]
      case _ => Uses(blocks[..|blocks| - 1])
  }

  function AnthropicItems(messages: seq<AnthropicMessage>): seq<Item> {
    if messages == [] then []
    else
      AnthropicItems(messages[..|messages| - 1]) +
      match messages[|messages| - 1]
      case UserText(text) => [Question(text)]
      case Assistant(content) => [Requests(Uses(content))]
      case ToolResults(results) => AnswersOf(results)
  }

  lemma {:induction false} AnthropicItemsSnoc(messages: seq<AnthropicMessage>, m: AnthropicMessage)
    ensures AnthropicItems(messages + [m]) == AnthropicItems(messages) + AnthropicItems([m])
  {
    assert (messages + [m])[..|messages|] == messages;
    assert [m][..0] == [] && AnthropicItems([]) == [];
  }

  lemma {:induction false} UsesAreCalls(blocks: seq<Block>)
    ensures Uses(Kept(blocks)) == Askings(CallsOf(blocks))
  {
    if blocks != [] {
      var n := |blocks| - 1;
      var kept := Kept(blocks[..n]);
      UsesAreCalls(blocks[..n]);
      assert forall b: Block :: (kept + [b])[..|kept|] == kept;
    }
  }

  /** Roles strictly alternate, starting with the user. */
  ghost predicate Alternates(messages: seq<AnthropicMessage>) {
    && (messages != [] ==> !messages[0].Assistant?)
    && forall i {:trigger messages[i]} :: 0 < i < |messages| ==>
         (messages[i].Assistant? <==> !messages[i - 1].Assistant?)
  }

  ghost predicate AskedOf(policy: Policy, trace: seq<Event>) {
    Protocol(trace) && Consistent(policy, trace)
  }

  lemma {:induction false} PrefixAskedOf(policy: Policy, trace: seq<Event>)
    requires AskedOf(policy, trace) && |trace| > 1
    ensures AskedOf(policy, trace[..|trace| - 1])
    ensures trace[|trace| - 1].Asked? ==> policy(trace[..|trace| - 1]) == Some(trace[|trace| - 1].turn)
  {
    var init := trace[..|trace| - 1];
    forall i | 0 <= i < |init| && init[i].Asked? ensures policy(init[..i]) == Some(init[i].turn) {
      assert init[..i] == trace[..i];
    }
  }

  lemma {:induction false} AlternatesSnoc(messages: seq<AnthropicMessage>, m: AnthropicMessage)
    requires Alternates(messages) && messages != [] && (m.Assistant? <==> !messages[|messages| - 1].Assistant?)
    ensures Alternates(messages + [m])
  {
  }

  ghost predicate AnthropicReplayed(messages: seq<AnthropicMessage>, trace: seq<Event>) {
    && AnthropicItems(messages) == History(trace)
    && Alternates(messages) && messages != [] && trace != []
    && (messages[|messages| - 1].Assistant? <==> trace[|trace| - 1].Asked?)
  }

  lemma {:induction false} AnthropicStep(messages: seq<AnthropicMessage>, m: AnthropicMessage,
                                         trace: seq<Event>, e: Event)
    requires AnthropicReplayed(messages, trace)
    requires AnthropicItems([m]) == ItemsOf(e)
    requires m.Assistant? <==> e.Asked?
    requires e.Asked? <==> !trace[|trace| - 1].Asked?
    ensures AnthropicReplayed(messages + [m], trace + [e])
  {
    AnthropicItemsSnoc(messages, m);
    AlternatesSnoc(messages, m);
    assert (trace + [e])[..|trace|] == trace;
  }

  lemma {:induction false} AnthropicMessagesSnoc(provider: seq<AnthropicMessage> -> Option<seq<Block>>,
                                                 trace: seq<Event>, e: Event)
    ensures var before := AnthropicMessages(provider, trace);
            AnthropicMessages(provider, trace + [e]) ==
            match e
            case Started(question) => [UserText(question)]
            case Asked(_) =>
        (match provider(before) case Some(blocks) => before + [Assistant(Kept(blocks))] case None => before)
            case Submitted(results) => before + [ToolResults(results)]
  {
    assert (trace + [e])[..|trace|] == trace;
  }

  /** The assistant message that is recorded asks for what the turn asks for. */
  lemma {:induction false} AnthropicRecordsTurn(decode: Decoder, blocks: seq<Block>)
    ensures AnthropicItems([Assistant(Kept(blocks))]) == ItemsOf(Asked(AnthropicTurn(decode, blocks)))
  {
    UsesAreCalls(blocks);
    SingleAnthropic(Assistant(Kept(blocks)));
    assert AnthropicTurn(decode, blocks).toolCalls == CallsOf(blocks);
  }

  lemma {:induction false} AnthropicAsked(decode: Decoder, provider: seq<AnthropicMessage> -> Option<seq<Block>>,
                                          trace: seq<Event>, turn: Turn)
    requires AnthropicReplayed(AnthropicMessages(provider, trace), trace) && !trace[|trace| - 1].Asked?
    requires AnthropicPolicy(decode, provider)(trace) == Some(turn)
    ensures AnthropicReplayed(AnthropicMessages(provider, trace + [Asked(turn)]), trace + [Asked(turn)])
  {
    hide Kept, CallsOf, TextsOf, T.Join, AnthropicItems, History, Alternates;
    var before := AnthropicMessages(provider, trace);
    var blocks := provider(before).value;
    AnthropicMessagesSnoc(provider, trace, Asked(turn));
    AnthropicRecordsTurn(decode, blocks);
    AnthropicStep(before, Assistant(Kept(blocks)), trace, Asked(turn));
  }

  lemma {:induction false} AnthropicSubmitted(provider: seq<AnthropicMessage> -> Option<seq<Block>>,
                                              trace: seq<Event>, results: seq<ToolResult>)
    requires AnthropicReplayed(AnthropicMessages(provider, trace), trace) && trace[|trace| - 1].Asked?
    ensures AnthropicReplayed(AnthropicMessages(provider, trace + [Submitted(results)]), trace + [Submitted(results)])
  {
    hide AnthropicItems, History, Alternates;
    var before := AnthropicMessages(provider, trace);
    AnthropicMessagesSnoc(provider, trace, Submitted(results));
    SingleAnthropic(ToolResults(results));
    AnthropicStep(before, ToolResults(results), trace, Submitted(results));
  }

  lemma {:induction false} AnthropicStarted(provider: seq<AnthropicMessage> -> Option<seq<Block>>, question: string)
    ensures AnthropicReplayed(AnthropicMessages(provider, [Started(question)]), [Started(question)])
  {
    AnthropicMessagesSnoc(provider, [], Started(question));
    assert [] + [Started(question)] == [Started(question)];
    SingleAnthropic(UserText(question));
    assert [Started(question)][..0] == [] && History([]) == [];
  }

  /** The shape of a trace the loop may leave. */
  lemma {:induction false} TraceShape(policy: Policy, trace: seq<Event>)
    requires AskedOf(policy, trace)
    ensures trace != []
    ensures |trace| == 1 ==> trace[0].Started? && trace == [Started(trace[0].question)]
    ensures |trace| > 1 ==>
              && !trace[|trace| - 1].Started? && trace == trace[..|trace| - 1] + [trace[|trace| - 1]]
              && (trace[|trace| - 1].Asked? <==> !trace[|trace| - 2].Asked?)
  {
    hide Consistent, Answers;
  }

  lemma {:induction false} AnthropicReplay(decode: Decoder, provider: seq<AnthropicMessage> -> Option<seq<Block>>,
                                           trace: seq<Event>)
    requires AskedOf(AnthropicPolicy(decode, provider), trace)
    ensures AnthropicReplayed(AnthropicMessages(provider, trace), trace)
  {
    hide AskedOf, AnthropicReplayed, AnthropicMessages, AnthropicPolicy;
    TraceShape(AnthropicPolicy(decode, provider), trace);
    var n := |trace| - 1;
    if n == 0 {
      AnthropicStarted(provider, trace[0].question);
    } else {
      PrefixAskedOf(AnthropicPolicy(decode, provider), trace);
      AnthropicReplay(decode, provider, trace[..n]);
      assert trace[..n][n - 1] == trace[n - 1];
      match trace[n]
      case Asked(turn) => AnthropicAsked(decode, provider, trace[..n], turn);
      case Submitted(results) => AnthropicSubmitted(provider, trace[..n], results);
    }
  }

  lemma {:induction false} SingleAnthropic(m: AnthropicMessage)
    ensures AnthropicItems([m]) ==
            match m
            case UserText(text) => [Question(text)]
            case Assistant(content) => [Requests(Uses(content))]
            case ToolResults(results) => AnswersOf(results)
  {
    assert [m][..0] == [] && AnthropicItems([]) == [];
  }

  lemma AnthropicFinals(decode: Decoder, provider: seq<AnthropicMessage> -> Option<seq<Block>>)
    ensures FinalsAskNothing(AnthropicPolicy(decode, provider))
  {
    var policy := AnthropicPolicy(decode, provider);
    forall trace | policy(trace).Some? && policy(trace).value.final.Some? ensures policy(trace).value.toolCalls == [] {
      var blocks := provider(AnthropicMessages(provider, trace)).value;
      assert policy(trace).value == AnthropicTurn(decode, blocks);
    }
  }

  /** Over every run of the loop with the Anthropic adapter, against any provider: roles
      alternate, the wire transcript says exactly what the neutral run said, and every tool
      use is answered once, in order, before the next assistant message. Only the last turn's
      can be pending, and not even these once the run has returned a result. */
  lemma {:induction false} AnthropicRuns(a: Agent, decode: Decoder,
                                         provider: seq<AnthropicMessage> -> Option<seq<Block>>,
                                         l: Tools.Ledger, question: string, maxSteps: int)
    requires a.policy == AnthropicPolicy(decode, provider)
    ensures var trace := Run(a, l, question, maxSteps).conversation.trace;
            var messages := AnthropicMessages(provider, trace);
            && trace != [] && Alternates(messages)
            && AnthropicItems(messages) == History(trace)
            && Pending(AnthropicItems(messages)) == Some(StillPending(trace[|trace| - 1]))
            && (Run(a, l, question, maxSteps).outcome.Finished? ==> Pending(AnthropicItems(messages)) == Some([]))
  {
    hide Run;
    LoopProtocol(a, l, question, maxSteps);
    AnthropicReplay(decode, provider, Run(a, l, question, maxSteps).conversation.trace);
    AnthropicFinals(decode, provider);
    RunsArePaired(a, l, question, maxSteps);
  }
}
