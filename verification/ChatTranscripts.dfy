/** agent/llm.py: the two adapters that speak the chat-completions dialect, OpenAI and
    Ollama. They differ in what a call looks like on the wire, and in who makes up its id. */
module ChatTranscripts {
  import opened Wrappers
  import opened Json
  import opened Loop
  import opened LoopSafety
  import opened Transcripts
  import T = Text
  import Tools

  /** A message, with calls of either wire format. */
  datatype ChatMessage<C> =
    | System(text: string)
    | User(text: string)
    | Assistant(content: string, calls: Option<seq<C>>)
    | Tool(callId: string, result: Text)

  /** The provider's message: missing and null content or calls are alike. */
  datatype Reply<C> = Reply(content: Option<string>, calls: seq<C>)

  function ContentOf<C>(r: Reply<C>): string {
    match r.content case Some(s) => s case None => ""
  }

  function Recorded<C>(r: Reply<C>): ChatMessage<C> {
    ChatMessage.Assistant(ContentOf(r), if r.calls == [] then None else Some(r.calls))
  }

  function ToolMessages<C>(results: seq<ToolResult>): (r: seq<ChatMessage<C>>)
    ensures |r| == |results|
  {
    seq(|results|, i requires 0 <= i < |results| => Tool(results[i].toolUseId, results[i].content))
  }

  function TurnOf<C(!new)>(decode: Decoder, read: seq<C> -> seq<ToolCall>, r: Reply<C>): Turn {
    if r.calls != [] then Turn(read(r.calls), None) else Turn([], Some(decode(ContentOf(r))))
  }

  type Provider<!C(!new)> = seq<ChatMessage<C>> -> Option<Reply<C>>

  /** The adapter's messages after the loop has driven it through a trace. */
  function ChatMessages<C(!new)>(system: string, provider: Provider<C>, trace: seq<Event>): seq<ChatMessage<C>> {
    if trace == [] then []
    else
      var before := ChatMessages(system, provider, trace[..|trace| - 1]);
      match trace[|trace| - 1]
      case Started(question) => [System(system), User(question)]
      case Asked(_) => (match provider(before) case Some(r) => before + [Recorded(r)] case None => before)
      case Submitted(results) => before + ToolMessages(results)
  }

  /** The adapter as a model for the loop. */
  function ChatPolicy<C(!new)>(system: string, decode: Decoder, read: seq<C> -> seq<ToolCall>,
                               provider: Provider<C>): Policy {
    trace =>
      match provider(ChatMessages(system, provider, trace))
      case Some(r) => Some(TurnOf(decode, read, r))
      case None => None
  }

  // ---- OpenAI -------------------------------------------------------------------------------

  datatype OpenAICall = OpenAICall(id: string, name: string, arguments: string)

  function Arguments(decode: Decoder, text: string): Json {
    if text == "" then Dict([])
    else match decode(text) case Encoded(v) => v case Garbage(_) => Dict([])
  }

  function OpenAICalls(decode: Decoder, calls: seq<OpenAICall>): (r: seq<ToolCall>)
    ensures |r| == |calls|
  {
    seq(|calls|, i requires 0 <= i < |calls| =>
      ToolCall(calls[i].id, calls[i].name, Arguments(decode, calls[i].arguments)))
  }

  /** The arguments a text on the wire stands for: none when it is empty or not JSON. */
  ghost function TextGiven(decode: Decoder, text: string): Json {
    if text != "" && decode(text).Encoded? then decode(text).value else Dict([])
  }

  ghost function OpenAIAsks(decode: Decoder): seq<OpenAICall> -> seq<Asking> {
    (calls: seq<OpenAICall>) =>
      seq(|calls|, i requires 0 <= i < |calls| =>
        Asking(calls[i].id, calls[i].name, TextGiven(decode, calls[i].arguments)))
  }

  /** What any chat message records of a reply. */
  ghost predicate RecordedAs<C>(r: Reply<C>, m: ChatMessage<C>) {
    m == ChatMessage.Assistant(if r.content.Some? then r.content.value else "",
                               if |r.calls| == 0 then None else Some(r.calls))
  }

  /** How the adapter must read a reply: each call with its own id, name and arguments, or else
      the content as the final answer. */
  ghost predicate OpenAIReads(decode: Decoder, r: Reply<OpenAICall>, turn: Turn) {
    if |r.calls| == 0 then turn == Turn([], Some(decode(if r.content.Some? then r.content.value else "")))
    else
      && turn.final.None? && |turn.toolCalls| == |r.calls|
      && forall k :: 0 <= k < |r.calls| ==>
           turn.toolCalls[k] == ToolCall(r.calls[k].id, r.calls[k].name, TextGiven(decode, r.calls[k].arguments))
  }

  function OpenAIPolicy(system: string, decode: Decoder, provider: Provider<OpenAICall>): Policy {
    ChatPolicy(system, decode, calls => OpenAICalls(decode, calls), provider)
  }

  class OpenAILLM {
    const system: string
    const decode: Decoder
    const provider: Provider<OpenAICall>
    var messages: seq<ChatMessage<OpenAICall>>
    /** The calls made on this object, for the proof. */
    ghost var trace: seq<Event>

    ghost predicate Valid()
      reads this
    {
      messages == ChatMessages(system, provider, trace)
    }

    constructor (system: string, decode: Decoder, provider: Provider<OpenAICall>)
      ensures Valid() && trace == []
      ensures this.system == system && this.decode == decode && this.provider == provider
    {
      this.system, this.decode, this.provider := system, decode, provider;
      messages, trace := [], [];
    }

    method Start(user: string)
      requires Valid()
      modifies this
      ensures Valid() && trace == old(trace) + [Started(user)]
      ensures messages == [System(system), User(user)]
    {
      messages := [System(system), User(user)];
      trace := trace + [Started(user)];
      assert trace[..|trace| - 1] == old(trace);
    }

    /** `next_turn`: what the policy answers, recorded in the transcript. */
    method NextTurn() returns (turn: Option<Turn>)
      requires Valid()
      modifies this
      ensures turn == OpenAIPolicy(system, decode, provider)(old(trace))
      ensures turn.Some? <==> provider(old(messages)).Some?
      ensures Valid() && old(messages) <= messages
      ensures turn.Some? ==>
                && |messages| == |old(messages)| + 1
                && RecordedAs(provider(old(messages)).value, messages[|old(messages)|])
                && OpenAIReads(decode, provider(old(messages)).value, turn.value)
      ensures trace == if turn.Some? then old(trace) + [Asked(turn.value)] else old(trace)
    {
      var resp := provider(messages);
      if resp.None? {
        return None;
      }
      var msg := resp.value;
      messages := messages + [ChatMessage.Assistant(ContentOf(msg), if msg.calls == [] then None else Some(msg.calls))];
      if msg.calls != [] {
        var toolCalls: seq<ToolCall> := [];
        for i := 0 to |msg.calls|
          invariant messages == old(messages) + [Recorded(msg)] && trace == old(trace)
          invariant toolCalls == OpenAICalls(decode, msg.calls[..i])
        {
          var call := msg.calls[i];
          var args := Dict([]);
          if call.arguments != "" {
            match decode(call.arguments)
            case Encoded(v) => args := v;
            case Garbage(_) =>
          }
          toolCalls := toolCalls + [ToolCall(call.id, call.name, args)];
        }
        assert msg.calls[..|msg.calls|] == msg.calls;
        turn := Some(Turn(toolCalls, None));
      } else {
        turn := Some(Turn([], Some(decode(ContentOf(msg)))));
      }
      trace := trace + [Asked(turn.value)];
      assert trace[..|trace| - 1] == old(trace);
    }

    method SubmitToolResults(results: seq<ToolResult>)
      requires Valid()
      modifies this
      ensures Valid() && trace == old(trace) + [Submitted(results)]
      ensures messages == old(messages) + ToolMessages(results)
    {
      for i := 0 to |results|
        invariant messages == old(messages) + ToolMessages(results[..i]) && trace == old(trace)
      {
        messages := messages + [Tool(results[i].toolUseId, results[i].content)];
      }
      assert results[..|results|] == results;
      trace := trace + [Submitted(results)];
      assert trace[..|trace| - 1] == old(trace);
    }
  }

  // ---- Ollama -------------------------------------------------------------------------------

  datatype RawArguments = AsText(text: string) | AsValue(value: Json)

  /** A call as Ollama sends it: every part may be missing. */
  datatype RawCall = RawCall(id: Option<string>, function_: Option<RawFunction>)
  datatype RawFunction = RawFunction(name: Option<string>, arguments: Option<RawArguments>)

  function FunctionOf(c: RawCall): RawFunction {
    match c.function_ case Some(f) => f case None => RawFunction(None, None)
  }

  function RawName(c: RawCall, default: string): string {
    match FunctionOf(c).name case Some(name) => name case None => default
  }

  /** The id Ollama gave, or one made from the position and the name. */
  function CallId(i: nat, c: RawCall): string {
    match c.id
    case Some(id) => if id != "" then id else "ollama_" + T.Decimal(i) + "_" + RawName(c, "tool")
    case None => "ollama_" + T.Decimal(i) + "_" + RawName(c, "tool")
  }

  function RawArgs(decode: Decoder, c: RawCall): Json {
    match FunctionOf(c).arguments
    case None => Dict([])
    case Some(AsValue(v)) => OrEmpty(v)
    case Some(AsText(text)) => (match decode(text) case Encoded(v) => OrEmpty(v) case Garbage(_) => Dict([]))
  }

  function OllamaCalls(decode: Decoder, calls: seq<RawCall>): (r: seq<ToolCall>)
    ensures |r| == |calls|
  {
    seq(|calls|, i requires 0 <= i < |calls| =>
      ToolCall(CallId(i, calls[i]), RawName(calls[i], ""), RawArgs(decode, calls[i])))
  }

  /** The call a reply's `i`-th call stands for: a missing or empty id is made up from the
      position and the name, a missing name is empty, and arguments that are missing, falsy or
      a text that is not JSON are none. */
  ghost function RawGiven(decode: Decoder, i: nat, c: RawCall): ToolCall {
    var name := if c.function_.Some? then c.function_.value.name else None;
    var args := if c.function_.Some? then c.function_.value.arguments else None;
    ToolCall(
      if c.id.Some? && |c.id.value| > 0 then c.id.value
      else "ollama_" + T.Decimal(i) + "_" + (if name.Some? then name.value else "tool"),
      if name.Some? then name.value else "",
      match args
      case None => Dict([])
      case Some(AsValue(v)) => Given(v)
      case Some(AsText(text)) => if decode(text).Encoded? then Given(decode(text).value) else Dict([]))
  }

  ghost function OllamaAsks(decode: Decoder): seq<RawCall> -> seq<Asking> {
    (calls: seq<RawCall>) =>
      seq(|calls|, i requires 0 <= i < |calls| =>
        Asking(RawGiven(decode, i, calls[i]).id, RawGiven(decode, i, calls[i]).name,
               RawGiven(decode, i, calls[i]).arguments))
  }

  /** How the adapter must read a reply. */
  ghost predicate OllamaReads(decode: Decoder, r: Reply<RawCall>, turn: Turn) {
    if |r.calls| == 0 then turn == Turn([], Some(decode(if r.content.Some? then r.content.value else "")))
    else
      && turn.final.None? && |turn.toolCalls| == |r.calls|
      && forall k :: 0 <= k < |r.calls| ==> turn.toolCalls[k] == RawGiven(decode, k, r.calls[k])
  }

  lemma RawCallTells(decode: Decoder, i: nat, c: RawCall)
    ensures ToolCall(CallId(i, c), RawName(c, ""), RawArgs(decode, c)) == RawGiven(decode, i, c)
  {
    hide OrEmpty, Given;
    match FunctionOf(c).arguments
    case None =>
    case Some(AsValue(v)) => GivenIs(v);
    case Some(AsText(text)) =>
      if decode(text).Encoded? {
        GivenIs(decode(text).value);
      }
  }

  /** The turn handed to the loop is the reply's. */
  lemma OllamaTurnTells(decode: Decoder, r: Reply<RawCall>)
    ensures OllamaReads(decode, r, TurnOf(decode, calls => OllamaCalls(decode, calls), r))
  {
    hide RawGiven, CallId, RawName, RawArgs;
    forall k | 0 <= k < |r.calls| ensures OllamaCalls(decode, r.calls)[k] == RawGiven(decode, k, r.calls[k]) {
      RawCallTells(decode, k, r.calls[k]);
    }
  }

  lemma OllamaReadsTheWire(decode: Decoder)
    ensures ReadsTheWire((calls: seq<RawCall>) => OllamaCalls(decode, calls), OllamaAsks(decode))
  {
    hide RawGiven, CallId, RawName, RawArgs;
    forall calls ensures Askings(OllamaCalls(decode, calls)) == OllamaAsks(decode)(calls) {
      forall i | 0 <= i < |calls| ensures Askings(OllamaCalls(decode, calls))[i] == OllamaAsks(decode)(calls)[i] {
        RawCallTells(decode, i, calls[i]);
      }
    }
  }

  function OllamaPolicy(system: string, decode: Decoder, provider: Provider<RawCall>): Policy {
    ChatPolicy(system, decode, calls => OllamaCalls(decode, calls), provider)
  }

  class OllamaLLM {
    const system: string
    const decode: Decoder
    const provider: Provider<RawCall>
    var messages: seq<ChatMessage<RawCall>>
    /** The calls made on this object, for the proof. */
    ghost var trace: seq<Event>

    ghost predicate Valid()
      reads this
    {
      messages == ChatMessages(system, provider, trace)
    }

    constructor (system: string, decode: Decoder, provider: Provider<RawCall>)
      ensures Valid() && trace == []
      ensures this.system == system && this.decode == decode && this.provider == provider
    {
      this.system, this.decode, this.provider := system, decode, provider;
      messages, trace := [], [];
    }

    method Start(user: string)
      requires Valid()
      modifies this
      ensures Valid() && trace == old(trace) + [Started(user)]
      ensures messages == [System(system), User(user)]
    {
      messages := [System(system), User(user)];
      trace := trace + [Started(user)];
      assert trace[..|trace| - 1] == old(trace);
    }

    /** One call of a reply, with the id it came with or one made up for it. */
    method ReadCall(i: nat, tc: RawCall) returns (call: ToolCall)
      ensures call == ToolCall(CallId(i, tc), RawName(tc, ""), RawArgs(decode, tc)) == RawGiven(decode, i, tc)
    {
      var f := FunctionOf(tc);
      var args := Dict([]);
      match f.arguments {
        case None =>
        case Some(AsValue(v)) => args := v;
        case Some(AsText(text)) =>
          match decode(text)
          case Encoded(v) => args := v;
          case Garbage(_) =>
      }
      var id := if tc.id.Some? && tc.id.value != "" then tc.id.value
                else "ollama_" + T.Decimal(i) + "_" + (if f.name.Some? then f.name.value else "tool");
      call := ToolCall(id, if f.name.Some? then f.name.value else "", OrEmpty(args));
    }

    /** `next_turn`: what the policy answers, recorded in the transcript. */
    method NextTurn() returns (turn: Option<Turn>)
      requires Valid()
      modifies this
      ensures turn == OllamaPolicy(system, decode, provider)(old(trace))
      ensures turn.Some? <==> provider(old(messages)).Some?
      ensures Valid() && old(messages) <= messages
      ensures turn.Some? ==>
                && |messages| == |old(messages)| + 1
                && RecordedAs(provider(old(messages)).value, messages[|old(messages)|])
                && OllamaReads(decode, provider(old(messages)).value, turn.value)
      ensures trace == if turn.Some? then old(trace) + [Asked(turn.value)] else old(trace)
    {
      hide RawGiven, CallId, RawName, RawArgs, OllamaReads;
      var resp := provider(messages);
      if resp.None? {
        return None;
      }
      var msg := resp.value;
      messages := messages + [ChatMessage.Assistant(ContentOf(msg), if msg.calls == [] then None else Some(msg.calls))];
      if msg.calls != [] {
        var toolCalls: seq<ToolCall> := [];
        for i := 0 to |msg.calls|
          invariant messages == old(messages) + [Recorded(msg)] && trace == old(trace)
          invariant toolCalls == OllamaCalls(decode, msg.calls[..i])
        {
          var call := ReadCall(i, msg.calls[i]);
          toolCalls := toolCalls + [call];
        }
        assert msg.calls[..|msg.calls|] == msg.calls;
        turn := Some(Turn(toolCalls, None));
      } else {
        turn := Some(Turn([], Some(decode(ContentOf(msg)))));
      }
      trace := trace + [Asked(turn.value)];
      assert trace[..|trace| - 1] == old(trace);
      OllamaTurnTells(decode, msg);
    }

    method SubmitToolResults(results: seq<ToolResult>)
      requires Valid()
      modifies this
      ensures Valid() && trace == old(trace) + [Submitted(results)]
      ensures messages == old(messages) + ToolMessages(results)
    {
      for i := 0 to |results|
        invariant messages == old(messages) + ToolMessages(results[..i]) && trace == old(trace)
      {
        messages := messages + [Tool(results[i].toolUseId, results[i].content)];
      }
      assert results[..|results|] == results;
      trace := trace + [Submitted(results)];
      assert trace[..|trace| - 1] == old(trace);
    }
  }

  // ---- runs of either adapter ------------------------------------------------------------------

  /** What a message says, given how to read the calls on the wire. */
  function ChatItem<C(!new)>(asks: seq<C> -> seq<Asking>, m: ChatMessage<C>): seq<Item> {
    match m
    case System(_) => []
    case User(text) => [Question(text)]
    case Assistant(_, Some(calls)) => [Requests(asks(calls))]
    case Assistant(_, None) => [Requests([])]
    case Tool(id, content) => [Answer(id, content)]
  }

  function ChatItems<C(!new)>(asks: seq<C> -> seq<Asking>, messages: seq<ChatMessage<C>>): seq<Item> {
    if messages == [] then []
    else ChatItems(asks, messages[..|messages| - 1]) + ChatItem(asks, messages[|messages| - 1])
  }

  lemma {:induction false} ChatItemsSnoc<C(!new)>(asks: seq<C> -> seq<Asking>, messages: seq<ChatMessage<C>>,
                                                  m: ChatMessage<C>)
    ensures ChatItems(asks, messages + [m]) == ChatItems(asks, messages) + ChatItem(asks, m)
  {
    assert (messages + [m])[..|messages|] == messages;
  }

  lemma {:induction false} OneMoreAnswer<C(!new)>(asks: seq<C> -> seq<Asking>, messages: seq<ChatMessage<C>>,
                                            results: seq<ToolResult>, r: ToolResult)
    requires ChatItems(asks, messages + ToolMessages(results)) == ChatItems(asks, messages) + AnswersOf(results)
    ensures ChatItems(asks, messages + ToolMessages(results + [r])) ==
            ChatItems(asks, messages) + AnswersOf(results + [r])
  {
    hide ChatItems;
    var last: ChatMessage<C> := Tool(r.toolUseId, r.content);
    ChatItemsSnoc(asks, messages + ToolMessages(results), last);
    assert messages + ToolMessages(results + [r]) == messages + ToolMessages(results) + [last];
    assert AnswersOf(results + [r]) == AnswersOf(results) + ChatItem(asks, last);
  }

  lemma {:induction false} ChatItemsOfAnswers<C(!new)>(asks: seq<C> -> seq<Asking>, messages: seq<ChatMessage<C>>,
                                                 results: seq<ToolResult>)
    ensures ChatItems(asks, messages + ToolMessages(results)) == ChatItems(asks, messages) + AnswersOf(results)
  {
    if results == [] {
      assert messages + ToolMessages(results) == messages;
      assert AnswersOf(results) == [] && ChatItems(asks, messages) + [] == ChatItems(asks, messages);
    } else {
      var n := |results| - 1;
      ChatItemsOfAnswers(asks, messages, results[..n]);
      OneMoreAnswer(asks, messages, results[..n], results[n]);
      assert results == results[..n] + [results[n]];
    }
  }

  /** The reading of calls from the wire agrees with the calls the adapter hands the loop. */
  ghost predicate ReadsTheWire<C(!new)>(read: seq<C> -> seq<ToolCall>, asks: seq<C> -> seq<Asking>) {
    forall calls :: Askings(read(calls)) == asks(calls)
  }

  lemma {:induction false} RecordedSays<C(!new)>(decode: Decoder, read: seq<C> -> seq<ToolCall>,
                                                 asks: seq<C> -> seq<Asking>, r: Reply<C>)
    requires ReadsTheWire(read, asks)
    ensures ChatItem(asks, Recorded(r)) == ItemsOf(Asked(TurnOf(decode, read, r)))
  {
    assert Askings(read(r.calls)) == asks(r.calls);
  }

  lemma {:induction false} ChatMessagesSnoc<C(!new)>(system: string, provider: Provider<C>, trace: seq<Event>, e: Event)
    ensures var before := ChatMessages(system, provider, trace);
            ChatMessages(system, provider, trace + [e]) ==
            match e
            case Started(question) => [System(system), User(question)]
            case Asked(_) => (match provider(before) case Some(r) => before + [Recorded(r)] case None => before)
            case Submitted(results) => before + ToolMessages(results)
  {
    assert (trace + [e])[..|trace|] == trace;
  }

  lemma {:induction false} HistorySnoc(trace: seq<Event>, e: Event)
    ensures History(trace + [e]) == History(trace) + ItemsOf(e)
  {
    assert (trace + [e])[..|trace|] == trace;
  }

  lemma {:induction false} OpeningItems<C(!new)>(asks: seq<C> -> seq<Asking>, system: string, question: string)
    ensures ChatItems(asks, [System(system), User(question)]) == [Question(question)]
  {
    var s: ChatMessage<C> := System(system);
    ChatItemsSnoc(asks, [], s);
    ChatItemsSnoc(asks, [s], User(question));
    assert [] + [s] == [s];
    assert [s] + [User(question)] == [s, User(question)];
  }

  lemma {:induction false} ChatAsked<C(!new)>(system: string, decode: Decoder, read: seq<C> -> seq<ToolCall>,
                                              asks: seq<C> -> seq<Asking>, provider: Provider<C>, trace: seq<Event>,
                                              turn: Turn)
    requires ReadsTheWire(read, asks)
    requires ChatItems(asks, ChatMessages(system, provider, trace)) == History(trace)
    requires ChatPolicy(system, decode, read, provider)(trace) == Some(turn)
    ensures ChatItems(asks, ChatMessages(system, provider, trace + [Asked(turn)])) == History(trace + [Asked(turn)])
  {
    var before := ChatMessages(system, provider, trace);
    var reply := provider(before).value;
    ChatMessagesSnoc(system, provider, trace, Asked(turn));
    HistorySnoc(trace, Asked(turn));
    RecordedSays(decode, read, asks, reply);
    ChatItemsSnoc(asks, before, Recorded(reply));
  }

  lemma {:induction false} ChatSubmitted<C(!new)>(system: string, asks: seq<C> -> seq<Asking>, provider: Provider<C>,
                                            trace: seq<Event>, results: seq<ToolResult>)
    requires ChatItems(asks, ChatMessages(system, provider, trace)) == History(trace)
    ensures ChatItems(asks, ChatMessages(system, provider, trace + [Submitted(results)])) ==
            History(trace + [Submitted(results)])
  {
    ChatMessagesSnoc(system, provider, trace, Submitted(results));
    HistorySnoc(trace, Submitted(results));
    ChatItemsOfAnswers(asks, ChatMessages(system, provider, trace), results);
  }

  lemma {:induction false} ChatStarted<C(!new)>(system: string, asks: seq<C> -> seq<Asking>, provider: Provider<C>,
                                          question: string)
    ensures ChatItems(asks, ChatMessages(system, provider, [Started(question)])) == History([Started(question)])
  {
    ChatMessagesSnoc(system, provider, [], Started(question));
    HistorySnoc([], Started(question));
    OpeningItems(asks, system, question);
    assert [] + [Started(question)] == [Started(question)];
    assert History([]) + ItemsOf(Started(question)) == [Question(question)];
  }

  lemma {:induction false} ChatReplay<C(!new)>(system: string, decode: Decoder, read: seq<C> -> seq<ToolCall>,
                                         asks: seq<C> -> seq<Asking>, provider: Provider<C>, trace: seq<Event>)
    requires ReadsTheWire(read, asks) && AskedOf(ChatPolicy(system, decode, read, provider), trace)
    ensures ChatItems(asks, ChatMessages(system, provider, trace)) == History(trace)
  {
    hide ChatItems, ChatMessages, History, ReadsTheWire, ChatPolicy, AskedOf;
    TraceShape(ChatPolicy(system, decode, read, provider), trace);
    var n := |trace| - 1;
    if n == 0 {
      ChatStarted(system, asks, provider, trace[0].question);
    } else {
      PrefixAskedOf(ChatPolicy(system, decode, read, provider), trace);
      ChatReplay(system, decode, read, asks, provider, trace[..n]);
      match trace[n]
      case Asked(turn) => ChatAsked(system, decode, read, asks, provider, trace[..n], turn);
      case Submitted(results) => ChatSubmitted(system, asks, provider, trace[..n], results);
    }
  }

  lemma ChatFinals<C(!new)>(system: string, decode: Decoder, read: seq<C> -> seq<ToolCall>, provider: Provider<C>)
    ensures FinalsAskNothing(ChatPolicy(system, decode, read, provider))
  {
    var policy := ChatPolicy(system, decode, read, provider);
    forall trace | policy(trace).Some? && policy(trace).value.final.Some? ensures policy(trace).value.toolCalls == [] {
      var reply := provider(ChatMessages(system, provider, trace)).value;
      assert policy(trace).value == TurnOf(decode, read, reply);
    }
  }

  lemma {:induction false} ChatRuns<C(!new)>(a: Agent, system: string, decode: Decoder, read: seq<C> -> seq<ToolCall>,
                                       asks: seq<C> -> seq<Asking>, provider: Provider<C>,
                                       l: Tools.Ledger, question: string, maxSteps: int)
    requires ReadsTheWire(read, asks) && a.policy == ChatPolicy(system, decode, read, provider)
    ensures var trace := Run(a, l, question, maxSteps).conversation.trace;
            var items := ChatItems(asks, ChatMessages(system, provider, trace));
            && trace != [] && items == History(trace)
            && Pending(items) == Some(StillPending(trace[|trace| - 1]))
            && (Run(a, l, question, maxSteps).outcome.Finished? ==> Pending(items) == Some([]))
  {
    hide Run;
    LoopProtocol(a, l, question, maxSteps);
    ChatReplay(system, decode, read, asks, provider, Run(a, l, question, maxSteps).conversation.trace);
    ChatFinals(system, decode, read, provider);
    RunsArePaired(a, l, question, maxSteps);
  }

  /** Over every run with the OpenAI adapter, against any provider: the wire transcript says
      what the neutral run said, with every call answered once, in order, by its own id. Only
      the last turn's calls can be pending, and none once the run has returned a result. */
  lemma {:induction false} OpenAIRuns(a: Agent, system: string, decode: Decoder, provider: Provider<OpenAICall>,
                                l: Tools.Ledger, question: string, maxSteps: int)
    requires a.policy == OpenAIPolicy(system, decode, provider)
    ensures var trace := Run(a, l, question, maxSteps).conversation.trace;
            var items := ChatItems(OpenAIAsks(decode), ChatMessages(system, provider, trace));
            && trace != [] && items == History(trace)
            && Pending(items) == Some(StillPending(trace[|trace| - 1]))
            && (Run(a, l, question, maxSteps).outcome.Finished? ==> Pending(items) == Some([]))
  {
    var read := (calls: seq<OpenAICall>) => OpenAICalls(decode, calls);
    assert ReadsTheWire(read, OpenAIAsks(decode)) by {
      forall calls ensures Askings(read(calls)) == OpenAIAsks(decode)(calls) {
      }
    }
    ChatRuns(a, system, decode, read, OpenAIAsks(decode), provider, l, question, maxSteps);
  }

  /** The same with the Ollama adapter, whose calls may come without ids: the ids it makes up
      are the ones the answers carry. */
  lemma {:induction false} OllamaRuns(a: Agent, system: string, decode: Decoder, provider: Provider<RawCall>,
                                l: Tools.Ledger, question: string, maxSteps: int)
    requires a.policy == OllamaPolicy(system, decode, provider)
    ensures var trace := Run(a, l, question, maxSteps).conversation.trace;
            var items := ChatItems(OllamaAsks(decode), ChatMessages(system, provider, trace));
            && trace != [] && items == History(trace)
            && Pending(items) == Some(StillPending(trace[|trace| - 1]))
            && (Run(a, l, question, maxSteps).outcome.Finished? ==> Pending(items) == Some([]))
  {
    var read := (calls: seq<RawCall>) => OllamaCalls(decode, calls);
    OllamaReadsTheWire(decode);
    ChatRuns(a, system, decode, read, OllamaAsks(decode), provider, l, question, maxSteps);
  }
}
