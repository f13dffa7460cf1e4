/** mcp_server/tools/base.py with mcp_server/audit.py and mcp_server/metrics.py: what every
    diagnostic tool call does around its body, and the ledgers it leaves behind. */
module Tools {
  import opened Wrappers
  import opened Json
  import opened RateLimit

  datatype Status = Ok | Error | InvalidInput | RateLimited

  function StatusName(s: Status): string {
    match s
    case Ok => "ok"
    case Error => "error"
    case InvalidInput => "invalid_input"
    case RateLimited => "rate_limited"
  }

  datatype AuditRecord = AuditRecord(correlationId: string, tool: string, params: Json, status: Status,
                                     durationMs: real, rowCount: Option<nat>, error: Option<string>)

  /** A line of the audit log, with the execution context that wrote it. */
  datatype LogLine = LogLine(context: nat, record: AuditRecord)

  datatype Series = Series(tool: string, status: Status)

  /** Everything the wrapper writes: the limiter's buckets, the context variable holding the
      correlation id, the audit log, and the three metrics. */
  datatype Ledger = Ledger(table: Table, currentIds: map<nat, string>, log: seq<LogLine>,
                           counter: map<Series, nat>, histogram: map<Series, seq<real>>,
                           gauge: map<string, int>)

  const EMPTY_LEDGER := Ledger(map[], map[], [], map[], map[], map[])

  /** `get_correlation_id` */
  function CurrentId(l: Ledger, context: nat): string {
    if context in l.currentIds then l.currentIds[context] else "-"
  }

  function CounterOf(l: Ledger, s: Series): nat {
    if s in l.counter then l.counter[s] else 0
  }

  function HistogramOf(l: Ledger, s: Series): seq<real> {
    if s in l.histogram then l.histogram[s] else []
  }

  function GaugeOf(l: Ledger, tool: string): int {
    if tool in l.gauge then l.gauge[tool] else 0
  }

  /** `new_correlation_id` */
  function WithNewId(l: Ledger, context: nat, id: string): Ledger {
    l.(currentIds := l.currentIds[context := id])
  }

  /** How a call ends: what is audited, and what the envelope holds after its three
      standard fields. */
  datatype Exit = Exit(status: Status, params: Json, rowCount: Option<nat>, error: Option<string>,
                       tail: seq<Entry>)

  /** `audit` */
  function Audited(l: Ledger, context: nat, tool: string, e: Exit, durationMs: real): Ledger {
    var record := AuditRecord(CurrentId(l, context), tool, e.params, e.status, durationMs, e.rowCount, e.error);
    l.(log := l.log + [LogLine(context, record)])
  }

  /** The two halves of `metrics.record`. */
  function Counted(l: Ledger, s: Series): Ledger {
    l.(counter := l.counter[s := CounterOf(l, s) + 1])
  }

  function Timed(l: Ledger, s: Series, durationMs: real): Ledger {
    l.(histogram := l.histogram[s := HistogramOf(l, s) + [durationMs / 1000.0]])
  }

  /** `metrics.record` */
  function Recorded(l: Ledger, tool: string, status: Status, durationMs: real): Ledger {
    Timed(Counted(l, Series(tool, status)), Series(tool, status), durationMs)
  }

  /** `tool_calls_in_flight.labels(tool).inc()` and `.dec()` */
  function Shifted(l: Ledger, tool: string, step: int): Ledger {
    l.(gauge := l.gauge[tool := GaugeOf(l, tool) + step])
  }

  /** The envelope: the tail is spread last, so it can overwrite the standard fields. */
  function Envelope(id: string, tool: string, e: Exit): seq<Entry> {
    Spread([Entry("status", Str(StatusName(e.status))), Entry("tool", Str(tool)),
            Entry("correlation_id", Str(id))], e.tail)
  }

  // ---- one call ------------------------------------------------------------------------

  /** Pydantic's answer, when the tool has an input model. */
  datatype Verdict = NoModel | Accepted(dump: Json) | Rejected(text: string, errors: Json)

  /** What the tool's own code does: return a dictionary or raise an exception. */
  datatype Body = Returned(fields: seq<Entry>) | Raised(repr: string, text: string)

  /** A call and everything the outside world contributes to it. */
  datatype Input = Input(context: nat, tool: string, kwargs: seq<Entry>, id: string, created: real, now: real,
                         verdict: Verdict, body: Body, durationMs: real)

  const REFUSAL := "per-tool rate limit exceeded"

  function RefusedExit(kwargs: seq<Entry>): Exit {
    Exit(RateLimited, Dict(kwargs), None, Some(REFUSAL), [Entry("error", Str(REFUSAL))])
  }

  function InvalidExit(kwargs: seq<Entry>, text: string, errors: Json): Exit {
    Exit(InvalidInput, Dict(kwargs), None, Some(text), [Entry("error", errors)])
  }

  function LoggedParams(kwargs: seq<Entry>, v: Verdict): Json {
    if v.Accepted? then v.dump else Dict(kwargs)
  }

  function RowCount(fields: seq<Entry>): Option<nat> {
    match Get(fields, "rows")
    case Some(List(rows)) => Some(|rows|)
    case _ => None
  }

  function BodyExit(params: Json, b: Body): Exit {
    match b
    case Returned(fields) => Exit(Ok, params, RowCount(fields), None, fields)
    case Raised(repr, text) => Exit(Error, params, None, Some(repr), [Entry("error", Str(text))])
  }

  datatype Served = Served(ledger: Ledger, envelope: seq<Entry>)

  /** The whole wrapper, when nothing else runs in between. */
  function Serve(cfg: Config, l: Ledger, c: Input): Served {
    var begun := WithNewId(l, c.context, c.id);
    var acquired := Acquire(cfg, begun.table, c.tool, c.created, c.now);
    var admitted := begun.(table := acquired.table);
    if !acquired.granted then Closed(admitted, c, RefusedExit(c.kwargs))
    else if c.verdict.Rejected? then Closed(admitted, c, InvalidExit(c.kwargs, c.verdict.text, c.verdict.errors))
    else
      var inside := Shifted(admitted, c.tool, 1);
      var served := Closed(inside, c, BodyExit(LoggedParams(c.kwargs, c.verdict), c.body));
      served.(ledger := Shifted(served.ledger, c.tool, -1))
  }

  function Closed(l: Ledger, c: Input, e: Exit): Served {
    var done := Recorded(Audited(l, c.context, c.tool, e, c.durationMs), c.tool, e.status, c.durationMs);
    Served(done, Envelope(CurrentId(done, c.context), c.tool, e))
  }

  class ToolServer {
    const limiter: RateLimiter
    var currentIds: map<nat, string>
    var log: seq<LogLine>
    var counter: map<Series, nat>
    var histogram: map<Series, seq<real>>
    var gauge: map<string, int>

    ghost predicate Valid()
      reads this, limiter, limiter.buckets.Values
    {
      limiter.Valid()
    }

    ghost function Contents(): Ledger
      reads this, limiter, limiter.buckets.Values
    {
      Ledger(limiter.Contents(), currentIds, log, counter, histogram, gauge)
    }

    constructor (limiter: RateLimiter)
      requires limiter.Valid()
      ensures Valid() && this.limiter == limiter
      ensures Contents() == EMPTY_LEDGER.(table := limiter.Contents())
    {
      this.limiter := limiter;
      currentIds, log, counter, histogram, gauge := map[], [], map[], map[], map[];
    }

    method NewCorrelationId(context: nat, id: string)
      modifies this
      ensures Contents() == WithNewId(old(Contents()), context, id)
    {
      currentIds := currentIds[context := id];
    }

    method GetCorrelationId(context: nat) returns (id: string)
      ensures id == CurrentId(Contents(), context)
      ensures id == if context in currentIds then currentIds[context] else "-"
    {
      id := if context in currentIds then currentIds[context] else "-";
    }

    method Audit(context: nat, tool: string, e: Exit, durationMs: real)
      modifies this
      ensures Contents() == Audited(old(Contents()), context, tool, e, durationMs)
    {
      var id := GetCorrelationId(context);
      log := log + [LogLine(context, AuditRecord(id, tool, e.params, e.status, durationMs, e.rowCount, e.error))];
    }

    method Record(tool: string, status: Status, durationMs: real)
      modifies this
      ensures Contents() == Recorded(old(Contents()), tool, status, durationMs)
    {
      var s := Series(tool, status);
      counter := counter[s := (if s in counter then counter[s] else 0) + 1];
      histogram := histogram[s := (if s in histogram then histogram[s] else []) + [durationMs / 1000.0]];
    }

    method ShiftGauge(tool: string, step: int)
      modifies this
      ensures Contents() == Shifted(old(Contents()), tool, step)
    {
      gauge := gauge[tool := (if tool in gauge then gauge[tool] else 0) + step];
    }

    /** The common end of the four exits: audit, record, build the envelope. */
    method Close(c: Input, e: Exit) returns (envelope: seq<Entry>)
      modifies this
      ensures Served(Contents(), envelope) == Closed(old(Contents()), c, e)
    {
      Audit(c.context, c.tool, e, c.durationMs);
      Record(c.tool, e.status, c.durationMs);
      var id := GetCorrelationId(c.context);
      envelope := Envelope(id, c.tool, e);
    }

    /** The `wrapper` that `dba_tool` puts around a tool. */
    method Call(c: Input) returns (envelope: seq<Entry>)
      requires Valid()
      modifies this, limiter, limiter.buckets.Values
      ensures Valid()
      ensures forall b <- limiter.buckets.Values :: b in old(limiter.buckets.Values) || fresh(b)
      ensures Served(Contents(), envelope) == Serve(limiter.Settings(), old(Contents()), c)
    {
      hide Gain, Refilled, Audited, Recorded, Envelope;
      NewCorrelationId(c.context, c.id);
      var granted := limiter.TryAcquire(c.tool, c.created, c.now);
      if !granted {
        envelope := Close(c, RefusedExit(c.kwargs));
        return;
      }
      var params := Dict(c.kwargs);
      match c.verdict {
        case NoModel =>
        case Accepted(dump) => params := dump;
        case Rejected(text, errors) =>
          envelope := Close(c, InvalidExit(c.kwargs, text, errors));
          return;
      }
      ShiftGauge(c.tool, 1);
      envelope := Close(c, BodyExit(params, c.body));
      ShiftGauge(c.tool, -1);
    }
  }

  // ---- what one call does to the ledgers ------------------------------------------------

  /** The keys a tool result must leave to the wrapper; none of the eight tools uses them. */
  const RESERVED := {"status", "tool", "correlation_id"}

  predicate Respectful(b: Body) {
    b.Returned? ==> Keys(b.fields) !! RESERVED
  }

  /** Which of the four exits a call takes. */
  function Outcome(cfg: Config, l: Ledger, c: Input): Status {
    if !Acquire(cfg, l.table, c.tool, c.created, c.now).granted then RateLimited
    else if c.verdict.Rejected? then InvalidInput
    else if c.body.Raised? then Error
    else Ok
  }

  lemma EnvelopeFields(id: string, tool: string, e: Exit)
    requires Keys(e.tail) !! RESERVED
    ensures Get(Envelope(id, tool, e), "status") == Some(Str(StatusName(e.status)))
    ensures Get(Envelope(id, tool, e), "tool") == Some(Str(tool))
    ensures Get(Envelope(id, tool, e), "correlation_id") == Some(Str(id))
  {
    var base := [Entry("status", Str(StatusName(e.status))), Entry("tool", Str(tool)),
                 Entry("correlation_id", Str(id))];
    assert base[1..][0] == base[1] && base[1..][1..][0] == base[2];
    assert Get(base, "tool") == Get(base[1..], "tool");
    assert Get(base, "correlation_id") == Get(base[1..], "correlation_id") == Get(base[1..][1..], "correlation_id");
    GetSpread(base, e.tail, "status");
    GetSpread(base, e.tail, "tool");
    GetSpread(base, e.tail, "correlation_id");
  }

  /** The audit line and the metrics a call leaves, whatever its exit. */
  ghost predicate LeftOneRecord(l: Ledger, l': Ledger, c: Input, e: Exit) {
    && l'.log == l.log + [LogLine(c.context, AuditRecord(c.id, c.tool, e.params, e.status, c.durationMs,
                                                         e.rowCount, e.error))]
    && (forall s :: CounterOf(l', s) == CounterOf(l, s) + if s == Series(c.tool, e.status) then 1 else 0)
    && (forall s :: HistogramOf(l', s) ==
                    if s == Series(c.tool, e.status) then HistogramOf(l, s) + [c.durationMs / 1000.0]
                    else HistogramOf(l, s))
    && (forall tool :: GaugeOf(l', tool) == GaugeOf(l, tool))
  }

  lemma ClosedLeavesOneRecord(l: Ledger, c: Input, e: Exit)
    requires CurrentId(l, c.context) == c.id
    ensures LeftOneRecord(l, Closed(l, c, e).ledger, c, e)
    ensures Closed(l, c, e).ledger.gauge == l.gauge
    ensures Closed(l, c, e).envelope == Envelope(c.id, c.tool, e)
  {
  }

  /** What the call was worth: the exit it takes. */
  function ExitOf(cfg: Config, l: Ledger, c: Input): Exit {
    match Outcome(cfg, l, c)
    case RateLimited => RefusedExit(c.kwargs)
    case InvalidInput => InvalidExit(c.kwargs, c.verdict.text, c.verdict.errors)
    case _ => BodyExit(LoggedParams(c.kwargs, c.verdict), c.body)
  }

  lemma ExitOfStatus(cfg: Config, l: Ledger, c: Input)
    ensures ExitOf(cfg, l, c).status == Outcome(cfg, l, c)
    ensures Respectful(c.body) ==> Keys(ExitOf(cfg, l, c).tail) !! RESERVED
  {
  }

  function Admitted(l: Ledger, c: Input, table: Table): Ledger {
    WithNewId(l, c.context, c.id).(table := table)
  }

  /** The two exits inside the gauge, and the two before it. */
  function Inside(l: Ledger, c: Input, e: Exit): Served {
    var served := Closed(Shifted(l, c.tool, 1), c, e);
    served.(ledger := Shifted(served.ledger, c.tool, -1))
  }

  lemma ServeIsItsExit(cfg: Config, l: Ledger, c: Input)
    ensures var e := ExitOf(cfg, l, c);
            var admitted := Admitted(l, c, Acquire(cfg, l.table, c.tool, c.created, c.now).table);
            Serve(cfg, l, c) == if e.status.Ok? || e.status.Error? then Inside(admitted, c, e)
                                else Closed(admitted, c, e)
  {
  }

  lemma InsideLeavesOneRecord(l: Ledger, admitted: Ledger, c: Input, e: Exit)
    requires admitted == Admitted(l, c, admitted.table)
    ensures LeftOneRecord(l, Inside(admitted, c, e).ledger, c, e)
    ensures Inside(admitted, c, e).envelope == Envelope(c.id, c.tool, e)
  {
    ClosedLeavesOneRecord(Shifted(admitted, c.tool, 1), c, e);
  }

  /** Whichever exit a call takes: one audit record with the call's own id, one increment and
      one observation of the right series and of no other, the gauge back where it was, and
      an envelope that agrees with the audit record. */
  lemma OneCallOneRecord(cfg: Config, l: Ledger, c: Input)
    ensures var r := Serve(cfg, l, c);
            var e := ExitOf(cfg, l, c);
            && e.status == Outcome(cfg, l, c)
            && LeftOneRecord(l, r.ledger, c, e)
            && (Respectful(c.body) ==>
                  && Get(r.envelope, "status") == Some(Str(StatusName(e.status)))
                  && Get(r.envelope, "tool") == Some(Str(c.tool))
                  && Get(r.envelope, "correlation_id") == Some(Str(c.id)))
  {
    var e := ExitOf(cfg, l, c);
    ExitOfStatus(cfg, l, c);
    var admitted := Admitted(l, c, Acquire(cfg, l.table, c.tool, c.created, c.now).table);
    if e.status.Ok? || e.status.Error? {
      InsideLeavesOneRecord(l, admitted, c, e);
    } else {
      ClosedLeavesOneRecord(admitted, c, e);
    }
    ServeIsItsExit(cfg, l, c);
    if Respectful(c.body) {
      EnvelopeFields(c.id, c.tool, e);
    }
  }

  // ---- what a caller and an auditor can read off one call -----------------------------------

  /** The three fields every envelope starts from. */
  function Standard(status: string, tool: string, id: string, key: string): Option<Json> {
    if key == "status" then Some(Str(status))
    else if key == "tool" then Some(Str(tool))
    else if key == "correlation_id" then Some(Str(id))
    else None
  }

  lemma EnvelopeOver(id: string, tool: string, e: Exit, key: string)
    requires DistinctKeys(e.tail)
    ensures Get(Envelope(id, tool, e), key) ==
            if Get(e.tail, key).Some? then Get(e.tail, key) else Standard(StatusName(e.status), tool, id, key)
  {
    var base := [Entry("status", Str(StatusName(e.status))), Entry("tool", Str(tool)),
                 Entry("correlation_id", Str(id))];
    assert base[1..][0] == base[1] && base[1..][1..][0] == base[2] && base[1..][1..][1..] == [];
    assert Get(base[1..][1..], key) == if key == "correlation_id" then Some(Str(id)) else None;
    SpreadWins(base, e.tail, key);
  }

  lemma EnvelopeOfServe(cfg: Config, l: Ledger, c: Input)
    ensures Serve(cfg, l, c).envelope == Envelope(c.id, c.tool, ExitOf(cfg, l, c))
  {
    hide Acquire;
    var admitted := Admitted(l, c, Acquire(cfg, l.table, c.tool, c.created, c.now).table);
    ServeIsItsExit(cfg, l, c);
    InsideLeavesOneRecord(l, admitted, c, ExitOf(cfg, l, c));
    ClosedLeavesOneRecord(admitted, c, ExitOf(cfg, l, c));
  }

  /** What a caller finds under any key of the envelope. After a refusal, an invalid input or an
      exception it is a standard field or the error; after a success it is what the tool
      returned under that key, and a standard field where the tool returned nothing. */
  lemma EnvelopeTells(cfg: Config, l: Ledger, c: Input, key: string)
    requires c.body.Returned? ==> DistinctKeys(c.body.fields)
    ensures var found := Get(Serve(cfg, l, c).envelope, key);
            if !Acquire(cfg, l.table, c.tool, c.created, c.now).granted then
              found == if key == "error" then Some(Str("per-tool rate limit exceeded"))
                       else Standard("rate_limited", c.tool, c.id, key)
            else if c.verdict.Rejected? then
              found == if key == "error" then Some(c.verdict.errors)
                       else Standard("invalid_input", c.tool, c.id, key)
            else if c.body.Raised? then
              found == if key == "error" then Some(Str(c.body.text)) else Standard("error", c.tool, c.id, key)
            else
              found == if Get(c.body.fields, key).Some? then Get(c.body.fields, key)
                       else Standard("ok", c.tool, c.id, key)
  {
    hide Acquire, Serve, Envelope;
    EnvelopeOfServe(cfg, l, c);
    EnvelopeOver(c.id, c.tool, ExitOf(cfg, l, c), key);
  }

  /** What an auditor reads: the whole new line, whichever exit the call took. */
  lemma RecordTells(cfg: Config, l: Ledger, c: Input)
    ensures var admitted := Acquire(cfg, l.table, c.tool, c.created, c.now).granted;
            var ran := admitted && !c.verdict.Rejected?;
            var params := if ran && c.verdict.Accepted? then c.verdict.dump else Dict(c.kwargs);
            var status := if !admitted then RateLimited else if !ran then InvalidInput
                          else if c.body.Raised? then Error else Ok;
            var rows := if ran && c.body.Returned? then Get(c.body.fields, "rows") else None;
            var rowCount := if rows.Some? && rows.value.List? then Some(|rows.value.items|) else None;
            var error := if !admitted then Some("per-tool rate limit exceeded")
                         else if !ran then Some(c.verdict.text)
                         else if c.body.Raised? then Some(c.body.repr) else None;
            Serve(cfg, l, c).ledger.log ==
            l.log + [LogLine(c.context, AuditRecord(c.id, c.tool, params, status, c.durationMs, rowCount, error))]
  {
    hide Acquire, Serve;
    OneCallOneRecord(cfg, l, c);
  }
}
