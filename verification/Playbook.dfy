/** eval/rule_llm.py: the deterministic model for offline evaluation. It calls four tools in
    a fixed order, one per turn, and then derives a diagnosis from what came back. */
module Playbook {
  import opened Wrappers
  import opened Json
  import opened Schemas
  import opened Loop
  import S = LoopSafety
  import San = Sanitize
  import T = Text

  const PLAYBOOK := ["get_database_health", "get_active_connections", "get_slow_queries", "get_lock_information"]

  // ---- what the rules look for ---------------------------------------------------------------

  function Field(r: Json, key: string): Option<Json> {
    match r case Dict(entries) => Get(entries, key) case _ => None
  }

  function IsTruthy(v: Option<Json>): bool {
    match v case Some(x) => Truthy(x) case None => false
  }

  /** The id of one observation, with the tags stripped off. */
  function IdOf(r: Json): seq<string> {
    match AsString(Field(r, "correlation_id"))
    case Some(id) => [San.Unwrap(id)]
    case None => []
  }

  function IdsOf(observed: seq<Json>): seq<string> {
    if observed == [] then [] else IdsOf(observed[..|observed| - 1]) + IdOf(observed[|observed| - 1])
  }

  /** Rule 1: a non-empty list of slow queries. */
  predicate SlowFires(r: Json) {
    IsTruthy(Field(r, "active_slow_queries")) || IsTruthy(Field(r, "historic_slow_queries"))
  }

  predicate BlockedRow(row: Json) {
    Field(row, "blocked_pid").Some?
  }

  /** Rule 2: a row of a blocked session. */
  predicate LockFires(r: Json) {
    match Field(r, "rows")
    case Some(List(rows)) => exists i :: 0 <= i < |rows| && BlockedRow(rows[i])
    case _ => false
  }

  /** Rule 3: three or more sessions idle in transaction. */
  function IdleCount(r: Json): Option<nat> {
    match Field(r, "health")
    case Some(Dict(h)) =>
      (match Get(h, "idle_in_transaction") case Some(Int(n)) => if n >= 3 then Some(n) else None case _ => None)
    case _ => None
  }

  function FirstIdle(observed: seq<Json>): Option<nat> {
    if observed == [] then None
    else if FirstIdle(observed[..|observed| - 1]).Some? then FirstIdle(observed[..|observed| - 1])
    else IdleCount(observed[|observed| - 1])
  }

  predicate AnyLock(observed: seq<Json>) {
    exists i :: 0 <= i < |observed| && LockFires(observed[i])
  }

  const SUMMARY := "Rule-based playbook completed; findings derived from tool output."
  const SLOW_TEXT := "Long-running slow queries detected"
  const SLOW_ACTION := "Investigate long-running sleep / unindexed scans."
  const LOCK_TEXT := "Lock contention between sessions"
  const LOCK_ACTION := "Kill the blocking session or investigate the " + "transaction holding the lock."
  const IDLE_TEXT := " connections are idle in transaction \U{2014} " + "likely a connection leak."
  const IDLE_ACTION := "Track application code paths that BEGIN but " + "do not COMMIT."
  const QUIET_TEXT := "No abnormal signals across health, " + "connections, slow queries, or locks."
  const QUIET_ACTION := "No action required."

  function SlowFinding(ids: seq<string>): Finding {
    Finding(SLOW_TEXT, ids, High, SLOW_ACTION)
  }

  function LockFinding(ids: seq<string>): Finding {
    Finding(LOCK_TEXT, ids, High, LOCK_ACTION)
  }

  function IdleFinding(n: nat, ids: seq<string>): Finding {
    Finding(T.Decimal(n) + IDLE_TEXT, ids, High, IDLE_ACTION)
  }

  function QuietFinding(ids: seq<string>): Finding {
    Finding(QUIET_TEXT, ids, Medium, QUIET_ACTION)
  }

  /** Rule 1 fires once for every observation it matches. */
  function SlowFindings(observed: seq<Json>, ids: seq<string>): seq<Finding> {
    if observed == [] then []
    else
      var before := SlowFindings(observed[..|observed| - 1], ids);
      if SlowFires(observed[|observed| - 1]) then before + [SlowFinding(ids)] else before
  }

  /** Rules 2 and 3 fire at most once. */
  function OnceFindings(observed: seq<Json>, ids: seq<string>): seq<Finding> {
    (if AnyLock(observed) then [LockFinding(ids)] else []) +
    (match FirstIdle(observed) case Some(n) => [IdleFinding(n, ids)] case None => [])
  }

  function FindingsOf(observed: seq<Json>, ids: seq<string>): seq<Finding> {
    var fired := SlowFindings(observed, ids) + OnceFindings(observed, ids);
    if fired == [] then [QuietFinding(ids)] else fired
  }

  function DiagnosisOf(observed: seq<Json>): Diagnosis {
    Diagnosis(SUMMARY, FindingsOf(observed, IdsOf(observed)), IdsOf(observed))
  }

  // ---- what the rules must look at, in terms of the results alone ---------------------------------

  /** Some row of the result is a dictionary that has the key `blocked_pid`. */
  ghost predicate HasBlockedRow(r: Json) {
    && r.Dict? && Get(r.entries, "rows").Some? && Get(r.entries, "rows").value.List?
    && var rows := Get(r.entries, "rows").value.items;
       exists i :: 0 <= i < |rows| && rows[i].Dict? && "blocked_pid" in Keys(rows[i].entries)
  }

  /** The result has something under the key that Python counts as true. */
  ghost predicate TruthyUnder(r: Json, key: string) {
    r.Dict? && Get(r.entries, key).Some? && Get(r.entries, key).value !in FALSY
  }

  ghost function SlowResults(observed: seq<Json>): seq<nat> {
    Where(observed, (r: Json) => TruthyUnder(r, "active_slow_queries") || TruthyUnder(r, "historic_slow_queries"))
  }

  /** The result reports this many idle transactions, and three is the least that counts. */
  ghost predicate ReportsIdle(r: Json, n: int) {
    && n >= 3 && r.Dict? && Get(r.entries, "health").Some? && Get(r.entries, "health").value.Dict?
    && Get(Get(r.entries, "health").value.entries, "idle_in_transaction") == Some(Int(n))
  }

  /** The first such report, if there is one. */
  ghost predicate FirstReported(observed: seq<Json>, idle: Option<nat>) {
    match idle
    case None => forall i, n :: 0 <= i < |observed| ==> !ReportsIdle(observed[i], n)
    case Some(n) =>
      exists i :: 0 <= i < |observed| && ReportsIdle(observed[i], n) &&
                  forall j, m :: 0 <= j < i ==> !ReportsIdle(observed[j], m)
  }

  predicate HasId(r: Json) {
    r.Dict? && Get(r.entries, "correlation_id").Some? && Get(r.entries, "correlation_id").value.Str?
  }

  /** The ids of the results that have one, in order, without the two tags. */
  ghost predicate IdsAreStripped(observed: seq<Json>, ids: seq<string>) {
    var at := Where(observed, HasId);
    && |ids| == |at|
    && forall k :: 0 <= k < |at| ==>
         && at[k] < |observed| && HasId(observed[at[k]])
         && ids[k] == T.RemoveAll(T.RemoveAll(Get(observed[at[k]].entries, "correlation_id").value.s, "<untrusted>"),
                                  "</untrusted>")
  }

  lemma {:induction false} IdsTell(observed: seq<Json>)
    ensures IdsAreStripped(observed, IdsOf(observed))
  {
    if observed != [] {
      IdsTell(observed[..|observed| - 1]);
    }
  }

  lemma {:induction false} SlowTells(observed: seq<Json>, ids: seq<string>)
    ensures |SlowFindings(observed, ids)| == |SlowResults(observed)|
    ensures forall f <- SlowFindings(observed, ids) ::
              f == Finding("Long-running slow queries detected", ids, High,
                           "Investigate long-running sleep / unindexed scans.")
  {
    if observed != [] {
      var n := |observed| - 1;
      SlowTells(observed[..n], ids);
      SlowFiresIff(observed[n]);
    }
  }

  lemma SlowFiresIff(r: Json)
    ensures SlowFires(r) <==> TruthyUnder(r, "active_slow_queries") || TruthyUnder(r, "historic_slow_queries")
  {
    hide Truthy;
    forall v ensures Truthy(v) <==> v !in FALSY {
      TruthyIff(v);
    }
  }

  lemma LockFiresIff(r: Json)
    ensures LockFires(r) <==> HasBlockedRow(r)
  {
    if Field(r, "rows").Some? && Field(r, "rows").value.List? {
      var rows := Field(r, "rows").value.items;
      forall i | 0 <= i < |rows|
        ensures BlockedRow(rows[i]) <==> rows[i].Dict? && "blocked_pid" in Keys(rows[i].entries)
      {
        if rows[i].Dict? {
          GetNone(rows[i].entries, "blocked_pid");
        }
      }
    }
  }

  lemma LockTells(observed: seq<Json>)
    ensures AnyLock(observed) <==> exists i :: 0 <= i < |observed| && HasBlockedRow(observed[i])
  {
    hide LockFires, HasBlockedRow;
    forall i | 0 <= i < |observed| ensures LockFires(observed[i]) <==> HasBlockedRow(observed[i]) {
      LockFiresIff(observed[i]);
    }
  }

  lemma IdleCountIff(r: Json, n: int)
    ensures ReportsIdle(r, n) <==> IdleCount(r).Some? && IdleCount(r).value == n
  {
  }

  lemma {:induction false} IdleTells(observed: seq<Json>)
    ensures FirstReported(observed, FirstIdle(observed))
  {
    hide IdleCount, ReportsIdle;
    if observed != [] {
      var n := |observed| - 1;
      IdleTells(observed[..n]);
      forall m
        ensures ReportsIdle(observed[n], m) <==> IdleCount(observed[n]).Some? && IdleCount(observed[n]).value == m
      {
        IdleCountIff(observed[n], m);
      }
      assert forall i :: 0 <= i < n ==> observed[..n][i] == observed[i];
    }
  }

  // ---- the playbook as a model for the loop --------------------------------------------------

  /** The decodable contents of a batch of results. */
  function Decoded(results: seq<ToolResult>): seq<Json> {
    if results == [] then []
    else
      var before := Decoded(results[..|results| - 1]);
      match results[|results| - 1].content
      case Encoded(v) => before + [v]
      case Garbage(_) => before
  }

  lemma {:induction false} DecodedTells(results: seq<ToolResult>)
    ensures var at := Where(results, (r: ToolResult) => r.content.Encoded?);
            && |Decoded(results)| == |at|
            && forall k :: 0 <= k < |at| ==>
                 at[k] < |results| && results[at[k]].content == Encoded(Decoded(results)[k])
  {
    if results != [] {
      DecodedTells(results[..|results| - 1]);
    }
  }

  /** Everything submitted along a trace. */
  function Seen(trace: seq<Event>): seq<Json> {
    if trace == [] then []
    else
      var before := Seen(trace[..|trace| - 1]);
      match trace[|trace| - 1]
      case Submitted(results) => before + Decoded(results)
      case _ => before
  }

  /** `.get` on something other than a dictionary raises. */
  predicate AllDicts(observed: seq<Json>) {
    forall i :: 0 <= i < |observed| ==> observed[i].Dict?
  }

  function PlaybookStep(k: nat): Turn
    requires k < 4
  {
    Turn([ToolCall("toolu_" + T.Decimal(k + 1), PLAYBOOK[k], Dict([]))], None)
  }

  function PlaybookTurn(k: nat, observed: seq<Json>): Option<Turn> {
    if k < 4 then Some(PlaybookStep(k))
    else if AllDicts(observed) then Some(Turn([], Some(Encoded(EncodeDiagnosis(DiagnosisOf(observed))))))
    else None
  }

  function PlaybookPolicy(): Policy {
    trace => PlaybookTurn(S.Asks(trace), Seen(trace))
  }

  class RuleBasedLLM {
    var observed: seq<Json>
    var step: nat
    /** The calls made on this object, for the proof. */
    ghost var trace: seq<Event>

    ghost predicate Valid()
      reads this
    {
      observed == Seen(trace) && step == (if S.Asks(trace) < 4 then S.Asks(trace) else 4)
    }

    constructor ()
      ensures Valid() && trace == []
    {
      observed, step, trace := [], 0, [];
    }

    method Start(question: string)
      requires Valid()
      modifies this
      ensures Valid() && trace == old(trace) + [Started(question)]
    {
      trace := trace + [Started(question)];
      assert trace[..|trace| - 1] == old(trace);
    }

    method SubmitToolResults(results: seq<ToolResult>)
      requires Valid()
      modifies this
      ensures Valid() && trace == old(trace) + [Submitted(results)]
      ensures var at := Where(results, (r: ToolResult) => r.content.Encoded?);
              && old(observed) <= observed && |observed| == |old(observed)| + |at|
              && forall k :: 0 <= k < |at| ==>
                   at[k] < |results| && results[at[k]].content == Encoded(observed[|old(observed)| + k])
    {
      DecodedTells(results);
      for i := 0 to |results|
        invariant observed == old(observed) + Decoded(results[..i]) && step == old(step) && trace == old(trace)
      {
        assert results[..i + 1][..i] == results[..i];
        match results[i].content
        case Encoded(v) => observed := observed + [v];
        case Garbage(_) =>
      }
      assert results[..|results|] == results;
      trace := trace + [Submitted(results)];
      assert trace[..|trace| - 1] == old(trace);
    }

    /** The model's turn is the policy's; building the last one may raise. */
    method NextTurn() returns (turn: Option<Turn>)
      requires Valid()
      modifies this
      ensures turn == PlaybookPolicy()(old(trace))
      ensures turn.Some? ==> Valid() && trace == old(trace) + [Asked(turn.value)]
    {
      if step < |PLAYBOOK| {
        var tool := PLAYBOOK[step];
        step := step + 1;
        turn := Some(Turn([ToolCall("toolu_" + T.Decimal(step), tool, Dict([]))], None));
      } else {
        var text := BuildDiagnosis(observed);
        match text
        case None => return None;
        case Some(json) => turn := Some(Turn([], Some(Encoded(json))));
      }
      trace := trace + [Asked(turn.value)];
      assert trace[..|trace| - 1] == old(trace);
    }
  }

  method CollectIds(observed: seq<Json>) returns (ids: Option<seq<string>>)
    ensures ids == if AllDicts(observed) then Some(IdsOf(observed)) else None
    ensures ids.Some? <==> forall i :: 0 <= i < |observed| ==> observed[i].Dict?
    ensures ids.Some? ==> IdsAreStripped(observed, ids.value)
  {
    hide IdsAreStripped, San.Unwrap;
    var found: seq<string> := [];
    for i := 0 to |observed|
      invariant found == IdsOf(observed[..i])
      invariant AllDicts(observed[..i])
    {
      if !observed[i].Dict? {
        return None;
      }
      assert observed[..i + 1][..i] == observed[..i];
      match Get(observed[i].entries, "correlation_id")
      case Some(Str(id)) => found := found + [San.Unwrap(id)];
      case _ =>
    }
    assert observed[..|observed|] == observed;
    IdsTell(observed);
    return Some(found);
  }

  /** `_build_diagnosis` */
  method BuildDiagnosis(observed: seq<Json>) returns (json: Option<Json>)
    ensures json == if AllDicts(observed) then Some(EncodeDiagnosis(DiagnosisOf(observed))) else None
  {
    var collected := CollectIds(observed);
    if collected.None? {
      return None;
    }
    var ids := collected.value;
    var findings := SlowRule(observed, ids);
    var lock := LockRule(observed);
    if lock {
      findings := findings + [LockFinding(ids)];
    }
    var idle := IdleRule(observed);
    if idle.Some? {
      findings := findings + [IdleFinding(idle.value, ids)];
    }
    assert findings == SlowFindings(observed, ids) + OnceFindings(observed, ids);
    if findings == [] {
      findings := [QuietFinding(ids)];
    }
    return Some(EncodeDiagnosis(Diagnosis(SUMMARY, findings, ids)));
  }

  method SlowRule(observed: seq<Json>, ids: seq<string>) returns (findings: seq<Finding>)
    ensures findings == SlowFindings(observed, ids)
    ensures |findings| == |SlowResults(observed)|
    ensures forall f <- findings ::
              f == Finding("Long-running slow queries detected", ids, High,
                           "Investigate long-running sleep / unindexed scans.")
  {
    findings := [];
    for i := 0 to |observed|
      invariant findings == SlowFindings(observed[..i], ids)
    {
      assert observed[..i + 1][..i] == observed[..i];
      var keys := ["active_slow_queries", "historic_slow_queries"];
      var k := 0;
      while k < |keys|
        invariant k <= |keys|
        invariant k > 0 ==> !IsTruthy(Field(observed[i], keys[0]))
        invariant k > 1 ==> !IsTruthy(Field(observed[i], keys[1]))
        invariant findings == SlowFindings(observed[..i], ids)
      {
        if IsTruthy(Field(observed[i], keys[k])) {
          findings := findings + [SlowFinding(ids)];
          break;
        }
        k := k + 1;
      }
    }
    assert observed[..|observed|] == observed;
    SlowTells(observed, ids);
  }

  method LockRule(observed: seq<Json>) returns (found: bool)
    ensures found == AnyLock(observed)
    ensures found <==> exists i :: 0 <= i < |observed| && HasBlockedRow(observed[i])
  {
    LockTells(observed);
    found := false;
    for i := 0 to |observed|
      invariant !found && !AnyLock(observed[..i])
    {
      if LockFires(observed[i]) {
        return true;
      }
    }
    assert observed[..|observed|] == observed;
  }

  method IdleRule(observed: seq<Json>) returns (idle: Option<nat>)
    ensures idle == FirstIdle(observed)
    ensures FirstReported(observed, idle)
  {
    IdleTells(observed);
    idle := None;
    for i := 0 to |observed|
      invariant idle.None? && FirstIdle(observed[..i]).None?
    {
      assert observed[..i + 1][..i] == observed[..i];
      if IdleCount(observed[i]).Some? {
        IdleFound(observed, i);
        return IdleCount(observed[i]);
      }
    }
    assert observed[..|observed|] == observed;
  }

  lemma {:induction false} IdleFound(observed: seq<Json>, i: nat)
    requires i < |observed| && FirstIdle(observed[..i]).None? && IdleCount(observed[i]).Some?
    ensures FirstIdle(observed) == IdleCount(observed[i])
    decreases |observed|
  {
    var n := |observed| - 1;
    if i < n {
      assert observed[..n][..i] == observed[..i];
      IdleFound(observed[..n], i);
    }
  }
}
