/** What the offline playbook delivers: run through the real loop, against any world, it ends
    in a valid diagnosis that cites the real ids, and sanitizing the tool results makes no
    difference to it. */
module PlaybookRuns {
  import opened Wrappers
  import opened Json
  import opened Tools
  import opened Schemas
  import opened Loop
  import opened LoopSafety
  import opened LoopOutcome
  import opened Playbook
  import San = Sanitize
  import T = Text

  // ---- sanitizing is transparent to the rules ----------------------------------------------

  function Sanitized(v: Option<Json>): Option<Json> {
    match v case Some(x) => Some(San.Sanitize(x)) case None => None
  }

  function SanitizedEntries(entries: seq<Entry>): (r: seq<Entry>)
    ensures |r| == |entries|
  {
    seq(|entries|, i requires 0 <= i < |entries| => Entry(entries[i].key, San.Sanitize(entries[i].value)))
  }

  lemma {:induction false} GetSanitized(entries: seq<Entry>, key: string)
    ensures Get(SanitizedEntries(entries), key) == Sanitized(Get(entries, key))
  {
    if entries != [] {
      GetSanitized(entries[1..], key);
      assert SanitizedEntries(entries)[1..] == SanitizedEntries(entries[1..]);
    }
  }

  lemma FieldSanitized(r: Json, key: string)
    ensures Field(San.Sanitize(r), key) == Sanitized(Field(r, key))
  {
    if r.Dict? {
      assert San.Sanitize(r) == Dict(SanitizedEntries(r.entries));
      GetSanitized(r.entries, key);
    }
  }

  function SanitizeAll(observed: seq<Json>): (r: seq<Json>)
    ensures |r| == |observed|
  {
    seq(|observed|, i requires 0 <= i < |observed| => San.Sanitize(observed[i]))
  }

  /** A slow-query field that holds the empty string: falsy as it is, truthy once wrapped. */
  predicate EmptyText(r: Json) {
    Field(r, "active_slow_queries") == Some(Str("")) || Field(r, "historic_slow_queries") == Some(Str(""))
  }

  lemma TruthySanitized(v: Option<Json>)
    ensures IsTruthy(Sanitized(v)) <==> IsTruthy(v) || v == Some(Str(""))
  {
    if v.Some? && v.value.Str? {
      assert San.Wrap(v.value.s) != "" by { assert |San.OPEN| == 11; }
    }
  }

  lemma SlowSanitized(r: Json)
    ensures SlowFires(San.Sanitize(r)) <==> SlowFires(r) || EmptyText(r)
  {
    FieldSanitized(r, "active_slow_queries");
    FieldSanitized(r, "historic_slow_queries");
    TruthySanitized(Field(r, "active_slow_queries"));
    TruthySanitized(Field(r, "historic_slow_queries"));
  }

  lemma LockSanitized(r: Json)
    ensures LockFires(San.Sanitize(r)) <==> LockFires(r)
  {
    FieldSanitized(r, "rows");
    var rows := Field(r, "rows");
    if rows.Some? && rows.value.List? {
      forall i | 0 <= i < |rows.value.items|
        ensures BlockedRow(San.Sanitize(rows.value).items[i]) <==> BlockedRow(rows.value.items[i])
      {
        FieldSanitized(rows.value.items[i], "blocked_pid");
      }
    }
  }

  lemma IdleSanitized(r: Json)
    ensures IdleCount(San.Sanitize(r)) == IdleCount(r)
  {
    FieldSanitized(r, "health");
    var health := Field(r, "health");
    if health.Some? {
      FieldSanitized(health.value, "idle_in_transaction");
    }
  }

  /** The id of a result can still be read after sanitizing: there is none, or it fits under the
      cap, or stripping its tags gives what is left of a truncated string. */
  predicate ReadableId(r: Json) {
    match AsString(Field(r, "correlation_id"))
    case Some(id) => |id| <= San.MAX_STR || San.Unwrap(id) == San.Unwrap(id[..San.MAX_STR]) + San.MARK
    case None => true
  }

  lemma IdSanitized(r: Json)
    ensures |IdOf(San.Sanitize(r))| == |IdOf(r)|
    ensures IdOf(San.Sanitize(r)) == IdOf(r) <==> ReadableId(r)
  {
    FieldSanitized(r, "correlation_id");
    var id := AsString(Field(r, "correlation_id"));
    if id.Some? {
      San.UnwrapOfTagged(San.Capped(id.value));
      if |id.value| > San.MAX_STR {
        San.UnwrapOfMarked(id.value[..San.MAX_STR]);
      }
    }
  }

  lemma SameHalves(a: seq<string>, b: seq<string>, c: seq<string>, d: seq<string>)
    requires |a| == |c|
    ensures a + b == c + d <==> a == c && b == d
  {
    assert (a + b)[..|a|] == a && (a + b)[|a|..] == b;
    assert (c + d)[..|c|] == c && (c + d)[|c|..] == d;
  }

  lemma {:induction false} IdsSanitized(observed: seq<Json>)
    ensures |IdsOf(SanitizeAll(observed))| == |IdsOf(observed)|
    ensures IdsOf(SanitizeAll(observed)) == IdsOf(observed) <==>
            forall i :: 0 <= i < |observed| ==> ReadableId(observed[i])
  {
    hide IdOf, ReadableId, San.Sanitize;
    if observed != [] {
      var n := |observed| - 1;
      var clean := SanitizeAll(observed);
      assert clean[..n] == SanitizeAll(observed[..n]);
      IdsSanitized(observed[..n]);
      IdSanitized(observed[n]);
      SameHalves(IdsOf(clean[..n]), IdOf(clean[n]), IdsOf(observed[..n]), IdOf(observed[n]));
      assert forall i :: 0 <= i < n ==> observed[..n][i] == observed[i];
    }
  }

  lemma {:induction false} RulesSanitized(observed: seq<Json>)
    ensures FirstIdle(SanitizeAll(observed)) == FirstIdle(observed)
    ensures AnyLock(SanitizeAll(observed)) == AnyLock(observed)
  {
    if observed != [] {
      var n := |observed| - 1;
      assert SanitizeAll(observed)[..n] == SanitizeAll(observed[..n]);
      RulesSanitized(observed[..n]);
      IdleSanitized(observed[n]);
    }
    forall i | 0 <= i < |observed| ensures LockFires(SanitizeAll(observed)[i]) <==> LockFires(observed[i]) {
      LockSanitized(observed[i]);
    }
  }

  /** Rule 1 fires on the sanitized observations at least as often, and just as often exactly
      when no observation has an empty string for its only trace of slow queries. */
  lemma {:induction false} SlowCountSanitized(observed: seq<Json>, ids: seq<string>)
    ensures |SlowFindings(observed, ids)| <= |SlowFindings(SanitizeAll(observed), ids)|
    ensures |SlowFindings(observed, ids)| == |SlowFindings(SanitizeAll(observed), ids)| <==>
            forall i :: 0 <= i < |observed| ==> SlowFires(observed[i]) || !EmptyText(observed[i])
    ensures |SlowFindings(observed, ids)| == |SlowFindings(SanitizeAll(observed), ids)| ==>
            SlowFindings(observed, ids) == SlowFindings(SanitizeAll(observed), ids)
  {
    if observed != [] {
      var n := |observed| - 1;
      assert SanitizeAll(observed)[..n] == SanitizeAll(observed[..n]);
      SlowCountSanitized(observed[..n], ids);
      SlowSanitized(observed[n]);
      assert forall i :: 0 <= i < n ==> observed[..n][i] == observed[i];
    }
  }

  lemma {:induction false} SlowFindingsAreHigh(observed: seq<Json>, ids: seq<string>)
    ensures forall f <- SlowFindings(observed, ids) :: f.confidence == High
  {
    if observed != [] {
      SlowFindingsAreHigh(observed[..|observed| - 1], ids);
    }
  }

  /** The playbook diagnoses the same from sanitized and from raw tool results exactly when no
      result has an empty string as a slow-query field with nothing else in it that counts as a
      slow query, and no id is lost to the cap. No tool returns a string in these fields, and
      the server's ids have twelve characters. */
  lemma SanitizingIsTransparentIff(observed: seq<Json>)
    ensures DiagnosisOf(SanitizeAll(observed)) == DiagnosisOf(observed) <==>
            forall i :: 0 <= i < |observed| ==>
              (SlowFires(observed[i]) || !EmptyText(observed[i])) && ReadableId(observed[i])
  {
    IdsSanitized(observed);
    if IdsOf(SanitizeAll(observed)) == IdsOf(observed) {
      FindingsSanitized(observed, IdsOf(observed));
    }
  }

  lemma FindingsSanitized(observed: seq<Json>, ids: seq<string>)
    ensures FindingsOf(SanitizeAll(observed), ids) == FindingsOf(observed, ids) <==>
            forall i :: 0 <= i < |observed| ==> SlowFires(observed[i]) || !EmptyText(observed[i])
  {
    var clean := SanitizeAll(observed);
    RulesSanitized(observed);
    SlowCountSanitized(observed, ids);
    SlowFindingsAreHigh(clean, ids);
    var once := OnceFindings(observed, ids);
    assert OnceFindings(clean, ids) == once;
    var raw, wrapped := SlowFindings(observed, ids), SlowFindings(clean, ids);
    if |raw| < |wrapped| {
      assert FindingsOf(clean, ids) == wrapped + once;
      if raw + once == [] {
        assert FindingsOf(clean, ids)[0] == wrapped[0] && wrapped[0].confidence == High;
        assert FindingsOf(observed, ids)[0].confidence == Medium;
      } else {
        assert |FindingsOf(observed, ids)| < |FindingsOf(clean, ids)|;
      }
    }
  }

  // ---- what exactly is diagnosed ---------------------------------------------------------------

  /** The whole diagnosis, in terms of the results alone: one slow-query finding for each result
      that lists slow queries, the lock finding if and only if some result has a row of a
      blocked session, the leak finding with the first reported count of at least three, and
      the quiet one if and only if there is nothing else; all of them cite every id. */
  lemma DiagnosisTells(observed: seq<Json>)
    ensures var d := DiagnosisOf(observed);
            var ids := d.allToolCalls;
            var idle := FirstIdle(observed);
            var slow := seq(|SlowResults(observed)|, _ =>
              Finding("Long-running slow queries detected", ids, High,
                      "Investigate long-running sleep / unindexed scans."));
            var lock := if exists i :: 0 <= i < |observed| && HasBlockedRow(observed[i]) then
              [Finding("Lock contention between sessions", ids, High,
                       "Kill the blocking session or investigate the " + "transaction holding the lock.")] else [];
            var leak := if idle.None? then [] else
              [Finding(T.Decimal(idle.value) + (" connections are idle in transaction \U{2014} " +
                                                "likely a connection leak."), ids, High,
                       "Track application code paths that BEGIN but " + "do not COMMIT.")];
            && d.summary == "Rule-based playbook completed; findings derived from tool output."
            && IdsAreStripped(observed, ids) && FirstReported(observed, idle)
            && d.findings ==
               (if slow + lock + leak != [] then slow + lock + leak
                else [Finding("No abnormal signals across health, " + "connections, slow queries, or locks.", ids,
                              Medium, "No action required.")])
  {
    hide IdsAreStripped, FirstReported, HasBlockedRow, SlowResults, AnyLock, FirstIdle, SlowFindings;
    var ids := IdsOf(observed);
    IdsTell(observed);
    SlowTells(observed, ids);
    LockTells(observed);
    IdleTells(observed);
    var slow := SlowFindings(observed, ids);
    assert forall i :: 0 <= i < |slow| ==> slow[i] in slow;
    assert slow == seq(|SlowResults(observed)|, _ =>
      Finding("Long-running slow queries detected", ids, High, "Investigate long-running sleep / unindexed scans."));
    assert forall a: seq<Finding>, b: seq<Finding>, c: seq<Finding> :: a + b + c == a + (b + c);
  }

  // ---- when the diagnosis fits the schema -----------------------------------------------------

  function Pow10(k: nat): nat {
    if k == 0 then 1 else 10 * Pow10(k - 1)
  }

  lemma {:induction false} DecimalLength(n: nat, k: nat)
    requires k > 0
    ensures |T.Decimal(n)| <= k <==> n < Pow10(k)
  {
    if n < 10 {
      PowAtLeast(k);
    } else if k == 1 {
      assert Pow10(1) == 10 by { assert Pow10(0) == 1; }
    } else {
      DecimalLength(n / 10, k - 1);
    }
  }

  lemma {:induction false} PowAtLeast(k: nat)
    ensures Pow10(k) >= 1
    ensures k > 0 ==> Pow10(k) >= 10
  {
    if k > 0 {
      PowAtLeast(k - 1);
    }
  }

  /** The longest count that leaves the leak finding within 500 characters. */
  const MAX_DIGITS := 436

  lemma {:induction false} SlowFindingsAre(observed: seq<Json>, ids: seq<string>)
    ensures forall f <- SlowFindings(observed, ids) :: f == SlowFinding(ids)
  {
    if observed != [] {
      SlowFindingsAre(observed[..|observed| - 1], ids);
    }
  }

  lemma FindingsCite(observed: seq<Json>, ids: seq<string>)
    ensures forall f <- FindingsOf(observed, ids) ::
              f == SlowFinding(ids) || f == LockFinding(ids) || f == QuietFinding(ids) ||
              (FirstIdle(observed).Some? && f == IdleFinding(FirstIdle(observed).value, ids))
    ensures FirstIdle(observed).Some? ==> IdleFinding(FirstIdle(observed).value, ids) in FindingsOf(observed, ids)
    ensures FindingsOf(observed, ids) != []
  {
    hide SlowFinding, LockFinding, QuietFinding, IdleFinding;
    SlowFindingsAre(observed, ids);
    if FirstIdle(observed).Some? {
      var once := OnceFindings(observed, ids);
      assert once[|once| - 1] == IdleFinding(FirstIdle(observed).value, ids);
      var all := FindingsOf(observed, ids);
      assert all[|all| - 1] == once[|once| - 1];
    }
  }

  /** The diagnosis passes the schema exactly when there is an id to cite and the reported
      number of idle sessions has at most 436 digits. */
  lemma DiagnosisIsValidIff(observed: seq<Json>)
    ensures ValidDiagnosis(DiagnosisOf(observed)) <==>
            IdsOf(observed) != [] &&
            (FirstIdle(observed).Some? ==> |T.Decimal(FirstIdle(observed).value)| <= MAX_DIGITS)
  {
    hide SlowFinding, LockFinding, QuietFinding, IdleFinding, FindingsOf;
    var ids, d := IdsOf(observed), DiagnosisOf(observed);
    FindingsCite(observed, ids);
    assert d.findings[0] in d.findings;
    EvidenceIsIds(observed, ids);
    if ids != [] {
      TextsFit(ids);
      if FirstIdle(observed).Some? {
        IdleTextFits(FirstIdle(observed).value, ids);
      }
    }
  }

  lemma EvidenceIsIds(observed: seq<Json>, ids: seq<string>)
    ensures forall f <- FindingsOf(observed, ids) :: f.evidence == ids
  {
    FindingsCite(observed, ids);
  }

  lemma TextsFit(ids: seq<string>)
    requires ids != []
    ensures ValidFinding(SlowFinding(ids)) && ValidFinding(LockFinding(ids)) && ValidFinding(QuietFinding(ids))
    ensures SlowFinding(ids).evidence == LockFinding(ids).evidence == QuietFinding(ids).evidence == ids
    ensures 1 <= |SUMMARY| <= 1000
  {
    assert |SUMMARY| == 65;
  }

  lemma IdleTextFits(n: nat, ids: seq<string>)
    requires ids != []
    ensures ValidFinding(IdleFinding(n, ids)) <==> |T.Decimal(n)| <= MAX_DIGITS
    ensures IdleFinding(n, ids).evidence == ids
  {
    assert |IDLE_TEXT| == 64;
    assert |IdleFinding(n, ids).recommendedAction| == 58;
  }

  // ---- the run, step by step --------------------------------------------------------------------

  /** A correlation id: twelve hexadecimal digits of a UUID. */
  predicate IsUuidPrefix(id: string) {
    |id| == 12 && forall i :: 0 <= i < |id| ==> id[i] in "0123456789abcdef"
  }

  ghost predicate HexIds(a: Agent) {
    forall k: nat :: IsUuidPrefix(a.world(k).id)
  }

  lemma UuidSurvives(id: string)
    requires IsUuidPrefix(id)
    ensures San.Unwrap(San.Wrap(id)) == id
  {
    T.ContainsHead(id, San.OPEN);
    T.ContainsHead(id, San.CLOSE);
    San.RoundTripIff(id);
  }

  /** One round of the playbook: ask, call, submit. */
  function NextRound(a: Agent, before: Conversation, k: nat): Conversation
    requires k < 4
  {
    var turn := PlaybookStep(k);
    var observed := Observe(a, before.(trace := before.trace + [Asked(turn)]), turn.toolCalls[0], []);
    match observed.results
    case None => before
    case Some(results) => observed.conversation.(trace := observed.conversation.trace + [Submitted(results)])
  }

  /** The state of a playbook run after `k` of its tool calls. */
  function After(a: Agent, l: Ledger, question: string, k: nat): Conversation
    requires k <= 4
  {
    if k == 0 then Opening(l, question) else NextRound(a, After(a, l, question, k - 1), k - 1)
  }

  /** The ids the world gives to the first `k` calls. */
  function WorldIds(a: Agent, k: nat): seq<string> {
    if k == 0 then [] else WorldIds(a, k - 1) + [a.world(k - 1).id]
  }

  /** What the server returns to the playbook's call `k`, before it is sanitized. */
  function Returned(a: Agent, st: Conversation, k: nat): Json
    requires k < 4
  {
    var w := a.world(st.served);
    Dict(Serve(a.cfg, ServeAll(a.cfg, st.ledger, w.others), InputOf(a.context, PLAYBOOK[k], [], w)).envelope)
  }

  /** ... to the first `k` calls of a run. */
  function RawResults(a: Agent, l: Ledger, question: string, k: nat): (r: seq<Json>)
    requires k <= 4
    ensures |r| == k
  {
    if k == 0 then []
    else RawResults(a, l, question, k - 1) + [Returned(a, After(a, l, question, k - 1), k - 1)]
  }

  /** What the playbook has been shown after all four calls. */
  function Observations(a: Agent, l: Ledger, question: string): seq<Json> {
    Seen(After(a, l, question, 4).trace)
  }

  ghost predicate OnTrack(a: Agent, st: Conversation, k: nat) {
    && st.served == k && Asks(st.trace) == k && |Seen(st.trace)| == k
    && st.ids == WorldIds(a, k) && IdsOf(Seen(st.trace)) == WorldIds(a, k) && AllDicts(Seen(st.trace))
  }

  lemma {:induction false} AskedLeaves(trace: seq<Event>, turn: Turn)
    ensures Asks(trace + [Asked(turn)]) == Asks(trace) + 1
    ensures Seen(trace + [Asked(turn)]) == Seen(trace)
  {
    assert (trace + [Asked(turn)])[..|trace|] == trace;
  }

  lemma {:induction false} SubmittedLeaves(trace: seq<Event>, r: ToolResult)
    requires r.content.Encoded?
    ensures Asks(trace + [Submitted([r])]) == Asks(trace)
    ensures Seen(trace + [Submitted([r])]) == Seen(trace) + [r.content.value]
  {
    assert (trace + [Submitted([r])])[..|trace|] == trace;
    assert [r][..0] == [] && Decoded([]) == [];
    assert Decoded([r]) == [r.content.value];
  }

  lemma {:induction false} IdsOfSnoc(observed: seq<Json>, r: Json)
    ensures IdsOf(observed + [r]) == IdsOf(observed) + IdOf(r)
  {
    assert (observed + [r])[..|observed|] == observed;
  }

  /** One tool call of the playbook: it reaches the server, its id is recorded, and the same id
      can be read back from the sanitized envelope. */
  lemma {:induction false} PlaybookCall(a: Agent, st: Conversation, k: nat)
    requires Sane(a) && HexIds(a) && k < 4 && st.served == k
    ensures var o := Observe(a, st, PlaybookStep(k).toolCalls[0], []);
            && o.results.Some? && |o.results.value| == 1
            && o.results.value[0].content == Encoded(San.Sanitize(Returned(a, st, k)))
            && o.results.value[0].content.value.Dict?
            && IdOf(o.results.value[0].content.value) == [a.world(k).id]
            && o.conversation.ids == st.ids + [a.world(k).id]
            && o.conversation.served == k + 1 && o.conversation.trace == st.trace
  {
    hide Serve, ServeAll, ExitOf, LeftOneRecord;
    var c := PlaybookStep(k).toolCalls[0];
    var w := a.world(k);
    var before := ServeAll(a.cfg, st.ledger, w.others);
    var input := InputOf(a.context, c.name, [], w);
    assert c.name in ALLOWLIST && c.arguments == Dict([]);
    OneCallOneRecord(a.cfg, before, input);
    var envelope := Serve(a.cfg, before, input).envelope;
    assert Get(envelope, "correlation_id") == Some(Str(w.id));
    FieldSanitized(Dict(envelope), "correlation_id");
    assert IsUuidPrefix(w.id);
    UuidSurvives(w.id);
  }

  lemma SameReturn(a: Agent, st: Conversation, asked: Conversation, k: nat)
    requires k < 4 && asked == st.(trace := asked.trace)
    ensures Returned(a, asked, k) == Returned(a, st, k)
  {
  }

  lemma {:induction false} RoundStaysOnTrack(a: Agent, before: Conversation, k: nat)
    requires Sane(a) && HexIds(a) && k < 4 && OnTrack(a, before, k)
    ensures OnTrack(a, NextRound(a, before, k), k + 1)
    ensures Seen(NextRound(a, before, k).trace) == Seen(before.trace) + [San.Sanitize(Returned(a, before, k))]
  {
    hide Observe, Decoded, IdOf, Seen, Asks, IdsOf, Returned;
    var turn := PlaybookStep(k);
    var asked := before.(trace := before.trace + [Asked(turn)]);
    AskedLeaves(before.trace, turn);
    PlaybookCall(a, asked, k);
    SameReturn(a, before, asked, k);
    var r := Observe(a, asked, turn.toolCalls[0], []).results.value[0];
    assert Observe(a, asked, turn.toolCalls[0], []).results.value == [r];
    SubmittedLeaves(asked.trace, r);
    IdsOfSnoc(Seen(asked.trace), r.content.value);
  }

  lemma {:induction false} AfterOnTrack(a: Agent, l: Ledger, question: string, k: nat)
    requires Sane(a) && HexIds(a) && k <= 4
    ensures OnTrack(a, After(a, l, question, k), k)
  {
    hide NextRound;
    if k == 0 {
      assert [Started(question)][..0] == [];
      assert Asks([]) == 0 && Seen([]) == [] && IdsOf([]) == [];
    } else {
      AfterOnTrack(a, l, question, k - 1);
      RoundStaysOnTrack(a, After(a, l, question, k - 1), k - 1);
    }
  }

  /** The playbook is shown what the server returned, sanitized. */
  lemma {:induction false} ShownIsSanitized(a: Agent, l: Ledger, question: string, k: nat)
    requires Sane(a) && HexIds(a) && k <= 4
    ensures Seen(After(a, l, question, k).trace) == SanitizeAll(RawResults(a, l, question, k))
  {
    hide NextRound, Returned, San.Sanitize;
    if k == 0 {
      assert [Started(question)][..0] == [] && Seen([]) == [];
    } else {
      ShownIsSanitized(a, l, question, k - 1);
      AfterOnTrack(a, l, question, k - 1);
      RoundStaysOnTrack(a, After(a, l, question, k - 1), k - 1);
    }
  }

  lemma {:induction false} SingleCall(a: Agent, st: Conversation, c: ToolCall)
    ensures CallAll(a, st, [c]) == Observe(a, st, c, [])
  {
    assert [c][..0] == [];
    assert CallAll(a, st, [c][..0]) == Observed(st, Some([]));
  }

  /** The loop takes the playbook through its calls. */
  lemma {:induction false} ContinueAfter(a: Agent, l: Ledger, question: string, k: nat, steps: nat, maxSteps: int)
    requires Sane(a) && HexIds(a) && a.policy == PlaybookPolicy() && 0 < k <= 4
    ensures Continue(a, After(a, l, question, k - 1), steps + 1, maxSteps) ==
            Continue(a, After(a, l, question, k), steps, maxSteps)
  {
    hide Observe, Judge, Asks, Seen;
    var before := After(a, l, question, k - 1);
    AfterOnTrack(a, l, question, k - 1);
    var turn := PlaybookStep(k - 1);
    assert a.policy(before.trace) == Some(turn);
    var asked := before.(trace := before.trace + [Asked(turn)]);
    assert turn.toolCalls == [turn.toolCalls[0]];
    SingleCall(a, asked, turn.toolCalls[0]);
    PlaybookCall(a, asked, k - 1);
  }

  lemma {:induction false} RunReaches(a: Agent, l: Ledger, question: string, maxSteps: int, k: nat)
    requires Sane(a) && HexIds(a) && a.policy == PlaybookPolicy() && k <= 4 && k <= Steps(maxSteps)
    ensures Run(a, l, question, maxSteps) == Continue(a, After(a, l, question, k), Steps(maxSteps) - k, maxSteps)
  {
    hide Continue;
    if k > 0 {
      RunReaches(a, l, question, maxSteps, k - 1);
      ContinueAfter(a, l, question, k, Steps(maxSteps) - k, maxSteps);
    }
  }

  /** With at most four steps the playbook always runs out of them, with one id per step. */
  lemma ShortRunsFail(a: Agent, l: Ledger, question: string, maxSteps: int)
    requires Sane(a) && HexIds(a) && a.policy == PlaybookPolicy() && maxSteps <= 4
    ensures Run(a, l, question, maxSteps).outcome ==
            Finished(RunResult(None, None, WorldIds(a, Steps(maxSteps)), Some(StepsExhausted(maxSteps))))
  {
    var k := Steps(maxSteps);
    RunReaches(a, l, question, maxSteps, k);
    AfterOnTrack(a, l, question, k);
  }

  lemma {:induction false} FinalTurn(a: Agent, l: Ledger, question: string, steps: nat, maxSteps: int)
    requires Sane(a) && HexIds(a) && a.policy == PlaybookPolicy() && steps > 0
    ensures Continue(a, After(a, l, question, 4), steps, maxSteps).outcome ==
            Finished(Judge(Encoded(EncodeDiagnosis(DiagnosisOf(Observations(a, l, question)))), WorldIds(a, 4)))
  {
    AfterOnTrack(a, l, question, 4);
    var st := After(a, l, question, 4);
    assert a.policy(st.trace) ==
           Some(Turn([], Some(Encoded(EncodeDiagnosis(DiagnosisOf(Observations(a, l, question)))))));
  }

  /** With five steps or more it always finishes, whatever the limiter, the input models and
      the tool bodies do: the four ids are those the server handed out, in call order, and the
      result is the playbook's diagnosis listing exactly these ids, accepted by the schema if
      and only if the reported number of idle sessions has at most 436 digits. */
  lemma LongRunsDiagnose(a: Agent, l: Ledger, question: string, maxSteps: int)
    requires Sane(a) && HexIds(a) && a.policy == PlaybookPolicy() && maxSteps >= 5
    ensures var o := Run(a, l, question, maxSteps).outcome;
            var obs := Observations(a, l, question);
            && o.Finished?
            && o.result.toolCallIds == WorldIds(a, 4) && |WorldIds(a, 4)| == 4
            && DiagnosisOf(obs).allToolCalls == o.result.toolCallIds
            && o.result.diagnosis ==
               (if FirstIdle(obs).Some? && |T.Decimal(FirstIdle(obs).value)| > MAX_DIGITS then None
                else Some(DiagnosisOf(obs)))
            && (o.result.diagnosis.Some? <==> o.result.error.None?)
  {
    RunReaches(a, l, question, maxSteps, 4);
    FinalTurn(a, l, question, maxSteps - 4, maxSteps);
    AfterOnTrack(a, l, question, 4);
    var obs := Observations(a, l, question);
    Schemas.RoundTrip(DiagnosisOf(obs));
    DiagnosisIsValidIff(obs);
    assert |WorldIds(a, 4)| == |WorldIds(a, 3)| + 1 && |WorldIds(a, 3)| == |WorldIds(a, 2)| + 1 &&
           |WorldIds(a, 2)| == |WorldIds(a, 1)| + 1 && |WorldIds(a, 1)| == |WorldIds(a, 0)| + 1;
  }

  lemma SixtyFourBitsAreShort(n: nat)
    requires n < 0x8000_0000_0000_0000
    ensures |T.Decimal(n)| <= 19
  {
    DecimalLength(n, 19);
    assert Pow10(2) == 100 && Pow10(4) == 10000;
    assert Pow10(6) == 1000000 && Pow10(8) == 100000000;
    assert Pow10(10) == 10000000000 && Pow10(12) == 1000000000000;
    assert Pow10(14) == 100000000000000 && Pow10(16) == 10000000000000000;
    assert Pow10(18) == 1000000000000000000 && Pow10(19) == 10000000000000000000;
  }

  /** A count that fits PostgreSQL's 64-bit integers always fits the schema. */
  lemma SixtyFourBitRunsDiagnose(a: Agent, l: Ledger, question: string, maxSteps: int)
    requires Sane(a) && HexIds(a) && a.policy == PlaybookPolicy() && maxSteps >= 5
    requires var obs := Observations(a, l, question);
             FirstIdle(obs).Some? ==> FirstIdle(obs).value < 0x8000_0000_0000_0000
    ensures var o := Run(a, l, question, maxSteps).outcome;
            o.Finished? && o.result.diagnosis == Some(DiagnosisOf(Observations(a, l, question))) &&
            o.result.diagnosis.value.allToolCalls == o.result.toolCallIds == WorldIds(a, 4)
  {
    LongRunsDiagnose(a, l, question, maxSteps);
    var idle := FirstIdle(Observations(a, l, question));
    if idle.Some? {
      SixtyFourBitsAreShort(idle.value);
    }
  }

  lemma {:induction false} RawIdsAreReadable(a: Agent, l: Ledger, question: string, k: nat)
    requires Sane(a) && HexIds(a) && k <= 4
    ensures forall i :: 0 <= i < k ==> ReadableId(RawResults(a, l, question, k)[i])
  {
    hide Returned, ReadableId, After;
    if k > 0 {
      RawIdsAreReadable(a, l, question, k - 1);
      ReturnedIdIsReadable(a, After(a, l, question, k - 1), k - 1);
    }
  }

  lemma ReturnedIdIsReadable(a: Agent, st: Conversation, k: nat)
    requires Sane(a) && HexIds(a) && k < 4
    ensures ReadableId(Returned(a, st, k))
  {
    hide Serve, ServeAll, San.Unwrap;
    var w := a.world(st.served);
    OneCallOneRecord(a.cfg, ServeAll(a.cfg, st.ledger, w.others), InputOf(a.context, PLAYBOOK[k], [], w));
    assert IsUuidPrefix(w.id);
  }

  /** The diagnosis of a run is the one the rules give on what the tools returned, before
      anything was sanitized, unless one of the four returned an empty string as a slow-query
      field with nothing else in it that counts as a slow query. */
  lemma RunDiagnosesRawResults(a: Agent, l: Ledger, question: string, maxSteps: int)
    requires Sane(a) && HexIds(a) && a.policy == PlaybookPolicy() && maxSteps >= 5
    requires var raw := RawResults(a, l, question, 4);
             FirstIdle(raw).Some? ==> FirstIdle(raw).value < 0x8000_0000_0000_0000
    ensures var o := Run(a, l, question, maxSteps).outcome;
            var raw := RawResults(a, l, question, 4);
            && o.Finished? && o.result.diagnosis == Some(DiagnosisOf(SanitizeAll(raw)))
            && (o.result.diagnosis == Some(DiagnosisOf(raw)) <==>
                forall i :: 0 <= i < 4 ==> SlowFires(raw[i]) || !EmptyText(raw[i]))
  {
    hide Run, After, RawResults, ReadableId, DiagnosisOf, SlowFires, EmptyText;
    ShownIsSanitized(a, l, question, 4);
    RulesSanitized(RawResults(a, l, question, 4));
    SixtyFourBitRunsDiagnose(a, l, question, maxSteps);
    RawIdsAreReadable(a, l, question, 4);
    SanitizingIsTransparentIff(RawResults(a, l, question, 4));
  }

  // ---- which tools a playbook run calls ------------------------------------------------------------

  /** The first four turns ask for one tool each; every later one is final. */
  lemma PlaybookTurnTells(k: nat, observed: seq<Json>)
    ensures k == 0 ==>
              PlaybookTurn(k, observed) == Some(Turn([ToolCall("toolu_1", "get_database_health", Dict([]))], None))
    ensures k == 1 ==>
              PlaybookTurn(k, observed) == Some(Turn([ToolCall("toolu_2", "get_active_connections", Dict([]))], None))
    ensures k == 2 ==>
              PlaybookTurn(k, observed) == Some(Turn([ToolCall("toolu_3", "get_slow_queries", Dict([]))], None))
    ensures k == 3 ==>
              PlaybookTurn(k, observed) == Some(Turn([ToolCall("toolu_4", "get_lock_information", Dict([]))], None))
    ensures k >= 4 ==>
              PlaybookTurn(k, observed) ==
              if exists i :: 0 <= i < |observed| && !observed[i].Dict? then None
              else Some(Turn([], Some(Encoded(EncodeDiagnosis(DiagnosisOf(observed))))))
  {
    hide DiagnosisOf, EncodeDiagnosis;
    assert T.Decimal(1) == "1" && T.Decimal(2) == "2" && T.Decimal(3) == "3" && T.Decimal(4) == "4";
    assert "toolu_" + "1" == "toolu_1" && "toolu_" + "2" == "toolu_2";
    assert "toolu_" + "3" == "toolu_3" && "toolu_" + "4" == "toolu_4";
  }

  function FirstTools(k: nat): seq<string>
    requires k <= 4
  {
    if k == 0 then [] else FirstTools(k - 1) + [PlaybookStep(k - 1).toolCalls[0].name]
  }

  lemma {:induction false} AfterAsked(a: Agent, l: Ledger, question: string, k: nat)
    requires Sane(a) && HexIds(a) && k <= 4
    ensures var trace := After(a, l, question, k).trace;
            trace != [] && !trace[|trace| - 1].Asked? && ToolsAsked(trace) == FirstTools(k)
  {
    hide Observe, ToolsAsked, Returned, IdOf, San.Sanitize, Seen, Asks, IdsOf, WorldIds, AllDicts;
    if k == 0 {
      NothingAsked([Started(question)]);
    } else {
      AfterAsked(a, l, question, k - 1);
      AfterOnTrack(a, l, question, k - 1);
      var before := After(a, l, question, k - 1);
      var turn := PlaybookStep(k - 1);
      var asked := before.(trace := before.trace + [Asked(turn)]);
      PlaybookCall(a, asked, k - 1);
      var results := Observe(a, asked, turn.toolCalls[0], []).results.value;
      ToolsAskedSnoc(before.trace, Asked(turn));
      ToolsAskedSnoc(asked.trace, Submitted(results));
      OneName(turn.toolCalls);
    }
  }

  lemma {:induction false} NothingAsked(trace: seq<Event>)
    requires |trace| < 2
    ensures ToolsAsked(trace) == []
  {
  }

  lemma {:induction false} OneName(calls: seq<ToolCall>)
    requires |calls| == 1 && IsTool(calls[0].name)
    ensures ToolNames(calls) == [calls[0].name]
  {
    assert calls[..0] == [] && ToolNames([]) == [];
  }

  /** A playbook run of five steps or more leaves exactly four audit records, one for each of
      its tools, in its order, whatever comes back. */
  lemma PlaybookCallsFourTools(a: Agent, l: Ledger, question: string, maxSteps: int)
    requires Sane(a) && HexIds(a) && a.policy == PlaybookPolicy() && maxSteps >= 5
    ensures ToolTrail(Run(a, l, question, maxSteps).conversation.ledger.log, a.context) ==
            ToolTrail(l.log, a.context) +
            ["get_database_health", "get_active_connections", "get_slow_queries", "get_lock_information"]
  {
    hide ToolTrail, Run, After, DiagnosisOf, WorldIds, FirstIdle, T.Decimal;
    LongRunsDiagnose(a, l, question, maxSteps);
    RunCallsWhatTheModelAsked(a, l, question, maxSteps);
    RunReaches(a, l, question, maxSteps, 4);
    AfterAsked(a, l, question, 4);
    AfterOnTrack(a, l, question, 4);
    FinalTrace(a, After(a, l, question, 4), maxSteps - 4, maxSteps);
    assert FirstTools(4) == FirstTools(3) + ["get_lock_information"] &&
           FirstTools(3) == FirstTools(2) + ["get_slow_queries"] &&
           FirstTools(2) == FirstTools(1) + ["get_active_connections"] && FirstTools(1) == ["get_database_health"];
  }

  lemma FinalTrace(a: Agent, st: Conversation, steps: nat, maxSteps: int)
    requires a.policy == PlaybookPolicy() && steps > 0 && Asks(st.trace) == 4 && AllDicts(Seen(st.trace))
    requires st.trace != []
    ensures ToolsAsked(Continue(a, st, steps, maxSteps).conversation.trace) == ToolsAsked(st.trace)
  {
    hide DiagnosisOf, Asks, Seen, AllDicts, Judge, ToolsAsked;
    var turn := a.policy(st.trace).value;
    ToolsAskedSnoc(st.trace, Asked(turn));
  }
}
