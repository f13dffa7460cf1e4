/** What the offline evaluation measures: when the rule for a chaos scenario fires, the
    playbook's diagnosis passes that scenario. */
module OfflineScores {
  import opened Wrappers
  import opened Json
  import opened Tools
  import opened Schemas
  import opened Loop
  import opened LoopSafety
  import opened Playbook
  import opened PlaybookRuns
  import opened Scorer
  import T = Text

  /** `expected_findings` of the three scenarios. */
  const SLOW_KEYWORDS := ["slow", "sleep", "long-running"]
  const LOCK_KEYWORDS := ["lock", "block", "contention"]
  const IDLE_KEYWORDS := ["idle in transaction", "idle-in-transaction", "connection"]

  function LowerChar(c: char): char {
    if 'A' <= c <= 'Z' then c - 'A' + 'a' else c
  }

  /** `str.lower`, on text whose only letters are ASCII letters. */
  function Lower(s: string): (r: string)
    ensures |r| == |s|
  {
    seq(|s|, i requires 0 <= i < |s| => LowerChar(s[i]))
  }

  /** Lower-casing leaves no capital and changes nothing but capitals. */
  lemma LowerIsLower(s: string)
    ensures forall i :: 0 <= i < |s| ==>
              && !('A' <= Lower(s)[i] <= 'Z')
              && (Lower(s)[i] == s[i] || ('A' <= s[i] <= 'Z' && Lower(s)[i] as int == s[i] as int + 32))
  {
    forall i | 0 <= i < |s| ensures Lower(s)[i] == LowerChar(s[i]) {
    }
  }

  lemma LowerFoldsWords()
    ensures FoldsWords(Lower)
  {
    forall s, t ensures Lower(s + " " + t) == Lower(s) + " " + Lower(t) {
    }
  }

  lemma LowerConcat(s: string, t: string)
    ensures Lower(s + t) == Lower(s) + Lower(t)
  {
  }

  // ---- a keyword in one finding is in the diagnosis --------------------------------------------

  lemma ContainsInside(before: string, text: string, after: string, pat: string)
    requires T.Contains(text, pat)
    ensures T.Contains(before + text + after, pat)
  {
    var i: nat :| i <= |text| && T.OccursAt(text, pat, i);
    var all := before + text + after;
    assert all[|before| + i..|before| + i + |pat|] == text[i..i + |pat|];
    assert T.OccursAt(all, pat, |before| + i);
  }

  lemma {:induction false} JoinedAround(fs: seq<Finding>, k: nat) returns (before: string, after: string)
    requires k < |fs|
    ensures Joined(fs) == before + TextOf(fs[k]) + after
  {
    if |fs| == 1 {
      before, after := "", "";
    } else if k == |fs| - 1 {
      before, after := Joined(fs[..k]) + " ", "";
    } else {
      var earlier;
      before, earlier := JoinedAround(fs[..|fs| - 1], k);
      after := earlier + " " + TextOf(fs[|fs| - 1]);
    }
  }

  /** The keyword occurs in the text of a finding, or of its action. */
  ghost predicate Says(f: Finding, keyword: string) {
    T.Contains(Lower(f.finding), keyword) || T.Contains(Lower(f.recommendedAction), keyword)
  }

  lemma Mentioned(d: Diagnosis, f: Finding, keyword: string)
    requires f in d.findings && Says(f, keyword)
    ensures T.Contains(Lower(Haystack(d)), keyword)
  {
    var k :| 0 <= k < |d.findings| && d.findings[k] == f;
    var before, after := JoinedAround(d.findings, k);
    var front := d.summary + " " + before;
    if T.Contains(Lower(f.finding), keyword) {
      var back := " " + f.recommendedAction + after;
      assert Haystack(d) == front + f.finding + back;
      LowerConcat(front + f.finding, back);
      LowerConcat(front, f.finding);
      ContainsInside(Lower(front), Lower(f.finding), Lower(back), keyword);
    } else {
      var before' := front + f.finding + " ";
      assert Haystack(d) == before' + f.recommendedAction + after;
      LowerConcat(before' + f.recommendedAction, after);
      LowerConcat(before', f.recommendedAction);
      ContainsInside(Lower(before'), Lower(f.recommendedAction), Lower(after), keyword);
    }
  }

  // ---- the rules and their keywords --------------------------------------------------------------

  lemma At(text: string, keyword: string, i: nat)
    requires i + |keyword| <= |text|
    requires forall k :: 0 <= k < |keyword| ==> LowerChar(text[i + k]) == keyword[k]
    ensures T.Contains(Lower(text), keyword)
  {
    assert Lower(text)[i..i + |keyword|] == keyword;
    assert T.OccursAt(Lower(text), keyword, i);
  }

  lemma SlowSays(ids: seq<string>)
    ensures forall k <- SLOW_KEYWORDS :: Says(SlowFinding(ids), k)
  {
    At(SLOW_TEXT, "slow", 13);
    At(SLOW_ACTION, "sleep", 25);
    At(SLOW_TEXT, "long-running", 0);
  }

  lemma LockSaysBlock(ids: seq<string>)
    ensures Says(LockFinding(ids), "block")
  {
    At(LOCK_ACTION, "block", 9);
  }

  lemma LockSays(ids: seq<string>)
    ensures forall k <- LOCK_KEYWORDS :: Says(LockFinding(ids), k)
  {
    At(LOCK_TEXT, "lock", 0);
    At(LOCK_TEXT, "contention", 5);
    LockSaysBlock(ids);
  }

  lemma IdleTextSays()
    ensures T.Contains(Lower(IDLE_TEXT), "idle in transaction") && T.Contains(Lower(IDLE_TEXT), "connection")
  {
    At(IDLE_TEXT, "connection", 1);
    At(IDLE_TEXT, "idle in transaction", 17);
  }

  lemma ContainsInTail(front: string, text: string, keyword: string)
    requires T.Contains(Lower(text), keyword)
    ensures T.Contains(Lower(front + text), keyword)
  {
    LowerConcat(front, text);
    ContainsInside(Lower(front), Lower(text), "", keyword);
    assert Lower(front) + Lower(text) + "" == Lower(front) + Lower(text);
  }

  lemma IdleSays(n: nat, ids: seq<string>)
    ensures Says(IdleFinding(n, ids), "idle in transaction") && Says(IdleFinding(n, ids), "connection")
  {
    IdleTextSays();
    ContainsInTail(T.Decimal(n), IDLE_TEXT, "idle in transaction");
    ContainsInTail(T.Decimal(n), IDLE_TEXT, "connection");
  }

  /** Reporting that nothing is wrong takes one keyword of each scenario. */
  lemma QuietSays(ids: seq<string>)
    ensures Says(QuietFinding(ids), "connection") && Says(QuietFinding(ids), "slow") && Says(QuietFinding(ids), "lock")
  {
    At(QUIET_TEXT, "connection", 35);
    At(QUIET_TEXT, "slow", 48);
    At(QUIET_TEXT, "lock", 65);
  }

  // ---- the scores -------------------------------------------------------------------------------

  predicate AnySlow(observed: seq<Json>) {
    exists i :: 0 <= i < |observed| && SlowFires(observed[i])
  }

  lemma {:induction false} SlowIsListed(observed: seq<Json>, ids: seq<string>)
    requires AnySlow(observed)
    ensures SlowFinding(ids) in SlowFindings(observed, ids)
  {
    var n := |observed| - 1;
    if !SlowFires(observed[n]) {
      var i :| 0 <= i < |observed| && SlowFires(observed[i]);
      assert observed[..n][i] == observed[i];
      SlowIsListed(observed[..n], ids);
    }
  }

  /** The finding of each rule that fired is in the diagnosis, or else the quiet one is. */
  lemma FiredIsListed(observed: seq<Json>)
    ensures var fs, ids := DiagnosisOf(observed).findings, IdsOf(observed);
            && (AnySlow(observed) ==> SlowFinding(ids) in fs)
            && (AnyLock(observed) ==> LockFinding(ids) in fs)
            && (FirstIdle(observed).Some? ==> IdleFinding(FirstIdle(observed).value, ids) in fs)
            && (!AnySlow(observed) && !AnyLock(observed) && FirstIdle(observed).None? ==> QuietFinding(ids) in fs)
  {
    hide SlowFinding, LockFinding, IdleFinding, QuietFinding;
    var ids := IdsOf(observed);
    var slow, once := SlowFindings(observed, ids), OnceFindings(observed, ids);
    if AnySlow(observed) {
      SlowIsListed(observed, ids);
    } else {
      NoSlowIsEmpty(observed, ids);
    }
    if AnyLock(observed) {
      assert once[0] == LockFinding(ids);
    }
    if FirstIdle(observed).Some? {
      assert once[|once| - 1] == IdleFinding(FirstIdle(observed).value, ids);
    }
    assert forall f :: f in slow || f in once ==> f in slow + once;
  }

  lemma {:induction false} NoSlowIsEmpty(observed: seq<Json>, ids: seq<string>)
    requires !AnySlow(observed)
    ensures SlowFindings(observed, ids) == []
  {
    if observed != [] {
      assert forall i :: 0 <= i < |observed| - 1 ==> observed[..|observed| - 1][i] == observed[i];
      NoSlowIsEmpty(observed[..|observed| - 1], ids);
    }
  }

  lemma {:induction false} AlreadyLower(s: string)
    requires forall i :: 0 <= i < |s| ==> !('A' <= s[i] <= 'Z')
    ensures Lower(s) == s
  {
  }

  function One(b: bool): nat {
    if b then 1 else 0
  }

  lemma {:induction false} ScoreOfThree(scenario: string, a: string, b: string, c: string, d: Diagnosis)
    requires Lower(a) == a && Lower(b) == b && Lower(c) == c
    ensures var text := Lower(Haystack(d));
            ScoreOf(Lower, scenario, [a, b, c], Some(d)).score ==
            (One(T.Contains(text, a)) + One(T.Contains(text, b)) + One(T.Contains(text, c))) as real / 3.0
  {
    var text := Lower(Haystack(d));
    assert [a, b, c][..2] == [a, b] && [a, b][..1] == [a] && [a][..0] == [];
    assert |Sifted(Lower, [a], text, true)| == One(T.Contains(text, a));
    assert |Sifted(Lower, [a, b], text, true)| == |Sifted(Lower, [a], text, true)| + One(T.Contains(text, b));
  }

  /** Whatever the tools return: a rule that fires gives its scenario a full score, or at least
      two thirds for idle transactions. A diagnosis that reports nothing abnormal still gets at
      least a third of each. */
  lemma FiredRulesScore(observed: seq<Json>)
    ensures var d := Some(DiagnosisOf(observed));
            var slow := ScoreOf(Lower, "slow_query", SLOW_KEYWORDS, d);
            var lock := ScoreOf(Lower, "lock_contention", LOCK_KEYWORDS, d);
            var idle := ScoreOf(Lower, "idle_in_transaction", IDLE_KEYWORDS, d);
            && (AnySlow(observed) ==> slow.score == 1.0)
            && (AnyLock(observed) ==> lock.score == 1.0)
            && (FirstIdle(observed).Some? ==> idle.score >= 2.0 / 3.0)
            && (!AnySlow(observed) && !AnyLock(observed) && FirstIdle(observed).None? ==>
                  slow.score >= 1.0 / 3.0 && lock.score >= 1.0 / 3.0 && idle.score >= 1.0 / 3.0)
  {
    hide SlowFinding, LockFinding, IdleFinding, QuietFinding, DiagnosisOf, Says, ScoreOf, T.Contains;
    var ids, d := IdsOf(observed), DiagnosisOf(observed);
    FiredIsListed(observed);
    KeywordsAreLower();
    ScoreOfThree("slow_query", "slow", "sleep", "long-running", d);
    ScoreOfThree("lock_contention", "lock", "block", "contention", d);
    ScoreOfThree("idle_in_transaction", "idle in transaction", "idle-in-transaction", "connection", d);
    if AnySlow(observed) {
      SlowSays(ids);
      forall k <- SLOW_KEYWORDS ensures T.Contains(Lower(Haystack(d)), k) { Mentioned(d, SlowFinding(ids), k); }
    }
    if AnyLock(observed) {
      LockSays(ids);
      forall k <- LOCK_KEYWORDS ensures T.Contains(Lower(Haystack(d)), k) { Mentioned(d, LockFinding(ids), k); }
    }
    if FirstIdle(observed).Some? {
      var n := FirstIdle(observed).value;
      IdleSays(n, ids);
      Mentioned(d, IdleFinding(n, ids), "idle in transaction");
      Mentioned(d, IdleFinding(n, ids), "connection");
    }
    if QuietFinding(ids) in d.findings {
      QuietSays(ids);
      Mentioned(d, QuietFinding(ids), "slow");
      Mentioned(d, QuietFinding(ids), "lock");
      Mentioned(d, QuietFinding(ids), "connection");
    }
  }

  lemma KeywordsAreLower()
    ensures forall k :: k in SLOW_KEYWORDS || k in LOCK_KEYWORDS || k in IDLE_KEYWORDS ==> Lower(k) == k
  {
    AlreadyLower("slow");
    AlreadyLower("sleep");
    AlreadyLower("long-running");
    AlreadyLower("lock");
    AlreadyLower("block");
    AlreadyLower("contention");
    AlreadyLower("idle in transaction");
    AlreadyLower("idle-in-transaction");
    AlreadyLower("connection");
  }

  /** Every scenario that these results show is passed: slow queries are listed, a session is
      blocked, three transactions or more are idle. */
  ghost predicate PassesWhatShows(d: Option<Diagnosis>, results: seq<Json>) {
    && (SlowResults(results) != [] ==>
          ScoreOf(Lower, "slow_query", ["slow", "sleep", "long-running"], d).Passed())
    && ((exists i :: 0 <= i < |results| && HasBlockedRow(results[i])) ==>
          ScoreOf(Lower, "lock_contention", ["lock", "block", "contention"], d).Passed())
    && ((exists i, n :: 0 <= i < |results| && ReportsIdle(results[i], n)) ==>
          ScoreOf(Lower, "idle_in_transaction", ["idle in transaction", "idle-in-transaction", "connection"],
                  d).Passed())
  }

  /** What raw results show, the rules see in the sanitized ones. */
  lemma SeenWhenSanitized(raw: seq<Json>)
    ensures SlowResults(raw) != [] ==> AnySlow(SanitizeAll(raw))
    ensures (exists i :: 0 <= i < |raw| && HasBlockedRow(raw[i])) ==> AnyLock(SanitizeAll(raw))
    ensures (exists i, n :: 0 <= i < |raw| && ReportsIdle(raw[i], n)) ==> FirstIdle(SanitizeAll(raw)).Some?
  {
    hide HasBlockedRow, ReportsIdle, SlowFires, TruthyUnder;
    RulesSanitized(raw);
    LockTells(raw);
    IdleTells(raw);
    if SlowResults(raw) != [] {
      var i := SlowResults(raw)[0];
      WhereIs(raw, (r: Json) => TruthyUnder(r, "active_slow_queries") || TruthyUnder(r, "historic_slow_queries"));
      SlowFiresIff(raw[i]);
      SlowSanitized(raw[i]);
      assert SlowFires(SanitizeAll(raw)[i]);
    }
  }

  /** End to end: with five steps or more, every scenario shown by what the tools returned is
      passed, through the limiter, the pipeline, the loop, the sanitizer and the schema, as long
      as the reported count of idle sessions fits 64 bits. */
  lemma OfflineRunsPass(a: Agent, l: Ledger, question: string, maxSteps: int)
    requires Sane(a) && HexIds(a) && a.policy == PlaybookPolicy() && maxSteps >= 5
    requires var raw := RawResults(a, l, question, 4);
             FirstIdle(raw).Some? ==> FirstIdle(raw).value < 0x8000_0000_0000_0000
    ensures var o := Run(a, l, question, maxSteps).outcome;
            o.Finished? && PassesWhatShows(o.result.diagnosis, RawResults(a, l, question, 4))
  {
    hide Run, RawResults, DiagnosisOf, ScoreOf, AnySlow, AnyLock, FirstIdle, SlowResults, HasBlockedRow, ReportsIdle;
    RunDiagnosesRawResults(a, l, question, maxSteps);
    SeenWhenSanitized(RawResults(a, l, question, 4));
    FiredRulesScore(SanitizeAll(RawResults(a, l, question, 4)));
  }
}
