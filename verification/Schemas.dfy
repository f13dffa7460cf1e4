/** agent/schemas.py: the diagnosis the agent must produce, and the gate it must pass. */
module Schemas {
  import opened Wrappers
  import opened Json

  datatype Confidence = Low | Medium | High

  datatype Finding = Finding(finding: string, evidence: seq<string>, confidence: Confidence,
                             recommendedAction: string)

  datatype Diagnosis = Diagnosis(summary: string, findings: seq<Finding>, allToolCalls: seq<string>)

  // ---- `model_validate` ----------------------------------------------------------------

  function ParseStrings(items: seq<Json>): Option<seq<string>> {
    if items == [] then Some([])
    else
      match (items[0], ParseStrings(items[1..]))
      case (Str(s), Some(rest)) => Some([s] + rest)
      case _ => None
  }

  /** A list of strings, or the empty default when the field is missing. */
  function ParseIds(v: Option<Json>): Option<seq<string>> {
    match v
    case None => Some([])
    case Some(List(items)) => ParseStrings(items)
    case _ => None
  }

  function ParseConfidence(v: Option<Json>): Option<Confidence> {
    match v
    case None => Some(Medium)
    case Some(Str(s)) =>
      if s == "low" then Some(Low) else if s == "medium" then Some(Medium)
      else if s == "high" then Some(High) else None
    case _ => None
  }

  /** A string field with length bounds and perhaps a default. */
  function ParseText(v: Option<Json>, default: Option<string>, min: nat, max: nat): Option<string> {
    match v
    case None => default
    case Some(Str(s)) => if min <= |s| <= max then Some(s) else None
    case _ => None
  }

  const FINDING_KEYS := {"finding", "evidence", "confidence", "recommended_action"}
  const DIAGNOSIS_KEYS := {"summary", "findings", "all_tool_calls"}

  function ParseFinding(v: Json): Option<Finding> {
    match v
    case Dict(entries) =>
      if !(Keys(entries) <= FINDING_KEYS) then None
      else (
        match (ParseText(Get(entries, "finding"), None, 1, 500),
               ParseIds(Get(entries, "evidence")),
               ParseConfidence(Get(entries, "confidence")),
               ParseText(Get(entries, "recommended_action"), Some(""), 0, 500))
        case (Some(finding), Some(evidence), Some(confidence), Some(action)) =>
          // _require_evidence
          if evidence == [] then None else Some(Finding(finding, evidence, confidence, action))
        case _ => None)
    case _ => None
  }

  function ParseFindings(items: seq<Json>): Option<seq<Finding>> {
    if items == [] then Some([])
    else
      match (ParseFinding(items[0]), ParseFindings(items[1..]))
      case (Some(f), Some(rest)) => Some([f] + rest)
      case _ => None
  }

  function ParseFindingList(v: Option<Json>): Option<seq<Finding>> {
    match v
    case None => Some([])
    case Some(List(items)) => ParseFindings(items)
    case _ => None
  }

  /** _evidence_must_reference_real_calls, for one finding: does it cite an unknown id? */
  predicate CitesUnknown(f: Finding, known: seq<string>) {
    exists e <- f.evidence :: e !in known
  }

  function ParseDiagnosis(v: Json): Option<Diagnosis> {
    match v
    case Dict(entries) =>
      if !(Keys(entries) <= DIAGNOSIS_KEYS) then None
      else (
        match (ParseText(Get(entries, "summary"), None, 1, 1000),
               ParseFindingList(Get(entries, "findings")),
               ParseIds(Get(entries, "all_tool_calls")))
        case (Some(summary), Some(findings), Some(ids)) =>
          if exists f <- findings :: CitesUnknown(f, ids) then None
          else Some(Diagnosis(summary, findings, ids))
        case _ => None)
    case _ => None
  }

  // ---- what the gate guarantees --------------------------------------------------------

  ghost predicate ValidFinding(f: Finding) {
    1 <= |f.finding| <= 500 && f.evidence != [] && |f.recommendedAction| <= 500
  }

  ghost predicate ValidDiagnosis(d: Diagnosis) {
    && 1 <= |d.summary| <= 1000
    && forall f <- d.findings :: ValidFinding(f) && forall e <- f.evidence :: e in d.allToolCalls
  }

  lemma {:induction false} ParsedFindingsAreValid(items: seq<Json>)
    ensures ParseFindings(items).Some? ==> forall f <- ParseFindings(items).value :: ValidFinding(f)
  {
    if items != [] {
      ParsedFindingsAreValid(items[1..]);
    }
  }

  /** Whatever JSON a model answers with, an accepted diagnosis has non-empty evidence for
      each finding, drawn from its own list of tool calls. */
  lemma AcceptedIsValid(v: Json)
    ensures ParseDiagnosis(v).Some? ==> ValidDiagnosis(ParseDiagnosis(v).value)
  {
    if ParseDiagnosis(v).Some? {
      var listed := Get(v.entries, "findings");
      if listed.Some? {
        ParsedFindingsAreValid(listed.value.items);
      }
      var d := ParseDiagnosis(v).value;
      forall f <- d.findings, e <- f.evidence ensures e in d.allToolCalls {
        assert !CitesUnknown(f, d.allToolCalls);
      }
    }
  }

  // ---- what exactly is accepted --------------------------------------------------------

  /** A text field, or its default when it is missing. */
  ghost predicate TextIs(v: Option<Json>, default: Option<string>, min: nat, max: nat, s: string) {
    if v.None? then default == Some(s) else v.value == Str(s) && min <= |s| <= max
  }

  /** A list of strings, or none of them when it is missing. */
  ghost predicate IdsAre(v: Option<Json>, ids: seq<string>) {
    if v.None? then ids == []
    else
      && v.value.List? && |v.value.items| == |ids|
      && forall i :: 0 <= i < |ids| ==> v.value.items[i] == Str(ids[i])
  }

  ghost predicate ConfidenceIs(v: Option<Json>, c: Confidence) {
    || (v == None && c == Medium)
    || (v == Some(Str("low")) && c == Low)
    || (v == Some(Str("medium")) && c == Medium)
    || (v == Some(Str("high")) && c == High)
  }

  ghost predicate FindingIs(v: Json, f: Finding) {
    && v.Dict? && Keys(v.entries) <= {"finding", "evidence", "confidence", "recommended_action"}
    && TextIs(Get(v.entries, "finding"), None, 1, 500, f.finding)
    && IdsAre(Get(v.entries, "evidence"), f.evidence) && f.evidence != []
    && ConfidenceIs(Get(v.entries, "confidence"), f.confidence)
    && TextIs(Get(v.entries, "recommended_action"), Some(""), 0, 500, f.recommendedAction)
  }

  ghost predicate FindingsAre(v: Option<Json>, fs: seq<Finding>) {
    if v.None? then fs == []
    else
      && v.value.List? && |v.value.items| == |fs|
      && forall i :: 0 <= i < |fs| ==> FindingIs(v.value.items[i], fs[i])
  }

  /** The JSON value `v` is a well-formed diagnosis, and `d` is what it says. */
  ghost predicate DiagnosisIs(v: Json, d: Diagnosis) {
    && v.Dict? && Keys(v.entries) <= {"summary", "findings", "all_tool_calls"}
    && TextIs(Get(v.entries, "summary"), None, 1, 1000, d.summary)
    && FindingsAre(Get(v.entries, "findings"), d.findings)
    && IdsAre(Get(v.entries, "all_tool_calls"), d.allToolCalls)
    && forall f <- d.findings, e <- f.evidence :: e in d.allToolCalls
  }

  lemma {:induction false} StringsIff(items: seq<Json>, ids: seq<string>)
    ensures ParseStrings(items) == Some(ids) <==> IdsAre(Some(List(items)), ids)
  {
    if items != [] && ids != [] {
      StringsIff(items[1..], ids[1..]);
      assert ids == [ids[0]] + ids[1..];
      assert forall i :: 0 < i < |items| ==> items[i] == items[1..][i - 1];
      assert forall i :: 0 < i < |ids| ==> ids[i] == ids[1..][i - 1];
    }
  }

  lemma IdsIff(v: Option<Json>, ids: seq<string>)
    ensures ParseIds(v) == Some(ids) <==> IdsAre(v, ids)
  {
    hide ParseStrings;
    if v.Some? && v.value.List? {
      StringsIff(v.value.items, ids);
    }
  }

  lemma FindingIff(v: Json, f: Finding)
    ensures ParseFinding(v) == Some(f) <==> FindingIs(v, f)
  {
    hide ParseIds, IdsAre;
    if v.Dict? {
      IdsIff(Get(v.entries, "evidence"), f.evidence);
    }
  }

  lemma {:induction false} FindingsIff(items: seq<Json>, fs: seq<Finding>)
    ensures ParseFindings(items) == Some(fs) <==> FindingsAre(Some(List(items)), fs)
  {
    hide ParseFinding, FindingIs;
    if items != [] && fs != [] {
      FindingIff(items[0], fs[0]);
      FindingsIff(items[1..], fs[1..]);
      assert fs == [fs[0]] + fs[1..];
      assert forall i :: 0 < i < |items| ==> items[i] == items[1..][i - 1];
      assert forall i :: 0 < i < |fs| ==> fs[i] == fs[1..][i - 1];
    }
  }

  lemma FindingListIff(v: Option<Json>, fs: seq<Finding>)
    ensures ParseFindingList(v) == Some(fs) <==> FindingsAre(v, fs)
  {
    hide ParseFindings;
    if v.Some? && v.value.List? {
      FindingsIff(v.value.items, fs);
    }
  }

  /** Validation accepts exactly the well-formed diagnoses, and reads each as what it says. */
  lemma AcceptedIff(v: Json, d: Diagnosis)
    ensures ParseDiagnosis(v) == Some(d) <==> DiagnosisIs(v, d)
  {
    hide ParseIds, IdsAre, ParseFindingList, FindingsAre;
    if v.Dict? {
      FindingListIff(Get(v.entries, "findings"), d.findings);
      IdsIff(Get(v.entries, "all_tool_calls"), d.allToolCalls);
      CitedIff(d);
    }
  }

  lemma CitedIff(d: Diagnosis)
    ensures (exists f <- d.findings :: CitesUnknown(f, d.allToolCalls)) <==>
            !(forall f <- d.findings, e <- f.evidence :: e in d.allToolCalls)
  {
    assert forall f :: CitesUnknown(f, d.allToolCalls) <==> !(forall e <- f.evidence :: e in d.allToolCalls);
  }

  // ---- the encoding of a diagnosis -----------------------------------------------------

  function Strings(ids: seq<string>): (items: seq<Json>)
    ensures |items| == |ids|
  {
    seq(|ids|, i requires 0 <= i < |ids| => Str(ids[i]))
  }

  function ConfidenceName(c: Confidence): string {
    match c
    case Low => "low"
    case Medium => "medium"
    case High => "high"
  }

  function EncodeFinding(f: Finding): Json {
    Dict([Entry("finding", Str(f.finding)),
          Entry("evidence", List(Strings(f.evidence))),
          Entry("confidence", Str(ConfidenceName(f.confidence))),
          Entry("recommended_action", Str(f.recommendedAction))])
  }

  function EncodeFindings(fs: seq<Finding>): (items: seq<Json>)
    ensures |items| == |fs|
  {
    seq(|fs|, i requires 0 <= i < |fs| => EncodeFinding(fs[i]))
  }

  function EncodeDiagnosis(d: Diagnosis): Json {
    Dict([Entry("summary", Str(d.summary)),
          Entry("findings", List(EncodeFindings(d.findings))),
          Entry("all_tool_calls", List(Strings(d.allToolCalls)))])
  }

  lemma {:induction false} ParseOfStrings(ids: seq<string>)
    ensures ParseStrings(Strings(ids)) == Some(ids)
  {
    if ids != [] {
      assert Strings(ids)[1..] == Strings(ids[1..]);
      ParseOfStrings(ids[1..]);
      assert ids == [ids[0]] + ids[1..];
    }
  }

  lemma ParseOfFinding(f: Finding)
    ensures ParseFinding(EncodeFinding(f)) == if ValidFinding(f) then Some(f) else None
  {
    var es := EncodeFinding(f).entries;
    ParseOfStrings(f.evidence);
    assert Keys(es) <= FINDING_KEYS;
    assert es[1..][0] == es[1] && es[1..][1..][0] == es[2] && es[1..][1..][1..][0] == es[3];
    assert Get(es, "finding") == Some(Str(f.finding));
    assert Get(es, "evidence") == Get(es[1..], "evidence") == Some(List(Strings(f.evidence)));
    assert Get(es, "confidence") == Get(es[1..][1..], "confidence") == Some(Str(ConfidenceName(f.confidence)));
    assert Get(es, "recommended_action") == Get(es[1..][1..], "recommended_action") ==
           Get(es[1..][1..][1..], "recommended_action") == Some(Str(f.recommendedAction));
  }

  lemma {:induction false} ParseOfFindings(fs: seq<Finding>)
    ensures ParseFindings(EncodeFindings(fs)) ==
            if forall f <- fs :: ValidFinding(f) then Some(fs) else None
  {
    hide ParseFinding, EncodeFinding, ValidFinding;
    if fs != [] {
      assert EncodeFindings(fs)[1..] == EncodeFindings(fs[1..]);
      ParseOfFinding(fs[0]);
      ParseOfFindings(fs[1..]);
      assert fs == [fs[0]] + fs[1..];
      assert forall f :: f in fs <==> f == fs[0] || f in fs[1..];
    }
  }

  /** Encoding and validating is the identity on valid diagnoses and rejects all others. */
  lemma RoundTrip(d: Diagnosis)
    ensures ParseDiagnosis(EncodeDiagnosis(d)) == if ValidDiagnosis(d) then Some(d) else None
  {
    var es := EncodeDiagnosis(d).entries;
    ParseOfFindings(d.findings);
    ParseOfStrings(d.allToolCalls);
    assert Keys(es) <= DIAGNOSIS_KEYS;
    assert es[1..][0] == es[1] && es[1..][1..][0] == es[2];
    assert Get(es, "summary") == Some(Str(d.summary));
    assert Get(es, "findings") == Get(es[1..], "findings") == Some(List(EncodeFindings(d.findings)));
    assert Get(es, "all_tool_calls") == Get(es[1..][1..], "all_tool_calls") == Some(List(Strings(d.allToolCalls)));
    assert forall f :: CitesUnknown(f, d.allToolCalls) <==> !(forall e <- f.evidence :: e in d.allToolCalls);
  }
}
