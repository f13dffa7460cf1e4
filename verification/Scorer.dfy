/** eval/scorer.py: keywords looked for in the text of a diagnosis, and what the scores of the
    offline playbook mean. Case folding is `lower`, a parameter. */
module Scorer {
  import opened Wrappers
  import opened Schemas
  import T = Text

  datatype Score = Score(scenario: string, matched: seq<string>, missing: seq<string>, score: real) {
    predicate Passed() {
      score >= 0.5
    }
  }

  function TextOf(f: Finding): string {
    f.finding + " " + f.recommendedAction
  }

  /** `" ".join(...)` over the findings. */
  function Joined(fs: seq<Finding>): string {
    if fs == [] then ""
    else if |fs| == 1 then TextOf(fs[0])
    else Joined(fs[..|fs| - 1]) + " " + TextOf(fs[|fs| - 1])
  }

  function Haystack(d: Diagnosis): string {
    d.summary + " " + Joined(d.findings)
  }

  /** The keywords that occur (`wanted`), or do not occur, in the text, in the order given. */
  function Sifted(lower: string -> string, keywords: seq<string>, text: string, wanted: bool): seq<string> {
    if keywords == [] then []
    else
      var before := Sifted(lower, keywords[..|keywords| - 1], text, wanted);
      var last := keywords[|keywords| - 1];
      if T.Contains(text, lower(last)) == wanted then before + [last] else before
  }

  function Fraction(part: nat, whole: nat): real {
    part as real / (if whole == 0 then 1 else whole) as real
  }

  function ScoreOf(lower: string -> string, scenario: string, expected: seq<string>, d: Option<Diagnosis>): Score {
    match d
    case None => Score(scenario, [], expected, 0.0)
    case Some(diagnosis) =>
      var text := lower(Haystack(diagnosis));
      var matched := Sifted(lower, expected, text, true);
      Score(scenario, matched, Sifted(lower, expected, text, false), Fraction(|matched|, |expected|))
  }

  method ScoreDiagnosis(lower: string -> string, scenario: string, expected: seq<string>, d: Option<Diagnosis>)
    returns (s: Score)
    ensures s == ScoreOf(lower, scenario, expected, d)
  {
    if d.None? {
      return Score(scenario, [], expected, 0.0);
    }
    var haystack := lower(Haystack(d.value));
    var matched: seq<string>, missing: seq<string> := [], [];
    for i := 0 to |expected|
      invariant matched == Sifted(lower, expected[..i], haystack, true)
      invariant missing == Sifted(lower, expected[..i], haystack, false)
    {
      assert expected[..i + 1][..i] == expected[..i];
      if T.Contains(haystack, lower(expected[i])) {
        matched := matched + [expected[i]];
      } else {
        missing := missing + [expected[i]];
      }
    }
    assert expected[..|expected|] == expected;
    return Score(scenario, matched, missing, Fraction(|matched|, |expected|));
  }

  // ---- more findings never lower a score -----------------------------------------------------

  /** Lower-casing treats the two sides of a space separately. Python's `str.lower` does, even
      where it looks at the context of a character (the final sigma). */
  ghost predicate FoldsWords(lower: string -> string) {
    lower("") == "" && forall s, t :: lower(s + " " + t) == lower(s) + " " + lower(t)
  }

  lemma {:induction false} ContainsInLonger(text: string, more: string, pat: string)
    requires T.Contains(text, pat)
    ensures T.Contains(text + more, pat)
  {
    var i: nat :| i <= |text| && T.OccursAt(text, pat, i);
    assert (text + more)[i..i + |pat|] == text[i..i + |pat|];
    assert T.OccursAt(text + more, pat, i);
  }

  lemma {:induction false} SiftedInLonger(lower: string -> string, keywords: seq<string>, text: string, more: string)
    ensures |Sifted(lower, keywords, text, true)| <= |Sifted(lower, keywords, text + more, true)|
    ensures forall k <- Sifted(lower, keywords, text, true) :: k in Sifted(lower, keywords, text + more, true)
  {
    if keywords != [] {
      SiftedInLonger(lower, keywords[..|keywords| - 1], text, more);
      var last := lower(keywords[|keywords| - 1]);
      if T.Contains(text, last) {
        ContainsInLonger(text, more, last);
      }
    }
  }

  /** The folded text of a diagnosis with one more finding only grows at the end. */
  lemma HaystackGrows(lower: string -> string, d: Diagnosis, f: Finding)
    requires FoldsWords(lower)
    ensures lower(Haystack(d)) <= lower(Haystack(d.(findings := d.findings + [f])))
  {
    var more := d.findings + [f];
    assert more[..|d.findings|] == d.findings;
    if d.findings == [] {
      assert lower(d.summary + " " + "") == lower(d.summary) + " " + lower("");
      assert lower(d.summary + " " + TextOf(f)) == lower(d.summary) + " " + lower(TextOf(f));
    } else {
      assert Haystack(d.(findings := more)) == Haystack(d) + " " + TextOf(f);
    }
  }

  lemma {:induction false} ScoreGrows(lower: string -> string, scenario: string, expected: seq<string>, d: Diagnosis,
                                      f: Finding)
    requires FoldsWords(lower)
    ensures var less := ScoreOf(lower, scenario, expected, Some(d));
            var more := ScoreOf(lower, scenario, expected, Some(d.(findings := d.findings + [f])));
            less.score <= more.score && forall k <- less.matched :: k in more.matched
  {
    var text, longer := lower(Haystack(d)), lower(Haystack(d.(findings := d.findings + [f])));
    HaystackGrows(lower, d, f);
    assert longer == text + longer[|text|..];
    SiftedInLonger(lower, expected, text, longer[|text|..]);
    FractionGrows(|Sifted(lower, expected, text, true)|, |Sifted(lower, expected, longer, true)|, |expected|);
  }

  lemma FractionGrows(less: nat, more: nat, whole: nat)
    requires less <= more
    ensures Fraction(less, whole) <= Fraction(more, whole)
  {
    var w := (if whole == 0 then 1 else whole) as real;
    assert less as real / w <= more as real / w;
  }

  /** Appending findings, any number of them, never loses a matched keyword and never lowers
      the score. */
  lemma {:induction false} MoreFindingsNeverHurt(lower: string -> string, scenario: string, expected: seq<string>,
                                                 d: Diagnosis, extra: seq<Finding>)
    requires FoldsWords(lower)
    ensures var less := ScoreOf(lower, scenario, expected, Some(d));
            var more := ScoreOf(lower, scenario, expected, Some(d.(findings := d.findings + extra)));
            less.score <= more.score && forall k <- less.matched :: k in more.matched
  {
    if extra == [] {
      assert d.findings + extra == d.findings;
    } else {
      var n := |extra| - 1;
      MoreFindingsNeverHurt(lower, scenario, expected, d, extra[..n]);
      var most := d.(findings := d.findings + extra[..n]);
      ScoreGrows(lower, scenario, expected, most, extra[n]);
      assert most.findings + [extra[n]] == d.findings + extra;
    }
  }

  // ---- what a score says -----------------------------------------------------------------------

  lemma {:induction false} SiftedIs(lower: string -> string, keywords: seq<string>, text: string, wanted: bool)
    ensures var at := Where(keywords, (k: string) => T.Contains(text, lower(k)) == wanted);
            var sifted := Sifted(lower, keywords, text, wanted);
            |sifted| == |at| && forall i :: 0 <= i < |at| ==> at[i] < |keywords| && sifted[i] == keywords[at[i]]
  {
    if keywords != [] {
      SiftedIs(lower, keywords[..|keywords| - 1], text, wanted);
    }
  }

  /** The keywords at these positions, in order. */
  ghost predicate PickedAt(picked: seq<string>, from: seq<string>, at: seq<nat>) {
    |picked| == |at| && forall i :: 0 <= i < |at| ==> at[i] < |from| && picked[i] == from[at[i]]
  }

  /** Without a diagnosis nothing matches and the score is zero. With one, the matched keywords
      are those that occur in its text, in order, the missing ones the rest; the score is the
      fraction matched, and it passes when that is at least half of them. */
  lemma ScoreTells(lower: string -> string, scenario: string, expected: seq<string>, d: Option<Diagnosis>)
    ensures var s := ScoreOf(lower, scenario, expected, d);
            && s.scenario == scenario
            && (d.None? ==> s.matched == [] && s.missing == expected && s.score == 0.0)
            && (d.Some? ==>
                  var text := lower(Haystack(d.value));
                  && PickedAt(s.matched, expected, Where(expected, (k: string) => T.Contains(text, lower(k)) == true))
                  && PickedAt(s.missing, expected, Where(expected, (k: string) => T.Contains(text, lower(k)) == false)))
            && s.score * |expected| as real == |s.matched| as real
            && (expected == [] ==> s.score == 0.0)
            && (s.Passed() <==> expected != [] && 2 * |s.matched| >= |expected|)
  {
    hide Sifted, Fraction, Haystack, Where;
    if d.Some? {
      var text := lower(Haystack(d.value));
      SiftedIs(lower, expected, text, true);
      SiftedIs(lower, expected, text, false);
      SiftedIsShort(lower, expected, text);
      FractionIs(|Sifted(lower, expected, text, true)|, |expected|);
    }
  }

  lemma {:induction false} SiftedIsShort(lower: string -> string, keywords: seq<string>, text: string)
    ensures |Sifted(lower, keywords, text, true)| <= |keywords|
  {
    if keywords != [] {
      SiftedIsShort(lower, keywords[..|keywords| - 1], text);
    }
  }

  lemma NonNegative(x: real, w: real)
    requires x >= 0.0 && w > 0.0
    ensures x * w >= 0.0 && (x > 0.0 ==> x * w > 0.0)
  {
  }

  lemma AtLeastHalf(q: real, w: real)
    requires w > 0.0
    ensures q >= 0.5 <==> q * w >= 0.5 * w
  {
    if q >= 0.5 {
      NonNegative(q - 0.5, w);
      assert (q - 0.5) * w == q * w - 0.5 * w;
    } else {
      NonNegative(0.5 - q, w);
      assert (0.5 - q) * w == 0.5 * w - q * w;
    }
  }

  lemma HalfOf(part: nat, whole: nat, q: real)
    requires whole > 0 && q * whole as real == part as real
    ensures q >= 0.5 <==> 2 * part >= whole
  {
    var w, p := whole as real, part as real;
    AtLeastHalf(q, w);
    assert p >= 0.5 * w <==> 2.0 * p >= w;
    assert 2.0 * p == (2 * part) as real;
  }

  lemma FractionTimes(part: nat, whole: nat)
    ensures Fraction(part, whole) * (if whole == 0 then 1 else whole) as real == part as real
  {
  }

  lemma FractionIs(part: nat, whole: nat)
    requires part <= whole
    ensures Fraction(part, whole) * whole as real == part as real
    ensures Fraction(part, whole) >= 0.5 <==> whole > 0 && 2 * part >= whole
    ensures whole == 0 ==> Fraction(part, whole) == 0.0
  {
    if whole > 0 {
      hide Fraction;
      FractionTimes(part, whole);
      HalfOf(part, whole, Fraction(part, whole));
    }
  }

  /** Every text of the findings, in the order in which they are searched. */
  function TextsOf(fs: seq<Finding>): (texts: seq<string>)
    ensures |texts| == 2 * |fs|
  {
    if fs == [] then [] else [fs[0].finding, fs[0].recommendedAction] + TextsOf(fs[1..])
  }

  lemma {:induction false} TextsOfSnoc(fs: seq<Finding>, f: Finding)
    ensures TextsOf(fs + [f]) == TextsOf(fs) + [f.finding, f.recommendedAction]
  {
    if fs == [] {
      assert [f][1..] == [] && TextsOf([]) == [];
    } else {
      assert (fs + [f])[1..] == fs[1..] + [f];
      TextsOfSnoc(fs[1..], f);
    }
  }

  lemma JoinTwo(a: string, b: string)
    ensures T.Join(" ", [a, b]) == a + " " + b
  {
    assert [a, b][1..] == [b];
  }

  lemma {:induction false} JoinedIsJoin(fs: seq<Finding>)
    requires fs != []
    ensures Joined(fs) == T.Join(" ", TextsOf(fs))
  {
    var n := |fs| - 1;
    var f := fs[n];
    TextsOfSnoc(fs[..n], f);
    assert fs == fs[..n] + [f];
    JoinTwo(f.finding, f.recommendedAction);
    if n == 0 {
      assert fs[..0] == [] && TextsOf([]) == [];
      assert TextsOf(fs) == [f.finding, f.recommendedAction];
    } else {
      JoinedIsJoin(fs[..n]);
      T.JoinConcat(" ", TextsOf(fs[..n]), [f.finding, f.recommendedAction]);
    }
  }

  /** The text that is searched: the summary, then each finding and its action, with a space
      between any two. */
  lemma HaystackIs(d: Diagnosis)
    ensures Haystack(d) ==
            if d.findings == [] then d.summary + " " else T.Join(" ", [d.summary] + TextsOf(d.findings))
  {
    if d.findings != [] {
      JoinedIsJoin(d.findings);
      T.JoinConcat(" ", [d.summary], TextsOf(d.findings));
    }
  }
}
