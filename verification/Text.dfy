/** The two string operations the code relies on: `sub in s`, and `s.replace(sub, "")`. */
module Text {

  /** `pat` starts at position `i` of `s`. */
  predicate OccursAt(s: string, pat: string, i: nat) {
    i + |pat| <= |s| && s[i..i + |pat|] == pat
  }

  predicate Contains(s: string, pat: string) {
    exists i: nat :: i <= |s| && OccursAt(s, pat, i)
  }

  /** `s.replace(pat, "")`: scan from the left, skipping each occurrence as it is met. */
  function RemoveAll(s: string, pat: string): (r: string)
    requires pat != []
    ensures |r| <= |s|
  {
    if |s| < |pat| then s
    else if s[..|pat|] == pat then RemoveAll(s[|pat|..], pat)
    else [s[0]] + RemoveAll(s[1..], pat)
  }

  lemma ContainsInTail(s: string, pat: string)
    requires pat != [] && |s| >= |pat| && s[..|pat|] != pat
    ensures Contains(s, pat) <==> Contains(s[1..], pat)
  {
    if i: nat :| OccursAt(s, pat, i) {
      assert i > 0;
      assert s[1..][i - 1..i - 1 + |pat|] == s[i..i + |pat|];
      assert OccursAt(s[1..], pat, i - 1);
    }
    if i: nat :| OccursAt(s[1..], pat, i) {
      assert s[1..][i..i + |pat|] == s[i + 1..i + 1 + |pat|];
      assert OccursAt(s, pat, i + 1);
    }
  }

  lemma ContainsHead(s: string, pat: string)
    requires pat != []
    ensures Contains(s, pat) ==> pat[0] in s
  {
    if i: nat :| OccursAt(s, pat, i) {
      assert s[i..i + |pat|][0] == s[i];
    }
  }

  /** Removal leaves a string alone exactly when there is nothing to remove, and otherwise
      shortens it by at least the pattern. */
  lemma {:induction false} RemoveAllIdentity(s: string, pat: string)
    requires pat != []
    ensures Contains(s, pat) ==> |RemoveAll(s, pat)| + |pat| <= |s|
    ensures !Contains(s, pat) ==> RemoveAll(s, pat) == s
    decreases |s|
  {
    if |s| < |pat| {
    } else if s[..|pat|] == pat {
      assert OccursAt(s, pat, 0);
    } else {
      ContainsInTail(s, pat);
      RemoveAllIdentity(s[1..], pat);
    }
  }

  lemma OccursInTail(s: string, pat: string, j: nat)
    requires s != []
    ensures OccursAt(s[1..], pat, j) <==> OccursAt(s, pat, j + 1)
  {
    if j + 1 + |pat| <= |s| {
      assert s[1..][j..j + |pat|] == s[j + 1..j + 1 + |pat|];
    }
  }

  /** `pat` first occurs at `i`. */
  ghost predicate FirstAt(s: string, pat: string, i: nat) {
    OccursAt(s, pat, i) && forall j: nat :: j < i ==> !OccursAt(s, pat, j)
  }

  lemma FirstInTail(s: string, pat: string, i: nat)
    requires s != [] && i > 0 && FirstAt(s, pat, i)
    ensures FirstAt(s[1..], pat, i - 1)
  {
    hide OccursAt;
    OccursInTail(s, pat, i - 1);
    forall j: nat | j < i - 1 ensures !OccursAt(s[1..], pat, j) {
      OccursInTail(s, pat, j);
    }
  }

  lemma RemoveAllHead(s: string, pat: string)
    requires pat != [] && |s| >= |pat|
    ensures RemoveAll(s, pat) ==
            if OccursAt(s, pat, 0) then RemoveAll(s[|pat|..], pat) else [s[0]] + RemoveAll(s[1..], pat)
  {
  }

  /** Removal goes from occurrence to occurrence, leftmost first, and keeps what is between. */
  lemma {:induction false} RemoveAllAtFirst(s: string, pat: string, i: nat)
    requires pat != [] && i + |pat| <= |s| && FirstAt(s, pat, i)
    ensures RemoveAll(s, pat) == s[..i] + RemoveAll(s[i + |pat|..], pat)
    decreases i
  {
    hide OccursAt, RemoveAll;
    RemoveAllHead(s, pat);
    if i == 0 {
      assert s[..0] + RemoveAll(s[|pat|..], pat) == RemoveAll(s[|pat|..], pat);
    } else {
      assert !OccursAt(s, pat, 0);
      FirstInTail(s, pat, i);
      RemoveAllAtFirst(s[1..], pat, i - 1);
      assert s[1..][i - 1 + |pat|..] == s[i + |pat|..];
      assert s[..i] == [s[0]] + s[1..][..i - 1];
    }
  }

  /** If no occurrence can straddle the seam, removal distributes over concatenation. */
  lemma {:induction false} RemoveAllSeam(s: string, t: string, pat: string)
    requires pat != [] && (t != [] ==> t[0] !in pat[1..])
    ensures RemoveAll(s + t, pat) == RemoveAll(s, pat) + RemoveAll(t, pat)
    decreases |s|
  {
    if s == [] {
      assert s + t == t;
      assert RemoveAll(s, pat) + RemoveAll(t, pat) == RemoveAll(t, pat);
    } else if |s + t| < |pat| {
    } else if |s| < |pat| {
      var k := |s|;
      assert (s + t)[..|pat|] != pat by {
        assert (s + t)[k] == t[0] && pat[k] == pat[1..][k - 1];
      }
      assert (s + t)[1..] == s[1..] + t;
      RemoveAllSeam(s[1..], t, pat);
      assert RemoveAll(s[1..], pat) == s[1..];
      assert s == [s[0]] + s[1..];
    } else if s[..|pat|] == pat {
      assert (s + t)[..|pat|] == pat && (s + t)[|pat|..] == s[|pat|..] + t;
      RemoveAllSeam(s[|pat|..], t, pat);
    } else {
      assert (s + t)[..|pat|] == s[..|pat|] && (s + t)[1..] == s[1..] + t;
      RemoveAllSeam(s[1..], t, pat);
    }
  }

  function Occurrences(s: string, c: char): nat {
    if s == [] then 0 else (if s[0] == c then 1 else 0) + Occurrences(s[1..], c)
  }

  lemma {:induction false} OccurrencesConcat(s: string, t: string, c: char)
    ensures Occurrences(s + t, c) == Occurrences(s, c) + Occurrences(t, c)
  {
    if s == [] {
      assert s + t == t;
    } else {
      assert (s + t)[1..] == s[1..] + t;
      OccurrencesConcat(s[1..], t, c);
    }
  }

  lemma {:induction false} OccurrencesNone(s: string, c: char)
    requires c !in s
    ensures Occurrences(s, c) == 0
  {
    if s != [] {
      OccurrencesNone(s[1..], c);
    }
  }

  /** Removal never touches a character that the pattern does not use. */
  lemma {:induction false} RemoveAllKeepsOthers(s: string, pat: string, c: char)
    requires pat != [] && c !in pat
    ensures Occurrences(RemoveAll(s, pat), c) == Occurrences(s, c)
    decreases |s|
  {
    if |s| < |pat| {
    } else if s[..|pat|] == pat {
      RemoveAllKeepsOthers(s[|pat|..], pat, c);
      OccurrencesConcat(s[..|pat|], s[|pat|..], c);
      assert s == s[..|pat|] + s[|pat|..];
      OccurrencesNone(pat, c);
    } else {
      RemoveAllKeepsOthers(s[1..], pat, c);
      var rest := RemoveAll(s[1..], pat);
      assert ([s[0]] + rest)[1..] == rest;
    }
  }

  /** `sep.join(parts)` */
  function Join(sep: string, parts: seq<string>): string {
    if parts == [] then "" else if |parts| == 1 then parts[0] else parts[0] + sep + Join(sep, parts[1..])
  }

  /** Joining more parts joins what each half gives. */
  lemma {:induction false} JoinConcat(sep: string, xs: seq<string>, ys: seq<string>)
    requires xs != [] && ys != []
    ensures Join(sep, xs + ys) == Join(sep, xs) + sep + Join(sep, ys)
    ensures Join(sep, [xs[0]]) == xs[0]
  {
    if |xs| == 1 {
      assert (xs + ys)[1..] == ys;
    } else {
      assert (xs + ys)[1..] == xs[1..] + ys;
      JoinConcat(sep, xs[1..], ys);
    }
  }

  /** `str(n)` */
  function Decimal(n: nat): (s: string)
    ensures s != []
  {
    if n < 10 then [DIGITS[n]] else Decimal(n / 10) + [DIGITS[n % 10]]
  }

  const DIGITS := "0123456789"

  /** The number a string of decimal digits stands for. */
  function Value(s: string): int {
    if s == "" then 0 else 10 * Value(s[..|s| - 1]) + (s[|s| - 1] as int - '0' as int)
  }

  lemma {:induction false} DecimalValue(n: nat)
    ensures Value(Decimal(n)) == n
  {
    var s := Decimal(n);
    if n < 10 {
      assert s[..0] == "";
    } else {
      assert s[..|s| - 1] == Decimal(n / 10);
      DecimalValue(n / 10);
    }
    assert forall d: nat :: d < 10 ==> DIGITS[d] as int - '0' as int == d;
  }
}
