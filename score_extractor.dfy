/** `LinkedInOptimizerAgent._extract_score` (agents.py): a number read from
    the reply near a keyword, tried through four patterns in order under
    `re.IGNORECASE` (no DOTALL, so no `.` crosses a newline), clamped to
    0..100, and 75 when no pattern matches. */
module ScoreExtractor {
  import opened Wrappers
  import opened Text
  import opened Patterns

  /** The four patterns, in the order they are tried. */
  datatype ScorePattern =
    | OutOf100       // kw.*?(\d+)/100
    | Percent        // kw.*?(\d+)%
    | ScoreWord      // kw.*?score.*?(\d+)
    | LeadingNumber  // (\d+).*?kw

  const ScorePatterns: seq<ScorePattern> := [OutOf100, Percent, ScoreWord, LeadingNumber]

  /** The score used when no pattern matches. */
  const DefaultScore: nat := 75

  /** `(\d+)` then `suffix` at `q`. As the suffix starts with a non-digit,
      only the whole run of digits can be followed by it. */
  predicate DigitsThen(s: string, q: nat, suffix: string)
    requires q <= |s|
  {
    q < |s| && IsDigit(s[q]) && LitAt(s, DigitRunEnd(s, q), suffix)
  }

  /** `.*?(\d+)suffix` from `c`: the first position on the line where the
      digits start. */
  function LazyDigitsThen(s: string, c: nat, suffix: string): (r: Option<nat>)
    requires c <= |s|
    ensures r.Some? ==> c <= r.value < |s| && DigitsThen(s, r.value, suffix)
    ensures r.Some? ==> forall i :: c <= i < r.value ==> s[i] != '\n' && !DigitsThen(s, i, suffix)
    decreases |s| - c
  {
    if DigitsThen(s, c, suffix) then Some(c)
    else if c == |s| || s[c] == '\n' then None
    else LazyDigitsThen(s, c + 1, suffix)
  }

  /** `.*?(\d+)` from `c`: the first digit on the line. */
  function FirstDigitOnLine(s: string, c: nat): (r: Option<nat>)
    requires c <= |s|
    ensures r.Some? ==> c <= r.value < |s| && IsDigit(s[r.value])
    ensures r.Some? ==> forall i :: c <= i < r.value ==> s[i] != '\n' && !IsDigit(s[i])
    ensures r.None? ==> forall i :: c <= i < LineEnd(s, c) ==> !IsDigit(s[i])
    decreases |s| - c
  {
    if c < |s| && IsDigit(s[c]) then Some(c)
    else if c == |s| || s[c] == '\n' then None
    else FirstDigitOnLine(s, c + 1)
  }

  /** `.*?kw` from `q`: the keyword occurs before the end of the line. */
  predicate KeywordOnLine(s: string, q: nat, kw: string)
    requires q <= |s|
  {
    var f := FindCi(s, kw, q);
    f.Some? && f.value <= LineEnd(s, q)
  }

  /** `(\d+).*?kw` with the digits starting at `p`: the greedy run is given
      back one digit at a time until the keyword can follow on the line.
      The result is where the captured digits end. */
  function DigitsBeforeKeyword(s: string, p: nat, e: nat, kw: string): (r: Option<nat>)
    requires p < |s| && p < e <= DigitRunEnd(s, p)
    ensures r.Some? ==> p < r.value <= e && KeywordOnLine(s, r.value, kw)
    decreases e
  {
    if KeywordOnLine(s, e, kw) then Some(e)
    else if e == p + 1 then None
    else DigitsBeforeKeyword(s, p, e - 1, kw)
  }

  /** `(\d+)` captured at `q`: the whole run of digits starting there. */
  function DigitsAt(s: string, q: nat): (r: string)
    requires q < |s| && IsDigit(s[q])
    ensures |r| > 0 && forall i :: 0 <= i < |r| ==> IsDigit(r[i])
  {
    s[q..DigitRunEnd(s, q)]
  }

  /** The digits a pattern captures when the match starts at `p`. */
  function MatchAt(s: string, kw: string, pat: ScorePattern, p: nat): (r: Option<string>)
    requires p <= |s|
    ensures r.Some? ==> |r.value| > 0 && forall i :: 0 <= i < |r.value| ==> IsDigit(r.value[i])
  {
    match pat
    case OutOf100 =>
      if !LitAtCi(s, p, kw) then None
      else (match LazyDigitsThen(s, p + |kw|, "/100")
            case None => None
            case Some(q) => Some(DigitsAt(s, q)))
    case Percent =>
      if !LitAtCi(s, p, kw) then None
      else (match LazyDigitsThen(s, p + |kw|, "%")
            case None => None
            case Some(q) => Some(DigitsAt(s, q)))
    case ScoreWord =>
      // A later "score" on the same line cannot help when none of the
      // digits after the first one is on the line, so the first is taken.
      if !LitAtCi(s, p, kw) then None
      else (match FindCi(s, "score", p + |kw|)
            case None => None
            case Some(q1) =>
              if q1 >= LineEnd(s, p + |kw|) then None
              else (match FirstDigitOnLine(s, q1 + 5)
                    case None => None
                    case Some(q2) => Some(DigitsAt(s, q2))))
    case LeadingNumber =>
      if p < |s| && IsDigit(s[p]) then
        (match DigitsBeforeKeyword(s, p, DigitRunEnd(s, p), kw)
         case None => None
         case Some(e) => Some(s[p..e]))
      else None
  }

  /** `re.search`: the match that starts leftmost, from `p` on. */
  function Search(s: string, kw: string, pat: ScorePattern, p: nat): (r: Option<string>)
    requires p <= |s|
    ensures r.Some? ==> |r.value| > 0 && forall i :: 0 <= i < |r.value| ==> IsDigit(r.value[i])
    decreases |s| - p
  {
    if MatchAt(s, kw, pat, p).Some? then MatchAt(s, kw, pat, p)
    else if p == |s| then None
    else Search(s, kw, pat, p + 1)
  }

  /** What each pattern captures anywhere in the text, in order. */
  function Captures(s: string, kw: string, pats: seq<ScorePattern>): seq<Option<string>> {
    seq(|pats|, i requires 0 <= i < |pats| => Search(s, kw, pats[i], 0))
  }

  /** The first capture is missing only when no pattern matches, and it is
      a run of digits like every capture. */
  lemma CapturesFirst(s: string, kw: string, pats: seq<ScorePattern>)
    ensures var r := FirstSome(Captures(s, kw, pats));
            (r.None? <==> forall i :: 0 <= i < |pats| ==> Search(s, kw, pats[i], 0).None?) &&
            (r.Some? ==> |r.value| > 0 && forall k :: 0 <= k < |r.value| ==> IsDigit(r.value[k]))
  {
    var cs := Captures(s, kw, pats);
    forall i | 0 <= i < |pats| ensures cs[i] == Search(s, kw, pats[i], 0) {
    }
    var r := FirstSome(cs);
    if r.Some? {
      var i :| 0 <= i < |cs| && cs[i] == r;
    }
  }

  /** The capture of the first pattern in `pats` that matches anywhere. */
  function FirstCapture(s: string, kw: string, pats: seq<ScorePattern>): (r: Option<string>)
    ensures r.None? <==> forall i :: 0 <= i < |pats| ==> Search(s, kw, pats[i], 0).None?
    ensures r.Some? ==> |r.value| > 0 && forall k :: 0 <= k < |r.value| ==> IsDigit(r.value[k])
  {
    CapturesFirst(s, kw, pats);
    FirstSome(Captures(s, kw, pats))
  }

  /** The capture is that of the first pattern that matches; the patterns
      after it are never consulted. */
  lemma FirstCaptureIsFirst(s: string, kw: string, pats: seq<ScorePattern>, i: nat)
    requires i < |pats| && Search(s, kw, pats[i], 0).Some?
    requires forall j :: 0 <= j < i ==> Search(s, kw, pats[j], 0).None?
    ensures FirstCapture(s, kw, pats) == Search(s, kw, pats[i], 0)
  {
    forall j | 0 <= j < i ensures Captures(s, kw, pats)[j].None? {
      assert Captures(s, kw, pats)[j] == Search(s, kw, pats[j], 0);
    }
    FirstSomeIsFirst(Captures(s, kw, pats), i);
  }

  /** `_extract_score(text, keyword)` */
  function ExtractScore(text: string, kw: string): (r: nat)
    ensures r <= 100
    ensures FirstCapture(text, kw, ScorePatterns).None? ==> r == DefaultScore
    ensures FirstCapture(text, kw, ScorePatterns).Some? ==>
              r == if DigitsValue(FirstCapture(text, kw, ScorePatterns).value) > 100 then 100
                   else DigitsValue(FirstCapture(text, kw, ScorePatterns).value)
  {
    match FirstCapture(text, kw, ScorePatterns)
    case None => DefaultScore
    case Some(d) => var v := DigitsValue(d); if v > 100 then 100 else v
  }

  /* ---------------- properties ---------------- */

  lemma {:induction false} SearchNoneWithoutKeyword(s: string, kw: string, pat: ScorePattern, p: nat)
    requires p <= |s|
    requires FindCi(s, kw, 0).None?
    ensures Search(s, kw, pat, p).None?
    decreases |s| - p
  {
    assert MatchAt(s, kw, pat, p).None? by {
      if p < |s| && IsDigit(s[p]) {
        NoKeywordAfter(s, kw, p, DigitRunEnd(s, p));
      }
    }
    if p < |s| {
      SearchNoneWithoutKeyword(s, kw, pat, p + 1);
    }
  }

  lemma {:induction false} NoKeywordAfter(s: string, kw: string, p: nat, e: nat)
    requires p < |s| && p < e <= DigitRunEnd(s, p)
    requires FindCi(s, kw, p + 1).None?
    ensures DigitsBeforeKeyword(s, p, e, kw).None?
    decreases e
  {
    if e > p + 1 {
      NoKeywordAfter(s, kw, p, e - 1);
    }
  }

  /** A reply that never mentions the keyword (in any letter case) gets the
      default score. */
  lemma AbsentKeywordScore(s: string, kw: string)
    requires FindCi(s, kw, 0).None?
    ensures ExtractScore(s, kw) == DefaultScore
  {
    forall i | 0 <= i < |ScorePatterns| ensures Search(s, kw, ScorePatterns[i], 0).None? {
      SearchNoneWithoutKeyword(s, kw, ScorePatterns[i], 0);
    }
  }

  lemma {:induction false} DigitRunOfNumber(a: string, n: nat, b: string)
    requires b == [] || !IsDigit(b[0])
    ensures DigitRunEnd(a + NatToString(n) + b, |a|) == |a| + |NatToString(n)|
  {
    var s := a + NatToString(n) + b;
    var d := NatToString(n);
    DigitRunFrom(s, |a|, |a| + |d|);
  }

  lemma {:induction false} DigitRunFrom(s: string, p: nat, e: nat)
    requires p <= e <= |s|
    requires forall i :: p <= i < e ==> IsDigit(s[i])
    requires e == |s| || !IsDigit(s[e])
    ensures DigitRunEnd(s, p) == e
    decreases e - p
  {
    if p < e {
      DigitRunFrom(s, p + 1, e);
    }
  }

  /** "<keyword> N/100" reads back as N, clamped to 100. */
  lemma OutOf100Score(kw: string, n: nat)
    ensures ExtractScore(kw + " " + NatToString(n) + "/100", kw) == if n > 100 then 100 else n
  {
    var d := NatToString(n);
    var s := kw + " " + d + "/100";
    assert s == (kw + " ") + d + "/100";
    DigitRunOfNumber(kw + " ", n, "/100");
    var e := |kw| + 1 + |d|;
    assert s[e..e + 4] == "/100";
    assert s[..|kw|] == kw;
    assert LitAtCi(s, 0, kw);
    assert !DigitsThen(s, |kw|, "/100") && s[|kw|] == ' ';
    assert DigitsThen(s, |kw| + 1, "/100");
    assert LazyDigitsThen(s, |kw|, "/100") == Some(|kw| + 1);
    assert s[|kw| + 1..e] == d;
    assert MatchAt(s, kw, OutOf100, 0) == Some(d);
    assert Search(s, kw, OutOf100, 0) == Some(d);
    FirstCaptureIsFirst(s, kw, ScorePatterns, 0);
    DigitsValueOfNatToString(n);
  }

  lemma {:induction false} SearchNoneFrom(s: string, kw: string, pat: ScorePattern, p: nat)
    requires p <= |s|
    requires forall q :: p <= q <= |s| ==> MatchAt(s, kw, pat, q).None?
    ensures Search(s, kw, pat, p).None?
    decreases |s| - p
  {
    if p < |s| {
      SearchNoneFrom(s, kw, pat, p + 1);
    }
  }

  lemma {:induction false} LazyDigitsThenNone(s: string, c: nat, suffix: string)
    requires c <= |s|
    requires forall i :: c <= i <= |s| ==> !DigitsThen(s, i, suffix)
    ensures LazyDigitsThen(s, c, suffix).None?
    decreases |s| - c
  {
    if c < |s| {
      LazyDigitsThenNone(s, c + 1, suffix);
    }
  }

  /** A letter-only keyword cannot start at `q` when the text has no letter
      from `|kw|` on and `q` is past the start. */
  lemma KeywordOnlyAtStart(s: string, kw: string, q: nat)
    requires 0 < |kw| <= |s| && 1 <= q <= |s|
    requires forall i :: 0 <= i < |kw| ==> IsLetter(kw[i])
    requires forall j :: |kw| <= j < |s| ==> !IsLetter(s[j])
    ensures !LitAtCi(s, q, kw)
  {
    if q + |kw| <= |s| {
      var j := if q <= |kw| then |kw| else q;
      assert Lower(s[q..q + |kw|])[j - q] == LowerChar(s[j]) == s[j];
      assert IsLetter(Lower(kw)[j - q]);
      assert Lower(s[q..q + |kw|])[j - q] != Lower(kw)[j - q];
    }
  }

  /** What makes a text give no score for `kw`: the keyword occurs only at
      the very start, no digits after it are followed by "/100" or "%", no
      "score" follows it, the text does not open with a digit, and no run
      of digits has the keyword after it. */
  predicate NoScoreShape(s: string, kw: string) {
    |kw| <= |s| &&
    (forall q :: 1 <= q <= |s| ==> !LitAtCi(s, q, kw)) &&
    (forall i :: |kw| <= i <= |s| ==> !DigitsThen(s, i, "/100") && !DigitsThen(s, i, "%")) &&
    FindCi(s, "score", |kw|).None? &&
    (0 < |s| ==> !IsDigit(s[0])) &&
    (forall q :: 0 < q < |s| && IsDigit(s[q]) ==> DigitsBeforeKeyword(s, q, DigitRunEnd(s, q), kw).None?)
  }

  /** No pattern matches anywhere in a text of that shape. */
  lemma NoScoreShapeNoMatch(s: string, kw: string, pat: ScorePattern)
    requires NoScoreShape(s, kw)
    ensures Search(s, kw, pat, 0).None?
  {
    forall q | 0 <= q <= |s| ensures MatchAt(s, kw, pat, q).None? {
      if q == 0 {
        if pat.OutOf100? || pat.Percent? {
          LazyDigitsThenNone(s, |kw|, "/100");
          LazyDigitsThenNone(s, |kw|, "%");
        }
      }
    }
    SearchNoneFrom(s, kw, pat, 0);
  }

  /** A bare "<keyword>: N" has that shape when the keyword is made of
      letters. */
  lemma BareLabelShape(kw: string, n: nat)
    requires |kw| > 0 && forall i :: 0 <= i < |kw| ==> IsLetter(kw[i])
    ensures NoScoreShape(kw + ": " + NatToString(n), kw)
  {
    var d := NatToString(n);
    var s := kw + ": " + d;
    assert forall j :: |kw| <= j < |s| ==> !IsLetter(s[j]) && (j < |kw| + 2 ==> !IsDigit(s[j])) by {
      forall j | |kw| <= j < |s| ensures !IsLetter(s[j]) && (j < |kw| + 2 ==> !IsDigit(s[j])) {
        if j >= |kw| + 2 { assert s[j] == d[j - |kw| - 2]; }
      }
    }
    assert forall q :: 1 <= q <= |s| ==> !LitAtCi(s, q, kw) by {
      forall q | 1 <= q <= |s| ensures !LitAtCi(s, q, kw) {
        KeywordOnlyAtStart(s, kw, q);
      }
    }
    assert forall i :: |kw| + 2 <= i <= |s| ==> DigitRunEnd(s, i) == |s| by {
      forall i | |kw| + 2 <= i <= |s| ensures DigitRunEnd(s, i) == |s| {
        DigitRunFrom(s, i, |s|);
      }
    }
    assert FindCi(s, "score", |kw|).None? by {
      forall q | |kw| <= q <= |s| ensures !LitAtCi(s, q, "score") {
        if q + 5 <= |s| {
          assert Lower(s[q..q + 5])[0] == LowerChar(s[q]) == s[q];
        }
      }
    }
    assert s[0] == kw[0];
    forall q | 0 < q < |s| && IsDigit(s[q])
      ensures DigitsBeforeKeyword(s, q, DigitRunEnd(s, q), kw).None?
    {
      NoKeywordAfter(s, kw, q, DigitRunEnd(s, q));
    }
  }

  /** A bare "<keyword>: N", with no "/100", "%" or "score" after the
      keyword and no number before it, is not read as a score: the default
      is returned. */
  lemma BareLabelScore(kw: string, n: nat)
    requires |kw| > 0 && forall i :: 0 <= i < |kw| ==> IsLetter(kw[i])
    ensures ExtractScore(kw + ": " + NatToString(n), kw) == DefaultScore
  {
    var s := kw + ": " + NatToString(n);
    BareLabelShape(kw, n);
    forall i | 0 <= i < |ScorePatterns| ensures Search(s, kw, ScorePatterns[i], 0).None? {
      NoScoreShapeNoMatch(s, kw, ScorePatterns[i]);
    }
  }
}
