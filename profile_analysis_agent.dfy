/** `ProfileAnalysisAgent.run` and the parser nested in it
    (agents/profile_agent.py): the model's reply is read label by label
    into a record with an optional overall score and completeness, the
    section scores as text, and four lists; `run` returns that record when
    it found section scores or strengths, and the reply itself otherwise.

    Every pattern is searched under `re.IGNORECASE`; each is written here as
    an explicit scan. A search tries start positions from left to right and
    keeps the first at which the whole pattern matches; for each pattern the
    comment beside its tail explains why only the greedy path can succeed. */
module ProfileAnalysisAgent {
  import opened Wrappers
  import opened Text
  import opened Patterns
  import opened ProfileData

  /* ---------------- character classes ---------------- */

  const ColonDash: set<char> := {':', '-'}
  const DashSpace: set<char> := {'-', ' '}
  /** `[\d/]` */
  const FractionChars: set<char> := {'0', '1', '2', '3', '4', '5', '6', '7', '8', '9', '/'}
  /** The separators of `re.split(r",|\n", ...)`. */
  const KeywordSeparators: set<char> := {',', '\n'}

  /** An optional character of `cs` at `p`, taken when present. */
  function OptChar(s: string, p: nat, cs: set<char>): (q: nat)
    requires p <= |s|
    ensures q == p || (q == p + 1 && p < |s| && s[p] in cs)
    ensures q <= |s|
  {
    if p < |s| && s[p] in cs then p + 1 else p
  }

  /* ---------------- the tails after a label ---------------- */

  /** Where `\s*[:\-]?\s*` leaves the digits that follow it. A shorter run of
      white space, or leaving the colon out, puts a white-space character or
      the colon where a digit is needed, so the greedy path is the only one
      that can succeed. */
  function NumberStart(s: string, p: nat): (q: nat)
    requires p <= |s|
    ensures p <= q <= |s|
  {
    var w := SkipSet(s, p, Whitespace);
    if w < |s| && s[w] in ColonDash then SkipSet(s, w + 1, Whitespace) else w
  }

  /** `(\d+)` at `q`: the whole run of digits. */
  function DigitsAt(s: string, q: nat): (r: Option<string>)
    requires q <= |s|
    ensures r.Some? ==> r.value != [] && forall i :: 0 <= i < |r.value| ==> IsDigit(r.value[i])
  {
    if q < |s| && IsDigit(s[q]) then Some(s[q..DigitRunEnd(s, q)]) else None
  }

  /** `\s*[:\-]?\s*(\d+)%` from `p`; giving back digits leaves a digit where
      the `%` is needed. */
  function PercentDigits(s: string, p: nat): (r: Option<string>)
    requires p <= |s|
    ensures r.Some? ==> r.value != [] && forall i :: 0 <= i < |r.value| ==> IsDigit(r.value[i])
  {
    var d := NumberStart(s, p);
    if d < |s| && IsDigit(s[d]) && DigitRunEnd(s, d) < |s| && s[DigitRunEnd(s, d)] == '%'
    then Some(s[d..DigitRunEnd(s, d)])
    else None
  }

  /** The start of the greedy `.+` after `\s*` from `c`. When the white space
      runs to the end of the text it is given back one character at a time,
      so `.+` starts at the last white-space character that is not a
      newline. */
  function LineRestStart(s: string, c: nat): (r: Option<nat>)
    requires c <= |s|
    ensures r.Some? ==> c <= r.value < |s| && s[r.value] != '\n'
  {
    var w := SkipSet(s, c, Whitespace);
    if w < |s| then Some(w) else LastNonNewline(s, c, w)
  }

  /** The last position in `lo..hi` that holds no newline. */
  function LastNonNewline(s: string, lo: nat, hi: nat): (r: Option<nat>)
    requires lo <= hi <= |s|
    ensures r.Some? ==> lo <= r.value < hi && s[r.value] != '\n'
    ensures r.Some? ==> forall i :: r.value < i < hi ==> s[i] == '\n'
    ensures r.None? ==> forall i :: lo <= i < hi ==> s[i] == '\n'
    decreases hi
  {
    if hi == lo then None
    else if s[hi - 1] != '\n' then Some(hi - 1)
    else LastNonNewline(s, lo, hi - 1)
  }

  /** `\s*(.+)` from `c`: the captured rest of a line. */
  function LineRest(s: string, c: nat): (r: Option<string>)
    requires c <= |s|
    ensures r.Some? ==> r.value != [] && '\n' !in r.value
  {
    match LineRestStart(s, c)
    case None => None
    case Some(v) => Some(s[v..LineEnd(s, v)])
  }

  /** `\d+\. .+` at `x`: digits, a dot, a space and at least one more
      character on the line. */
  predicate NumberedLineAt(s: string, x: nat) {
    x < |s| && IsDigit(s[x]) &&
    var e := DigitRunEnd(s, x);
    e + 2 < |s| && s[e] == '.' && s[e + 1] == ' ' && s[e + 2] != '\n'
  }

  /** Where the greedy `(?:\d+\. .+\n?)+` that starts at `x` ends: each line
      runs to its newline, which it takes, and the repetition goes on while
      the next line is numbered. */
  function BlockEnd(s: string, x: nat): (e: nat)
    requires NumberedLineAt(s, x)
    ensures DigitRunEnd(s, x) + 2 < e <= |s|
    decreases |s| - x
  {
    var n := OptNewline(s, LineEnd(s, DigitRunEnd(s, x) + 2));
    if NumberedLineAt(s, n) then BlockEnd(s, n) else n
  }

  /** `[:\-]?\s*(?:\n|\r|\r\n)?((?:\d+\. .+\n?)+)` from `q`. The greedy `\s*`
      already takes every line break the optional group could, and a shorter
      run, or leaving the colon out, leaves white space or the colon where
      the block's first digit is needed. */
  function NumberedBlock(s: string, q: nat): (r: Option<string>)
    requires q <= |s|
    ensures r.Some? ==> NumberedLineAt(r.value, 0)
  {
    var b := SkipSet(s, OptChar(s, q, ColonDash), Whitespace);
    if NumberedLineAt(s, b) then
      var e := BlockEnd(s, b);
      NumberedLineInfix(s, b, e);
      Some(s[b..e])
    else None
  }

  /** A numbered line that starts at `b` and ends before `e` is numbered in
      the infix `s[b..e]` too. */
  lemma NumberedLineInfix(s: string, b: nat, e: nat)
    requires NumberedLineAt(s, b) && DigitRunEnd(s, b) + 2 < e <= |s|
    ensures NumberedLineAt(s[b..e], 0)
  {
    var t := s[b..e];
    var d := DigitRunEnd(s, b);
    DigitRunShift(s, b, e, b);
    assert t[0] == s[b];
    assert t[d - b] == s[d] && t[d - b + 1] == s[d + 1] && t[d - b + 2] == s[d + 2];
  }

  /** `DigitRunEnd` inside an infix is the run of the whole text, shifted. */
  lemma {:induction false} DigitRunShift(s: string, b: nat, e: nat, x: nat)
    requires b <= x <= e <= |s|
    requires DigitRunEnd(s, x) < e
    ensures DigitRunEnd(s[b..e], x - b) == DigitRunEnd(s, x) - b
    decreases e - x
  {
    if x < e && IsDigit(s[x]) {
      DigitRunShift(s, b, e, x + 1);
    }
  }

  /** `(?: with Step[- ]by[- ]Step Actions)?` at `q`: where the phrase ends
      when it is there. */
  function StepsPhraseEnd(s: string, q: nat): (r: Option<nat>)
    requires q <= |s|
    ensures r.Some? ==> q < r.value <= |s|
  {
    if LitAtCi(s, q, " with Step") then
      var a := OptChar(s, q + 10, DashSpace);
      if LitAtCi(s, a, "by") then
        var b := OptChar(s, a + 2, DashSpace);
        if LitAtCi(s, b, "Step Actions") then Some(b + 12) else None
      else None
    else None
  }

  /** What follows a label in each pattern, and what it captures. */
  datatype Tail =
    | Number      // \s*[:\-]?\s*(\d+)
    | Percentage  // (?: Percentage)?\s*[:\-]?\s*(\d+)%
    | Fraction    // [\s:]*([\d/]+)[^\d]*(\([^)]+\))?
    | Block       // [:\-]?\s*(?:\n|\r|\r\n)?((?:\d+\. .+\n?)+)
    | StepsBlock  // (?: with Step[- ]by[- ]Step Actions)?[:\-]?\s*((?:\d+\. .+\n?)+)
    | Line        // [:\-]?\s*(.+)

  /** What a capture of each tail looks like. */
  predicate CaptureShape(t: Tail, c: string) {
    match t
    case Number => c != [] && forall i :: 0 <= i < |c| ==> IsDigit(c[i])
    case Percentage => c != [] && forall i :: 0 <= i < |c| ==> IsDigit(c[i])
    case Fraction => c != [] && forall i :: 0 <= i < |c| ==> c[i] in FractionChars
    case Block => NumberedLineAt(c, 0)
    case StepsBlock => NumberedLineAt(c, 0)
    case Line => c != [] && '\n' !in c
  }

  /** The tail `t` matched at `q`: its capture, or `None`. An optional part
      that is present is taken first and left out only when the rest fails
      with it. The trailing `[^\d]*(\([^)]+\))?` of `Fraction` always matches
      and captures nothing that is read. */
  function TailAt(s: string, q: nat, t: Tail): (r: Option<string>)
    requires q <= |s|
    ensures r.Some? ==> CaptureShape(t, r.value)
  {
    match t
    case Number => DigitsAt(s, NumberStart(s, q))
    case Percentage =>
      var full := if LitAtCi(s, q, " Percentage") then PercentDigits(s, q + 11) else None;
      if full.Some? then full else PercentDigits(s, q)
    case Fraction =>
      var d := SkipSet(s, q, WsColon);
      if d < |s| && s[d] in FractionChars then Some(s[d..SkipSet(s, d, FractionChars)]) else None
    case Block => NumberedBlock(s, q)
    case StepsBlock =>
      var m := StepsPhraseEnd(s, q);
      var full := if m.Some? then NumberedBlock(s, m.value) else None;
      if full.Some? then full else NumberedBlock(s, q)
    case Line =>
      if q < |s| && s[q] in ColonDash then
        var r := LineRest(s, q + 1);
        if r.Some? then r else LineRest(s, q)
      else LineRest(s, q)
  }

  /* ---------------- searching ---------------- */

  /** The pattern made of the label `lit` and the tail `t` matches at `k`. */
  predicate MatchesAt(s: string, lit: string, t: Tail, k: nat) {
    LitAtCi(s, k, lit) && TailAt(s, k + |lit|, t).Some?
  }

  /** `re.search` (or the first match of `re.findall`): the leftmost
      position at or after `p` where the pattern matches. */
  function FirstMatch(s: string, lit: string, t: Tail, p: nat): (r: Option<nat>)
    requires p <= |s|
    ensures r.Some? ==> p <= r.value <= |s| && MatchesAt(s, lit, t, r.value)
    ensures r.Some? ==> forall j :: p <= j < r.value ==> !MatchesAt(s, lit, t, j)
    ensures r.None? ==> forall j :: p <= j <= |s| ==> !MatchesAt(s, lit, t, j)
    decreases |s| - p
  {
    if MatchesAt(s, lit, t, p) then Some(p)
    else if p == |s| then None
    else FirstMatch(s, lit, t, p + 1)
  }

  /** The group the first match captures. */
  function Capture(s: string, lit: string, t: Tail): (r: Option<string>)
    ensures r.Some? ==> CaptureShape(t, r.value)
    ensures r.Some? <==> exists k :: 0 <= k <= |s| && MatchesAt(s, lit, t, k)
  {
    match FirstMatch(s, lit, t, 0)
    case None => None
    case Some(k) => TailAt(s, k + |lit|, t)
  }

  /* ---------------- the section-score block ---------------- */

  /** `Section[- ]?by[- ]?Section Scores[:\-]?` at `p`: where the capture
      after it starts. Leaving out a present separator puts it where a
      letter of the next word is needed, so the greedy path is the only
      one. */
  function SectionHeaderEnd(s: string, p: nat): (r: Option<nat>)
    ensures r.Some? ==> p < r.value <= |s|
  {
    if LitAtCi(s, p, "Section") then
      var a := OptChar(s, p + 7, DashSpace);
      if LitAtCi(s, a, "by") then
        var b := OptChar(s, a + 2, DashSpace);
        if LitAtCi(s, b, "Section Scores") then Some(OptChar(s, b + 14, ColonDash)) else None
      else None
    else None
  }

  /** The headings that end the block. */
  const SectionEnds: seq<string> :=
    ["Key Strengths", "Areas for Improvement", "Recommended Keywords", "Detailed Recommendations"]

  /** One of `heads` starts at `k`, or `$` holds there: the end of the text,
      or just before a final newline. */
  predicate BlockStopAt(s: string, k: nat, heads: seq<string>) {
    (exists i :: 0 <= i < |heads| && LitAtCi(s, k, heads[i])) ||
    k == |s| || (k + 1 == |s| && s[k] == '\n')
  }

  /** The lazy `(.*?)` under DOTALL: the first position from `c` where the
      block may stop. */
  function BlockStop(s: string, c: nat, heads: seq<string>): (k: nat)
    requires c <= |s|
    ensures c <= k <= |s| && BlockStopAt(s, k, heads)
    ensures forall j :: c <= j < k ==> !BlockStopAt(s, j, heads)
    decreases |s| - c
  {
    if BlockStopAt(s, c, heads) then c else BlockStop(s, c + 1, heads)
  }

  /** The first position from `p` where the header matches; the lazy capture
      after it can always reach the end of the text, so that is where the
      search succeeds. */
  function FirstHeader(s: string, p: nat): (r: Option<nat>)
    requires p <= |s|
    ensures r.Some? ==> p <= r.value <= |s| && SectionHeaderEnd(s, r.value).Some?
    ensures r.Some? ==> forall j :: p <= j < r.value ==> SectionHeaderEnd(s, j).None?
    ensures r.None? ==> forall j :: p <= j <= |s| ==> SectionHeaderEnd(s, j).None?
    decreases |s| - p
  {
    if SectionHeaderEnd(s, p).Some? then Some(p)
    else if p == |s| then None
    else FirstHeader(s, p + 1)
  }

  /** `section.group(1)` for the section-score pattern, given the headings
      that end it. */
  function SectionBlockWith(s: string, heads: seq<string>): (r: Option<string>)
    ensures r.Some? <==> exists j :: 0 <= j <= |s| && SectionHeaderEnd(s, j).Some?
  {
    match FirstHeader(s, 0)
    case None => None
    case Some(p) =>
      var c := SectionHeaderEnd(s, p).value;
      Some(s[c..BlockStop(s, c, heads)])
  }

  function SectionBlock(s: string): Option<string> {
    SectionBlockWith(s, SectionEnds)
  }

  /* ---------------- section scores ---------------- */

  /** The five keys the loop looks up, in order. */
  const ScoreKeys: seq<string> := ["headline", "summary", "experience", "education", "skills"]

  /** `re.search(rf"{key.capitalize()}[\s:]*([\d/]+)...", text, re.I)`:
      the score text after the key. */
  function KeyScore(text: string, key: string): (r: Option<string>)
    ensures r.Some? ==> r.value != [] && forall i :: 0 <= i < |r.value| ==> r.value[i] in FractionChars
  {
    Capture(text, Capitalize(key), Fraction)
  }

  /** The dictionary the loop builds over `keys`: a key is present exactly
      when its search matched, with the matched text as its value, and no
      other key is. */
  function ScoresFor(text: string, keys: seq<string>): (m: map<string, string>)
    ensures forall k :: k in m ==> k in keys && KeyScore(text, k) == Some(m[k])
    ensures forall k :: k in keys ==> (k in m <==> KeyScore(text, k).Some?)
    decreases |keys|
  {
    if keys == [] then map[]
    else
      var m := ScoresFor(text, keys[..|keys| - 1]);
      var k := keys[|keys| - 1];
      var score := KeyScore(text, k);
      if score.Some? then m[k := score.value] else m
  }

  /** The loop at agents/profile_agent.py:42-46, filling the dictionary in
      place for each key of `keys` in turn. */
  method FillScores(text: string, keys: seq<string>) returns (scores: map<string, string>)
    ensures scores == ScoresFor(text, keys)
  {
    scores := map[];
    for i := 0 to |keys|
      invariant scores == ScoresFor(text, keys[..i])
    {
      ScoresForStep(text, keys, i);
      var m := KeyScore(text, keys[i]);
      if m.Some? {
        scores := scores[keys[i] := m.value];
      }
    }
    assert keys[..|keys|] == keys;
  }

  /** One more key: its score is added when its search matched. */
  lemma ScoresForStep(text: string, keys: seq<string>, i: nat)
    requires i < |keys|
    ensures ScoresFor(text, keys[..i + 1]) ==
      match KeyScore(text, keys[i])
      case Some(v) => ScoresFor(text, keys[..i])[keys[i] := v]
      case None => ScoresFor(text, keys[..i])
  {
    assert keys[..i + 1][..i] == keys[..i];
  }

  /* ---------------- items and keywords ---------------- */

  /** `\d+\.\s*(.+)` at `x`: where its capture starts. */
  function ItemAt(t: string, x: nat): (r: Option<nat>)
    requires x < |t|
    ensures r.Some? ==> x + 2 <= r.value < |t| && t[r.value] != '\n'
  {
    if IsDigit(t[x]) && DigitRunEnd(t, x) < |t| && t[DigitRunEnd(t, x)] == '.'
    then LineRestStart(t, DigitRunEnd(t, x) + 1)
    else None
  }

  /** `re.findall(r"\d+\.\s*(.+)", t[x..])`: each match runs to the end of
      its line and the scan resumes there. */
  function ItemsFrom(t: string, x: nat): (r: seq<string>)
    requires x <= |t|
    decreases |t| - x
  {
    if x == |t| then []
    else
      match ItemAt(t, x)
      case Some(v) => [t[v..LineEnd(t, v)]] + ItemsFrom(t, LineEnd(t, v))
      case None => ItemsFrom(t, x + 1)
  }

  /** Every item found is a non-empty piece of one line. */
  lemma {:induction false} ItemsFromShape(t: string, x: nat)
    requires x <= |t|
    ensures forall i :: 0 <= i < |ItemsFrom(t, x)| ==> ItemsFrom(t, x)[i] != [] && '\n' !in ItemsFrom(t, x)[i]
    decreases |t| - x
  {
    if x < |t| {
      match ItemAt(t, x)
      case Some(v) =>
        ItemsFromShape(t, LineEnd(t, v));
        var line := t[v..LineEnd(t, v)];
        assert line != [] && line[0] == t[v];
        assert '\n' !in line by {
          forall k | 0 <= k < |line| ensures line[k] != '\n' {
            assert line[k] == t[v + k];
          }
        }
      case None =>
        ItemsFromShape(t, x + 1);
    }
  }

  /** The items of a captured block, or `[]` when there was no match. */
  function ItemsOf(block: Option<string>): seq<string> {
    if block.Some? then ItemsFrom(block.value, 0) else []
  }

  /** `re.split` on single characters: the pieces between them. */
  function SplitOn(s: string, cs: set<char>): (r: seq<string>)
    ensures |r| >= 1
    ensures forall i, j :: 0 <= i < |r| && 0 <= j < |r[i]| ==> r[i][j] !in cs
    decreases |s|
  {
    if s == [] then [[]]
    else if s[0] in cs then [[]] + SplitOn(s[1..], cs)
    else
      var rest := SplitOn(s[1..], cs);
      [[s[0]] + rest[0]] + rest[1..]
  }

  /** `[k.strip() for k in parts if k.strip()]` */
  function KeptStripped(parts: seq<string>): (r: seq<string>)
    ensures |r| <= |parts|
    ensures forall i :: 0 <= i < |r| ==> Stripped(r[i])
    decreases |parts|
  {
    if parts == [] then []
    else
      var k := StripWs(parts[0]);
      var rest := KeptStripped(parts[1..]);
      if k != [] then
        StripWsEnds(parts[0]);
        assert Stripped(k);
        [k] + rest
      else rest
  }

  /** The keywords of the first match, or `[]`. */
  function KeywordsOf(line: Option<string>): seq<string> {
    if line.Some? then KeptStripped(SplitOn(line.value, KeywordSeparators)) else []
  }

  /* ---------------- the parsed record ---------------- */

  /** The dictionary `parse_analysis_response` returns. A key the parser
      does not set is `None`. */
  datatype ParsedAnalysis = ParsedAnalysis(
    overallScore: Option<nat>,
    completeness: Option<nat>,
    sectionScores: map<string, string>,
    strengths: seq<string>,
    weaknesses: seq<string>,
    keywords: seq<string>,
    recommendations: seq<string>)

  /** `int(...)` of a captured run of digits. */
  function NumberOf(c: Option<string>): Option<nat>
    requires c.Some? ==> forall i :: 0 <= i < |c.value| ==> IsDigit(c.value[i])
  {
    if c.Some? then Some(DigitsValue(c.value)) else None
  }

  function OverallCapture(response: string): Option<string> {
    Capture(response, "Overall Score", Number)
  }

  function CompletenessCapture(response: string): Option<string> {
    Capture(response, "Profile Completeness", Percentage)
  }

  function StrengthsCapture(response: string): Option<string> {
    Capture(response, "Key Strengths", Block)
  }

  function WeaknessesCapture(response: string): Option<string> {
    Capture(response, "Areas for Improvement", Block)
  }

  function KeywordsCapture(response: string): Option<string> {
    Capture(response, "Recommended Keywords", Line)
  }

  function RecommendationsCapture(response: string): Option<string> {
    Capture(response, "Detailed Recommendations", StepsBlock)
  }

  /** The section scores: empty when there is no section-score block. */
  function SectionScoresOf(response: string): map<string, string> {
    match SectionBlock(response)
    case None => map[]
    case Some(text) => ScoresFor(text, ScoreKeys)
  }

  /** `parse_analysis_response(response)` */
  function Parse(response: string): ParsedAnalysis {
    ParsedAnalysis(
      overallScore := NumberOf(OverallCapture(response)),
      completeness := NumberOf(CompletenessCapture(response)),
      sectionScores := SectionScoresOf(response),
      strengths := ItemsOf(StrengthsCapture(response)),
      weaknesses := ItemsOf(WeaknessesCapture(response)),
      keywords := KeywordsOf(KeywordsCapture(response)),
      recommendations := ItemsOf(RecommendationsCapture(response)))
  }

  /** The parser as written: the record is filled key by key. */
  method ParseAnalysisResponse(response: string) returns (result: ParsedAnalysis)
    ensures result == Parse(response)
  {
    result := ParsedAnalysis(None, None, map[], [], [], [], []);
    var overall := ReadNumber(OverallCapture(response));
    result := result.(overallScore := overall);
    var completeness := ReadNumber(CompletenessCapture(response));
    result := result.(completeness := completeness);
    var section := SectionBlock(response);
    var sectionScores: map<string, string> := map[];
    if section.Some? {
      sectionScores := FillScores(section.value, ScoreKeys);
    }
    result := result.(sectionScores := sectionScores);
    var strengths := ReadItems(StrengthsCapture(response));
    result := result.(strengths := strengths);
    var weaknesses := ReadItems(WeaknessesCapture(response));
    result := result.(weaknesses := weaknesses);
    var keywords := ReadKeywords(KeywordsCapture(response));
    result := result.(keywords := keywords);
    var recs := ReadItems(RecommendationsCapture(response));
    result := result.(recommendations := recs);
  }

  /** One numeric key: set only when its pattern matched. */
  method ReadNumber(c: Option<string>) returns (r: Option<nat>)
    requires c.Some? ==> forall i :: 0 <= i < |c.value| ==> IsDigit(c.value[i])
    ensures r == NumberOf(c)
  {
    r := None;
    if c.Some? {
      r := Some(DigitsValue(c.value));
    }
  }

  /** One list key: the numbered items of its block, when it matched. */
  method ReadItems(c: Option<string>) returns (r: seq<string>)
    ensures r == ItemsOf(c)
  {
    r := [];
    if c.Some? {
      r := ItemsFrom(c.value, 0);
    }
  }

  /** The keywords key: the kept pieces of its line, when it matched. */
  method ReadKeywords(c: Option<string>) returns (r: seq<string>)
    ensures r == KeywordsOf(c)
  {
    r := [];
    if c.Some? {
      r := KeptStripped(SplitOn(c.value, KeywordSeparators));
    }
  }

  /* ---------------- run ---------------- */

  /** What `run` is given: a dictionary holding the prompt under "input", or
      the prompt itself. */
  datatype UserInput = DictInput(fields: map<string, string>) | TextInput(text: string)

  /** The prompt `run` sends. */
  function Prompt(input: UserInput): (r: string)
    ensures input.DictInput? && "input" in input.fields ==> r == input.fields["input"]
    ensures input.DictInput? && "input" !in input.fields ==> r == []
    ensures input.TextInput? ==> r == input.text
  {
    match input
    case DictInput(fields) => Get(fields, "input", "")
    case TextInput(text) => text
  }

  const ApologyPrefix: string :=
    "I apologize, but I'm currently unable to analyze LinkedIn profiles due to technical issues. Please try again later. Error: "

  /** The message returned when the call raises. */
  function Apology(error: string): (r: string)
    ensures EndsWith(r, error)
  {
    ApologyPrefix + error
  }

  /** `run` returns a dictionary or a string. */
  datatype RunResult = Report(analysis: ParsedAnalysis) | Message(text: string)

  /** The parsed record is kept when it found section scores or strengths. */
  predicate Usable(parsed: ParsedAnalysis) {
    parsed.sectionScores != map[] || parsed.strengths != []
  }

  /** `run(user_input)`, with the provider call given as `ask`: its reply or
      the text of the exception it raised. */
  function Run(input: UserInput, ask: string -> Result<string>): RunResult {
    match ask(Prompt(input))
    case Failure(e) => Message(Apology(e))
    case Success(response) =>
      var parsed := Parse(response);
      if Usable(parsed) then Report(parsed) else Message(response)
  }

  /** A dictionary is run as the text it holds under "input", or as the
      empty prompt without one. */
  lemma RunDictAsText(fields: map<string, string>, ask: string -> Result<string>)
    ensures Run(DictInput(fields), ask) ==
      Run(TextInput(if "input" in fields then fields["input"] else ""), ask)
  {
  }

  /** Keys of the dictionary other than "input" do not change the outcome. */
  lemma RunIgnoresOtherKeys(fields: map<string, string>, k: string, v: string, ask: string -> Result<string>)
    requires k != "input"
    ensures Run(DictInput(fields[k := v]), ask) == Run(DictInput(fields), ask)
  {
    assert Prompt(DictInput(fields[k := v])) == Prompt(DictInput(fields));
  }

  /* ---------------- scans look only forward ---------------- */

  /** A run of `n` digits followed by a non-digit, or by the end. */
  lemma {:induction false} DigitRunOf(s: string, p: nat, n: nat)
    requires p + n <= |s|
    requires forall i :: p <= i < p + n ==> IsDigit(s[i])
    requires p + n == |s| || !IsDigit(s[p + n])
    ensures DigitRunEnd(s, p) == p + n
    decreases n
  {
    if n > 0 {
      DigitRunOf(s, p + 1, n - 1);
    }
  }

  /** A line of `n` characters followed by a newline, or by the end. */
  lemma {:induction false} LineEndOf(s: string, p: nat, n: nat)
    requires p + n <= |s|
    requires forall i :: p <= i < p + n ==> s[i] != '\n'
    requires p + n == |s| || s[p + n] == '\n'
    ensures LineEnd(s, p) == p + n
    decreases n
  {
    if n > 0 {
      LineEndOf(s, p + 1, n - 1);
    }
  }

  /** One step of the scan where a match starts. */
  lemma ItemsFromStep(t: string, y: nat, w: nat, f: nat)
    requires y < |t| && ItemAt(t, y) == Some(w) && LineEnd(t, w) == f
    ensures ItemsFrom(t, y) == [t[w..f]] + ItemsFrom(t, f)
  {
  }

  /** One step of the scan where no match starts. */
  lemma ItemsFromSkip(t: string, x: nat)
    requires x < |t| && ItemAt(t, x).None?
    ensures ItemsFrom(t, x) == ItemsFrom(t, x + 1)
  {
  }

  /** The scan finds nothing at the end of the text. */
  lemma ItemsFromEnd(t: string, x: nat)
    requires x == |t|
    ensures ItemsFrom(t, x) == []
  {
  }

  /* ---------------- numbered lists read back ---------------- */

  /** A text a numbered line can carry and give back unchanged: not empty,
      not starting with white space, and on one line. */
  predicate ItemText(x: string) {
    x != [] && x[0] !in Whitespace && '\n' !in x
  }

  /** One numbered line, `"<i>. <x>\n"`. */
  function NumberedLine(i: nat, x: string): string {
    NatToString(i) + ". " + x + "\n"
  }

  /** The items numbered from `i`, one per line. */
  function Numbered(items: seq<string>, i: nat): string
    decreases |items|
  {
    if items == [] then [] else NumberedLine(i, items[0]) + Numbered(items[1..], i + 1)
  }

  /** The characters of a numbered line that starts at `p`: its number runs
      up to the dot, a space follows, and the item runs from there to the
      newline that ends the line. */
  lemma NumberedLineChars(s: string, p: nat, i: nat, x: string, rest: string)
    requires p <= |s| && s[p..] == NumberedLine(i, x) + rest
    requires ItemText(x)
    ensures var n := p + |NatToString(i)|;
      && n + 2 + |x| < |s| && n + 3 + |x| == p + |NumberedLine(i, x)|
      && IsDigit(s[p]) && DigitRunEnd(s, p) == n && s[n] == '.' && s[n + 1] == ' '
      && s[n + 2] !in Whitespace
      && s[n + 2..n + 2 + |x|] == x && s[n + 2 + |x|] == '\n'
      && forall j :: n + 2 <= j < n + 2 + |x| ==> s[j] != '\n'
  {
    var d := NatToString(i);
    var line := NumberedLine(i, x);
    assert |s| - p == |line| + |rest|;
    var v := p + |d| + 2;
    var f := v + |x|;
    assert forall j :: p <= j < p + |line| ==> s[j] == line[j - p] by {
      forall j | p <= j < p + |line| ensures s[j] == line[j - p] {
        assert s[j] == s[p..][j - p];
      }
    }
    forall j | p <= j < p + |d| ensures IsDigit(s[j]) {
      assert line[j - p] == d[j - p];
    }
    assert s[p + |d|] == line[|d|] == '.';
    assert s[p + |d| + 1] == line[|d| + 1] == ' ';
    DigitRunOf(s, p, |d|);
    assert s[v] == line[|d| + 2] == x[0];
    forall j | v <= j < f ensures s[j] != '\n' {
      assert s[j] == line[j - p] == x[j - v];
    }
    assert s[f] == line[|line| - 1] == '\n';
    assert s[v..f] == x by {
      forall j | 0 <= j < |x| ensures s[v..f][j] == x[j] {
        assert s[v + j] == line[v + j - p];
      }
    }
  }

  /** Where the scan finds the item of a numbered line that starts at `p`. */
  lemma NumberedLineFacts(s: string, p: nat, i: nat, x: string, rest: string)
    requires p <= |s| && s[p..] == NumberedLine(i, x) + rest
    requires ItemText(x)
    ensures var v := p + |NatToString(i)| + 2;
      && v + |x| < |s| && v + |x| + 1 == p + |NumberedLine(i, x)|
      && ItemAt(s, p) == Some(v) && LineEnd(s, v) == v + |x|
      && s[v..v + |x|] == x && s[v + |x|] == '\n'
  {
    NumberedLineChars(s, p, i, x, rest);
    var n := p + |NatToString(i)|;
    SkipSetRun(s, n + 1, 1, Whitespace);
    LineEndOf(s, n + 2, |x|);
  }

  /** A numbered line read at `p` gives its item back, and the scan goes on
      at the next line. */
  lemma ItemsFromLine(s: string, p: nat, i: nat, x: string, rest: string) returns (e: nat)
    requires p <= |s| && s[p..] == NumberedLine(i, x) + rest
    requires ItemText(x)
    ensures e == p + |NumberedLine(i, x)| && e <= |s|
    ensures ItemsFrom(s, p) == [x] + ItemsFrom(s, e)
  {
    NumberedLineFacts(s, p, i, x, rest);
    var v := p + |NatToString(i)| + 2;
    e := v + |x| + 1;
    ItemsFromLineEnd(s, p, v, v + |x|, x, e);
  }

  /** An item whose line ends in a newline: the scan goes on after it. */
  lemma ItemsFromLineEnd(t: string, y: nat, w: nat, f: nat, x: string, e: nat)
    requires y < |t| && ItemAt(t, y) == Some(w) && LineEnd(t, w) == f
    requires f < |t| && t[f] == '\n'
    requires w <= f && t[w..f] == x && e == f + 1
    ensures ItemsFrom(t, y) == [x] + ItemsFrom(t, e)
  {
    ItemsFromStep(t, y, w, f);
    NewlineNoItem(t, f);
    ItemsFromSkip(t, f);
  }

  /** No item starts at a newline. */
  lemma NewlineNoItem(t: string, x: nat)
    requires x < |t| && t[x] == '\n'
    ensures ItemAt(t, x).None?
  {
  }

  /** The first line of a numbered list read at `p`: its item comes first,
      and the rest of the list follows the line. */
  lemma ItemsAtFirst(s: string, p: nat, items: seq<string>, i: nat) returns (q: nat)
    requires p <= |s| && s[p..] == Numbered(items, i)
    requires items != [] && ItemText(items[0])
    ensures q <= |s| && s[q..] == Numbered(items[1..], i + 1)
    ensures ItemsFrom(s, p) == [items[0]] + ItemsFrom(s, q)
  {
    var line := NumberedLine(i, items[0]);
    var rest := Numbered(items[1..], i + 1);
    assert s[p..] == line + rest;
    q := p + |line|;
    var e := ItemsFromLine(s, p, i, items[0], rest);
    SuffixAfter(s, p, line, rest);
  }

  /** What follows a prefix of a suffix. */
  lemma SuffixAfter(s: string, p: nat, line: string, rest: string)
    requires p <= |s| && s[p..] == line + rest
    ensures p + |line| <= |s| && s[p + |line|..] == rest
  {
    assert s[p + |line|..] == s[p..][|line|..];
  }

  /** Reading the items of a numbered list that starts at `p` gives the list
      back. */
  lemma {:induction false} ItemsAt(s: string, p: nat, items: seq<string>, i: nat)
    requires p <= |s| && s[p..] == Numbered(items, i)
    requires forall k :: 0 <= k < |items| ==> ItemText(items[k])
    ensures ItemsFrom(s, p) == items
    decreases |items|
  {
    if items == [] {
      ItemsFromEnd(s, p);
    } else {
      var q := ItemsAtFirst(s, p, items, i);
      ItemTextTail(items);
      ItemsAt(s, q, items[1..], i + 1);
      assert items == [items[0]] + items[1..];
    }
  }

  /** The items after the first are item texts when all are. */
  lemma ItemTextTail(items: seq<string>)
    requires items != [] && forall k :: 0 <= k < |items| ==> ItemText(items[k])
    ensures forall k :: 0 <= k < |items[1..]| ==> ItemText(items[1..][k])
  {
    forall k | 0 <= k < |items[1..]| ensures ItemText(items[1..][k]) {
      assert items[1..][k] == items[k + 1];
    }
  }

  /** Reading the items of a numbered list gives the list back. */
  lemma ItemsRoundTrip(items: seq<string>, i: nat)
    requires forall k :: 0 <= k < |items| ==> ItemText(items[k])
    ensures ItemsFrom(Numbered(items, i), 0) == items
  {
    ItemsAt(Numbered(items, i), 0, items, i);
  }

  /** A match at the very start is the first match. */
  lemma CaptureAtStart(s: string, lit: string, t: Tail)
    requires MatchesAt(s, lit, t, 0)
    ensures Capture(s, lit, t) == TailAt(s, |lit|, t)
  {
  }

  /** One repetition of the numbered block. */
  lemma BlockEndStep(s: string, x: nat, n: nat)
    requires NumberedLineAt(s, x) && n == OptNewline(s, LineEnd(s, DigitRunEnd(s, x) + 2))
    ensures NumberedLineAt(s, n) ==> BlockEnd(s, x) == BlockEnd(s, n)
    ensures !NumberedLineAt(s, n) ==> BlockEnd(s, x) == n
  {
  }

  /** A numbered list that starts at `p` and runs to the end of the text is
      one block. */
  lemma {:induction false} BlockEndAt(s: string, p: nat, items: seq<string>, i: nat)
    requires p <= |s| && s[p..] == Numbered(items, i) && items != []
    requires forall k :: 0 <= k < |items| ==> ItemText(items[k])
    ensures NumberedLineAt(s, p) && BlockEnd(s, p) == |s|
    decreases |items|
  {
    var m := BlockFirstLine(s, p, items, i);
    if |items| > 1 {
      assert forall k :: 0 <= k < |items[1..]| ==> ItemText(items[1..][k]) by {
        forall k | 0 <= k < |items[1..]| ensures ItemText(items[1..][k]) {
          assert items[1..][k] == items[k + 1];
        }
      }
      BlockEndAt(s, m, items[1..], i + 1);
    } else {
      assert items[1..] == [];
      assert m == |s|;
    }
  }

  /** The first line of a numbered list at `p` is one repetition of the
      block, and the rest of the list follows it. */
  lemma BlockFirstLine(s: string, p: nat, items: seq<string>, i: nat) returns (m: nat)
    requires p <= |s| && s[p..] == Numbered(items, i) && items != []
    requires ItemText(items[0])
    ensures NumberedLineAt(s, p)
    ensures m <= |s| && s[m..] == Numbered(items[1..], i + 1)
    ensures NumberedLineAt(s, m) ==> BlockEnd(s, p) == BlockEnd(s, m)
    ensures !NumberedLineAt(s, m) ==> BlockEnd(s, p) == m
  {
    var line := NumberedLine(i, items[0]);
    var rest := Numbered(items[1..], i + 1);
    assert s[p..] == line + rest;
    m := NumberedLineNext(s, p, i, items[0], rest);
    BlockEndStep(s, p, m);
    SuffixAfter(s, p, line, rest);
  }

  /** A numbered line at `p` is where a block can start, and the block's
      next line starts right after it. */
  lemma NumberedLineNext(s: string, p: nat, i: nat, x: string, rest: string) returns (m: nat)
    requires p <= |s| && s[p..] == NumberedLine(i, x) + rest
    requires ItemText(x)
    ensures m == p + |NumberedLine(i, x)|
    ensures NumberedLineAt(s, p) && OptNewline(s, LineEnd(s, DigitRunEnd(s, p) + 2)) == m
  {
    NumberedLineChars(s, p, i, x, rest);
    var n := p + |NatToString(i)|;
    LineEndOf(s, n + 2, |x|);
    m := p + |NumberedLine(i, x)|;
    NumberedLineStep(s, p, n, n + 2 + |x|);
  }

  /** A numbered line whose item runs from after `". "` to a newline at `e`:
      the block's next line starts right after that newline. */
  lemma NumberedLineStep(s: string, p: nat, n: nat, e: nat)
    requires p < n && n + 2 < e < |s| && IsDigit(s[p]) && DigitRunEnd(s, p) == n
    requires s[n] == '.' && s[n + 1] == ' ' && s[n + 2] != '\n'
    requires LineEnd(s, n + 2) == e && s[e] == '\n'
    ensures NumberedLineAt(s, p) && OptNewline(s, LineEnd(s, DigitRunEnd(s, p) + 2)) == e + 1
  {
  }

  lemma DigitNotWhitespace(c: char)
    requires IsDigit(c)
    ensures c !in Whitespace
  {
  }

  /** Skipping white space from a line break stops at the numbered line
      that follows it. */
  lemma SkipBreak(s: string, p: nat)
    requires p + 1 < |s| && s[p] == '\n' && NumberedLineAt(s, p + 1)
    ensures SkipSet(s, p, Whitespace) == p + 1
  {
    DigitNotWhitespace(s[p + 1]);
    SkipSetRun(s, p, 1, Whitespace);
  }

  /** The block tail at `q` is the numbered block found there. */
  lemma BlockTail(s: string, q: nat)
    requires q <= |s|
    ensures TailAt(s, q, Block) == NumberedBlock(s, q)
  {
  }

  /** The numbered block at `q` when its first line starts at `b`. */
  lemma NumberedBlockFrom(s: string, q: nat, b: nat)
    requires q <= |s| && b == SkipSet(s, OptChar(s, q, ColonDash), Whitespace)
    requires NumberedLineAt(s, b)
    ensures NumberedBlock(s, q) == Some(s[b..BlockEnd(s, b)])
  {
  }

  /** The block tail at `q`, when a colon and a line break lead to a
      numbered block that runs to the end of the text. */
  lemma BlockTailAt(s: string, q: nat)
    requires q + 2 < |s| && s[q] == ':' && s[q + 1] == '\n'
    requires NumberedLineAt(s, q + 2) && BlockEnd(s, q + 2) == |s|
    ensures TailAt(s, q, Block) == Some(s[q + 2..])
  {
    assert OptChar(s, q, ColonDash) == q + 1;
    SkipBreak(s, q + 1);
    NumberedBlockFrom(s, q, q + 2);
    assert s[q + 2..BlockEnd(s, q + 2)] == s[q + 2..];
    BlockTail(s, q);
  }

  /** A label, a colon and a line break, then a numbered list: the block
      tail captures the whole list. */
  lemma BlockCaptureAt(s: string, lit: string, items: seq<string>)
    requires |lit| + 2 <= |s| && s[..|lit|] == lit && s[|lit|] == ':' && s[|lit| + 1] == '\n'
    requires s[|lit| + 2..] == Numbered(items, 1) && items != []
    requires forall k :: 0 <= k < |items| ==> ItemText(items[k])
    ensures Capture(s, lit, Block) == Some(Numbered(items, 1))
  {
    var q := |lit|;
    BlockEndAt(s, q + 2, items, 1);
    BlockTailAt(s, q);
    CaptureAtStart(s, lit, Block);
  }

  lemma BlockCapture(lit: string, items: seq<string>)
    requires items != []
    requires forall k :: 0 <= k < |items| ==> ItemText(items[k])
    ensures Capture(lit + ":\n" + Numbered(items, 1), lit, Block) == Some(Numbered(items, 1))
  {
    var s := lit + ":\n" + Numbered(items, 1);
    LabelledParts(lit, ":\n", Numbered(items, 1));
    BlockCaptureAt(s, lit, items);
  }

  /** The parts of a label, a separator and a body put together. */
  lemma LabelledParts(lit: string, sep: string, body: string)
    requires |sep| == 2
    ensures var s := lit + sep + body;
      && s[..|lit|] == lit && s[|lit|] == sep[0] && s[|lit| + 1] == sep[1]
      && s[|lit| + 2..] == body
  {
    var s := lit + sep + body;
    assert s[..|lit|] == lit;
    assert s[|lit| + 2..] == body;
  }

  /** A reply that lists its strengths, numbered from 1, under
      "Key Strengths:" gives those strengths back (they are the `strengths`
      field of `Parse`). */
  lemma StrengthsRoundTrip(items: seq<string>)
    requires items != []
    requires forall k :: 0 <= k < |items| ==> ItemText(items[k])
    ensures ItemsOf(StrengthsCapture("Key Strengths" + ":\n" + Numbered(items, 1))) == items
  {
    BlockCapture("Key Strengths", items);
    BlockItems(StrengthsCapture("Key Strengths" + ":\n" + Numbered(items, 1)), items);
  }

  /** The items of a captured numbered list are the listed items. */
  lemma BlockItems(block: Option<string>, items: seq<string>)
    requires items != []
    requires forall k :: 0 <= k < |items| ==> ItemText(items[k])
    requires block == Some(Numbered(items, 1))
    ensures ItemsOf(block) == items
  {
    ItemsRoundTrip(items, 1);
  }

  /* ---------------- numbers read back ---------------- */

  /** After a colon and a space, the digits start right away. */
  lemma NumberStartAfterColon(s: string, q: nat)
    requires q + 2 < |s| && s[q] == ':' && s[q + 1] == ' ' && s[q + 2] !in Whitespace
    ensures NumberStart(s, q) == q + 2
  {
    SkipSetRun(s, q, 0, Whitespace);
    SkipSetRun(s, q + 1, 1, Whitespace);
  }

  /** The decimal text of `n` at `q`, followed by a non-digit. */
  lemma DigitsThere(s: string, q: nat, n: nat)
    requires q + |NatToString(n)| <= |s| && s[q..q + |NatToString(n)|] == NatToString(n)
    requires q + |NatToString(n)| == |s| || !IsDigit(s[q + |NatToString(n)|])
    ensures DigitRunEnd(s, q) == q + |NatToString(n)|
    ensures DigitsAt(s, q) == Some(NatToString(n))
  {
    var d := NatToString(n);
    assert forall j :: q <= j < q + |d| ==> s[j] == d[j - q] by {
      forall j | q <= j < q + |d| ensures s[j] == d[j - q] {
        assert s[q..q + |d|][j - q] == s[j];
      }
    }
    DigitRunOf(s, q, |d|);
    assert s[q] == d[0];
  }

  /** `lit: <n>` followed by a non-digit: the number tail captures the
      digits of `n`. */
  lemma NumberCapture(lit: string, n: nat, rest: string)
    requires rest == [] || !IsDigit(rest[0])
    ensures Capture(lit + ": " + NatToString(n) + rest, lit, Number) == Some(NatToString(n))
  {
    var d := NatToString(n);
    var s := lit + ": " + d + rest;
    var q := |lit|;
    assert s[q] == ':' && s[q + 1] == ' ' && s[q + 2] == d[0];
    NumberStartAfterColon(s, q);
    assert s[q + 2..q + 2 + |d|] == d;
    DigitsThere(s, q + 2, n);
    assert s[..q] == lit;
    CaptureAtStart(s, lit, Number);
  }

  /** The percentage tail at `q` when `: <n>%` follows. */
  lemma PercentTailAt(s: string, q: nat, n: nat)
    requires q + 2 + |NatToString(n)| < |s| && s[q] == ':' && s[q + 1] == ' '
    requires s[q + 2..q + 2 + |NatToString(n)|] == NatToString(n)
    requires s[q + 2 + |NatToString(n)|] == '%'
    ensures TailAt(s, q, Percentage) == Some(NatToString(n))
  {
    PercentDigitsAfterColon(s, q, n);
    ColonIsNotPercentage(s, q);
  }

  /** `\s*[:\-]?\s*(\d+)%` after `: <n>%` takes the digits of `n`. */
  lemma PercentDigitsAfterColon(s: string, q: nat, n: nat)
    requires q + 2 + |NatToString(n)| < |s| && s[q] == ':' && s[q + 1] == ' '
    requires s[q + 2..q + 2 + |NatToString(n)|] == NatToString(n)
    requires s[q + 2 + |NatToString(n)|] == '%'
    ensures PercentDigits(s, q) == Some(NatToString(n))
  {
    var d := NatToString(n);
    assert s[q + 2] == d[0];
    NumberStartAfterColon(s, q);
    DigitsThere(s, q + 2, n);
  }

  /** A colon cannot start ` Percentage`. */
  lemma ColonIsNotPercentage(s: string, q: nat)
    requires q < |s| && s[q] == ':'
    ensures !LitAtCi(s, q, " Percentage")
  {
    if q + 11 <= |s| {
      assert Lower(s[q..q + 11])[0] == ':';
    }
  }

  /** `lit: <n>%`: the percentage tail captures the digits of `n`. */
  lemma PercentCapture(lit: string, n: nat, rest: string)
    ensures Capture(lit + ": " + NatToString(n) + "%" + rest, lit, Percentage) == Some(NatToString(n))
  {
    var d := NatToString(n);
    var s := lit + ": " + d + "%" + rest;
    var q := |lit|;
    assert s[q] == ':' && s[q + 1] == ' ' && s[q + 2 + |d|] == '%';
    assert s[q + 2..q + 2 + |d|] == d;
    PercentTailAt(s, q, n);
    assert s[..q] == lit;
    CaptureAtStart(s, lit, Percentage);
  }

  /** A reply that opens with "Overall Score: <n>" reads as score `n`. */
  lemma OverallScoreRoundTrip(n: nat, rest: string)
    requires rest == [] || !IsDigit(rest[0])
    ensures Parse("Overall Score" + ": " + NatToString(n) + rest).overallScore == Some(n)
  {
    NumberCapture("Overall Score", n, rest);
    DigitsValueOfNatToString(n);
  }

  /** A reply that opens with "Profile Completeness: <n>%" reads as
      completeness `n`. */
  lemma CompletenessRoundTrip(n: nat, rest: string)
    ensures Parse("Profile Completeness" + ": " + NatToString(n) + "%" + rest).completeness == Some(n)
  {
    PercentCapture("Profile Completeness", n, rest);
    DigitsValueOfNatToString(n);
  }

  /* ---------------- keywords ---------------- */

  /** Every keyword is a non-empty, stripped text without a comma or a line
      break. */
  lemma KeywordsClean(line: Option<string>)
    ensures forall i :: 0 <= i < |KeywordsOf(line)| ==>
      KeywordsOf(line)[i] != [] && Stripped(KeywordsOf(line)[i]) &&
      ',' !in KeywordsOf(line)[i] && '\n' !in KeywordsOf(line)[i]
  {
    if line.Some? {
      var parts := SplitOn(line.value, KeywordSeparators);
      KeptStrippedFree(parts, ',');
      KeptStrippedFree(parts, '\n');
    }
  }

  /** Starts and ends with a character that is not white space. */
  predicate Stripped(k: string) {
    k != [] && k[0] !in Whitespace && k[|k| - 1] !in Whitespace
  }

  /** Stripping and dropping pieces brings in no character. */
  lemma {:induction false} KeptStrippedFree(parts: seq<string>, c: char)
    requires forall i :: 0 <= i < |parts| ==> c !in parts[i]
    ensures forall i :: 0 <= i < |KeptStripped(parts)| ==> c !in KeptStripped(parts)[i]
    decreases |parts|
  {
    if parts != [] {
      KeptStrippedFree(parts[1..], c);
      StripInfix(parts[0], Whitespace, c);
    }
  }

  /** Pieces that are already stripped are all kept, unchanged. */
  lemma {:induction false} KeptStrippedOfStripped(parts: seq<string>)
    requires forall i :: 0 <= i < |parts| ==> Stripped(parts[i])
    ensures KeptStripped(parts) == parts
    decreases |parts|
  {
    if parts != [] {
      var p := parts[0];
      StripOfPadded([], p, [], Whitespace);
      assert [] + p + [] == p;
      KeptStrippedOfStripped(parts[1..]);
      assert parts == [p] + parts[1..];
    }
  }

  /** Splitting on the separators the join of pieces free of them gives back
      the pieces. */
  lemma {:induction false} SplitOnJoin(parts: seq<string>, c: char, cs: set<char>)
    requires |parts| >= 1 && c in cs
    requires forall i, j :: 0 <= i < |parts| && 0 <= j < |parts[i]| ==> parts[i][j] !in cs
    ensures SplitOn(Join([c], parts), cs) == parts
    decreases |parts|, |parts[0]|
  {
    var p := parts[0];
    var j := Join([c], parts);
    if p == [] {
      if |parts| > 1 {
        assert j == [c] + Join([c], parts[1..]);
        assert j[1..] == Join([c], parts[1..]);
        SplitOnJoin(parts[1..], c, cs);
        assert parts == [[]] + parts[1..];
      }
    } else {
      var parts' := [p[1..]] + parts[1..];
      assert parts'[1..] == parts[1..];
      var j' := Join([c], parts');
      assert j == [p[0]] + j' by {
        if |parts| > 1 {
          assert j == p + [c] + Join([c], parts[1..]);
          assert j' == p[1..] + [c] + Join([c], parts[1..]);
          assert p == [p[0]] + p[1..];
        }
      }
      assert j[0] == p[0] && p[0] !in cs;
      assert j[1..] == j';
      forall i, k | 0 <= i < |parts'| && 0 <= k < |parts'[i]| ensures parts'[i][k] !in cs {
        if i == 0 {
          assert parts'[0][k] == p[k + 1];
        } else {
          assert parts'[i] == parts[i];
        }
      }
      SplitOnJoin(parts', c, cs);
      assert p == [p[0]] + parts'[0];
      assert parts == [[p[0]] + parts'[0]] + parts'[1..];
    }
  }

  /** A comma-joined list of keywords, each stripped and free of the
      separators, reads back as that list. */
  lemma KeywordsOfJoined(kws: seq<string>)
    requires |kws| >= 1
    requires forall i :: 0 <= i < |kws| ==> Stripped(kws[i]) && ',' !in kws[i] && '\n' !in kws[i]
    ensures KeywordsOf(Some(Join(",", kws))) == kws
  {
    forall i, j | 0 <= i < |kws| && 0 <= j < |kws[i]| ensures kws[i][j] !in KeywordSeparators {
      assert kws[i][j] in kws[i];
    }
    SplitOnJoin(kws, ',', KeywordSeparators);
    KeptStrippedOfStripped(kws);
  }

  /** Joining texts without a line break with a comma makes none. */
  lemma {:induction false} JoinNoBreak(parts: seq<string>)
    requires forall i :: 0 <= i < |parts| ==> '\n' !in parts[i]
    ensures '\n' !in Join(",", parts)
    decreases |parts|
  {
    if |parts| > 1 {
      JoinNoBreak(parts[1..]);
      assert Join(",", parts) == parts[0] + "," + Join(",", parts[1..]);
    }
  }

  /** A line after a colon and a space is captured whole. */
  lemma LineCapture(lit: string, line: string)
    requires line != [] && line[0] !in Whitespace && '\n' !in line
    ensures Capture(lit + ": " + line, lit, Line) == Some(line)
  {
    var s := lit + ": " + line;
    var q := |lit|;
    assert s[q] == ':' && s[q + 1] == ' ' && s[q + 2] == line[0];
    assert s[q + 2..] == line;
    SkipSetRun(s, q + 1, 1, Whitespace);
    forall i | q + 2 <= i < |s| ensures s[i] != '\n' {
      assert s[i] == line[i - q - 2];
    }
    LineEndOf(s, q + 2, |line|);
    assert LineRestStart(s, q + 1) == Some(q + 2);
    assert LineRest(s, q + 1) == Some(line) by {
      assert s[q + 2..|s|] == line;
    }
    assert q < |s| && s[q] in ColonDash;
    assert TailAt(s, q, Line) == Some(line);
    assert s[..q] == lit;
    CaptureAtStart(s, lit, Line);
  }

  /** A reply whose keyword line lists stripped keywords joined by commas
      gives back those keywords. */
  lemma KeywordsRoundTrip(kws: seq<string>)
    requires |kws| >= 1
    requires forall i :: 0 <= i < |kws| ==> Stripped(kws[i]) && ',' !in kws[i] && '\n' !in kws[i]
    ensures KeywordsOf(KeywordsCapture("Recommended Keywords" + ": " + Join(",", kws))) == kws
  {
    var line := Join(",", kws);
    JoinNoBreak(kws);
    assert line[0] == kws[0][0] by {
      if |kws| > 1 {
        assert line == kws[0] + "," + Join(",", kws[1..]);
      }
    }
    LineCapture("Recommended Keywords", line);
    KeywordsOfJoined(kws);
  }

  /* ---------------- section scores ---------------- */

  /** The section scores hold only the five keys, each with a non-empty run
      of digits and slashes; a key is present exactly when its search in
      the section-score block matched; without that block there are none. */
  lemma SectionScoresShape(response: string)
    ensures SectionBlock(response).None? ==> SectionScoresOf(response) == map[]
    ensures forall k :: k in SectionScoresOf(response) ==>
      k in ScoreKeys && SectionScoresOf(response)[k] != [] &&
      forall i :: 0 <= i < |SectionScoresOf(response)[k]| ==> SectionScoresOf(response)[k][i] in FractionChars
    ensures SectionBlock(response).Some? ==>
      forall k :: k in ScoreKeys ==>
        (k in SectionScoresOf(response) <==> KeyScore(SectionBlock(response).value, k).Some?)
  {
    if SectionBlock(response).Some? {
      var text := SectionBlock(response).value;
      forall k | k in SectionScoresOf(response)
        ensures SectionScoresOf(response)[k] != [] &&
          forall i :: 0 <= i < |SectionScoresOf(response)[k]| ==> SectionScoresOf(response)[k][i] in FractionChars
      {
        assert KeyScore(text, k) == Some(SectionScoresOf(response)[k]);
        assert CaptureShape(Fraction, SectionScoresOf(response)[k]);
      }
    }
  }

  /* ---------------- run ---------------- */

  /** `run` returns the parsed record exactly when the call answered and the
      record holds section scores or strengths; otherwise the reply itself,
      or the apology carrying the error. */
  lemma RunOutcome(input: UserInput, ask: string -> Result<string>)
    ensures Run(input, ask).Report? <==>
      ask(Prompt(input)).Success? && Usable(Parse(ask(Prompt(input)).value))
    ensures Run(input, ask).Report? ==>
      Run(input, ask).analysis == Parse(ask(Prompt(input)).value)
    ensures ask(Prompt(input)).Failure? ==>
      Run(input, ask) == Message(Apology(ask(Prompt(input)).error))
    ensures ask(Prompt(input)).Success? && !Usable(Parse(ask(Prompt(input)).value)) ==>
      Run(input, ask) == Message(ask(Prompt(input)).value)
  {
  }
}
