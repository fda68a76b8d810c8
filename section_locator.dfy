/** The first two stages of `_extract_list_items` (agents.py:576-665): the
    keyword is widened to a list of variations, a cascade of section
    patterns is searched for each, and when that yields nothing a line by
    line scan takes the lines that follow a line mentioning a variation. */
module SectionLocator {
  import opened Wrappers
  import opened Text
  import opened Patterns

  /* ---------------- keyword variations ---------------- */

  /** Extra spellings for six bare keywords (agents.py:586-597). */
  function Aliases(lowered: string): seq<string> {
    if lowered == "application" then ["application tips", "tips", "application strategy"]
    else if lowered == "improvements" then ["key improvements", "improvements made", "changes"]
    else if lowered == "networking" then ["networking strategy", "network building", "professional network"]
    else if lowered == "opportunities" then ["growth opportunities", "career opportunities", "next career moves"]
    else if lowered == "resources" then ["learning resources", "courses", "certifications", "training"]
    else if lowered == "action" then ["action plan", "roadmap", "next steps", "recommendations"]
    else []
  }

  /** The keyword variations, in the order they are tried. */
  function Variations(kw: string): (r: seq<string>)
    ensures 6 <= |r| <= 10
    ensures r[0] == Lower(kw) && r[3] == Upper(kw)
    ensures Aliases(Lower(kw)) == [] ==> |r| == 6
  {
    var l := Lower(kw);
    [l, ReplaceChar(l, '_', " "), ReplaceChar(l, '_', ""), Upper(kw), Capitalize(kw), Title(kw)] + Aliases(l)
  }

  /* ---------------- the section patterns ---------------- */

  /** The six patterns built for each variation `v`, all searched with
      IGNORECASE, DOTALL and MULTILINE. The fourth is an rf-string in which
      `{1,3}` is a replacement field rather than a repetition: Python puts
      the text of the tuple `(1, 3)` there, so the compiled pattern needs
      the literal `#1, 3` and its group 1 is the group `(1, 3)`. */
  datatype SectionForm =
    | HeaderThenBold    // v[:\s]*\n?\*\*\n?(.*?)(?=\n\n|\n[A-Z][A-Z\s]*:|\n\d+\.|$)
    | HeaderThenText    // v[:\s]*\n?((?:(?!\n\n|\n[A-Z][A-Z\s]*:).)*)
    | BoldHeader        // \*\*v\*\*[:\s]*\n?(.*?)(?=\n\n|\n\*\*[A-Z]|\n\d+\.|$)
    | HashHeader        // #(1, 3)\s*v[:\s]*\n?(.*?)(?=\n\n|\n#(1, 3)|\n\d+\.|$)
    | LineStartHeader   // ^v[:\s]*\n?((?:(?!\n\n|\n[A-Z][A-Z\s]*:).)*)
    | NumberedHeader    // ^\d+\.\s*v[:\s]*\n?(.*?)(?=\n\n|\n\d+\.|\n[A-Z]|$)

  const SectionForms: seq<SectionForm> :=
    [HeaderThenBold, HeaderThenText, BoldHeader, HashHeader, LineStartHeader, NumberedHeader]

  /** The alternatives that end each form's capture. */
  function Stops(f: SectionForm): seq<Stop> {
    match f
    case HeaderThenBold => [BlankLine, LetterHeader, NumberedLine, LineEndAnchor]
    case HeaderThenText => [BlankLine, LetterHeader]
    case BoldHeader => [BlankLine, BoldLetter, NumberedLine, LineEndAnchor]
    case HashHeader => [BlankLine, HashLine, NumberedLine, LineEndAnchor]
    case LineStartHeader => [BlankLine, LetterHeader]
    case NumberedHeader => [BlankLine, NumberedLine, LetterLine, LineEndAnchor]
  }

  /** `^` under MULTILINE. */
  predicate LineStart(s: string, p: nat)
    requires p <= |s|
  {
    p == 0 || s[p - 1] == '\n'
  }

  /** What `#(1, 3)` matches: the text `#1, 3`, whose last four characters
      are group 1. */
  const HashMark: string := "#1, 3"
  const HashGroup: string := "1, 3"

  /** `v[:\s]*` at `p`: where the greedy run after the variation ends. */
  function AfterHeader(s: string, v: string, p: nat): (r: Option<nat>)
    requires p <= |s|
    ensures r.Some? <==> LitAtCi(s, p, v)
    ensures r.Some? ==> p + |v| <= r.value <= |s|
  {
    if LitAtCi(s, p, v) then Some(SkipSet(s, p + |v|, WsColon)) else None
  }

  /** Where the capture begins when form `f` for variation `v` is tried at
      `p`, or None when the part before the capture does not match there.
      The `\n?` right after `[:\s]*` can only match nothing, since the greedy
      run has already taken every newline; a `\*\*` after that run cannot be
      reached by giving back white space either. Giving back part of the
      `\s*` before `v` is not modelled: it only matters for a variation
      that itself starts with white space. */
  function CaptureStart(s: string, v: string, f: SectionForm, p: nat): (r: Option<nat>)
    requires p <= |s|
    ensures r.Some? ==> p <= r.value <= |s|
  {
    match f
    case HeaderThenBold =>
      (match AfterHeader(s, v, p)
       case None => None
       case Some(a) => if LitAt(s, a, "**") then Some(OptNewline(s, a + 2)) else None)
    case HeaderThenText => AfterHeader(s, v, p)
    case BoldHeader =>
      if LitAt(s, p, "**") && LitAt(s, p + 2 + |v|, "**") then
        (match AfterHeader(s, v, p + 2)
         case None => None
         case Some(_) => Some(SkipSet(s, p + 4 + |v|, WsColon)))
      else None
    case HashHeader =>
      if LitAt(s, p, HashMark) then AfterHeader(s, v, SkipSet(s, p + |HashMark|, Whitespace))
      else None
    case LineStartHeader =>
      if LineStart(s, p) then AfterHeader(s, v, p) else None
    case NumberedHeader =>
      if LineStart(s, p) && p < |s| && IsDigit(s[p]) && DigitRunEnd(s, p) < |s| && s[DigitRunEnd(s, p)] == '.' then
        AfterHeader(s, v, SkipSet(s, DigitRunEnd(s, p) + 1, Whitespace))
      else None
  }

  /** The group-1 capture of form `f` for `v` when the match starts at `p`. */
  function MatchAt(s: string, v: string, f: SectionForm, p: nat): Option<string>
    requires p <= |s|
  {
    match CaptureStart(s, v, f, p)
    case None => None
    case Some(c) => if f == HashHeader then Some(HashGroup) else Some(s[c..FirstStop(s, c, Stops(f))])
  }

  /** The matches of form `f` for `v`, position by position. */
  function Matcher(s: string, v: string, f: SectionForm): nat -> Option<string> {
    (k: nat) => if k <= |s| then MatchAt(s, v, f, k) else None
  }

  /** `re.search`: the match that starts leftmost, from `p` on. */
  function Search(s: string, v: string, f: SectionForm, p: nat): (r: Option<string>)
    requires p <= |s|
  {
    FirstFrom(Matcher(s, v, f), p, |s|)
  }

  /** A search that succeeds returns the capture of a match starting at or
      after `p`, and none starts between `p` and it. */
  lemma SearchWitness(s: string, v: string, f: SectionForm, p: nat) returns (q: nat)
    requires p <= |s| && Search(s, v, f, p).Some?
    ensures p <= q <= |s| && MatchAt(s, v, f, q) == Search(s, v, f, p)
    ensures forall k :: p <= k < q ==> MatchAt(s, v, f, k).None?
  {
    var m := Matcher(s, v, f);
    q := FirstFromWitness(m, p, |s|);
    assert m(q) == MatchAt(s, v, f, q);
    forall k | p <= k < q ensures MatchAt(s, v, f, k).None? {
      assert m(k) == MatchAt(s, v, f, k);
    }
  }

  /** A match anywhere from `p` on makes the search succeed. */
  lemma MatchMeansSearch(s: string, v: string, f: SectionForm, p: nat, q: nat)
    requires p <= q <= |s| && MatchAt(s, v, f, q).Some?
    ensures Search(s, v, f, p).Some?
  {
    var m := Matcher(s, v, f);
    assert m(q) == MatchAt(s, v, f, q);
    FirstFromHit(m, p, |s|, q);
  }

  /** One entry of `section_patterns`. */
  datatype SectionPattern = SectionPattern(variation: string, form: SectionForm)

  /** The six patterns of one variation, in order. */
  function FormsOf(v: string): seq<SectionPattern> {
    [SectionPattern(v, HeaderThenBold), SectionPattern(v, HeaderThenText), SectionPattern(v, BoldHeader),
     SectionPattern(v, HashHeader), SectionPattern(v, LineStartHeader), SectionPattern(v, NumberedHeader)]
  }

  /** `section_patterns`: the six forms of the first variation, then the six
      of the second, and so on. */
  function SectionPatterns(vars: seq<string>): (r: seq<SectionPattern>)
    ensures |r| == 6 * |vars|
    decreases |vars|
  {
    if vars == [] then [] else FormsOf(vars[0]) + SectionPatterns(vars[1..])
  }

  /** The capture of the first pattern in `pats` that matches. A match whose
      capture is empty still ends the cascade. */
  function FirstMatch(s: string, pats: seq<SectionPattern>): (r: Option<string>)
    ensures r.None? <==> forall i :: 0 <= i < |pats| ==> Search(s, pats[i].variation, pats[i].form, 0).None?
    decreases |pats|
  {
    if pats == [] then None
    else
      var m := Search(s, pats[0].variation, pats[0].form, 0);
      if m.Some? then m
      else
        var r := FirstMatch(s, pats[1..]);
        assert forall i :: 1 <= i < |pats| ==> pats[i] == pats[1..][i - 1];
        r
  }

  /** The stripped capture of the cascade, or "" when no pattern matched. */
  function CascadeText(s: string, vars: seq<string>): string {
    match FirstMatch(s, SectionPatterns(vars))
    case None => ""
    case Some(c) => StripWs(c)
  }

  /* ---------------- the line scan ---------------- */

  /** `re.match(r'^[A-Z][A-Z\s]*:$', line)` on a line holding no newline
      (no IGNORECASE here). */
  predicate IsCapsHeaderLine(line: string) {
    |line| >= 2 && IsUpperChar(line[0]) && line[|line| - 1] == ':' &&
    forall i :: 1 <= i < |line| - 1 ==> IsUpperChar(line[i]) || line[i] in Whitespace
  }

  /** The test that ends the collection of a section's lines
      (agents.py:656-658). */
  predicate LooksLikeHeader(line: string) {
    IsCapsHeaderLine(line) || (StartsWith(line, "**") && |line| >= 3 && IsUpperChar(line[2])) || IsUpperStr(line)
  }

  /** `any(var in line.lower() for var in keyword_variations)` */
  predicate Mentions(line: string, vars: seq<string>) {
    exists k :: 0 <= k < |vars| && Contains(Lower(line), vars[k])
  }

  /** The stripped lines from `j` up to `stop`, blank ones skipped, up to
      the first one that looks like a header. */
  function Collect(lines: seq<string>, j: nat, stop: nat): (r: seq<string>)
    requires j <= stop <= |lines|
    ensures |r| <= stop - j
    decreases stop - j
  {
    if j == stop then []
    else
      var nl := StripWs(lines[j]);
      if nl == [] then Collect(lines, j + 1, stop)
      else if LooksLikeHeader(nl) then []
      else [nl] + Collect(lines, j + 1, stop)
  }

  /** Where collection starts after the line at `i`: one line further when
      the next line is only `**`. */
  function CollectStart(lines: seq<string>, i: nat): (r: nat)
    requires i < |lines|
    ensures i < r <= |lines|
  {
    if i + 1 < |lines| && StripWs(lines[i + 1]) == "**" then i + 2 else i + 1
  }

  /** The lines gathered after the line at `i`, at most 20 lines on. */
  function Gathered(lines: seq<string>, i: nat): seq<string>
    requires i < |lines|
  {
    var start := CollectStart(lines, i);
    Collect(lines, start, if start + 20 < |lines| then start + 20 else |lines|)
  }

  /** The line scan from the line at `i`: the first mentioning line whose
      gathered lines are not empty decides. */
  function ScanFrom(lines: seq<string>, vars: seq<string>, i: nat): string
    decreases |lines| - i
  {
    if i >= |lines| then ""
    else if Mentions(lines[i], vars) && Gathered(lines, i) != [] then Join("\n", Gathered(lines, i))
    else ScanFrom(lines, vars, i + 1)
  }

  /** `section_text` once both stages have run. */
  function SectionText(s: string, vars: seq<string>): string {
    var c := CascadeText(s, vars);
    if c != "" then c else ScanFrom(Split(s, "\n"), vars, 0)
  }

  /* ---------------- the two stages as loops ---------------- */

  /** The loop over `section_patterns`, stopped by the first match. */
  method RunCascade(text: string, vars: seq<string>) returns (section: string)
    ensures section == CascadeText(text, vars)
  {
    var pats := SectionPatterns(vars);
    section := "";
    var i := 0;
    while i < |pats|
      invariant 0 <= i <= |pats|
      invariant section == ""
      invariant FirstMatch(text, pats) == FirstMatch(text, pats[i..])
    {
      assert pats[i..][1..] == pats[i + 1..];
      var m := Search(text, pats[i].variation, pats[i].form, 0);
      if m.Some? {
        section := StripWs(m.value);
        return;
      }
      i := i + 1;
    }
  }

  /** The inner loop of the line scan, with its early `break`. */
  method CollectLines(lines: seq<string>, start: nat, stop: nat) returns (gathered: seq<string>)
    requires start <= stop <= |lines|
    ensures gathered == Collect(lines, start, stop)
  {
    gathered := [];
    var j := start;
    while j < stop
      invariant start <= j <= stop
      invariant Collect(lines, start, stop) == gathered + Collect(lines, j, stop)
    {
      var header;
      gathered, header := CollectLine(lines, j, stop, gathered);
      if header {
        break;
      }
      j := j + 1;
    }
    assert j == stop ==> gathered + Collect(lines, j, stop) == gathered;
  }

  /** One pass of the inner loop: a blank line is skipped, a header-like
      line ends the collection, any other line is kept. */
  method CollectLine(lines: seq<string>, j: nat, stop: nat, gathered: seq<string>) returns (next: seq<string>, header: bool)
    requires j < stop <= |lines|
    ensures header ==> gathered + Collect(lines, j, stop) == next
    ensures !header ==> gathered + Collect(lines, j, stop) == next + Collect(lines, j + 1, stop)
  {
    var nl := StripWs(lines[j]);
    header := nl != [] && LooksLikeHeader(nl);
    next := gathered;
    if header {
      assert Collect(lines, j, stop) == [];
    } else if nl != [] {
      assert Collect(lines, j, stop) == [nl] + Collect(lines, j + 1, stop);
      next := gathered + [nl];
    }
  }

  /** The lines gathered after line `i`. */
  method GatherLines(lines: seq<string>, i: nat) returns (gathered: seq<string>)
    requires i < |lines|
    ensures gathered == Gathered(lines, i)
  {
    var start := CollectStart(lines, i);
    var stop := if start + 20 < |lines| then start + 20 else |lines|;
    gathered := CollectLines(lines, start, stop);
  }

  /** The broader search over the lines of the reply. */
  method RunLineScan(lines: seq<string>, vars: seq<string>) returns (section: string)
    ensures section == ScanFrom(lines, vars, 0)
  {
    section := "";
    var i := 0;
    while i < |lines|
      invariant 0 <= i <= |lines|
      invariant ScanFrom(lines, vars, 0) == ScanFrom(lines, vars, i)
    {
      if Mentions(lines[i], vars) {
        var gathered := GatherLines(lines, i);
        if gathered != [] {
          section := Join("\n", gathered);
          return;
        }
      }
      i := i + 1;
    }
  }

  /** Both stages: the line scan runs only when the cascade gave "". */
  method LocateSection(text: string, vars: seq<string>) returns (section: string)
    ensures section == SectionText(text, vars)
  {
    section := RunCascade(text, vars);
    if section == "" {
      section := RunLineScan(Split(text, "\n"), vars);
    }
  }

  /* ---------------- properties ---------------- */

  /** Where the variation sits in a match of form `f` that starts at `p`. */
  function VariationAt(s: string, v: string, f: SectionForm, p: nat): (q: nat)
    requires p <= |s| && CaptureStart(s, v, f, p).Some?
    ensures q <= |s| && LitAtCi(s, q, v)
  {
    match f
    case HeaderThenBold => p
    case HeaderThenText => p
    case BoldHeader => p + 2
    case HashHeader => SkipSet(s, p + |HashMark|, Whitespace)
    case LineStartHeader => p
    case NumberedHeader => SkipSet(s, DigitRunEnd(s, p) + 1, Whitespace)
  }

  /** Every match of a section pattern contains the variation itself. */
  lemma MatchHasVariation(s: string, v: string, f: SectionForm, p: nat)
    requires p <= |s|
    requires CaptureStart(s, v, f, p).Some?
    ensures FindCi(s, v, 0).Some?
  {
    var q := VariationAt(s, v, f, p);
  }

  /** The fourth form matches only where the text `#1, 3` stands, and its
      group 1 is then always `1, 3`. */
  lemma HashHeaderGroup(s: string, v: string, p: nat)
    requires p <= |s| && MatchAt(s, v, HashHeader, p).Some?
    ensures LitAt(s, p, HashMark) && MatchAt(s, v, HashHeader, p) == Some(HashGroup)
  {
  }

  /** A markdown header `## v` is not a match of the fourth form. */
  lemma MarkdownHeaderMissed(v: string)
    ensures MatchAt("## " + v, v, HashHeader, 0).None?
  {
    var s := "## " + v;
    assert s[1] == '#';
    assert |s| >= 5 ==> s[0..5][1] == s[1];
  }

  /** The plain-header form matches exactly when the variation occurs
      somewhere, in any letter case. */
  lemma HeaderThenTextIffOccurs(s: string, v: string)
    ensures Search(s, v, HeaderThenText, 0).Some? <==> FindCi(s, v, 0).Some?
  {
    if FindCi(s, v, 0).Some? {
      var q := FindCi(s, v, 0).value;
      assert MatchAt(s, v, HeaderThenText, q).Some?;
      MatchMeansSearch(s, v, HeaderThenText, 0, q);
    }
    if Search(s, v, HeaderThenText, 0).Some? {
      var q := SearchWitness(s, v, HeaderThenText, 0);
      MatchHasVariation(s, v, HeaderThenText, q);
    }
  }

  /** The capture after a `**` line ends with its line: under MULTILINE the
      lazy capture stops at the first `$`. */
  lemma HeaderThenBoldOneLine(s: string, v: string, p: nat)
    requires p <= |s| && MatchAt(s, v, HeaderThenBold, p).Some?
    ensures '\n' !in MatchAt(s, v, HeaderThenBold, p).value
  {
    var c := CaptureStart(s, v, HeaderThenBold, p).value;
    FirstStopIsLineEnd(s, c, Stops(HeaderThenBold));
  }

  lemma {:induction false} FirstMatchAppend(s: string, a: seq<SectionPattern>, b: seq<SectionPattern>)
    ensures FirstMatch(s, a + b) == if FirstMatch(s, a).Some? then FirstMatch(s, a) else FirstMatch(s, b)
    decreases |a|
  {
    if a != [] {
      assert (a + b)[1..] == a[1..] + b;
      FirstMatchAppend(s, a[1..], b);
    } else {
      assert a + b == b;
    }
  }

  /** The patterns that can decide the cascade: the first two forms of each
      variation. */
  function LivePatterns(vars: seq<string>): seq<SectionPattern>
    decreases |vars|
  {
    if vars == [] then [] else FormsOf(vars[0])[..2] + LivePatterns(vars[1..])
  }

  /** For one variation, the last four forms never decide: each needs the
      variation to occur, and then the second form has already matched. */
  lemma BlockDecidedByFirstTwo(s: string, v: string)
    ensures FirstMatch(s, FormsOf(v)) == FirstMatch(s, FormsOf(v)[..2])
  {
    assert FormsOf(v) == LiveForms(v) + DeadForms(v);
    assert FormsOf(v)[..2] == LiveForms(v);
    FirstMatchAppend(s, LiveForms(v), DeadForms(v));
    if FirstMatch(s, LiveForms(v)).None? {
      DeadFormsFail(s, v);
    }
  }

  function LiveForms(v: string): seq<SectionPattern> {
    [SectionPattern(v, HeaderThenBold), SectionPattern(v, HeaderThenText)]
  }

  function DeadForms(v: string): seq<SectionPattern> {
    [SectionPattern(v, BoldHeader), SectionPattern(v, HashHeader),
     SectionPattern(v, LineStartHeader), SectionPattern(v, NumberedHeader)]
  }

  /** When neither of the first two forms matches, none of the last four
      does. */
  lemma DeadFormsFail(s: string, v: string)
    requires FirstMatch(s, LiveForms(v)).None?
    ensures FirstMatch(s, DeadForms(v)).None?
  {
    var dead := DeadForms(v);
    assert Search(s, v, HeaderThenText, 0).None? by {
      assert LiveForms(v)[1] == SectionPattern(v, HeaderThenText);
    }
    HeaderThenTextIffOccurs(s, v);
    forall i | 0 <= i < |dead| ensures Search(s, dead[i].variation, dead[i].form, 0).None? {
      AbsentVariationNoSearch(s, v, dead[i].form);
    }
  }

  /** No form matches when its variation does not occur. */
  lemma AbsentVariationNoSearch(s: string, v: string, f: SectionForm)
    requires FindCi(s, v, 0).None?
    ensures Search(s, v, f, 0).None?
  {
    if Search(s, v, f, 0).Some? {
      var q := SearchWitness(s, v, f, 0);
      MatchHasVariation(s, v, f, q);
    }
  }

  /** The last four forms of every variation never decide the cascade. */
  lemma {:induction false} LaterFormsUnreachable(s: string, vars: seq<string>)
    ensures FirstMatch(s, SectionPatterns(vars)) == FirstMatch(s, LivePatterns(vars))
    decreases |vars|
  {
    if vars != [] {
      var v := vars[0];
      FirstMatchAppend(s, FormsOf(v), SectionPatterns(vars[1..]));
      FirstMatchAppend(s, FormsOf(v)[..2], LivePatterns(vars[1..]));
      LaterFormsUnreachable(s, vars[1..]);
      BlockDecidedByFirstTwo(s, v);
    }
  }

  /** The text the line scan gives is made of at most 20 non-blank lines,
      none of which looks like a header. */
  lemma {:induction false} ScanShape(lines: seq<string>, vars: seq<string>, i: nat)
    requires forall k :: 0 <= k < |lines| ==> '\n' !in lines[k]
    ensures var r := ScanFrom(lines, vars, i);
            r == "" || (1 <= |Split(r, "\n")| <= 20 &&
                        forall k :: 0 <= k < |Split(r, "\n")| ==>
                          Split(r, "\n")[k] != [] && !LooksLikeHeader(Split(r, "\n")[k]))
    decreases |lines| - i
  {
    if i < |lines| {
      if Mentions(lines[i], vars) && Gathered(lines, i) != [] {
        var g := Gathered(lines, i);
        var start := CollectStart(lines, i);
        var stop := if start + 20 < |lines| then start + 20 else |lines|;
        assert g == Collect(lines, start, stop);
        CollectShape(lines, start, stop);
        SplitJoin(g, '\n');
        assert ScanFrom(lines, vars, i) == Join("\n", g);
        assert Split(Join("\n", g), "\n") == g;
      } else {
        ScanShape(lines, vars, i + 1);
      }
    }
  }

  /** Every gathered line is non-blank, holds no newline when the lines do
      not, and does not look like a header. */
  lemma {:induction false} CollectShape(lines: seq<string>, j: nat, stop: nat)
    requires j <= stop <= |lines|
    requires forall k :: 0 <= k < |lines| ==> '\n' !in lines[k]
    ensures forall k :: 0 <= k < |Collect(lines, j, stop)| ==>
              var x := Collect(lines, j, stop)[k]; x != [] && '\n' !in x && !LooksLikeHeader(x)
    decreases stop - j
  {
    if j < stop {
      StripInfix(lines[j], Whitespace, '\n');
      CollectShape(lines, j + 1, stop);
    }
  }
}
