/** The last stages of `_extract_list_items` (agents.py:667-728) and
    `_get_fallback_items` (agents.py:730-775): items are read line by line
    from the located section, cleaned of markdown and bullet symbols,
    filtered, and replaced by canned items when none survives. */
module ItemExtractor {
  import opened Wrappers
  import opened Text
  import opened Emphasis
  import opened Patterns
  import SectionLocator

  /* ---------------- one line ---------------- */

  /** The item patterns, each `^\s*<mark>\s*(.+)`; `Numbered` is
      `^\s*\d+\.\s*(.+)`. */
  datatype ItemPattern = Bullet(marks: set<char>) | Numbered

  const ItemPatterns: seq<ItemPattern> := [
    Bullet({'\U{2022}', '-', '*'}), Numbered, Bullet({'-'}), Bullet({'*'}),
    Bullet({'\U{2192}'}), Bullet({'\U{25AA}'}), Bullet({'\U{25E6}'})]

  /** `\s*(.+)` from `q0` on a line without newlines: when the white space
      runs to the end, `\s*` gives its last character back to `(.+)`. */
  function RestAfter(line: string, q0: nat): (r: Option<string>)
    requires q0 <= |line|
    ensures r.Some? ==> 0 < |r.value| <= |line| - q0 && EndsWith(line, r.value)
  {
    var q := SkipSet(line, q0, Whitespace);
    if q < |line| then Some(line[q..])
    else if q > q0 then Some(line[q - 1..])
    else None
  }

  /** The group-1 capture of `re.match(pattern, line)`. */
  function ItemCapture(line: string, pat: ItemPattern): (r: Option<string>)
    ensures r.Some? ==> EndsWith(line, r.value)
  {
    var w := SkipSet(line, 0, Whitespace);
    match pat
    case Bullet(marks) =>
      if w < |line| && line[w] in marks then RestAfter(line, w + 1) else None
    case Numbered =>
      if w < |line| && IsDigit(line[w]) && DigitRunEnd(line, w) < |line| && line[DigitRunEnd(line, w)] == '.'
      then RestAfter(line, DigitRunEnd(line, w) + 1)
      else None
  }

  /** The first pattern whose stripped capture is longer than 5 gives the
      item. */
  function FirstItem(line: string, pats: seq<ItemPattern>): (r: Option<string>)
    ensures r.Some? ==> |r.value| > 5
    decreases |pats|
  {
    if pats == [] then None
    else
      var c := ItemCapture(line, pats[0]);
      if c.Some? && |StripWs(c.value)| > 5 then Some(StripWs(c.value))
      else FirstItem(line, pats[1..])
  }

  /** `re.match(r'^[A-Z][A-Z\s]*:$', line) or line.startswith('**') and
      line.endswith('**')` (agents.py:701-702). */
  predicate HeaderLine(line: string) {
    SectionLocator.IsCapsHeaderLine(line) || (StartsWith(line, "**") && EndsWith(line, "**"))
  }

  /** What one line of the section contributes. */
  function LineItem(raw: string): Option<string> {
    var line := StripWs(raw);
    if |line| < 3 then None
    else
      match FirstItem(line, ItemPatterns)
      case Some(c) => Some(c)
      case None => if |line| > 10 && !HeaderLine(line) then Some(line) else None
  }

  /** A capture that strips to more than one character is already
      stripped, when the line ends with a non-white-space character. */
  lemma RestAfterStripped(line: string, q0: nat)
    requires q0 <= |line|
    requires line == [] || line[|line| - 1] !in Whitespace
    requires RestAfter(line, q0).Some? && |StripWs(RestAfter(line, q0).value)| > 1
    ensures StripWs(RestAfter(line, q0).value) == RestAfter(line, q0).value
  {
    var c := RestAfter(line, q0).value;
    StripWsEnds(c);
    var q := SkipSet(line, q0, Whitespace);
    if q < |line| {
      assert c == line[q..];
      StripOfStripped(c, Whitespace);
    }
  }

  /** Where `\s*(.+)` starts in a line that a pattern matches. */
  function CaptureFrom(line: string, pat: ItemPattern): (q0: nat)
    requires ItemCapture(line, pat).Some?
    ensures q0 <= |line| && ItemCapture(line, pat) == RestAfter(line, q0)
  {
    var w := SkipSet(line, 0, Whitespace);
    if pat.Bullet? then w + 1 else DigitRunEnd(line, w) + 1
  }

  /** A stripped capture that is longer than 5 is the tail of the line. */
  lemma CaptureIsTail(line: string, pat: ItemPattern)
    requires line == [] || line[|line| - 1] !in Whitespace
    requires ItemCapture(line, pat).Some? && |StripWs(ItemCapture(line, pat).value)| > 5
    ensures StripWs(ItemCapture(line, pat).value) == ItemCapture(line, pat).value
  {
    var q0 := CaptureFrom(line, pat);
    RestAfterStripped(line, q0);
  }

  lemma {:induction false} FirstItemIsTail(line: string, pats: seq<ItemPattern>)
    requires line == [] || line[|line| - 1] !in Whitespace
    ensures FirstItem(line, pats).Some? ==> EndsWith(line, FirstItem(line, pats).value)
    decreases |pats|
  {
    if pats != [] {
      var c := ItemCapture(line, pats[0]);
      if c.Some? && |StripWs(c.value)| > 5 {
        CaptureIsTail(line, pats[0]);
      } else {
        FirstItemIsTail(line, pats[1..]);
      }
    }
  }

  /** A line gives at most one item: never for a stripped line shorter than
      3, and otherwise a tail of the stripped line longer than 5 (the text
      after a bullet or number, or the whole line). */
  lemma LineItemShape(raw: string)
    ensures |StripWs(raw)| < 3 ==> LineItem(raw).None?
    ensures LineItem(raw).Some? ==> |LineItem(raw).value| > 5 && EndsWith(StripWs(raw), LineItem(raw).value)
  {
    var line := StripWs(raw);
    StripWsEnds(raw);
    StripOfStripped(line, Whitespace);
    FirstItemIsTail(line, ItemPatterns);
  }

  /* ---------------- the whole section ---------------- */

  /** The items of a list of lines, in order. */
  function ItemsOfLines(lines: seq<string>): (r: seq<string>)
    ensures |r| <= |lines|
    decreases |lines|
  {
    if lines == [] then []
    else
      var last := LineItem(lines[|lines| - 1]);
      ItemsOfLines(lines[..|lines| - 1]) + (if last.Some? then [last.value] else [])
  }

  /** `items` for a section text. */
  function SectionItems(section: string): seq<string> {
    if section == "" then [] else ItemsOfLines(Split(section, "\n"))
  }

  lemma {:induction false} ItemsOfLinesLong(lines: seq<string>)
    ensures forall k :: 0 <= k < |ItemsOfLines(lines)| ==> |ItemsOfLines(lines)[k]| > 5
    decreases |lines|
  {
    if lines != [] {
      ItemsOfLinesLong(lines[..|lines| - 1]);
      LineItemShape(lines[|lines| - 1]);
    }
  }

  /** The loop over the item patterns, left at the first that gives an item. */
  method MatchItem(line: string) returns (found: Option<string>)
    ensures found == FirstItem(line, ItemPatterns)
  {
    found := None;
    var k := 0;
    while k < |ItemPatterns|
      invariant 0 <= k <= |ItemPatterns|
      invariant found.None?
      invariant FirstItem(line, ItemPatterns) == FirstItem(line, ItemPatterns[k..])
    {
      assert ItemPatterns[k..][1..] == ItemPatterns[k + 1..];
      var c := ItemCapture(line, ItemPatterns[k]);
      if c.Some? && |StripWs(c.value)| > 5 {
        found := Some(StripWs(c.value));
        return;
      }
      k := k + 1;
    }
  }

  /** The loop over the lines of the section. */
  method ExtractItems(section: string) returns (items: seq<string>)
    ensures items == SectionItems(section)
  {
    items := [];
    if section != "" {
      var lines := Split(section, "\n");
      var i := 0;
      while i < |lines|
        invariant 0 <= i <= |lines|
        invariant items == ItemsOfLines(lines[..i])
      {
        assert lines[..i + 1][..i] == lines[..i];
        var line := StripWs(lines[i]);
        if |line| >= 3 {
          var found := MatchItem(line);
          if found.Some? {
            items := items + [found.value];
          } else if |line| > 10 && !HeaderLine(line) {
            items := items + [line];
          }
        }
        i := i + 1;
      }
      assert lines[..|lines|] == lines;
    }
  }

  /* ---------------- cleaning ---------------- */

  /** The characters stripped from both ends of an item: ` -•*:→▪◦`. */
  const Junk: set<char> := {' ', '-', '\U{2022}', '*', ':', '\U{2192}', '\U{25AA}', '\U{25E6}'}

  /** An item after markdown removal, stripping and the trailing-colon rule. */
  function CleanItem(item: string): string {
    var c := Strip(RemoveEmphasis(item), Junk);
    if EndsWith(c, ":") then StripWs(c[..|c| - 1]) else c
  }

  /** Only substantial content is kept. */
  predicate Keep(c: string) {
    |c| > 8 && !StartsWith(Lower(c), "detailed")
  }

  /** A kept item that neither starts nor ends with a stripped character. */
  predicate Tidy(c: string) {
    Keep(c) && c[0] !in Junk && c[|c| - 1] !in Junk
  }

  /** `cleaned_items` */
  function Cleaned(items: seq<string>): (r: seq<string>)
    ensures |r| <= |items|
    ensures forall k :: 0 <= k < |r| ==> Keep(r[k])
    decreases |items|
  {
    if items == [] then []
    else
      var c := CleanItem(items[|items| - 1]);
      Cleaned(items[..|items| - 1]) + (if Keep(c) then [c] else [])
  }

  /** The loop over the items. */
  method CleanItems(items: seq<string>) returns (cleaned: seq<string>)
    ensures cleaned == Cleaned(items)
  {
    cleaned := [];
    var i := 0;
    while i < |items|
      invariant 0 <= i <= |items|
      invariant cleaned == Cleaned(items[..i])
    {
      assert items[..i + 1][..i] == items[..i];
      var c := CleanItem(items[i]);
      if Keep(c) {
        cleaned := cleaned + [c];
      }
      i := i + 1;
    }
    assert items[..|items|] == items;
  }

  /** The trailing-colon branch never fires: `:` is one of the characters
      already stripped from the end. */
  lemma ColonBranchNeverTaken(item: string)
    ensures CleanItem(item) == Strip(RemoveEmphasis(item), Junk)
  {
  }

  /** A cleaned item neither starts nor ends with a stripped character. */
  lemma CleanItemEnds(item: string)
    ensures var c := CleanItem(item); c == [] || (c[0] !in Junk && c[|c| - 1] !in Junk)
  {
    ColonBranchNeverTaken(item);
  }

  /** What emphasis removal leaves has at most one `*` per line, and so
      does any infix of it. */
  lemma CleanedOnePerLine(item: string)
    ensures OnePerLine(Strip(RemoveEmphasis(item), Junk))
  {
    var e := RemoveEmphasis(item);
    UnwrapItalicOnePerLine(Unwrap(item, "**"));
    var o := StripOffset(e, Junk);
    StripIsInfix(e, Junk);
    OnePerLineInfix(e, o, o + |Strip(e, Junk)|);
  }

  /** Emphasis removal leaves a text with at most one `*` per line as it is. */
  lemma RemoveEmphasisKeeps(c: string)
    requires OnePerLine(c)
    ensures RemoveEmphasis(c) == c
  {
    UnwrapBoldKeeps(c);
    UnwrapItalicKeeps(c);
  }

  /** Cleaning an item twice is cleaning it once. */
  lemma CleanItemIdempotent(item: string)
    ensures CleanItem(CleanItem(item)) == CleanItem(item)
  {
    var c := Strip(RemoveEmphasis(item), Junk);
    ColonBranchNeverTaken(item);
    ColonBranchNeverTaken(c);
    CleanedOnePerLine(item);
    RemoveEmphasisKeeps(c);
    StripOfStripped(c, Junk);
  }

  /** Cleaning keeps the order of the items: the cleaned items of a
      concatenation are the concatenation of the cleaned items. */
  lemma {:induction false} CleanedAppend(a: seq<string>, b: seq<string>)
    ensures Cleaned(a + b) == Cleaned(a) + Cleaned(b)
    decreases |b|
  {
    if b == [] {
      assert a + b == a;
    } else {
      var b' := b[..|b| - 1];
      var x := b[|b| - 1];
      var t := if Keep(CleanItem(x)) then [CleanItem(x)] else [];
      assert (a + b)[..|a + b| - 1] == a + b';
      assert (a + b)[|a + b| - 1] == x;
      assert Cleaned(a + b) == Cleaned(a + b') + t;
      assert Cleaned(b) == Cleaned(b') + t;
      CleanedAppend(a, b');
      assert Cleaned(a) + Cleaned(b') + t == Cleaned(a) + (Cleaned(b') + t);
    }
  }

  /** Every cleaned item is kept and free of stripped characters at both
      ends. */
  lemma {:induction false} CleanedShape(items: seq<string>)
    ensures forall k :: 0 <= k < |Cleaned(items)| ==> Tidy(Cleaned(items)[k])
    decreases |items|
  {
    if items != [] {
      CleanedShape(items[..|items| - 1]);
      CleanItemEnds(items[|items| - 1]);
    }
  }

  /* ---------------- fallback ---------------- */

  /** The six keywords with canned items of their own (agents.py:732-769). */
  datatype Topic = Application | Improvements | Networking | Opportunities | Resources | Action

  /** The table of canned items, keyed by lower-case keyword. */
  const FallbackTable: map<string, Topic> := map[
    "application" := Application,
    "improvements" := Improvements,
    "networking" := Networking,
    "opportunities" := Opportunities,
    "resources" := Resources,
    "action" := Action]

  /** The `i`-th of the four canned items of a topic. */
  function TopicItem(t: Topic, i: nat): string
    requires i < 4
  {
    match t
    case Application =>
      if i == 0 then "Tailor your resume to highlight relevant skills and experience"
      else if i == 1 then "Write a compelling cover letter that addresses the job requirements"
      else if i == 2 then "Prepare specific examples that demonstrate your qualifications"
      else "Research the company culture and values before applying"
    case Improvements =>
      if i == 0 then "Enhanced keyword optimization for better visibility"
      else if i == 1 then "Improved professional language and impact statements"
      else if i == 2 then "Better structure and formatting for readability"
      else "Added quantifiable achievements and metrics"
    case Networking =>
      if i == 0 then "Connect with industry professionals and thought leaders"
      else if i == 1 then "Engage with relevant LinkedIn groups and discussions"
      else if i == 2 then "Attend virtual and in-person networking events"
      else "Share valuable content to establish thought leadership"
    case Opportunities =>
      if i == 0 then "Senior-level positions in your current field"
      else if i == 1 then "Leadership and management roles"
      else if i == 2 then "Specialized consulting opportunities"
      else "Cross-functional project leadership positions"
    case Resources =>
      if i == 0 then "Industry-specific online courses and certifications"
      else if i == 1 then "Professional development workshops and seminars"
      else if i == 2 then "Relevant books and publications in your field"
      else "Mentorship programs and coaching opportunities"
    case Action =>
      if i == 0 then "Update your LinkedIn profile with recent achievements"
      else if i == 1 then "Expand your professional network strategically"
      else if i == 2 then "Develop priority skills identified in your analysis"
      else "Set up informational interviews with industry contacts"
  }

  /** The four canned items of a topic, in order. */
  function CannedItems(t: Topic): (r: seq<string>)
    ensures |r| == 4
  {
    seq(4, i requires 0 <= i < 4 => TopicItem(t, i))
  }

  /** The keys of the fallback table. */
  const FallbackKeys: set<string> :=
    {"application", "improvements", "networking", "opportunities", "resources", "action"}

  lemma FallbackKeysAre()
    ensures FallbackTable.Keys == FallbackKeys
  {
  }

  /** The three templated sentences used for any other keyword. */
  function GenericFallback(kw: string): seq<string> {
    ["Detailed " + kw + " recommendations available in the comprehensive analysis",
     "Personalized " + kw + " guidance based on your profile strengths",
     "Strategic " + kw + " planning to advance your career goals"]
  }

  /** `_get_fallback_items(keyword, full_text)`; the text is not used. */
  function FallbackItems(kw: string): seq<string> {
    var l := Lower(kw);
    if l in FallbackTable then CannedItems(FallbackTable[l]) else GenericFallback(kw)
  }

  /** Three or four fallback items for any keyword. */
  lemma FallbackSize(kw: string)
    ensures 3 <= |FallbackItems(kw)| <= 4
  {
    if Lower(kw) in FallbackTable {
      FallbackForTableKey(kw);
    }
  }

  /** Four canned items for each of the six table keys, in any letter
      case. */
  lemma FallbackForTableKey(kw: string)
    requires Lower(kw) in FallbackTable
    ensures |FallbackItems(kw)| == 4
  {
  }

  /** For any other keyword, three sentences that each contain the keyword
      as given. */
  lemma FallbackForOtherKeyword(kw: string)
    requires Lower(kw) !in FallbackTable
    ensures |FallbackItems(kw)| == 3
    ensures forall k :: 0 <= k < 3 ==> Contains(FallbackItems(kw)[k], kw)
  {
    assert FallbackItems(kw) == GenericFallback(kw);
    GenericFallbackMentions(kw);
  }

  lemma GenericFallbackMentions(kw: string)
    ensures forall k :: 0 <= k < 3 ==> Contains(GenericFallback(kw)[k], kw)
  {
    ContainsInfix("Detailed ", kw, " recommendations available in the comprehensive analysis");
    ContainsInfix("Personalized ", kw, " guidance based on your profile strengths");
    ContainsInfix("Strategic ", kw, " planning to advance your career goals");
  }
}
