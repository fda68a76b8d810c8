/** `LinkedInOptimizerAgent._extract_optimized_content` and
    `_extract_alternatives` (agents.py:777-860): a labelled block is captured
    by the first header pattern that yields enough text, with a paragraph
    fallback for the optimized content and a fixed placeholder for both.
    Every pattern here is searched with IGNORECASE and DOTALL but without
    MULTILINE, so `$` holds at the end of the text or before a final
    newline, and `.` also matches a newline. */
module ContentExtractor {
  import opened Wrappers
  import opened Text
  import opened Emphasis
  import opened Patterns

  /* ---------------- header patterns ---------------- */

  /** The part of a pattern before its capture. */
  datatype Header =
    | OptimizedWord(bold: bool)                      // OPTIMIZED\s+\w+, bare or between ** and **
    | Label(name: string, plural: bool, bold: bool) // LABEL, or LABEL[S]? when plural

  /** A header and the lookahead alternatives that end its lazy capture. */
  datatype ContentPattern = ContentPattern(head: Header, stops: seq<Stop>)

  /** `OPTIMIZED\s+\w+` at `p`: where the word ends. The greedy `\s+` cannot
      give back white space to `\w+`, and the greedy `\w+` is never cut
      short by what follows, so the first path is the only one. */
  function OptimizedWordEnd(s: string, p: nat): (r: Option<nat>)
    requires p <= |s|
    ensures r.Some? ==> p + 9 < r.value <= |s|
  {
    if !LitAtCi(s, p, "OPTIMIZED") then None
    else
      var w := SkipSet(s, p + 9, Whitespace);
      if w == p + 9 || w == |s| || !IsWordChar(s[w]) then None
      else Some(WordRunEnd(s, w))
  }

  /** `LABEL` or `LABEL[S]?` at `p`, ignoring case: where it ends. */
  function LabelEnd(s: string, name: string, plural: bool, p: nat): (r: Option<nat>)
    requires p <= |s|
    ensures r.Some? ==> p + |name| <= r.value <= |s|
  {
    if !LitAtCi(s, p, name) then None
    else
      var e := p + |name|;
      Some(if plural && e < |s| && LowerChar(s[e]) == 's' then e + 1 else e)
  }

  /** Where the capture of a header matched at `p` begins: after the header
      (and its closing `**` when bold) comes the greedy `[:\s]*`; the `\n?`
      after it always matches nothing, the run having taken every newline. */
  function CaptureStart(s: string, h: Header, p: nat): (r: Option<nat>)
    requires p <= |s|
    ensures r.Some? ==> p <= r.value <= |s|
  {
    if h.bold && !LitAt(s, p, "**") then None
    else
      var q := if h.bold then p + 2 else p;
      var e := if h.OptimizedWord? then OptimizedWordEnd(s, q) else LabelEnd(s, h.name, h.plural, q);
      match e
      case None => None
      case Some(e) =>
        if h.bold && !LitAt(s, e, "**") then None
        else Some(SkipSet(s, if h.bold then e + 2 else e, WsColon))
  }

  /** The group-1 capture when the match starts at `p`. The lazy capture
      always succeeds, since `$` holds at the end of the text. */
  function MatchAt(s: string, pat: ContentPattern, p: nat): Option<string>
    requires p <= |s|
  {
    match CaptureStart(s, pat.head, p)
    case None => None
    case Some(c) => Some(s[c..FirstStop(s, c, pat.stops)])
  }

  /** `re.search`: the match that starts leftmost, from `p` on. */
  function Search(s: string, pat: ContentPattern, p: nat): (r: Option<string>)
    requires p <= |s|
  {
    FirstFrom(Matcher(s, pat), p, |s|)
  }

  /** The matches of `pat`, position by position. */
  function Matcher(s: string, pat: ContentPattern): nat -> Option<string> {
    (k: nat) => if k <= |s| then MatchAt(s, pat, k) else None
  }

  /** `(?=\n\n|\nKEY IMPROVEMENTS|\n[A-Z][A-Z\s]*:|\n\*\*[A-Z]|$)` */
  const PlainStops: seq<Stop> := [BlankLine, KeyImprovements, LetterHeader, BoldLetter, TextEndAnchor]
  /** `(?=\n\n|\n\*\*[A-Z]|\n[A-Z][A-Z\s]*:|$)` */
  const BoldStops: seq<Stop> := [BlankLine, BoldLetter, LetterHeader, TextEndAnchor]

  /** The seven patterns of `_extract_optimized_content`, in order. */
  const ContentPatterns: seq<ContentPattern> := [
    ContentPattern(OptimizedWord(false), PlainStops),
    ContentPattern(OptimizedWord(true), BoldStops),
    ContentPattern(Label("IMPROVED VERSION", false, false), PlainStops),
    ContentPattern(Label("REWRITTEN", false, false), PlainStops),
    ContentPattern(Label("IMPROVED VERSION", false, true), BoldStops),
    ContentPattern(Label("ENHANCED", false, false), PlainStops),
    ContentPattern(Label("FINAL VERSION", false, false), PlainStops)]

  /* ---------------- the optimized content ---------------- */

  /** `.strip(' \n"\'')` */
  const QuotesAndBlanks: set<char> := {' ', '\n', '"', '\''}

  /** Neither end of `t` is a blank or a quote. */
  predicate QuoteTrimmed(t: string) {
    t == [] || (t[0] !in QuotesAndBlanks && t[|t| - 1] !in QuotesAndBlanks)
  }

  /** Strip white space, remove emphasis, then strip blanks and quotes. */
  function CleanContent(c: string): (r: string)
    ensures QuoteTrimmed(r)
  {
    Strip(RemoveEmphasis(StripWs(c)), QuotesAndBlanks)
  }

  /** What one pattern contributes: its cleaned capture, when the pattern
      matches and that text is longer than 20 characters. */
  function PatternText(s: string, pat: ContentPattern): (r: Option<string>)
    ensures r.Some? ==> |r.value| > 20 && QuoteTrimmed(r.value)
  {
    match Search(s, pat, 0)
    case None => None
    case Some(c) => if |CleanContent(c)| > 20 then Some(CleanContent(c)) else None
  }

  /** What each pattern contributes, in order. */
  function PatternTexts(s: string, pats: seq<ContentPattern>): seq<Option<string>> {
    seq(|pats|, i requires 0 <= i < |pats| => PatternText(s, pats[i]))
  }

  /** The first contribution is missing only when every pattern contributes
      nothing, and it has the shape of every contribution. */
  lemma PatternTextsFirst(s: string, pats: seq<ContentPattern>)
    ensures var r := FirstSome(PatternTexts(s, pats));
            (r.None? <==> forall i :: 0 <= i < |pats| ==> PatternText(s, pats[i]).None?) &&
            (r.Some? ==> |r.value| > 20 && QuoteTrimmed(r.value))
  {
    var ts := PatternTexts(s, pats);
    forall i | 0 <= i < |pats| ensures ts[i] == PatternText(s, pats[i]) {
    }
    var r := FirstSome(ts);
    if r.Some? {
      var i :| 0 <= i < |ts| && ts[i] == r;
    }
  }

  /** The first pattern that contributes; a pattern that matches with too
      little text passes on to the next one. */
  function PatternContent(s: string, pats: seq<ContentPattern>): (r: Option<string>)
    ensures r.None? <==> forall i :: 0 <= i < |pats| ==> PatternText(s, pats[i]).None?
    ensures r.Some? ==> |r.value| > 20 && QuoteTrimmed(r.value)
  {
    PatternTextsFirst(s, pats);
    FirstSome(PatternTexts(s, pats))
  }

  /** The content is the text of the first pattern that contributes. */
  lemma PatternContentIsFirst(s: string, pats: seq<ContentPattern>, i: nat)
    requires i < |pats| && PatternText(s, pats[i]).Some?
    requires forall j :: 0 <= j < i ==> PatternText(s, pats[j]).None?
    ensures PatternContent(s, pats) == PatternText(s, pats[i])
  {
    forall j | 0 <= j < i ensures PatternTexts(s, pats)[j].None? {
      assert PatternTexts(s, pats)[j] == PatternText(s, pats[j]);
    }
    FirstSomeIsFirst(PatternTexts(s, pats), i);
  }

  /** The paragraph test: a stripped paragraph longer than 50 characters
      that is not all capitals, does not open with `**` and mentions neither
      IMPROVEMENTS nor KEYWORDS in any case. */
  predicate Substantial(par: string) {
    |par| > 50 && !IsUpperStr(par) && !StartsWith(par, "**") &&
    !Contains(Upper(par), "IMPROVEMENTS") && !Contains(Upper(par), "KEYWORDS")
  }

  /** What a paragraph contributes: its cleaned text when it is substantial.
      No length test follows the cleaning. */
  function ParagraphText(par: string): (r: Option<string>)
    ensures r.Some? <==> Substantial(StripWs(par))
    ensures r.Some? ==> QuoteTrimmed(r.value)
  {
    if Substantial(StripWs(par)) then Some(CleanContent(par)) else None
  }

  /** What each paragraph contributes, in order. */
  function ParagraphTexts(pars: seq<string>): seq<Option<string>> {
    seq(|pars|, i requires 0 <= i < |pars| => ParagraphText(pars[i]))
  }

  /** No paragraph is taken only when none is substantial, and the one taken
      is cleaned. */
  lemma ParagraphTextsFirst(pars: seq<string>)
    ensures var r := FirstSome(ParagraphTexts(pars));
            (r.None? <==> forall i :: 0 <= i < |pars| ==> !Substantial(StripWs(pars[i]))) &&
            (r.Some? ==> QuoteTrimmed(r.value))
  {
    var ts := ParagraphTexts(pars);
    forall i | 0 <= i < |pars| ensures ts[i] == ParagraphText(pars[i]) {
    }
    var r := FirstSome(ts);
    if r.Some? {
      var i :| 0 <= i < |ts| && ts[i] == r;
    }
  }

  /** The cleaned form of the first substantial paragraph. */
  function FirstParagraph(pars: seq<string>): (r: Option<string>)
    ensures r.None? <==> forall i :: 0 <= i < |pars| ==> !Substantial(StripWs(pars[i]))
    ensures r.Some? ==> QuoteTrimmed(r.value)
  {
    ParagraphTextsFirst(pars);
    FirstSome(ParagraphTexts(pars))
  }

  /** The paragraph taken is the first substantial one. */
  lemma FirstParagraphIsFirst(pars: seq<string>, i: nat)
    requires i < |pars| && Substantial(StripWs(pars[i]))
    requires forall j :: 0 <= j < i ==> !Substantial(StripWs(pars[j]))
    ensures FirstParagraph(pars) == Some(CleanContent(pars[i]))
  {
    forall j | 0 <= j < i ensures ParagraphTexts(pars)[j].None? {
      assert ParagraphTexts(pars)[j] == ParagraphText(pars[j]);
    }
    FirstSomeIsFirst(ParagraphTexts(pars), i);
  }

  const ContentPlaceholder: string :=
    "Enhanced content with improved keywords and professional language - see detailed explanation below"

  /** `_extract_optimized_content(text)` */
  function OptimizedContent(text: string): (r: string)
    ensures r == ContentPlaceholder || QuoteTrimmed(r)
  {
    match PatternContent(text, ContentPatterns)
    case Some(c) => c
    case None =>
      match FirstParagraph(Split(text, "\n\n"))
      case Some(p) => p
      case None => ContentPlaceholder
  }

  /** A single-line text without emphasis markers and without blanks, quotes
      or colons at its ends comes out of the cleaning unchanged. */
  lemma CleanContentOfPlain(body: string)
    requires '\n' !in body && '*' !in body
    requires body == [] || (body[0] !in Whitespace + QuotesAndBlanks && body[|body| - 1] !in Whitespace + QuotesAndBlanks)
    ensures CleanContent(body) == body
  {
    StripOfStripped(body, Whitespace);
    StarFreePrefix(body, []);
    assert body + [] == body;
    UnwrapBoldKeeps(body);
    UnwrapItalicKeeps(body);
    StripOfStripped(body, QuotesAndBlanks);
  }

  /** Where the capture begins after an `OPTIMIZED <word>:` line. */
  lemma {:induction false} OptimizedHeaderStart(w: string, body: string)
    requires |w| > 0 && forall i :: 0 <= i < |w| ==> IsWordChar(w[i])
    requires |body| > 0 && body[0] !in WsColon
    ensures var s := "OPTIMIZED " + w + ":\n" + body;
            CaptureStart(s, OptimizedWord(false), 0) == Some(12 + |w|) && s[12 + |w|..] == body
  {
    var s := "OPTIMIZED " + w + ":\n" + body;
    var n := |w|;
    assert s[..9] == "OPTIMIZED";
    assert LitAtCi(s, 0, "OPTIMIZED");
    assert s[9] == ' ' && s[10] == w[0];
    SkipSetRun(s, 9, 1, Whitespace);
    forall i | 10 <= i < 10 + n ensures IsWordChar(s[i]) {
      assert s[i] == w[i - 10];
    }
    assert s[10 + n] == ':' && s[11 + n] == '\n' && s[12 + n] == body[0];
    WordRunOf(s, 10, n);
    assert OptimizedWordEnd(s, 0) == Some(10 + n);
    SkipSetRun(s, 10 + n, 2, WsColon);
    assert s[12 + n..] == body;
  }

  /** A reply made of an `OPTIMIZED <word>:` line and a one-line rewrite of
      more than 20 characters yields exactly that rewrite. */
  lemma {:induction false} OptimizedHeaderLine(w: string, body: string)
    requires |w| > 0 && forall i :: 0 <= i < |w| ==> IsWordChar(w[i])
    requires '\n' !in body && '*' !in body && |body| > 20
    requires body[0] !in Whitespace + QuotesAndBlanks + {':'}
    requires body[|body| - 1] !in Whitespace + QuotesAndBlanks
    ensures OptimizedContent("OPTIMIZED " + w + ":\n" + body) == body
  {
    var s := "OPTIMIZED " + w + ":\n" + body;
    var c := 12 + |w|;
    OptimizedHeaderStart(w, body);
    forall i | c <= i < |s| ensures s[i] != '\n' {
      assert s[i] == s[c..][i - c];
    }
    FirstStopNoNewline(s, c, PlainStops);
    var pat := ContentPatterns[0];
    assert pat == ContentPattern(OptimizedWord(false), PlainStops);
    assert CaptureStart(s, pat.head, 0) == Some(c);
    assert FirstStop(s, c, pat.stops) == |s|;
    assert s[c..|s|] == body;
    assert MatchAt(s, pat, 0) == Some(body);
    CleanContentOfPlain(body);
    assert PatternText(s, pat) == Some(body);
  }

  /** A search that succeeds returns the capture of a match starting at or
      after `p`, and none starts between `p` and it. */
  lemma SearchWitness(s: string, pat: ContentPattern, p: nat) returns (q: nat)
    requires p <= |s| && Search(s, pat, p).Some?
    ensures p <= q <= |s| && MatchAt(s, pat, q) == Search(s, pat, p)
    ensures forall k :: p <= k < q ==> MatchAt(s, pat, k).None?
  {
    var m := Matcher(s, pat);
    q := FirstFromWitness(m, p, |s|);
    assert m(q) == MatchAt(s, pat, q);
    forall k | p <= k < q ensures MatchAt(s, pat, k).None? {
      assert m(k) == MatchAt(s, pat, k);
    }
  }

  /** The search finds nothing when no position matches. */
  lemma NoMatchNoSearch(s: string, pat: ContentPattern, p: nat)
    requires p <= |s|
    requires forall q :: p <= q <= |s| ==> MatchAt(s, pat, q).None?
    ensures Search(s, pat, p).None?
  {
    var m := Matcher(s, pat);
    forall k | p <= k <= |s| ensures m(k).None? {
      assert m(k) == MatchAt(s, pat, k);
    }
    FirstFromNone(m, p, |s|);
  }

  /** A header that begins with `**` or with a letter. */
  predicate LetterLed(h: Header) {
    h.Label? ==> |h.name| > 0 && IsLetter(h.name[0])
  }

  /** A header needs a letter or a `*` where it starts. */
  lemma NoHeaderWithoutLetters(s: string, pat: ContentPattern)
    requires forall i :: 0 <= i < |s| ==> !IsLetter(s[i]) && s[i] != '*'
    requires LetterLed(pat.head)
    ensures Search(s, pat, 0).None?
  {
    forall q | 0 <= q <= |s| ensures MatchAt(s, pat, q).None? {
      NoHeaderAt(s, pat, q);
    }
    NoMatchNoSearch(s, pat, 0);
  }

  /** The same at one position. */
  lemma NoHeaderAt(s: string, pat: ContentPattern, q: nat)
    requires forall i :: 0 <= i < |s| ==> !IsLetter(s[i]) && s[i] != '*'
    requires LetterLed(pat.head) && q <= |s|
    ensures MatchAt(s, pat, q).None?
  {
    NoCaptureStartAt(s, pat.head, q);
  }

  /** A header cannot start at a character that is neither a letter nor
      `*`. */
  lemma NoCaptureStartAt(s: string, h: Header, q: nat)
    requires q <= |s| && (q < |s| ==> !IsLetter(s[q]) && s[q] != '*')
    requires LetterLed(h)
    ensures CaptureStart(s, h, q).None?
  {
    if h.bold {
      if q + 2 <= |s| {
        assert s[q..q + 2][0] == s[q];
      }
    } else if h.OptimizedWord? {
      NoLetterNoLiteral(s, q, "OPTIMIZED");
    } else {
      NoLetterNoLiteral(s, q, h.name);
    }
  }

  /** A literal that starts with a letter does not occur, in any case, at a
      character that is not a letter. */
  lemma NoLetterNoLiteral(s: string, q: nat, lit: string)
    requires q <= |s| && (q < |s| ==> !IsLetter(s[q]))
    requires |lit| > 0 && IsLetter(lit[0])
    ensures !LitAtCi(s, q, lit)
  {
    if q + |lit| <= |s| {
      assert Lower(s[q..q + |lit|])[0] == LowerChar(s[q]);
    }
  }

  lemma ContentHeadersLetterLed()
    ensures forall i :: 0 <= i < |ContentPatterns| ==> LetterLed(ContentPatterns[i].head)
  {
    assert "IMPROVED VERSION"[0] == 'I' && "REWRITTEN"[0] == 'R';
    assert "ENHANCED"[0] == 'E' && "FINAL VERSION"[0] == 'F';
  }

  /** No pattern matches a text without letters and `*`. */
  lemma NoPatternWithoutLetters(s: string)
    requires forall i :: 0 <= i < |s| ==> !IsLetter(s[i]) && s[i] != '*'
    ensures PatternContent(s, ContentPatterns).None?
  {
    ContentHeadersLetterLed();
    forall i | 0 <= i < |ContentPatterns| ensures PatternText(s, ContentPatterns[i]).None? {
      NoHeaderWithoutLetters(s, ContentPatterns[i]);
    }
  }

  /** A long run of quotes passes the paragraph test. */
  lemma QuotesAreSubstantial(s: string)
    requires |s| > 50 && forall i :: 0 <= i < |s| ==> s[i] == '"'
    ensures Substantial(StripWs(s))
  {
    QuotesStripped(s);
    QuotesSubstantial(s);
  }

  /** A run of quotes is already stripped. */
  lemma QuotesStripped(s: string)
    requires forall i :: 0 <= i < |s| ==> s[i] == '"'
    ensures StripWs(s) == s
  {
    StripOfStripped(s, Whitespace);
  }

  /** A long run of quotes is a substantial paragraph as it stands. */
  lemma QuotesSubstantial(s: string)
    requires |s| > 50 && forall i :: 0 <= i < |s| ==> s[i] == '"'
    ensures Substantial(s)
  {
    QuotesNotUpper(s);
    QuotesLackHeadings(s);
    QuotesNotBold(s);
  }

  /** A run of quotes does not open with `**`. */
  lemma QuotesNotBold(s: string)
    requires |s| > 0 && s[0] == '"'
    ensures !StartsWith(s, "**")
  {
    if |s| >= 2 {
      assert s[..2][0] == '"';
    }
  }

  /** A run of quotes is not an upper-case text. */
  lemma QuotesNotUpper(s: string)
    requires |s| > 0 && forall i :: 0 <= i < |s| ==> s[i] == '"'
    ensures !IsUpperStr(s)
  {
    assert !IsUpperChar('"');
  }

  /** A run of quotes names no heading, in any case. */
  lemma QuotesLackHeadings(s: string)
    requires forall i :: 0 <= i < |s| ==> s[i] == '"'
    ensures !Contains(Upper(s), "IMPROVEMENTS") && !Contains(Upper(s), "KEYWORDS")
  {
    assert Upper(s) == s;
    NotContains(s, "IMPROVEMENTS");
    NotContains(s, "KEYWORDS");
  }

  /** A run of quotes cleans to nothing. */
  lemma QuotesCleanToNothing(s: string)
    requires forall i :: 0 <= i < |s| ==> s[i] == '"'
    ensures CleanContent(s) == []
  {
    assert StripWs(s) == s by {
      StripOfStripped(s, Whitespace);
    }
    assert RemoveEmphasis(s) == s by {
      StarFreePrefix(s, []);
      assert s + [] == s;
      UnwrapBoldKeeps(s);
      UnwrapItalicKeeps(s);
    }
    StripAllOf(s, QuotesAndBlanks);
  }

  /** The paragraph fallback tests the length before cleaning, so a long
      enough paragraph of quotes is accepted and cleans to the empty
      string, which is then returned as the optimized content. */
  lemma QuotesParagraphIsEmpty(n: nat)
    requires n > 50
    ensures OptimizedContent(seq(n, _ => '"')) == []
  {
    var s: string := seq(n, _ => '"');
    NoPatternWithoutLetters(s);
    SplitWithout(s, "\n\n");
    QuotesAreSubstantial(s);
    FirstParagraphIsFirst(Split(s, "\n\n"), 0);
    QuotesCleanToNothing(s);
  }

  /* ---------------- the alternatives ---------------- */

  /** `(?=\n\n|\n[A-Z][A-Z\s]*:|\n\*\*[A-Z]|$)` in either order. */
  const AltStops: seq<Stop> := [BlankLine, LetterHeader, BoldLetter, TextEndAnchor]

  /** The three patterns of `_extract_alternatives`, in order:
      `ALTERNATIVE[S]?`, `**ALTERNATIVE[S]?**` and `VERSION[S]?`. */
  const AlternativePatterns: seq<ContentPattern> := [
    ContentPattern(Label("ALTERNATIVE", true, false), AltStops),
    ContentPattern(Label("ALTERNATIVE", true, true), AltStops),
    ContentPattern(Label("VERSION", true, false), AltStops)]

  /** `(?:Version|Alternative)\s*\d+[:\.]?` at `p`, case-sensitive: where
      the separator ends. Neither greedy run can be given back usefully. */
  function VersionMarkAt(s: string, p: nat): (r: Option<nat>)
    requires p <= |s|
    ensures r.Some? ==> p < r.value <= |s|
  {
    var e := if LitAt(s, p, "Version") then p + 7 else if LitAt(s, p, "Alternative") then p + 11 else p;
    if e == p then None
    else
      var d := SkipSet(s, e, Whitespace);
      if d == |s| || !IsDigit(s[d]) then None
      else
        var f := DigitRunEnd(s, d);
        Some(if f < |s| && (s[f] == ':' || s[f] == '.') then f + 1 else f)
  }

  /** `re.split` on that separator, scanning from `p` with the current piece
      begun at `start`: the pieces between non-overlapping separators. */
  function SplitVersions(s: string, start: nat, p: nat): (r: seq<string>)
    requires start <= p <= |s|
    ensures |r| >= 1
    decreases |s| - p
  {
    if p == |s| then [s[start..]]
    else
      match VersionMarkAt(s, p)
      case Some(e) => [s[start..p]] + SplitVersions(s, e, e)
      case None => SplitVersions(s, start, p + 1)
  }

  /** A piece is kept when its stripped text is longer than 20 characters. */
  predicate Kept(piece: string) {
    |StripWs(piece)| > 20
  }

  /** The kept pieces, stripped and without emphasis, in order. */
  function KeptPieces(pieces: seq<string>): seq<string>
    decreases |pieces|
  {
    if pieces == [] then []
    else
      var last := pieces[|pieces| - 1];
      KeptPieces(pieces[..|pieces| - 1]) + if Kept(last) then [RemoveEmphasis(StripWs(last))] else []
  }

  /** Nothing is kept exactly when no piece is long enough, and each kept
      item is the stripped, unemphasised text of a long enough piece. */
  lemma {:induction false} KeptPiecesSource(pieces: seq<string>)
    ensures var r := KeptPieces(pieces);
            |r| <= |pieces| &&
            (r == [] <==> forall i :: 0 <= i < |pieces| ==> !Kept(pieces[i])) &&
            forall k :: 0 <= k < |r| ==>
              exists i :: 0 <= i < |pieces| && Kept(pieces[i]) && r[k] == RemoveEmphasis(StripWs(pieces[i]))
    decreases |pieces|
  {
    if pieces != [] {
      var n := |pieces| - 1;
      var init := pieces[..n];
      KeptPiecesSource(init);
      var r := KeptPieces(pieces);
      var r0 := KeptPieces(init);
      assert r == r0 + if Kept(pieces[n]) then [RemoveEmphasis(StripWs(pieces[n]))] else [];
      forall k | 0 <= k < |r|
        ensures exists i :: 0 <= i < |pieces| && Kept(pieces[i]) && r[k] == RemoveEmphasis(StripWs(pieces[i]))
      {
        if k < |r0| {
          var i :| 0 <= i < |init| && Kept(init[i]) && r0[k] == RemoveEmphasis(StripWs(init[i]));
          assert init[i] == pieces[i] && r[k] == r0[k];
        } else {
          assert r[k] == RemoveEmphasis(StripWs(pieces[n]));
        }
      }
      if r == [] {
        forall i | 0 <= i < |pieces| ensures !Kept(pieces[i]) {
          if i < n {
            assert init[i] == pieces[i];
          }
        }
      }
    }
  }

  /** The kept pieces of one more piece. */
  lemma KeptPiecesSnoc(pieces: seq<string>, j: nat)
    requires j < |pieces|
    ensures KeptPieces(pieces[..j + 1]) ==
      KeptPieces(pieces[..j]) + if Kept(pieces[j]) then [RemoveEmphasis(StripWs(pieces[j]))] else []
  {
    assert pieces[..j + 1][..j] == pieces[..j];
    assert pieces[..j + 1][j] == pieces[j];
  }

  /** What one pattern yields: the kept pieces of its split capture. */
  function PatternAlternatives(s: string, pat: ContentPattern): seq<string> {
    match Search(s, pat, 0)
    case None => []
    case Some(c) => KeptPieces(SplitVersions(c, 0, 0))
  }

  /** What one pattern yields, when it yields anything. */
  function PatternYield(s: string, pat: ContentPattern): (r: Option<seq<string>>)
    ensures r.Some? <==> PatternAlternatives(s, pat) != []
  {
    var alts := PatternAlternatives(s, pat);
    if alts == [] then None else Some(alts)
  }

  /** What each pattern yields, in order. */
  function PatternYields(s: string, pats: seq<ContentPattern>): seq<Option<seq<string>>> {
    seq(|pats|, i requires 0 <= i < |pats| => PatternYield(s, pats[i]))
  }

  /** The yield of the first pattern that yields anything. */
  function AlternativesFrom(s: string, pats: seq<ContentPattern>): seq<string> {
    match FirstSome(PatternYields(s, pats))
    case None => []
    case Some(alts) => alts
  }

  /** The first pattern that yields anything decides. */
  lemma AlternativesFromIsFirst(s: string, pats: seq<ContentPattern>, i: nat)
    requires i < |pats| && PatternAlternatives(s, pats[i]) != []
    requires forall j :: 0 <= j < i ==> PatternYield(s, pats[j]).None?
    ensures AlternativesFrom(s, pats) == PatternAlternatives(s, pats[i])
  {
    var ys := PatternYields(s, pats);
    forall j | 0 <= j < i ensures ys[j].None? {
      assert ys[j] == PatternYield(s, pats[j]);
    }
    assert ys[i] == PatternYield(s, pats[i]);
    FirstSomeIsFirst(ys, i);
  }

  /** One pattern tried after every earlier one yielded nothing: either it
      decides, or one more pattern is known to yield nothing. */
  lemma AlternativesStep(s: string, pats: seq<ContentPattern>, i: nat, cleaned: seq<string>)
    requires i < |pats| && cleaned == PatternAlternatives(s, pats[i])
    requires forall j :: 0 <= j < i ==> PatternYield(s, pats[j]).None?
    ensures cleaned != [] ==> AlternativesFrom(s, pats) == cleaned
    ensures cleaned == [] ==> forall j :: 0 <= j <= i ==> PatternYield(s, pats[j]).None?
  {
    if cleaned != [] {
      AlternativesFromIsFirst(s, pats, i);
    }
  }

  /** When no pattern yields anything, nothing is found. */
  lemma AlternativesFromNone(s: string, pats: seq<ContentPattern>)
    requires forall j :: 0 <= j < |pats| ==> PatternYield(s, pats[j]).None?
    ensures AlternativesFrom(s, pats) == []
  {
    var ys := PatternYields(s, pats);
    forall j | 0 <= j < |pats| ensures ys[j].None? {
      assert ys[j] == PatternYield(s, pats[j]);
    }
  }

  const AlternativesPlaceholder: seq<string> := ["Alternative versions available in detailed explanation"]

  /** `_extract_alternatives(text)`: never empty. */
  function Alternatives(text: string): (r: seq<string>)
    ensures |r| >= 1
  {
    var found := AlternativesFrom(text, AlternativePatterns);
    if found == [] then AlternativesPlaceholder else found
  }

  /** The inner loop of `_extract_alternatives`: strip each piece and keep
      the long enough ones without emphasis. */
  method KeepPieces(pieces: seq<string>) returns (cleaned: seq<string>)
    ensures cleaned == KeptPieces(pieces)
  {
    cleaned := [];
    var j := 0;
    while j < |pieces|
      invariant 0 <= j <= |pieces|
      invariant cleaned == KeptPieces(pieces[..j])
    {
      KeptPiecesSnoc(pieces, j);
      var alt := StripWs(pieces[j]);
      if |alt| > 20 {
        cleaned := cleaned + [RemoveEmphasis(alt)];
      }
      j := j + 1;
    }
    assert pieces[..j] == pieces;
  }

  /** The outer loop of `_extract_alternatives`: the first pattern whose
      capture keeps anything wins. */
  method FindAlternatives(text: string, pats: seq<ContentPattern>) returns (found: seq<string>)
    ensures found == AlternativesFrom(text, pats)
  {
    var i := 0;
    while i < |pats|
      invariant 0 <= i <= |pats|
      invariant forall j :: 0 <= j < i ==> PatternYield(text, pats[j]).None?
    {
      var cleaned := TryAlternatives(text, pats[i]);
      AlternativesStep(text, pats, i, cleaned);
      if cleaned != [] {
        return cleaned;
      }
      i := i + 1;
    }
    AlternativesFromNone(text, pats);
    found := [];
  }

  /** One pass of the outer loop: search with one pattern and keep the long
      enough pieces of its capture. */
  method TryAlternatives(text: string, pat: ContentPattern) returns (cleaned: seq<string>)
    ensures cleaned == PatternAlternatives(text, pat)
  {
    var m := Search(text, pat, 0);
    if m.Some? {
      cleaned := KeepPieces(SplitVersions(m.value, 0, 0));
    } else {
      cleaned := [];
    }
  }

  /** `_extract_alternatives(text)`: the placeholder when no pattern outcomes. */
  method ExtractAlternatives(text: string) returns (r: seq<string>)
    ensures r == Alternatives(text)
  {
    r := FindAlternatives(text, AlternativePatterns);
    if r == [] {
      r := AlternativesPlaceholder;
    }
  }

  /** A separator starts with `V` or `A`. */
  lemma MarkNeedsCapital(s: string, p: nat)
    requires p <= |s|
    requires p < |s| ==> s[p] != 'V' && s[p] != 'A'
    ensures VersionMarkAt(s, p).None?
  {
    if p + 7 <= |s| {
      assert s[p..p + 7][0] == s[p];
    }
    if p + 11 <= |s| {
      assert s[p..p + 11][0] == s[p];
    }
  }

  /** No separator starts where there is no `V` or `A`. */
  lemma NoCapitalNoMark(s: string, p: nat, q: nat)
    requires p <= q <= |s|
    requires forall i :: p <= i < q ==> s[i] != 'V' && s[i] != 'A'
    ensures forall i :: p <= i < q ==> VersionMarkAt(s, i).None?
  {
    forall i | p <= i < q ensures VersionMarkAt(s, i).None? {
      MarkNeedsCapital(s, i);
    }
  }

  /** Positions where no separator starts do not end a piece. */
  lemma {:induction false} SplitSkips(s: string, start: nat, p: nat, q: nat)
    requires start <= p <= q <= |s|
    requires forall i :: p <= i < q ==> VersionMarkAt(s, i).None?
    ensures SplitVersions(s, start, p) == SplitVersions(s, start, q)
    decreases q - p
  {
    if p < q {
      SplitSkip(s, start, p);
      SplitSkips(s, start, p + 1, q);
    }
  }

  /** One position where no separator starts. */
  lemma SplitSkip(s: string, start: nat, p: nat)
    requires start <= p < |s| && VersionMarkAt(s, p).None?
    ensures SplitVersions(s, start, p) == SplitVersions(s, start, p + 1)
  {
  }

  /** `Version <digit>:` at `q` is a separator ending right after the colon. */
  lemma VersionMark(s: string, q: nat, d: char)
    requires IsDigit(d)
    requires q + 10 <= |s| && s[q..q + 10] == "Version " + [d] + ":"
    ensures VersionMarkAt(s, q) == Some(q + 10)
  {
    assert s[q..q + 7] == s[q..q + 10][..7];
    assert s[q + 7] == ' ' && s[q + 8] == d && s[q + 9] == ':';
    SkipSetRun(s, q + 7, 1, Whitespace);
    assert DigitRunEnd(s, q + 8) == q + 9;
  }

  /** A block where no separator starts after `start` is a single piece. */
  lemma SplitWithoutMarks(s: string, start: nat)
    requires start <= |s|
    requires forall i :: start <= i < |s| ==> VersionMarkAt(s, i).None?
    ensures SplitVersions(s, start, start) == [s[start..]]
  {
    SplitSkips(s, start, start, |s|);
  }

  /** A captured block in which no separator starts is kept whole when long
      enough. */
  lemma SingleAlternative(c: string)
    requires forall i :: 0 <= i < |c| ==> VersionMarkAt(c, i).None?
    requires Kept(c)
    ensures KeptPieces(SplitVersions(c, 0, 0)) == [RemoveEmphasis(StripWs(c))]
  {
    SplitWithoutMarks(c, 0);
    assert c[0..] == c;
  }

  /** The text `Version 1: a Version 2: b`. */
  function TwoVersionText(a: string, b: string): string {
    "Version 1: " + a + " Version 2: " + b
  }

  /** Where the characters of `TwoVersionText(a, b)` come from. */
  lemma TwoVersionLayout(a: string, b: string)
    ensures var s := TwoVersionText(a, b); var m := 12 + |a|;
            |s| == m + 11 + |b| &&
            s[0..10] == "Version " + ['1'] + ":" && s[10] == ' ' &&
            s[m..m + 10] == "Version " + ['2'] + ":" && s[m + 10] == ' ' &&
            s[11..11 + |a|] == a && s[11 + |a|] == ' ' && s[m + 11..] == b
  {
  }

  /** After the second separator the text is one piece. */
  lemma TwoVersionsLast(a: string, b: string)
    requires forall i :: 0 <= i < |b| ==> b[i] != 'V' && b[i] != 'A'
    ensures var s := TwoVersionText(a, b); var m := 12 + |a|;
            m + 10 <= |s| && SplitVersions(s, m + 10, m + 10) == [s[m + 10..]]
  {
    var s := TwoVersionText(a, b);
    var m := 12 + |a|;
    TwoVersionLayout(a, b);
    forall i | m + 10 <= i < |s| ensures s[i] != 'V' && s[i] != 'A' {
      if m + 11 <= i {
        assert s[i] == s[m + 11..][i - (m + 11)];
      }
    }
    NoCapitalNoMark(s, m + 10, |s|);
    SplitWithoutMarks(s, m + 10);
  }

  /** After the first separator come the piece holding `a` and the rest. */
  lemma TwoVersionsMiddle(a: string, b: string)
    requires forall i :: 0 <= i < |a| ==> a[i] != 'V' && a[i] != 'A'
    requires forall i :: 0 <= i < |b| ==> b[i] != 'V' && b[i] != 'A'
    ensures var s := TwoVersionText(a, b); var m := 12 + |a|;
            m + 10 <= |s| && SplitVersions(s, 10, 10) == [s[10..m], s[m + 10..]]
  {
    var s := TwoVersionText(a, b);
    var m := 12 + |a|;
    TwoVersionLayout(a, b);
    forall i | 10 <= i < m ensures s[i] != 'V' && s[i] != 'A' {
      if 11 <= i < 11 + |a| {
        assert s[i] == s[11..11 + |a|][i - 11];
      }
    }
    NoCapitalNoMark(s, 10, m);
    SplitSkips(s, 10, 10, m);
    VersionMark(s, m, '2');
    TwoVersionsLast(a, b);
  }

  /** `Version 1: a Version 2: b` splits at its two separators. */
  lemma TwoVersionsSplit(a: string, b: string)
    requires forall i :: 0 <= i < |a| ==> a[i] != 'V' && a[i] != 'A'
    requires forall i :: 0 <= i < |b| ==> b[i] != 'V' && b[i] != 'A'
    ensures SplitVersions(TwoVersionText(a, b), 0, 0) == [[], " " + a + " ", " " + b]
  {
    var s := TwoVersionText(a, b);
    TwoVersionLayout(a, b);
    VersionMark(s, 0, '1');
    TwoVersionsMiddle(a, b);
    TwoVersionPieces(a, b);
    assert s[0..0] == [];
  }

  /** The two pieces between and after the separators. */
  lemma TwoVersionPieces(a: string, b: string)
    ensures var s := TwoVersionText(a, b); var m := 12 + |a|;
            m + 10 <= |s| && s[10..m] == " " + a + " " && s[m + 10..] == " " + b
  {
    var s := TwoVersionText(a, b);
    assert s == "Version 1:" + (" " + a + " ") + "Version 2:" + (" " + b);
  }

  /** `Version 1: a Version 2: b` yields `a` and `b` without emphasis when
      both are longer than 20 characters and neither starts or ends with
      white space. */
  lemma {:induction false} TwoVersions(a: string, b: string)
    requires forall i :: 0 <= i < |a| ==> a[i] != 'V' && a[i] != 'A'
    requires forall i :: 0 <= i < |b| ==> b[i] != 'V' && b[i] != 'A'
    requires |a| > 20 && a[0] !in Whitespace && a[|a| - 1] !in Whitespace
    requires |b| > 20 && b[0] !in Whitespace && b[|b| - 1] !in Whitespace
    ensures KeptPieces(SplitVersions(TwoVersionText(a, b), 0, 0)) == [RemoveEmphasis(a), RemoveEmphasis(b)]
  {
    TwoVersionsSplit(a, b);
    var pieces: seq<string> := [[], " " + a + " ", " " + b];
    StripOfPadded(" ", a, " ", Whitespace);
    StripOfPadded(" ", b, [], Whitespace);
    assert " " + b + [] == " " + b;
    var empty: seq<string> := [[]];
    assert empty[..0] == [];
    assert !Kept([]);
    assert KeptPieces(empty) == [];
    assert pieces[..2] == [[], " " + a + " "] && pieces[..2][..1] == empty;
    assert KeptPieces(pieces[..2]) == [RemoveEmphasis(a)];
  }

  /** `ALTERNATIVES: ` followed by a one-line block: the first pattern
      matches at the start and captures the whole block. */
  lemma AlternativesHeaderCapture(c: string)
    requires '\n' !in c && (c != [] ==> c[0] !in WsColon)
    ensures Search("ALTERNATIVES: " + c, AlternativePatterns[0], 0) == Some(c)
  {
    var s := "ALTERNATIVES: " + c;
    var pat := AlternativePatterns[0];
    assert pat == ContentPattern(Label("ALTERNATIVE", true, false), AltStops);
    assert s[..11] == "ALTERNATIVE";
    assert LitAtCi(s, 0, "ALTERNATIVE");
    assert s[11] == 'S' && s[12] == ':' && s[13] == ' ';
    assert LabelEnd(s, "ALTERNATIVE", true, 0) == Some(12);
    assert |s| == 14 || s[14] == c[0];
    assert ':' in WsColon && ' ' in WsColon;
    SkipSetRun(s, 12, 2, WsColon);
    assert CaptureStart(s, pat.head, 0) == Some(14);
    forall i | 14 <= i < |s| ensures s[i] != '\n' {
      assert s[i] == c[i - 14];
    }
    FirstStopNoNewline(s, 14, AltStops);
    assert s[14..|s|] == c;
    assert MatchAt(s, pat, 0) == Some(c);
    assert Matcher(s, pat)(0) == Some(c);
  }

  /** When that block yields pieces, they are the alternatives of the
      reply. */
  lemma AlternativesOfHeader(c: string)
    requires '\n' !in c && (c != [] ==> c[0] !in WsColon)
    requires KeptPieces(SplitVersions(c, 0, 0)) != []
    ensures Alternatives("ALTERNATIVES: " + c) == KeptPieces(SplitVersions(c, 0, 0))
  {
    var s := "ALTERNATIVES: " + c;
    AlternativesHeaderCapture(c);
    assert PatternAlternatives(s, AlternativePatterns[0]) == KeptPieces(SplitVersions(c, 0, 0));
    AlternativesFromIsFirst(s, AlternativePatterns, 0);
  }

  /** A reply headed `ALTERNATIVES:` whose one line holds `Version 1: a
      Version 2: b` gives exactly `a` and `b`, without emphasis. */
  lemma TwoVersionsReply(a: string, b: string)
    requires forall i :: 0 <= i < |a| ==> a[i] != 'V' && a[i] != 'A'
    requires forall i :: 0 <= i < |b| ==> b[i] != 'V' && b[i] != 'A'
    requires '\n' !in a && '\n' !in b
    requires |a| > 20 && a[0] !in Whitespace && a[|a| - 1] !in Whitespace
    requires |b| > 20 && b[0] !in Whitespace && b[|b| - 1] !in Whitespace
    ensures Alternatives("ALTERNATIVES: " + TwoVersionText(a, b)) == [RemoveEmphasis(a), RemoveEmphasis(b)]
  {
    TwoVersions(a, b);
    TwoVersionTextOneLine(a, b);
    AlternativesOfHeader(TwoVersionText(a, b));
  }

  /** `Version 1: a Version 2: b` is one line when `a` and `b` are. */
  lemma TwoVersionTextOneLine(a: string, b: string)
    requires '\n' !in a && '\n' !in b
    ensures '\n' !in TwoVersionText(a, b) && TwoVersionText(a, b)[0] == 'V'
  {
    assert TwoVersionText(a, b) == "Version 1:" + (" " + a + " ") + "Version 2:" + (" " + b);
  }

  /** A reply headed `ALTERNATIVES:` whose one line holds no separator gives
      that line, stripped and without emphasis, as its only alternative. */
  lemma SingleAlternativeReply(c: string)
    requires '\n' !in c && (c != [] ==> c[0] !in WsColon)
    requires forall i :: 0 <= i < |c| ==> VersionMarkAt(c, i).None?
    requires Kept(c)
    ensures Alternatives("ALTERNATIVES: " + c) == [RemoveEmphasis(StripWs(c))]
  {
    SingleAlternative(c);
    AlternativesOfHeader(c);
  }

  /** A reply without letters and `*` gets the placeholder alternative. */
  lemma AlternativesWithoutLetters(s: string)
    requires forall i :: 0 <= i < |s| ==> !IsLetter(s[i]) && s[i] != '*'
    ensures Alternatives(s) == AlternativesPlaceholder
  {
    assert "ALTERNATIVE"[0] == 'A' && "VERSION"[0] == 'V';
    forall i | 0 <= i < |AlternativePatterns| ensures PatternYield(s, AlternativePatterns[i]).None? {
      NoHeaderWithoutLetters(s, AlternativePatterns[i]);
    }
    AlternativesFromNone(s, AlternativePatterns);
  }
}
