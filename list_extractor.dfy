/** `LinkedInOptimizerAgent._extract_list_items` (agents.py:570-728) as a
    whole: locate the section, read its items, clean them, keep at most ten,
    and fall back to canned items when none survives. */
module ListExtractor {
  import opened Text
  import opened SectionLocator
  import opened ItemExtractor

  /** The cap on the number of items returned. */
  const MaxItems: nat := 10

  /** The cleaned items a reply yields for a keyword, before the cap. */
  function CleanedFor(text: string, kw: string): (r: seq<string>)
    ensures forall k :: 0 <= k < |r| ==> Tidy(r[k])
  {
    var items := SectionItems(SectionText(text, Variations(kw)));
    CleanedShape(items);
    Cleaned(items)
  }

  /** The first ten cleaned items, or the fallback when there are none. */
  function Capped(cleaned: seq<string>, kw: string): seq<string> {
    if cleaned != [] then cleaned[..if |cleaned| < MaxItems then |cleaned| else MaxItems]
    else FallbackItems(kw)
  }

  /** `_extract_list_items(text, keyword)` */
  function ListItems(text: string, kw: string): seq<string> {
    Capped(CleanedFor(text, kw), kw)
  }

  /** The four stages in sequence. */
  method ExtractListItems(text: string, kw: string) returns (r: seq<string>)
    ensures r == ListItems(text, kw)
  {
    var vars := Variations(kw);
    var section := LocateSection(text, vars);
    var items := ExtractItems(section);
    var cleaned := CleanItems(items);
    r := CapItems(cleaned, kw);
  }

  /** The last stage: the cap, or the fallback. */
  method CapItems(cleaned: seq<string>, kw: string) returns (r: seq<string>)
    ensures r == Capped(cleaned, kw)
  {
    if cleaned != [] {
      r := cleaned[..if |cleaned| < MaxItems then |cleaned| else MaxItems];
    } else {
      r := FallbackItems(kw);
    }
  }

  /** The result is never empty and holds at most ten items; with nothing
      extracted it is the fallback for the keyword. */
  lemma ListItemsBounds(text: string, kw: string)
    ensures 1 <= |ListItems(text, kw)| <= MaxItems
    ensures CleanedFor(text, kw) == [] ==> ListItems(text, kw) == FallbackItems(kw)
  {
    FallbackSize(kw);
  }

  /** The cap keeps the first items, in order, and no more than ten. */
  lemma CappedPrefix(cleaned: seq<string>, kw: string)
    requires cleaned != []
    requires forall k :: 0 <= k < |cleaned| ==> Tidy(cleaned[k])
    ensures var r := Capped(cleaned, kw);
            |r| == (if |cleaned| < MaxItems then |cleaned| else MaxItems) &&
            r == cleaned[..|r|] &&
            forall k :: 0 <= k < |r| ==> Tidy(r[k])
  {
  }

  /** On the extracted path the result is the first cleaned items in order,
      each longer than 8, not starting with "detailed" and free of
      ` -•*:→▪◦` at both ends. */
  lemma ListItemsExtracted(text: string, kw: string)
    requires CleanedFor(text, kw) != []
    ensures var r := ListItems(text, kw);
            var cleaned := CleanedFor(text, kw);
            |r| == (if |cleaned| < MaxItems then |cleaned| else MaxItems) &&
            r == cleaned[..|r|] &&
            forall k :: 0 <= k < |r| ==> Tidy(r[k])
  {
    CappedPrefix(CleanedFor(text, kw), kw);
  }

  /** The keywords the response parsers pass (agents.py:505-548). */
  const CallerKeywords: seq<string> := [
    "strengths", "weaknesses", "recommendations", "keywords",
    "missing skills", "competitive advantages", "improvement recommendations", "application tips",
    "key improvements", "keywords added",
    "growth opportunities", "priority skills", "learning resources", "networking strategy",
    "market trends", "action plan"]

  /** Only the six variations are searched for `kw`, and an empty
      extraction gives the three templated sentences. */
  predicate MissesTables(kw: string) {
    |Variations(kw)| == 6 && FallbackItems(kw) == GenericFallback(kw)
  }

  /** Already lower case, and a key of neither the alias table nor the
      fallback table. */
  predicate PlainKeyword(kw: string) {
    (forall i :: 0 <= i < |kw| ==> !IsUpperChar(kw[i])) && kw !in FallbackKeys && Aliases(kw) == []
  }

  lemma MissesTablesOf(kw: string)
    requires PlainKeyword(kw)
    ensures MissesTables(kw)
  {
    LowerOfLowerCase(kw);
    FallbackKeysAre();
  }

  lemma CallerKeywordsPlain0()
    ensures PlainKeyword(CallerKeywords[0]) && PlainKeyword(CallerKeywords[1])
  {
  }

  lemma CallerKeywordsPlain1()
    ensures PlainKeyword(CallerKeywords[2]) && PlainKeyword(CallerKeywords[3])
  {
  }

  lemma CallerKeywordsPlain2()
    ensures PlainKeyword(CallerKeywords[4]) && PlainKeyword(CallerKeywords[5])
  {
  }

  lemma CallerKeywordsPlain3()
    ensures PlainKeyword(CallerKeywords[6]) && PlainKeyword(CallerKeywords[7])
  {
  }

  lemma CallerKeywordsPlain4()
    ensures PlainKeyword(CallerKeywords[8]) && PlainKeyword(CallerKeywords[9])
  {
  }

  lemma CallerKeywordsPlain5()
    ensures PlainKeyword(CallerKeywords[10]) && PlainKeyword(CallerKeywords[11])
  {
  }

  lemma CallerKeywordsPlain6()
    ensures PlainKeyword(CallerKeywords[12]) && PlainKeyword(CallerKeywords[13])
  {
  }

  lemma CallerKeywordsPlain7()
    ensures PlainKeyword(CallerKeywords[14]) && PlainKeyword(CallerKeywords[15])
  {
  }

  lemma CallerKeywordsPlain()
    ensures forall k :: 0 <= k < |CallerKeywords| ==> PlainKeyword(CallerKeywords[k])
  {
    CallerKeywordsPlain0();
    CallerKeywordsPlain1();
    CallerKeywordsPlain2();
    CallerKeywordsPlain3();
    CallerKeywordsPlain4();
    CallerKeywordsPlain5();
    CallerKeywordsPlain6();
    CallerKeywordsPlain7();
  }

  /** No keyword the response parsers pass reaches the alias table or the
      keyed fallback table: for them the aliases and the four canned items
      per key are never used. */
  lemma CallerKeywordsMissTables()
    ensures forall k :: 0 <= k < |CallerKeywords| ==> MissesTables(CallerKeywords[k])
  {
    CallerKeywordsPlain();
    forall k | 0 <= k < |CallerKeywords| ensures MissesTables(CallerKeywords[k]) {
      MissesTablesOf(CallerKeywords[k]);
    }
  }
}
