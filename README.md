# LinkedIn profile optimizer: a Dafny model of its parsing core

The system analyses a LinkedIn profile with the help of a large language
model. It takes a profile, either scraped from a LinkedIn URL or mocked,
and sends it to the model in a prompt. It then turns the model's free-text
reply into structured results: an analysis of the profile, a job fit, an
optimised section and career guidance. When a reply is unusable, it builds
an analysis from the profile itself.

This project models the deterministic part of that pipeline and proves
properties of it:

- `LinkedInOptimizerAgent` in `agents.py`:
  - the score extractor, with its four patterns and the clamp;
  - the list extractor: keyword variations, the section-pattern cascade, the line-scan fallback, item patterns, cleaning, the cap of ten and the canned fallback lists;
  - the optimised-content and alternatives extractors;
  - profile completeness, the experience level, the profile formatters and the section lookup;
  - the four response builders;
  - the check `analyze_profile` makes on the parsed strengths;
  - the profile-based fallback analysis.
- `ProfileAnalysisAgent.run` in `agents/profile_agent.py`:
  - its regex parser `parse_analysis_response`;
  - the choice between the parsed record, the raw reply and the apology message.
- `DirectLinkedInScraper` in `linkedin_scraper.py`: the URL check, the mapping of the scraper's fields to the agents' schema, and the branches of `scrape_profile`.
- `AppConfig` in `config.py`: the provider table, the availability map and the choice of the best provider.

The model's reply, the provider's API keys and the scraper's answer are
inputs. A reply is a `string`. A call that may fail is a `Result`, and the
scraper is a function parameter. Python's regular expressions are written
out as explicit scans that follow `re.search`:

- start positions are tried from left to right;
- at each start the first successful path wins;
- greedy quantifiers take as much as they can and lazy ones as little;
- lookahead stops are predicates at one position.

Case mapping, `isupper`, white space, the regex classes `\d` and `\w`, and
`int()` of a run of digits follow the ASCII subset of Python's rules.

Modules:

- `Wrappers`: `Option` and `Result`.
- `Text`: `strip`, `split`, `join`, `lower`, `upper`, `capitalize`, `title`, `isupper`, `str(int)`.
- `Emphasis`: the `**bold**` and `*italic*` substitutions.
- `Patterns`: shared regex pieces.
- `ScoreExtractor`.
- `SectionLocator`.
- `ItemExtractor`.
- `ListExtractor`.
- `ContentExtractor`.
- `ProfileData` and `Reports`: the profile dictionary and the result records.
- `ProfileRules`.
- `FallbackAnalysis`.
- `OptimizerAgent`.
- `ProfileAnalysisAgent`.
- `LinkedInScraper`.
- `Config`.

Where a method models a Python loop, its `ensures` ties the result to a
specification function. The properties are proved about that function.

### Where the code and its description differ

In each case below, the model follows the code.

- **A bold section header gives one item, not two.** For a header followed
  by `**` and then two bullet lines, the first section pattern captures only
  up to the end of the first line. Under `re.MULTILINE`, `$` matches before
  every newline. `SectionLocator.HeaderThenBoldOneLine` proves that this
  capture never holds a newline.
- **`Headline: 70` scores 75, not 70.** None of the four score patterns
  matches a bare `label: number`, so the default applies. See
  `ScoreExtractor.BareLabelScore`.
- **The cascade stops at the first match, even if it is empty.** The loop
  breaks on the first pattern that matches, even when its capture strips to
  nothing. Only then does the line scan run. This is not "the first
  non-empty capture". Patterns 3 to 6 of each variation are never reached
  (`SectionLocator.BlockDecidedByFirstTwo`).
- **The markdown-header pattern needs the text `#1, 3`.** The fourth
  section pattern is an rf-string, and in it `{1,3}` is a replacement field,
  not a repetition. Python puts the text of the tuple `(1, 3)` there, so
  the compiled pattern starts with `#(1, 3)`. A header such as `## Skills`
  does not match it (`SectionLocator.MarkdownHeaderMissed`). When it does
  match, its group 1 is always `1, 3` (`SectionLocator.HashHeaderGroup`).
  The pattern is never reached anyway, since it also needs the variation.
- **`_format_education` formats every entry.** Only `_format_experience`
  keeps the first three.
- **A long run of quotes gives empty content.** The paragraph fallback of
  `_extract_optimized_content` tests a paragraph's length before cleaning
  it. A paragraph of more than fifty quote characters therefore yields the
  empty string (`ContentExtractor.QuotesParagraphIsEmpty`).

## Model

| member | source | states |
|---|---|---|
| ScoreExtractor.ExtractScore | agents.py:552-568 | The score is at most 100. It is 75 when no pattern matches. Otherwise it is the first pattern's number, clamped to 100. |
| ScoreExtractor.FirstCapture | agents.py:562-566 | There is no capture exactly when every pattern fails. A capture is a non-empty run of digits. |
| ScoreExtractor.FirstCaptureIsFirst | agents.py:562-566 | When pattern i is the first that matches, its capture is the one used. |
| ScoreExtractor.Search | agents.py:555-563 | A search that succeeds captures a non-empty run of digits. |
| ScoreExtractor.AbsentKeywordScore | agents.py:552-568 | A reply that never mentions the keyword, in any case, scores 75. |
| ScoreExtractor.OutOf100Score | agents.py:556 | `kw n/100` scores n, capped at 100. |
| ScoreExtractor.BareLabelScore | agents.py:555-568 | `Label: n` matches no pattern and scores 75. |
| SectionLocator.Variations | agents.py:576-597 | There are 6 to 10 variations. The first is the lower-cased keyword and the fourth the upper-cased one. The six special keywords add their three or four aliases, and other keywords add none. |
| SectionLocator.SectionPatterns | agents.py:599-614 | Each variation contributes six patterns. |
| SectionLocator.FirstMatch | agents.py:619-627 | The cascade yields nothing exactly when no pattern matches anywhere in the reply. |
| SectionLocator.HeaderThenTextIffOccurs | agents.py:605 | The second pattern matches exactly when the variation occurs in the reply, ignoring case. |
| SectionLocator.HeaderThenBoldOneLine | agents.py:603 | The bold-header capture never holds a newline. |
| SectionLocator.BlockDecidedByFirstTwo | agents.py:601-614 | For one variation, the six forms decide the same as the first two. |
| SectionLocator.LaterFormsUnreachable | agents.py:599-627 | The whole cascade decides the same as its live patterns alone. |
| SectionLocator.HashHeaderGroup | agents.py:609 | The fourth pattern matches only where the text `#1, 3` stands, and its group 1 is then `1, 3`. |
| SectionLocator.MarkdownHeaderMissed | agents.py:609 | A markdown header `## v` is not a match of the fourth pattern. |
| SectionLocator.RunCascade | agents.py:616-627 | The loop over the patterns returns the stripped capture of the first pattern that matches, or "". |
| SectionLocator.CollectLines | agents.py:649-660 | The look-ahead loop gathers the specified lines. It skips blank lines, stops at a header-like line and looks at most 20 lines. |
| SectionLocator.GatherLines | agents.py:637-660 | Collection starts after the keyword line. It starts one line later when the next line is `**`. |
| SectionLocator.RunLineScan | agents.py:633-665 | The scan returns the joined lines after the first keyword line that gathers any. |
| SectionLocator.LocateSection | agents.py:616-665 | The section is the cascade's text, or the line scan's when that text is empty. |
| SectionLocator.ScanShape | agents.py:633-665 | A scan result is empty, or it splits back into 1 to 20 non-empty lines, none of which looks like a header. |
| SectionLocator.CollectShape | agents.py:649-660 | Every gathered line is non-empty, holds no newline and does not look like a header. |
| ItemExtractor.ItemCapture | agents.py:672-679 | A bullet-pattern capture is a suffix of the line. |
| ItemExtractor.FirstItem | agents.py:689-696 | An item taken from a bullet pattern is longer than five characters. |
| ItemExtractor.MatchItem | agents.py:689-696 | The loop over the item patterns returns the first substantial capture. |
| ItemExtractor.FirstItemIsTail | agents.py:689-696 | On a stripped line, an item is a tail of the line. |
| ItemExtractor.LineItemShape | agents.py:683-703 | Lines shorter than 3 give nothing. Any item is longer than five characters. |
| ItemExtractor.ItemsOfLines | agents.py:681-703 | There is at most one item per line. |
| ItemExtractor.ItemsOfLinesLong | agents.py:693-703 | Every item is longer than five characters. |
| ItemExtractor.ExtractItems | agents.py:667-703 | The loop over the section's lines yields exactly the specified items. |
| ItemExtractor.Cleaned | agents.py:705-721 | Cleaning keeps at most as many items as it gets. Each kept item is longer than 8 characters and does not start with "detailed". |
| ItemExtractor.CleanItems | agents.py:705-721 | The cleaning loop yields exactly the specified cleaned list. |
| ItemExtractor.ColonBranchNeverTaken | agents.py:713-717 | The trailing-colon branch never changes an item, because the strip set already holds `:`. |
| ItemExtractor.CleanItemEnds | agents.py:713 | A cleaned item neither starts nor ends with a character of the strip set. |
| ItemExtractor.CleanedOnePerLine | agents.py:709-713 | After the bold removal and the strip, at most one `*` is left per line. |
| ItemExtractor.CleanItemIdempotent | agents.py:709-717 | Cleaning an item twice gives the same result as cleaning it once. |
| ItemExtractor.CleanedAppend | agents.py:705-721 | Cleaning distributes over concatenation, so items are judged one by one. |
| ItemExtractor.CleanedShape | agents.py:705-721 | Every cleaned item is tidy: longer than 8 characters, not starting with "detailed", and neither starting nor ending with a stripped character. |
| ItemExtractor.CannedItems | agents.py:732-769 | Each canned topic lists four items. |
| ItemExtractor.FallbackKeysAre | agents.py:732-769 | The canned table has exactly the six keys application, improvements, networking, opportunities, resources and action. |
| ItemExtractor.FallbackSize | agents.py:730-775 | A fallback list has three or four items. |
| ItemExtractor.FallbackForTableKey | agents.py:732-769 | A keyword in the table gets its four canned items. |
| ItemExtractor.FallbackForOtherKeyword | agents.py:771-775 | Any other keyword gets three generic items, each naming the keyword. |
| ItemExtractor.GenericFallbackMentions | agents.py:771-775 | Each generic item mentions the keyword. |
| ListExtractor.CleanedFor | agents.py:570-721 | Every item cleaned from a reply is tidy. |
| ListExtractor.ExtractListItems | agents.py:570-728 | The extractor returns exactly the specified list. |
| ListExtractor.CapItems | agents.py:723-728 | Cleaned items are cut to ten. With none, the keyword's fallback is used. |
| ListExtractor.ListItemsBounds | agents.py:723-728 | A list has 1 to 10 items. With no cleaned item it is the keyword's fallback. |
| ListExtractor.CappedPrefix | agents.py:723-725 | The capped list is the first min(n, 10) cleaned items. |
| ListExtractor.ListItemsExtracted | agents.py:705-725 | When something was cleaned, the list is its first min(n, 10) items, each tidy. |
| ListExtractor.CallerKeywordsMissTables | agents.py:494-550 | None of the keywords the builders pass gets extra variations or a canned list. Each gets six variations and the generic fallback. |
| Emphasis.RemoveEmphasisIdempotent | agents.py:709-710 | Removing emphasis twice gives the same result as removing it once. |
| Emphasis.UnwrapItalicOnePerLine | agents.py:710 | After the italic substitution, at most one `*` is left per line. |
| Emphasis.UnwrapItalicKeeps | agents.py:710 | The italic substitution leaves alone text with at most one `*` per line. |
| ContentExtractor.CleanContent | agents.py:797-801 | Cleaned content neither starts nor ends with white space or a quote. |
| ContentExtractor.PatternText | agents.py:794-805 | A pattern's content is longer than 20 characters and quote-trimmed. |
| ContentExtractor.PatternContent | agents.py:794-805 | The patterns yield nothing exactly when none gives substantial content. |
| ContentExtractor.PatternContentIsFirst | agents.py:794-805 | The first pattern giving substantial content wins. |
| ContentExtractor.ParagraphText | agents.py:811-827 | A paragraph is used exactly when its stripped form passes the five tests. |
| ContentExtractor.FirstParagraph | agents.py:811-827 | No paragraph is used exactly when none passes the tests. |
| ContentExtractor.FirstParagraphIsFirst | agents.py:811-827 | The first paragraph that passes is the one used, cleaned. |
| ContentExtractor.OptimizedContent | agents.py:777-829 | The result is the placeholder or quote-trimmed content. |
| ContentExtractor.OptimizedHeaderLine | agents.py:785 | `OPTIMIZED w:` followed by a plain line gives exactly that line. |
| ContentExtractor.NoPatternWithoutLetters | agents.py:784-796 | A reply without letters matches no content pattern. |
| ContentExtractor.QuotesParagraphIsEmpty | agents.py:811-827 | A paragraph of more than 50 quotes gives the empty string. |
| ContentExtractor.SplitVersions | agents.py:847 | Splitting on version markers gives at least one piece. |
| ContentExtractor.KeptPiecesSource | agents.py:849-855 | Each kept alternative comes from a piece longer than 20 characters, stripped and unformatted. None are kept exactly when no piece qualifies. |
| ContentExtractor.KeepPieces | agents.py:848-855 | The loop over the pieces keeps exactly the specified alternatives. |
| ContentExtractor.AlternativesFromIsFirst | agents.py:842-858 | The first pattern that yields alternatives wins. |
| ContentExtractor.AlternativesFromNone | agents.py:842-860 | When no pattern yields, there are no alternatives from patterns. |
| ContentExtractor.FindAlternatives | agents.py:842-858 | The pattern loop returns the specified alternatives. |
| ContentExtractor.Alternatives | agents.py:831-860 | There is always at least one alternative. |
| ContentExtractor.ExtractAlternatives | agents.py:831-860 | The method returns exactly the specified alternatives. |
| ContentExtractor.SingleAlternative | agents.py:845-855 | A captured block in which no `Version n`/`Alternative n` separator starts, and whose stripped text is longer than 20, splits into one piece. That piece is kept stripped and unformatted. |
| ContentExtractor.TwoVersions | agents.py:845-855 | The captured block `Version 1: a Version 2: b` splits at its two separators. It keeps exactly a and b, unformatted, when both are longer than 20. |
| ContentExtractor.AlternativesHeaderCapture | agents.py:836-844 | For a reply `ALTERNATIVES: ` followed by one line, the first pattern matches at the start and captures that whole line. |
| ContentExtractor.AlternativesOfHeader | agents.py:841-858 | When that captured line yields any kept piece, those pieces are the reply's alternatives. |
| ContentExtractor.SingleAlternativeReply | agents.py:836-858 | A reply `ALTERNATIVES: ` followed by one line holding no separator gives that line, stripped and unformatted, as its only alternative. |
| ContentExtractor.TwoVersionsReply | agents.py:836-858 | A reply `ALTERNATIVES: Version 1: a Version 2: b`, with a and b one-line texts longer than 20, gives exactly a and b, unformatted. |
| ContentExtractor.AlternativesWithoutLetters | agents.py:831-860 | A reply without letters gives the placeholder alternative. |
| ProfileRules.SkillPoints | agents.py:878-881 | Skill points are at most 15. They are exactly 15 from ten skills on, and zero exactly when there are no skills. |
| ProfileRules.Completeness | agents.py:862-888 | Completeness is at most 100. |
| ProfileRules.CalculateCompleteness | agents.py:862-888 | The method returns the specified completeness. |
| ProfileRules.CompletenessUncapped | agents.py:864-888 | The raw sum never exceeds 100, so the cap never binds. |
| ProfileRules.CompletenessFull | agents.py:862-888 | Completeness is 100 exactly when every field is present and there are at least ten skills. |
| ProfileRules.CompletenessMonotone | agents.py:862-888 | Adding fields never lowers completeness. |
| ProfileRules.ExperienceLevelBands | agents.py:467-481 | The level is Entry for 0-1 positions, Mid for 2-3, Senior for 4-6 and Executive for 7 or more, as 1.5 years per position gives. |
| ProfileRules.ExperienceLevelMonotone | agents.py:467-481 | More positions never give a lower level. |
| ProfileRules.Description | agents.py:435 | A description is kept up to 200 characters. A longer one is cut to 200 and ends in "...". A missing description gives "No description". |
| ProfileRules.ExperienceEntries | agents.py:425-438 | At most the first three positions are listed, each as its line. |
| ProfileRules.FormatExperience | agents.py:425-438 | The loop builds the specified experience text. |
| ProfileRules.ExperienceTextTopThree | agents.py:427 | Positions after the third never change the text. |
| ProfileRules.ExperienceTextSingle | agents.py:427-437 | One position renders as its title, company, duration and description lines. |
| ProfileRules.EducationEntries | agents.py:440-452 | Every education entry is listed, each as its line. |
| ProfileRules.FormatEducation | agents.py:440-452 | The loop builds the specified education text. |
| ProfileRules.EducationTextLines | agents.py:440-452 | The text splits back into one line per entry. |
| ProfileRules.SectionContentLocal | agents.py:483-492 | The content of a section depends only on the field it names. Two profiles that agree on the headline give the same headline content, and likewise for the summary. For the experience, agreeing on the first three entries is enough. For any other section name, every two profiles give the same content. |
| FallbackAnalysis.EnhancedFallbackAnalysis | agents.py:942-1027 | The method builds exactly the specified fallback analysis. |
| FallbackAnalysis.FindResults | agents.py:983 | The loop reports whether any description mentions "achieve" or "result", ignoring case. |
| FallbackAnalysis.FindMention | agents.py:1001-1006 | The loop reports whether the headline or a title mentions the word. |
| FallbackAnalysis.CollectStrengths | agents.py:954-971 | The strengths are collected in the specified order. |
| FallbackAnalysis.CollectWeaknesses | agents.py:974-984 | The weaknesses are collected in the specified order. |
| FallbackAnalysis.CollectRecommendations | agents.py:987-997 | The recommendations are collected in the specified order. |
| FallbackAnalysis.CollectKeywords | agents.py:1000-1010 | The keywords are collected in the specified order. |
| FallbackAnalysis.FallbackShape | agents.py:1012-1027 | Overall score 75. Every section score is within its band. There are 1-5 strengths and weaknesses, 6 recommendations and 3 or 5 keywords. A non-empty reply is kept as feedback. |
| FallbackAnalysis.FallbackStrengthCount | agents.py:1021 | There are one to five strengths. |
| FallbackAnalysis.FallbackRecommendations | agents.py:987-1023 | A short summary puts the summary advice fourth. A full profile gets the fixed six. |
| FallbackAnalysis.KeptFrom | agents.py:1021-1022 | Kept remarks come from the collected ones or are the default. |
| FallbackAnalysis.FallbackSummaryConsistent | agents.py:968-976 | The summary is never called both too brief and comprehensive. |
| FallbackAnalysis.FallbackExperienceConsistent | agents.py:970-982 | Experience is never called both limited and stable. |
| FallbackAnalysis.FallbackGenericKeywords | agents.py:1000-1010 | The generic keywords are used exactly when no role word is mentioned. |
| FallbackAnalysis.FallbackDefaultStrength | agents.py:954-1021 | An empty profile gets only the default strength. |
| FallbackAnalysis.FallbackGrowthFirst | agents.py:955-957 | With any experience, the growth remark comes first. |
| FallbackAnalysis.YearsTextValue | agents.py:956-957 | The years figure reads as 1.5 times the number of positions, with one decimal. |
| OptimizerAgent.ParseAnalysisShape | agents.py:494-511 | All scores are at most 100. Every list has 1-10 items. The reply is the feedback. Completeness is the profile's. |
| OptimizerAgent.ParseJobFitShape | agents.py:513-525 | All scores are at most 100. Every list has 1-10 items. The reply is the analysis. |
| OptimizerAgent.ParseOptimizationShape | agents.py:527-537 | The section and the original are kept. The lists have 1-10 items and at least one alternative. |
| OptimizerAgent.ParseCareerGuidanceShape | agents.py:539-550 | The stage is one of the four levels. Every list has 1-10 items. |
| OptimizerAgent.ParsedStrengths | agents.py:494-511 | The parsed strengths are the list extracted for "strengths". |
| OptimizerAgent.StrengthsFallbackIsGeneric | agents.py:730-775 | "strengths" gets the generic three-item fallback. |
| OptimizerAgent.CheckOnlyOnSingle | agents.py:109 | The check fires exactly when the section held that one sentence alone. |
| OptimizerAgent.CheckOnlyOnPlaceholder | agents.py:109-111 | The placeholder check fires exactly when the cleaned section is that sentence alone. |
| OptimizerAgent.NoStrengthsKeepsParse | agents.py:105-114 | A reply without strengths is returned as parsed, with generic strengths. |
| OptimizerAgent.AnalyzeProfileOnEmptyFallsBack | agents.py:108-111 | With the intended check, such a reply gets the profile-based analysis. |
| OptimizerAgent.AnalyzeProfileOnEmptyAgrees | agents.py:105-118 | On every other reply, and on a failed call, the intended check agrees with the code. |
| OptimizerAgent.AnalyzeProfileStrengths | agents.py:105-118 | Whatever the reply, there are 1 to 10 strengths. |
| OptimizerAgent.FailedCallFallsBack | agents.py:116-118 | A failed call gives the fallback with no reply. |
| OptimizerAgent.ReplyStrengths | agents.py:105-114 | A reply that arrived gives 1 to 10 strengths. |
| ProfileAnalysisAgent.Capture | agents/profile_agent.py:30-63 | A capture exists exactly when the pattern matches somewhere. It has the shape of its tail. |
| ProfileAnalysisAgent.FirstMatch | agents/profile_agent.py:30-63 | The first position where the pattern matches. |
| ProfileAnalysisAgent.SectionBlockWith | agents/profile_agent.py:39-40 | The section block exists exactly when a header occurs. |
| ProfileAnalysisAgent.BlockStop | agents/profile_agent.py:39 | The block ends at the first following heading, or at the end. |
| ProfileAnalysisAgent.KeyScore | agents/profile_agent.py:43-46 | A key's score is a non-empty run of digits and slashes. |
| ProfileAnalysisAgent.ScoresFor | agents/profile_agent.py:38-47 | The map holds exactly the keys that have a score, each with that score. |
| ProfileAnalysisAgent.FillScores | agents/profile_agent.py:42-46 | The loop over the five keys builds the specified map. |
| ProfileAnalysisAgent.SectionScoresShape | agents/profile_agent.py:38-47 | With no block the map is empty. Otherwise it holds exactly the keys found. |
| ProfileAnalysisAgent.ParseAnalysisResponse | agents/profile_agent.py:26-75 | The parser returns exactly the specified record. |
| ProfileAnalysisAgent.OverallScoreRoundTrip | agents/profile_agent.py:30-32 | `Overall Score: n` parses back to n. |
| ProfileAnalysisAgent.CompletenessRoundTrip | agents/profile_agent.py:34-36 | `Profile Completeness: n%` parses back to n. |
| ProfileAnalysisAgent.ItemsRoundTrip | agents/profile_agent.py:51 | A numbered list parses back to its items. |
| ProfileAnalysisAgent.StrengthsRoundTrip | agents/profile_agent.py:49-52 | A Key Strengths block parses back to its items. |
| ProfileAnalysisAgent.SplitOn | agents/profile_agent.py:65 | Pieces hold no separator, and there is at least one piece. |
| ProfileAnalysisAgent.KeptStripped | agents/profile_agent.py:65 | The kept pieces are stripped, and there are no more of them than parts. |
| ProfileAnalysisAgent.KeywordsClean | agents/profile_agent.py:63-67 | Every keyword is non-empty, stripped and free of commas and newlines. |
| ProfileAnalysisAgent.KeywordsRoundTrip | agents/profile_agent.py:63-65 | A comma-joined keyword line parses back to its keywords. |
| ProfileAnalysisAgent.Apology | agents/profile_agent.py:84-85 | The apology ends with the error text. |
| ProfileAnalysisAgent.RunOutcome | agents/profile_agent.py:9-85 | The prompt sent is a dictionary's "input" entry, or "" without one, or the text itself. A record is returned exactly when the call succeeds and has scores or strengths. Otherwise the reply is returned, or the apology on failure. |
| ProfileAnalysisAgent.RunDictAsText | agents/profile_agent.py:9-13 | A dictionary input has the same outcome as the text it holds under "input", or as the empty prompt when it has no such key. |
| ProfileAnalysisAgent.RunIgnoresOtherKeys | agents/profile_agent.py:9-13 | Keys of a dictionary input other than "input" never change the outcome. |
| LinkedInScraper.ValidUrlIgnoresCase | linkedin_scraper.py:81-86 | The URL check ignores case. |
| LinkedInScraper.ValidUrlExtends | linkedin_scraper.py:84-86 | A valid URL stays valid when extended. |
| LinkedInScraper.ValidProfileUrls | linkedin_scraper.py:84-86 | Both accepted prefixes, in any case, accept every handle. |
| LinkedInScraper.NoWwwIsInvalid | linkedin_scraper.py:84-86 | `https://linkedin.com/in/` without `www.` is rejected. |
| LinkedInScraper.DemoIsInvalid | linkedin_scraper.py:81-86 | "demo" is rejected. |
| LinkedInScraper.SkillTitles | linkedin_scraper.py:100 | The titles are non-empty, and there are no more of them than skills. |
| LinkedInScraper.SkillTitlesAppend | linkedin_scraper.py:100 | The title filter distributes over concatenation. |
| LinkedInScraper.SkillTitlesAllTitled | linkedin_scraper.py:100 | When every skill has a title, all are kept, in order. |
| LinkedInScraper.SkillTitlesNoneTitled | linkedin_scraper.py:100 | When no skill has a title, none are kept. |
| LinkedInScraper.SkillTitlesFromEntries | linkedin_scraper.py:100 | Every title comes from a skill entry. |
| LinkedInScraper.StandardName | linkedin_scraper.py:94 | `fullName` is used when it is truthy. Otherwise the first and last names are joined with a space. |
| LinkedInScraper.StandardSchool | linkedin_scraper.py:106 | The school is the first education's title, or "". |
| LinkedInScraper.MockUrl | linkedin_scraper.py:174 | The mock keeps a non-empty URL and otherwise uses the default profile URL. |
| LinkedInScraper.InvalidUrlNeverScrapes | linkedin_scraper.py:33-35 | An invalid URL gives the mock without calling the scraper. |
| LinkedInScraper.ScrapeOutcome | linkedin_scraper.py:29-46 | The result is scraped exactly when the URL is valid and data came back. It is then standardised. Otherwise it is the mock. |
| LinkedInScraper.EmptyUrlGivesDefault | linkedin_scraper.py:33-35 | An empty URL gives the mock with the default URL. |
| Config.ConfigOf | config.py:19-43 | Each provider's key, a temperature of 0.7 and 1024-4096 tokens. |
| Config.LookupByName | config.py:78-84 | A lookup succeeds exactly when the lower-cased name is a provider, and then gives its config. |
| Config.LookupIgnoresCase | config.py:84 | Lookup ignores case. |
| Config.AvailableProvidersMap | config.py:87-100 | The map covers exactly the three providers, each with its availability. |
| Config.Availability | config.py:90-99 | A provider is available when its key is set and is not the placeholder. |
| Config.FirstAvailable | config.py:106-108 | The first available provider in the order, or none when none is. |
| Config.FirstAvailableIsFirst | config.py:106-108 | Every provider before the chosen one is unavailable. |
| Config.BestProviderChoice | config.py:103-109 | The best provider follows the priority order. It is Nvidia when Nvidia is available or when none is. |
| Config.BestProviderAvailable | config.py:103-109 | When any provider is available, the one chosen is available. |

## Left out

- The user interface (`app.py`, `src/**/*.tsx`), the provider clients (`ai_providers.py`), the orchestrator and the other agent wrappers under `agents/`: they only route calls to the functions modelled here.
- The model call itself and every prompt: the reply is an input, and a failed call is a `Result` failure.
- The Apify call `_scrape_via_apify`: it is a network call. It is the `fetch` parameter of `LinkedInScraper.ScrapeProfile`.
- The contents of the mock profile in `_get_mock_profile_data`: constant data, of which only the URL is modelled.
- The `except` branch of `_standardize_profile_data`: with typed fields nothing there can raise.
- `_format_recent_experience` (agents.py:454-465): only the chat prompt uses it.
- The `chat_response`, `analyze_job_fit`, `optimize_content` and `provide_career_guidance` wrappers: they are prompt assembly and error handling. The builders they call are modelled.
- `_get_fallback_analysis`, `_get_fallback_job_fit`, `_get_fallback_optimization` and `_get_fallback_career_guidance`: constant records.
- Logging throughout: it has no effect on results.
- Unicode case mapping, `isupper`, white space, the regex classes `\d` and `\w`, and `int()` of digits: only their ASCII subset is modelled. Python 3 also lets `\d` match any Unicode decimal digit, `\w` any Unicode letter or digit, and `int()` read those digits. So a reply such as `Overall Score: ` followed by Arabic-Indic digits parses in the code but finds no score in the model.
- ScoreExtractor.ExtractScore: Python's `int()` refuses a decimal string longer than the interpreter's int-string limit (4300 digits by default, from CPython 3.11 and the 3.7.14, 3.8.14, 3.9.14 and 3.10.7 security releases). It raises ValueError, and agents.py:565 does not catch it. So a reply such as `Overall ` followed by 4301 digits and `/100` makes `analyze_profile` take its `except` branch (agents.py:116-118) and return the reply-less fallback. The model parses any digit run, so for that reply it gives a clamped 100 and the parsed report. The limit is a setting of the interpreter, not of the program.
- ProfileAnalysisAgent.ParseAnalysisResponse: the same int-string limit applies to the two `int()` calls at agents/profile_agent.py:32 and 36. A reply whose overall score or completeness has more than 4300 digits raises in the code. The model parses it.
- ProfileAnalysisAgent.Run: because of that limit, such a reply reaches the `except` of agents/profile_agent.py:84-85 in the code, which returns the apology text. The model returns the parsed dictionary.
- SectionLocator.CaptureStart: a capture start that gives back part of the `\s*` before a variation is not modelled. It matters only for a variation that itself starts with white space, and none does.
- ScoreExtractor.Search: backtracking into `.*?` inside the keyword is not modelled, because the keywords passed are plain words.
- FallbackAnalysis.YearsTextValue: `{n*1.5:.1f}` is modelled exactly, but as integer text rather than floating point.

## Findings

| source | as written | input that shows it | evidently intended | confidence | as-written member | corrected member |
|---|---|---|---|---|---|---|
| agents.py:109-111 | The check compares the parsed strengths with an empty list or with the single placeholder sentence. `_extract_list_items` never returns an empty list, and without a strengths section it returns three generic strengths. So the check does not fire for such a reply. | any reply with no strengths section, e.g. `Overall score 80/100` | Use the profile-based fallback when parsing found no strengths, as the warning "Parsing failed" says. | not executed; proved for every reply whose cleaned strengths are empty | OptimizerAgent.NoStrengthsKeepsParse | OptimizerAgent.AnalyzeProfileOnEmptyFallsBack |
