/** The response builders of `LinkedInOptimizerAgent` (agents.py:494-550) and
    the check `analyze_profile` makes on the parsed analysis before
    returning it (agents.py:105-118). The model's reply is an input; the
    prompts and the call to the provider are not modelled. */
module OptimizerAgent {
  import opened Wrappers
  import opened ProfileData
  import opened Reports
  import opened ProfileRules
  import opened FallbackAnalysis
  import opened ScoreExtractor
  import opened ItemExtractor
  import opened ListExtractor
  import opened ContentExtractor

  /* ---------------- the builders ---------------- */

  /** `_parse_analysis_response(response, profile_data)` */
  function ParseAnalysis(response: string, p: Profile): Analysis {
    Analysis(
      overallScore := ExtractScore(response, "overall"),
      sectionScores := SectionScores(
        headline := ExtractScore(response, "headline"),
        summary := ExtractScore(response, "summary"),
        experience := ExtractScore(response, "experience"),
        education := ExtractScore(response, "education"),
        skills := ExtractScore(response, "skills")),
      strengths := ListItems(response, "strengths"),
      weaknesses := ListItems(response, "weaknesses"),
      recommendations := ListItems(response, "recommendations"),
      keywords := ListItems(response, "keywords"),
      detailedFeedback := response,
      completeness := Completeness(p))
  }

  /** `_parse_job_fit_response(response, ...)`; the profile and the job
      description it also receives are not read. */
  function ParseJobFit(response: string): JobFit {
    JobFit(
      fitScore := ExtractScore(response, "fit"),
      skillMatch := ExtractScore(response, "skill"),
      experienceMatch := ExtractScore(response, "experience"),
      educationMatch := ExtractScore(response, "education"),
      missingSkills := ListItems(response, "missing skills"),
      advantages := ListItems(response, "competitive advantages"),
      recommendations := ListItems(response, "improvement recommendations"),
      applicationTips := ListItems(response, "application tips"),
      detailedAnalysis := response)
  }

  /** `_parse_optimization_response(response, section, original)` */
  function ParseOptimization(response: string, section: string, original: string): Optimization {
    Optimization(
      section := section,
      originalContent := original,
      optimizedContent := OptimizedContent(response),
      improvements := ListItems(response, "key improvements"),
      keywordsAdded := ListItems(response, "keywords added"),
      alternatives := Alternatives(response),
      detailedExplanation := response)
  }

  /** `_parse_career_guidance_response(response, profile_data)` */
  function ParseCareerGuidance(response: string, p: Profile): CareerGuidance {
    CareerGuidance(
      careerStage := LevelName(ExperienceLevel(p)),
      growthOpportunities := ListItems(response, "growth opportunities"),
      skillPriorities := ListItems(response, "priority skills"),
      learningResources := ListItems(response, "learning resources"),
      networkingStrategy := ListItems(response, "networking strategy"),
      marketTrends := ListItems(response, "market trends"),
      actionPlan := ListItems(response, "action plan"),
      detailedGuidance := response)
  }

  /** Between one and ten items. */
  predicate ItemCount(xs: seq<string>) {
    1 <= |xs| <= MaxItems
  }

  /** Every score of a parsed analysis is between 0 and 100, every list
      holds one to ten items, and the reply itself is kept as the feedback. */
  lemma ParseAnalysisShape(response: string, p: Profile)
    ensures var a := ParseAnalysis(response, p);
      && a.overallScore <= 100
      && a.sectionScores.headline <= 100 && a.sectionScores.summary <= 100
      && a.sectionScores.experience <= 100 && a.sectionScores.education <= 100
      && a.sectionScores.skills <= 100
      && ItemCount(a.strengths) && ItemCount(a.weaknesses)
      && ItemCount(a.recommendations) && ItemCount(a.keywords)
      && a.detailedFeedback == response && a.completeness <= 100
  {
    ListItemsBounds(response, "strengths");
    ListItemsBounds(response, "weaknesses");
    ListItemsBounds(response, "recommendations");
    ListItemsBounds(response, "keywords");
  }

  lemma ParseJobFitShape(response: string)
    ensures var j := ParseJobFit(response);
      && j.fitScore <= 100 && j.skillMatch <= 100
      && j.experienceMatch <= 100 && j.educationMatch <= 100
      && ItemCount(j.missingSkills) && ItemCount(j.advantages)
      && ItemCount(j.recommendations) && ItemCount(j.applicationTips)
      && j.detailedAnalysis == response
  {
    ListItemsBounds(response, "missing skills");
    ListItemsBounds(response, "competitive advantages");
    ListItemsBounds(response, "improvement recommendations");
    ListItemsBounds(response, "application tips");
  }

  /** The section and the original text pass through; there is always at
      least one alternative. */
  lemma ParseOptimizationShape(response: string, section: string, original: string)
    ensures var o := ParseOptimization(response, section, original);
      && o.section == section && o.originalContent == original
      && ItemCount(o.improvements) && ItemCount(o.keywordsAdded)
      && |o.alternatives| >= 1
      && o.detailedExplanation == response
  {
    ListItemsBounds(response, "key improvements");
    ListItemsBounds(response, "keywords added");
  }

  /** The career stage depends on the profile alone: one of the four level
      names, whatever the reply says. */
  lemma ParseCareerGuidanceShape(response: string, p: Profile)
    ensures var g := ParseCareerGuidance(response, p);
      && g.careerStage in {"Entry Level", "Mid Level", "Senior Level", "Executive Level"}
      && ItemCount(g.growthOpportunities) && ItemCount(g.skillPriorities)
      && ItemCount(g.learningResources) && ItemCount(g.networkingStrategy)
      && ItemCount(g.marketTrends) && ItemCount(g.actionPlan)
      && g.detailedGuidance == response
  {
    ListItemsBounds(response, "growth opportunities");
    ListItemsBounds(response, "priority skills");
    ListItemsBounds(response, "learning resources");
    ListItemsBounds(response, "networking strategy");
    ListItemsBounds(response, "market trends");
    ListItemsBounds(response, "action plan");
  }

  /* ---------------- the check in analyze_profile ---------------- */

  /** The placeholder list the check compares the strengths with. */
  const PlaceholderStrengths: seq<string> := ["Analysis available in detailed feedback"]

  /** `not strengths or strengths == [...]` */
  predicate NeedsFallback(strengths: seq<string>) {
    |strengths| == 0 || strengths == PlaceholderStrengths
  }

  /** The parsed analysis, unless the check rejects its strengths; the
      fallback then keeps the reply as its feedback. */
  function Checked(analysis: Analysis, p: Profile, response: string): Analysis {
    if NeedsFallback(analysis.strengths) then EnhancedFallback(p, response) else analysis
  }

  /** `analyze_profile` once the reply is known: a failed call gives the
      fallback without a reply, a reply is parsed and checked. */
  function AnalyzeProfile(reply: Result<string>, p: Profile): Analysis {
    match reply
    case Failure(_) => EnhancedFallback(p, "")
    case Success(response) => AnalyzeReply(response, p)
  }

  /** A reply that arrived is parsed and checked. */
  function AnalyzeReply(response: string, p: Profile): Analysis {
    Checked(ParseAnalysis(response, p), p, response)
  }

  /** The strengths of the parsed analysis are the items listed under
      "strengths". */
  lemma ParsedStrengths(response: string, p: Profile)
    ensures ParseAnalysis(response, p).strengths == ListItems(response, "strengths")
  {
  }

  /** "strengths" has no entry of its own in the fallback table. */
  lemma StrengthsFallbackIsGeneric()
    ensures FallbackItems("strengths") == GenericFallback("strengths")
  {
    CallerKeywordsMissTables();
    assert CallerKeywords[0] == "strengths";
  }

  /** The check on a list cut from the cleaned items, or from a fallback of
      at least three items when none was cleaned, compared with any single
      sentence. */
  lemma CheckOnCut(cleaned: seq<string>, fallback: seq<string>, items: seq<string>, x: string)
    requires |fallback| >= 3
    requires cleaned == [] ==> items == fallback
    requires cleaned != [] ==> items == cleaned[..if |cleaned| < MaxItems then |cleaned| else MaxItems]
    ensures (|items| == 0 || items == [x]) <==> cleaned == [x]
  {
    if cleaned != [] && items == [x] {
      assert |cleaned| == 1;
      assert cleaned == cleaned[..1];
    }
  }

  /** The items a reply yields for a keyword are never empty, so a check
      against a single sentence fires exactly when the section held that
      sentence alone, and never when the section is missing. */
  lemma CheckOnlyOnSingle(response: string, kw: string, x: string)
    ensures (|ListItems(response, kw)| == 0 || ListItems(response, kw) == [x]) <==>
      CleanedFor(response, kw) == [x]
  {
    FallbackSize(kw);
    CheckOnCut(CleanedFor(response, kw), FallbackItems(kw), ListItems(response, kw), x);
  }

  /** The same for the placeholder sentence of the source. */
  lemma CheckOnlyOnPlaceholder(response: string)
    ensures NeedsFallback(ListItems(response, "strengths")) <==>
      CleanedFor(response, "strengths") == PlaceholderStrengths
  {
    CheckOnlyOnSingle(response, "strengths", PlaceholderStrengths[0]);
  }

  /** A reply with no usable strengths section is returned as parsed, with
      the three generic strengths, and not replaced by the fallback. */
  lemma NoStrengthsKeepsParse(response: string, p: Profile)
    requires CleanedFor(response, "strengths") == []
    ensures AnalyzeProfile(Success(response), p) == ParseAnalysis(response, p)
    ensures ParseAnalysis(response, p).strengths == GenericFallback("strengths")
  {
    CheckOnlyOnPlaceholder(response);
    ParsedStrengths(response, p);
    ListItemsBounds(response, "strengths");
    StrengthsFallbackIsGeneric();
  }

  /** The check as its log message describes it: fall back when parsing
      found no strengths. */
  function AnalyzeProfileOnEmpty(reply: Result<string>, p: Profile): Analysis {
    match reply
    case Failure(_) => EnhancedFallback(p, "")
    case Success(response) =>
      if CleanedFor(response, "strengths") == [] then EnhancedFallback(p, response)
      else Checked(ParseAnalysis(response, p), p, response)
  }

  /** With that check, a reply without strengths gets the profile-based
      analysis instead of the generic strengths. */
  lemma AnalyzeProfileOnEmptyFallsBack(response: string, p: Profile)
    requires CleanedFor(response, "strengths") == []
    ensures AnalyzeProfileOnEmpty(Success(response), p) == EnhancedFallback(p, response)
  {
  }

  /** Every other reply, and a failed call, is handled as before. */
  lemma AnalyzeProfileOnEmptyAgrees(reply: Result<string>, p: Profile)
    requires reply.Success? ==> CleanedFor(reply.value, "strengths") != []
    ensures AnalyzeProfileOnEmpty(reply, p) == AnalyzeProfile(reply, p)
  {
  }

  /** The check keeps a parsed analysis whose strengths it accepts and
      otherwise gives one to five strengths. */
  lemma CheckedStrengths(analysis: Analysis, p: Profile, response: string)
    requires 1 <= |analysis.strengths| <= MaxItems
    ensures 1 <= |Checked(analysis, p, response).strengths| <= MaxItems
  {
    if NeedsFallback(analysis.strengths) {
      FallbackStrengthCount(p, response);
    }
  }

  /** Whatever the reply, the analysis returned has strengths, at most ten. */
  lemma AnalyzeProfileStrengths(reply: Result<string>, p: Profile)
    ensures 1 <= |AnalyzeProfile(reply, p).strengths| <= MaxItems
  {
    if reply.Failure? {
      FailedCallStrengths(reply, p);
    } else {
      ReplyStrengths(reply.value, p);
    }
  }

  /** A failed call gives the profile-based analysis with no reply to keep. */
  lemma FailedCallFallsBack(reply: Result<string>, p: Profile)
    requires reply.Failure?
    ensures AnalyzeProfile(reply, p) == EnhancedFallback(p, "")
  {
  }

  lemma FailedCallStrengths(reply: Result<string>, p: Profile)
    requires reply.Failure?
    ensures 1 <= |AnalyzeProfile(reply, p).strengths| <= MaxItems
  {
    FailedCallFallsBack(reply, p);
    FallbackStrengthCount(p, "");
  }

  /** The same for a reply that arrived. */
  lemma ReplyStrengths(response: string, p: Profile)
    ensures 1 <= |AnalyzeProfile(Success(response), p).strengths| <= MaxItems
  {
    ParsedStrengthCount(response, p);
    CheckedStrengths(ParseAnalysis(response, p), p, response);
  }

  lemma ParsedStrengthCount(response: string, p: Profile)
    ensures 1 <= |ParseAnalysis(response, p).strengths| <= MaxItems
  {
    ParsedStrengths(response, p);
    ListItemsBounds(response, "strengths");
  }
}
