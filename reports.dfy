/** The result records the optimizer agent returns (agents.py:494-550 and
    942-1027). Each is a Python dictionary with a fixed set of keys; here it
    is a datatype with one field per key. */
module Reports {
  /** `section_scores` of a profile analysis. */
  datatype SectionScores = SectionScores(
    headline: nat, summary: nat, experience: nat, education: nat, skills: nat)

  /** The dictionary `_parse_analysis_response` and
      `_get_enhanced_fallback_analysis` return. */
  datatype Analysis = Analysis(
    overallScore: nat,
    sectionScores: SectionScores,
    strengths: seq<string>,
    weaknesses: seq<string>,
    recommendations: seq<string>,
    keywords: seq<string>,
    detailedFeedback: string,
    completeness: nat)

  /** The dictionary `_parse_job_fit_response` returns. */
  datatype JobFit = JobFit(
    fitScore: nat,
    skillMatch: nat,
    experienceMatch: nat,
    educationMatch: nat,
    missingSkills: seq<string>,
    advantages: seq<string>,
    recommendations: seq<string>,
    applicationTips: seq<string>,
    detailedAnalysis: string)

  /** The dictionary `_parse_optimization_response` returns. */
  datatype Optimization = Optimization(
    section: string,
    originalContent: string,
    optimizedContent: string,
    improvements: seq<string>,
    keywordsAdded: seq<string>,
    alternatives: seq<string>,
    detailedExplanation: string)

  /** The dictionary `_parse_career_guidance_response` returns. */
  datatype CareerGuidance = CareerGuidance(
    careerStage: string,
    growthOpportunities: seq<string>,
    skillPriorities: seq<string>,
    learningResources: seq<string>,
    networkingStrategy: seq<string>,
    marketTrends: seq<string>,
    actionPlan: seq<string>,
    detailedGuidance: string)
}
