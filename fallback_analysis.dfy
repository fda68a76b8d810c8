/** `_get_enhanced_fallback_analysis` (agents.py:942-1027): an analysis built
    from the profile alone, used when the model's reply yields nothing
    usable. */
module FallbackAnalysis {
  import opened Wrappers
  import opened Text
  import opened ProfileData
  import opened Reports
  import opened ProfileRules

  /* ---------------- remarks and their texts ---------------- */

  /** The remarks the fallback can make, each standing for one sentence of
      the source; `RemarkText` gives the sentence. */
  datatype Remark =
    | GrowthStrength(positions: nat)
    | PortfolioStrength(skills: nat)
    | SkillSetStrength(skills: nat)
    | EducationStrength(degree: string, school: string)
    | HeadlineStrength(length: nat)
    | SummaryStrength(length: nat)
    | StabilityStrength
    | DefaultStrength
    | SummaryWeakness
    | SkillsWeakness(skills: nat)
    | HeadlineWeakness
    | ExperienceWeakness
    | AchievementWeakness
    | DefaultWeakness
    | AchievementsAdvice
    | KeywordsAdvice
    | EndorsementsAdvice
    | SummaryAdvice
    | SkillsAdvice
    | UpdateAdvice
    | PhotoAdvice
    | CertificationAdvice

  /** `f"{n * 1.5:.1f}"`: n * 1.5 is a whole number or a half, so one
      decimal shows it exactly. */
  function YearsText(n: nat): string {
    NatToString(3 * n / 2) + (if n % 2 == 0 then ".0" else ".5")
  }

  function RemarkText(r: Remark): string {
    match r
    case GrowthStrength(n) =>
      "Demonstrates " + YearsText(n) + "+ years of progressive career growth across "
      + NatToString(n) + " positions, showing consistent professional development and advancement"
    case PortfolioStrength(k) =>
      "Extensive skill portfolio with " + NatToString(k)
      + " competencies listed, indicating versatility and comprehensive expertise across multiple domains"
    case SkillSetStrength(k) =>
      "Well-rounded skill set with " + NatToString(k)
      + " skills demonstrated, showing good technical and professional breadth"
    case EducationStrength(degree, school) =>
      "Strong educational foundation with " + degree + " from " + school
      + ", providing credibility and theoretical knowledge base"
    case HeadlineStrength(len) =>
      "Compelling professional headline (" + NatToString(len)
      + " characters) that effectively communicates value proposition and career focus"
    case SummaryStrength(len) =>
      "Comprehensive professional summary (" + NatToString(len)
      + " characters) that provides detailed context about experience, achievements, and career objectives"
    case StabilityStrength =>
      "Demonstrates career stability and growth trajectory with multiple positions, indicating reliability and continuous learning"
    case DefaultStrength => "Professional profile with good foundation"
    case SummaryWeakness =>
      "Professional summary is missing or too brief - LinkedIn profiles with detailed summaries receive 40% more profile views and are 5x more likely to receive connection requests"
    case SkillsWeakness(k) =>
      "Skills section only lists " + NatToString(k)
      + " competencies - profiles with 10+ skills appear in 17x more searches and demonstrate broader expertise to recruiters"
    case HeadlineWeakness =>
      "Headline is too brief or generic - compelling headlines increase profile visibility by 14x and should include role, key skills, and value proposition"
    case ExperienceWeakness =>
      "Limited work experience documentation - detailed experience descriptions with achievements increase recruiter interest by 6x"
    case AchievementWeakness =>
      "Experience descriptions lack quantifiable achievements - profiles with metrics and results are 3x more likely to receive interview requests"
    case DefaultWeakness => "Profile could benefit from more detailed content"
    case AchievementsAdvice =>
      "Add 3-5 quantifiable achievements per role (e.g., 'Increased sales by 25%', 'Led team of 8 people', 'Reduced costs by $50K annually') to demonstrate concrete impact and value"
    case KeywordsAdvice =>
      "Incorporate 15-20 industry-specific keywords throughout your profile to improve ATS compatibility and increase search visibility by up to 40%"
    case EndorsementsAdvice =>
      "Request 3-5 LinkedIn recommendations from supervisors, colleagues, and clients to build social proof and increase profile credibility by 85%"
    case SummaryAdvice =>
      "Write a 150-300 word professional summary highlighting your top 3 achievements, core competencies, and career objectives to increase profile engagement by 40%"
    case SkillsAdvice =>
      "Add 5-10 more relevant skills including both technical competencies and soft skills, prioritizing those most relevant to your target roles"
    case UpdateAdvice =>
      "Update your profile monthly with latest projects, certifications, and accomplishments to maintain relevance and appear in 'recent activity' feeds"
    case PhotoAdvice =>
      "Add a professional headshot if missing - profiles with photos receive 21x more profile views and 36x more messages"
    case CertificationAdvice =>
      "Include 2-3 relevant certifications or courses to demonstrate continuous learning and stay competitive in your field"
  }

  /** The sentences of a list of remarks, in order. */
  function Render(rs: seq<Remark>): (r: seq<string>)
    ensures |r| == |rs|
  {
    seq(|rs|, i requires 0 <= i < |rs| => RemarkText(rs[i]))
  }

  const SoftwareKeywords: seq<string> := ["Software Development", "Programming", "Technical Leadership"]
  const ManagerKeywords: seq<string> := ["Team Leadership", "Project Management", "Strategic Planning"]
  const EngineerKeywords: seq<string> := ["Engineering", "Problem Solving", "Technical Expertise"]
  const GenericKeywords: seq<string> :=
    ["Professional Development", "Team Collaboration", "Results-Driven", "Industry Expertise", "Communication Skills"]

  function FeedbackTemplate(name: string): string {
    "Profile analysis completed for " + name
    + ". The profile shows good professional foundation with opportunities for enhancement in content detail and keyword optimization."
  }

  /* ---------------- the rules ---------------- */

  /** `[x]` when the condition holds, `[]` otherwise. */
  function When(b: bool, x: Remark): (r: seq<Remark>)
    ensures |r| == if b then 1 else 0
  {
    if b then [x] else []
  }

  /** `xs[:n]` */
  function Take<T>(xs: seq<T>, n: nat): (r: seq<T>)
    ensures |r| == if |xs| <= n then |xs| else n
    ensures r <= xs
  {
    if |xs| <= n then xs else xs[..n]
  }

  function HeadlineOf(p: Profile): string { GetOr(p.headline, "") }
  function SummaryOf(p: Profile): string { GetOr(p.summary, "") }

  function FirstEducation(e: Entry): Remark {
    EducationStrength(Get(e, "degree", "degree"), Get(e, "school", "reputable institution"))
  }

  /** The strengths in the order the source checks them, before the cut:
      those drawn from the lists, then those drawn from the texts. */
  function Strengths(p: Profile): seq<Remark> {
    ListStrengths(p) + TextStrengths(p)
  }

  /** Experience, skills and education. */
  function ListStrengths(p: Profile): seq<Remark> {
    var k := |p.skills|;
    When(p.experience != [], GrowthStrength(|p.experience|))
    + (if k >= 15 then [PortfolioStrength(k)] else When(k >= 10, SkillSetStrength(k)))
    + (if p.education != [] then [FirstEducation(p.education[0])] else [])
  }

  /** Headline, summary and the number of positions. */
  function TextStrengths(p: Profile): seq<Remark> {
    When(|HeadlineOf(p)| > 30, HeadlineStrength(|HeadlineOf(p)|))
    + When(|SummaryOf(p)| > 200, SummaryStrength(|SummaryOf(p)|))
    + When(|p.experience| >= 3, StabilityStrength)
  }

  /** An experience whose description mentions an achievement or a result,
      in any case. */
  predicate ReportsResults(e: Entry) {
    var d := Lower(Get(e, "description", ""));
    Contains(d, "achieve") || Contains(d, "result")
  }

  predicate AnyReportsResults(exps: seq<Entry>) {
    exists i :: 0 <= i < |exps| && ReportsResults(exps[i])
  }

  /** The weaknesses in the order the source checks them: those about the
      texts and skills, then those about the experience. */
  function Weaknesses(p: Profile): seq<Remark> {
    ProfileWeaknesses(p) + ExperienceWeaknesses(p)
  }

  function ProfileWeaknesses(p: Profile): seq<Remark> {
    When(|SummaryOf(p)| < 100, SummaryWeakness)
    + When(|p.skills| < 10, SkillsWeakness(|p.skills|))
    + When(|HeadlineOf(p)| < 20, HeadlineWeakness)
  }

  function ExperienceWeaknesses(p: Profile): seq<Remark> {
    When(|p.experience| < 2, ExperienceWeakness)
    + When(!AnyReportsResults(p.experience), AchievementWeakness)
  }

  const LeadingAdvice: seq<Remark> := [AchievementsAdvice, KeywordsAdvice, EndorsementsAdvice]
  const TrailingAdvice: seq<Remark> := [UpdateAdvice, PhotoAdvice, CertificationAdvice]

  /** The recommendations, before the cut to six. */
  function Recommendations(p: Profile): seq<Remark> {
    LeadingAdvice
    + When(|SummaryOf(p)| < 100, SummaryAdvice)
    + When(|p.skills| < 15, SkillsAdvice)
    + TrailingAdvice
  }

  /** The word occurs in the lower-cased headline or in some lower-cased
      job title. */
  predicate Mentions(p: Profile, word: string) {
    Contains(Lower(HeadlineOf(p)), word)
    || exists i :: 0 <= i < |p.experience| && Contains(Lower(Get(p.experience[i], "title", "")), word)
  }

  /** The keyword groups the headline and titles call for. */
  function KeywordGroups(p: Profile): seq<string> {
    (if Mentions(p, "software") then SoftwareKeywords else [])
    + (if Mentions(p, "manager") then ManagerKeywords else [])
    + (if Mentions(p, "engineer") then EngineerKeywords else [])
  }

  function Keywords(p: Profile): seq<string> {
    if |KeywordGroups(p)| == 0 then GenericKeywords else KeywordGroups(p)
  }

  function Capped(n: nat, cap: nat): nat { if n < cap then n else cap }

  function FallbackScores(p: Profile): SectionScores {
    SectionScores(
      headline := if |HeadlineOf(p)| > 20 then 80 else 60,
      summary := if |SummaryOf(p)| > 100 then 80 else 50,
      experience := Capped(70 + 10 * |p.experience|, 90),
      education := if p.education != [] then 80 else 60,
      skills := Capped(60 + 2 * |p.skills|, 90))
  }

  /** The strengths kept: the first five, or the default remark. */
  function KeptStrengths(p: Profile): seq<Remark> {
    if |Strengths(p)| > 0 then Take(Strengths(p), 5) else [DefaultStrength]
  }

  /** The weaknesses kept: the first five, or the default remark. */
  function KeptWeaknesses(p: Profile): seq<Remark> {
    if |Weaknesses(p)| > 0 then Take(Weaknesses(p), 5) else [DefaultWeakness]
  }

  /** The analysis `_get_enhanced_fallback_analysis(p, aiResponse)` returns. */
  function EnhancedFallback(p: Profile, aiResponse: string): Analysis {
    Analysis(
      overallScore := 75,
      sectionScores := FallbackScores(p),
      strengths := Render(KeptStrengths(p)),
      weaknesses := Render(KeptWeaknesses(p)),
      recommendations := Render(Take(Recommendations(p), 6)),
      keywords := Take(Keywords(p), 5),
      detailedFeedback := if aiResponse != [] then aiResponse else FeedbackTemplate(GetOr(p.name, "User")),
      completeness := Completeness(p))
  }

  /* ---------------- the method ---------------- */

  /** `any('achieve' in d or 'result' in d for ...)` */
  method FindResults(exps: seq<Entry>) returns (found: bool)
    ensures found == AnyReportsResults(exps)
  {
    found := false;
    var i := 0;
    while i < |exps| && !found
      invariant 0 <= i <= |exps|
      invariant found == exists k :: 0 <= k < i && ReportsResults(exps[k])
    {
      var d := Lower(Get(exps[i], "description", ""));
      found := Contains(d, "achieve") || Contains(d, "result");
      i := i + 1;
    }
  }

  /** `word in headline.lower() or any(word in title.lower() for ...)` */
  method FindMention(p: Profile, word: string) returns (found: bool)
    ensures found == Mentions(p, word)
  {
    found := Contains(Lower(HeadlineOf(p)), word);
    if found {
      return;
    }
    var i := 0;
    while i < |p.experience| && !found
      invariant 0 <= i <= |p.experience|
      invariant found == exists k :: 0 <= k < i && Contains(Lower(Get(p.experience[k], "title", "")), word)
    {
      found := Contains(Lower(Get(p.experience[i], "title", "")), word);
      i := i + 1;
    }
  }

  method EnhancedFallbackAnalysis(p: Profile, aiResponse: string) returns (r: Analysis)
    ensures r == EnhancedFallback(p, aiResponse)
  {
    var name := GetOr(p.name, "User");
    var strengths := CollectStrengths(p);
    var weaknesses := CollectWeaknesses(p);
    var recommendations := CollectRecommendations(p);
    var keywords := CollectKeywords(p);
    var completeness := CalculateCompleteness(p);
    var kept := if |strengths| > 0 then Take(strengths, 5) else [DefaultStrength];
    var lacking := if |weaknesses| > 0 then Take(weaknesses, 5) else [DefaultWeakness];
    r := Analysis(
      overallScore := 75,
      sectionScores := FallbackScores(p),
      strengths := Render(kept),
      weaknesses := Render(lacking),
      recommendations := Render(Take(recommendations, 6)),
      keywords := Take(keywords, 5),
      detailedFeedback := if aiResponse != [] then aiResponse else FeedbackTemplate(name),
      completeness := completeness);
  }

  method CollectStrengths(p: Profile) returns (strengths: seq<Remark>)
    ensures strengths == Strengths(p)
  {
    strengths := [];
    strengths := AddListStrengths(p, strengths);
    strengths := AddTextStrengths(p, strengths);
  }

  method AddListStrengths(p: Profile, strengths: seq<Remark>) returns (r: seq<Remark>)
    ensures r == strengths + ListStrengths(p)
  {
    r := strengths;
    if p.experience != [] {
      r := r + [GrowthStrength(|p.experience|)];
    }
    if |p.skills| >= 15 {
      r := r + [PortfolioStrength(|p.skills|)];
    } else if |p.skills| >= 10 {
      r := r + [SkillSetStrength(|p.skills|)];
    }
    if p.education != [] {
      var school := Get(p.education[0], "school", "reputable institution");
      var degree := Get(p.education[0], "degree", "degree");
      r := r + [EducationStrength(degree, school)];
    }
  }

  method AddTextStrengths(p: Profile, strengths: seq<Remark>) returns (r: seq<Remark>)
    ensures r == strengths + TextStrengths(p)
  {
    var headline := HeadlineOf(p);
    var summary := SummaryOf(p);
    r := strengths;
    if headline != [] && |headline| > 30 {
      r := r + [HeadlineStrength(|headline|)];
    }
    if summary != [] && |summary| > 200 {
      r := r + [SummaryStrength(|summary|)];
    }
    if |p.experience| >= 3 {
      r := r + [StabilityStrength];
    }
  }

  method CollectWeaknesses(p: Profile) returns (weaknesses: seq<Remark>)
    ensures weaknesses == Weaknesses(p)
  {
    weaknesses := [];
    weaknesses := AddProfileWeaknesses(p, weaknesses);
    weaknesses := AddExperienceWeaknesses(p, weaknesses);
  }

  method AddProfileWeaknesses(p: Profile, weaknesses: seq<Remark>) returns (r: seq<Remark>)
    ensures r == weaknesses + ProfileWeaknesses(p)
  {
    var headline := HeadlineOf(p);
    var summary := SummaryOf(p);
    r := weaknesses;
    if summary == [] || |summary| < 100 {
      r := r + [SummaryWeakness];
    }
    if |p.skills| < 10 {
      r := r + [SkillsWeakness(|p.skills|)];
    }
    if headline == [] || |headline| < 20 {
      r := r + [HeadlineWeakness];
    }
  }

  method AddExperienceWeaknesses(p: Profile, weaknesses: seq<Remark>) returns (r: seq<Remark>)
    ensures r == weaknesses + ExperienceWeaknesses(p)
  {
    r := weaknesses;
    if |p.experience| < 2 {
      r := r + [ExperienceWeakness];
    }
    var results := FindResults(p.experience);
    if !results {
      r := r + [AchievementWeakness];
    }
  }

  method CollectRecommendations(p: Profile) returns (recommendations: seq<Remark>)
    ensures recommendations == Recommendations(p)
  {
    var summary := SummaryOf(p);
    recommendations := [AchievementsAdvice, KeywordsAdvice, EndorsementsAdvice];
    if summary == [] || |summary| < 100 {
      recommendations := recommendations + [SummaryAdvice];
    }
    if |p.skills| < 15 {
      recommendations := recommendations + [SkillsAdvice];
    }
    recommendations := recommendations + [UpdateAdvice, PhotoAdvice, CertificationAdvice];
  }

  method CollectKeywords(p: Profile) returns (keywords: seq<string>)
    ensures keywords == Keywords(p)
  {
    keywords := [];
    var software := FindMention(p, "software");
    if software {
      keywords := keywords + SoftwareKeywords;
    }
    var manager := FindMention(p, "manager");
    if manager {
      keywords := keywords + ManagerKeywords;
    }
    var engineer := FindMention(p, "engineer");
    if engineer {
      keywords := keywords + EngineerKeywords;
    }
    assert keywords == KeywordGroups(p);
    if |keywords| == 0 {
      keywords := GenericKeywords;
    }
  }

  /* ---------------- properties ---------------- */

  /** The shape of every fallback analysis: overall 75, section scores
      between 50 and 90, one to five strengths and weaknesses, exactly six
      recommendations, three or five keywords, and the model's reply kept as
      the feedback whenever there is one. */
  lemma FallbackShape(p: Profile, aiResponse: string)
    ensures var a := EnhancedFallback(p, aiResponse);
      && a.overallScore == 75
      && 60 <= a.sectionScores.headline <= 80
      && 50 <= a.sectionScores.summary <= 80
      && 70 <= a.sectionScores.experience <= 90
      && 60 <= a.sectionScores.education <= 80
      && 60 <= a.sectionScores.skills <= 90
      && 1 <= |a.strengths| <= 5
      && 1 <= |a.weaknesses| <= 5
      && |a.recommendations| == 6
      && (|a.keywords| == 3 || |a.keywords| == 5)
      && (aiResponse != [] ==> a.detailedFeedback == aiResponse)
      && a.completeness <= 100
  {
    var groups := KeywordGroups(p);
    assert |groups| % 3 == 0;
    assert |Recommendations(p)| >= 6;
  }

  /** One to five strengths, whatever the profile. */
  lemma FallbackStrengthCount(p: Profile, aiResponse: string)
    ensures 1 <= |EnhancedFallback(p, aiResponse).strengths| <= 5
  {
  }

  /** A short or missing summary always brings its advice, right after the
      three fixed ones; a full profile gets only the six fixed ones. */
  lemma FallbackRecommendations(p: Profile)
    ensures |SummaryOf(p)| < 100 ==> Take(Recommendations(p), 6)[3] == SummaryAdvice
    ensures |SummaryOf(p)| >= 100 && |p.skills| >= 15 ==>
      Take(Recommendations(p), 6) == LeadingAdvice + TrailingAdvice
  {
  }

  /** A kept remark is one of the remarks before the cut, or the default. */
  lemma KeptFrom(p: Profile)
    ensures forall x :: x in KeptStrengths(p) ==> x in Strengths(p) || x == DefaultStrength
    ensures forall x :: x in KeptWeaknesses(p) ==> x in Weaknesses(p) || x == DefaultWeakness
  {
  }

  /** A profile is never told both that its summary is missing or brief and
      that it is comprehensive. */
  lemma FallbackSummaryConsistent(p: Profile, k: nat)
    ensures !(SummaryWeakness in KeptWeaknesses(p) && SummaryStrength(k) in KeptStrengths(p))
  {
    KeptFrom(p);
    if SummaryWeakness in KeptWeaknesses(p) {
      assert SummaryWeakness in ProfileWeaknesses(p);
      assert |SummaryOf(p)| < 100;
      assert SummaryStrength(k) !in ListStrengths(p);
      assert SummaryStrength(k) !in TextStrengths(p);
    }
  }

  /** A profile is never told both that its experience is thin and that it
      shows stability over several positions. */
  lemma FallbackExperienceConsistent(p: Profile)
    ensures !(ExperienceWeakness in KeptWeaknesses(p) && StabilityStrength in KeptStrengths(p))
  {
    KeptFrom(p);
    if ExperienceWeakness in KeptWeaknesses(p) {
      assert ExperienceWeakness !in ProfileWeaknesses(p);
      assert ExperienceWeakness in ExperienceWeaknesses(p);
      assert |p.experience| < 2;
      assert StabilityStrength !in ListStrengths(p);
      assert StabilityStrength !in TextStrengths(p);
    }
  }

  /** The generic keywords come exactly when neither the headline nor any
      title mentions software, manager or engineer. */
  lemma FallbackGenericKeywords(p: Profile, aiResponse: string)
    ensures EnhancedFallback(p, aiResponse).keywords == GenericKeywords <==>
      !Mentions(p, "software") && !Mentions(p, "manager") && !Mentions(p, "engineer")
  {
    var groups := KeywordGroups(p);
    if |groups| > 0 {
      var kw := Take(groups, 5);
      assert kw[0] != GenericKeywords[0] by {
        assert kw[0] == groups[0];
        assert groups[0] in {SoftwareKeywords[0], ManagerKeywords[0], EngineerKeywords[0]};
        assert |GenericKeywords[0]| == 24;
        assert |SoftwareKeywords[0]| == 20 && |ManagerKeywords[0]| == 15 && |EngineerKeywords[0]| == 11;
      }
    }
  }

  /** A profile with no experience, few skills, no education and a short
      headline and summary gets the single default strength. */
  lemma FallbackDefaultStrength(p: Profile)
    requires p.experience == [] && |p.skills| < 10 && p.education == []
    requires |HeadlineOf(p)| <= 30 && |SummaryOf(p)| <= 200
    ensures KeptStrengths(p) == [DefaultStrength]
  {
  }

  /** Any experience leads the strengths with the estimate of 1.5 years per
      position. */
  lemma FallbackGrowthFirst(p: Profile)
    requires p.experience != []
    ensures KeptStrengths(p)[0] == GrowthStrength(|p.experience|)
  {
    assert Strengths(p)[0] == GrowthStrength(|p.experience|);
  }

  /** The years text reads back as 1.5 times the count: its whole part is
      the integer part and its last digit the half. */
  lemma {:induction false} YearsTextValue(n: nat)
    ensures var t := YearsText(n);
      DigitsValue(t[..|t| - 2]) == 3 * n / 2
      && t[|t| - 2..] == (if n % 2 == 0 then ".0" else ".5")
  {
    var t := YearsText(n);
    assert t[..|t| - 2] == NatToString(3 * n / 2);
    DigitsValueOfNatToString(3 * n / 2);
  }
}
