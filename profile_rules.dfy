/** The rules the optimizer agent applies to the profile itself, without the
    model's reply: completeness, experience level, the prompt formatters and
    the section lookup (agents.py:425-492, 862-888). */
module ProfileRules {
  import opened Wrappers
  import opened Text
  import opened ProfileData

  /* ---------------- completeness ---------------- */

  /** Points for the skills section: 15 from ten skills, 10 from five, 5
      for any. */
  function SkillPoints(n: nat): (r: nat)
    ensures r <= 15
    ensures r == 15 <==> n >= 10
    ensures r == 0 <==> n == 0
  {
    if n >= 10 then 15 else if n >= 5 then 10 else if n > 0 then 5 else 0
  }

  function Points(present: bool, weight: nat): nat {
    if present then weight else 0
  }

  /** Name, headline and summary: 30 points. */
  function BasicPoints(p: Profile): nat {
    Points(Truthy(p.name), 5) + Points(Truthy(p.headline), 10) + Points(Truthy(p.summary), 15)
  }

  /** Experience and education: 40 points. */
  function CareerPoints(p: Profile): nat {
    Points(p.experience != [], 25) + Points(p.education != [], 15)
  }

  /** Certifications, languages and volunteer work: 15 points. */
  function ExtraPoints(p: Profile): nat {
    Points(p.certifications != [], 5) + Points(p.languages != [], 5) + Points(p.volunteer != [], 5)
  }

  /** The weighted sum before the cap at 100. */
  function RawCompleteness(p: Profile): nat {
    BasicPoints(p) + CareerPoints(p) + SkillPoints(|p.skills|) + ExtraPoints(p)
  }

  /** `_calculate_completeness`: the weighted sum, capped at 100. */
  function Completeness(p: Profile): (r: nat)
    ensures r <= 100
  {
    if RawCompleteness(p) < 100 then RawCompleteness(p) else 100
  }

  /** The accumulation written as the source writes it, one group of
      sections at a time. */
  method CalculateCompleteness(p: Profile) returns (score: nat)
    ensures score == Completeness(p)
  {
    var sum := 0;
    sum := AddBasicInfo(p, sum);
    sum := AddCareer(p, sum);
    sum := AddSkills(p, sum);
    sum := AddExtras(p, sum);
    score := if sum < 100 then sum else 100;
  }

  method AddBasicInfo(p: Profile, score: nat) returns (sum: nat)
    ensures sum == score + BasicPoints(p)
  {
    sum := score;
    if Truthy(p.name) { sum := sum + 5; }
    if Truthy(p.headline) { sum := sum + 10; }
    if Truthy(p.summary) { sum := sum + 15; }
  }

  method AddCareer(p: Profile, score: nat) returns (sum: nat)
    ensures sum == score + CareerPoints(p)
  {
    sum := score;
    if p.experience != [] { sum := sum + 25; }
    if p.education != [] { sum := sum + 15; }
  }

  method AddSkills(p: Profile, score: nat) returns (sum: nat)
    ensures sum == score + SkillPoints(|p.skills|)
  {
    sum := score;
    var skillsCount := |p.skills|;
    if skillsCount >= 10 {
      sum := sum + 15;
    } else if skillsCount >= 5 {
      sum := sum + 10;
    } else if skillsCount > 0 {
      sum := sum + 5;
    }
  }

  method AddExtras(p: Profile, score: nat) returns (sum: nat)
    ensures sum == score + ExtraPoints(p)
  {
    sum := score;
    if p.certifications != [] { sum := sum + 5; }
    if p.languages != [] { sum := sum + 5; }
    if p.volunteer != [] { sum := sum + 5; }
  }

  /** The weights add up to exactly 100, so the cap never changes the sum. */
  lemma CompletenessUncapped(p: Profile)
    ensures RawCompleteness(p) <= 100
    ensures Completeness(p) == RawCompleteness(p)
  {
  }

  /** A profile scores 100 exactly when every section is filled and at
      least ten skills are listed. */
  lemma CompletenessFull(p: Profile)
    ensures Completeness(p) == 100 <==>
      Truthy(p.name) && Truthy(p.headline) && Truthy(p.summary)
      && p.experience != [] && p.education != [] && |p.skills| >= 10
      && p.certifications != [] && p.languages != [] && p.volunteer != []
  {
  }

  /** `q` has every section `p` has, and at least as many skills. */
  predicate Covers(q: Profile, p: Profile) {
    (Truthy(p.name) ==> Truthy(q.name))
    && (Truthy(p.headline) ==> Truthy(q.headline))
    && (Truthy(p.summary) ==> Truthy(q.summary))
    && (p.experience != [] ==> q.experience != [])
    && (p.education != [] ==> q.education != [])
    && |p.skills| <= |q.skills|
    && (p.certifications != [] ==> q.certifications != [])
    && (p.languages != [] ==> q.languages != [])
    && (p.volunteer != [] ==> q.volunteer != [])
  }

  /** Filling in a section never lowers the completeness. */
  lemma CompletenessMonotone(p: Profile, q: Profile)
    requires Covers(q, p)
    ensures Completeness(p) <= Completeness(q)
  {
    assert BasicPoints(p) <= BasicPoints(q);
    assert CareerPoints(p) <= CareerPoints(q);
    assert SkillPoints(|p.skills|) <= SkillPoints(|q.skills|);
    assert ExtraPoints(p) <= ExtraPoints(q);
  }

  /* ---------------- experience level ---------------- */

  datatype Level = EntryLevel | MidLevel | SeniorLevel | ExecutiveLevel

  /** The label the source returns. */
  function LevelName(l: Level): string {
    match l
    case EntryLevel => "Entry Level"
    case MidLevel => "Mid Level"
    case SeniorLevel => "Senior Level"
    case ExecutiveLevel => "Executive Level"
  }

  function Rank(l: Level): nat {
    match l
    case EntryLevel => 0
    case MidLevel => 1
    case SeniorLevel => 2
    case ExecutiveLevel => 3
  }

  /** `_assess_experience_level`: an estimate of 1.5 years per position
      compared with 2, 5 and 10 years; the comparisons are scaled by 2 so
      that the estimate stays an integer (3n < 4, 3n < 10, 3n < 20). */
  function ExperienceLevel(p: Profile): Level {
    var n := |p.experience|;
    if n == 0 then EntryLevel
    else if 3 * n < 4 then EntryLevel
    else if 3 * n < 10 then MidLevel
    else if 3 * n < 20 then SeniorLevel
    else ExecutiveLevel
  }

  /** The level by number of positions: 0-1 entry, 2-3 mid, 4-6 senior, 7
      and more executive. */
  lemma ExperienceLevelBands(p: Profile)
    ensures ExperienceLevel(p) == EntryLevel <==> |p.experience| <= 1
    ensures ExperienceLevel(p) == MidLevel <==> 2 <= |p.experience| <= 3
    ensures ExperienceLevel(p) == SeniorLevel <==> 4 <= |p.experience| <= 6
    ensures ExperienceLevel(p) == ExecutiveLevel <==> |p.experience| >= 7
  {
  }

  /** More positions never give a lower level. */
  lemma ExperienceLevelMonotone(p: Profile, q: Profile)
    requires |p.experience| <= |q.experience|
    ensures Rank(ExperienceLevel(p)) <= Rank(ExperienceLevel(q))
  {
  }

  /* ---------------- prompt formatters ---------------- */

  const Bullet: string := "\U{2022} "

  /** The description of an experience entry as the formatter shows it:
      cut to 200 characters with "..." when longer, "No description" when
      missing. */
  function Description(e: Entry): (r: string)
    ensures |r| <= 203
    ensures "description" !in e ==> r == "No description"
    ensures "description" in e && |e["description"]| <= 200 ==> r == e["description"]
    ensures "description" in e && |e["description"]| > 200 ==>
      r == e["description"][..200] + "..."
  {
    if |Get(e, "description", "")| > 200 then Get(e, "description", "No description")[..200] + "..."
    else Get(e, "description", "No description")
  }

  /** One formatted experience: "• title at company (duration)" and the
      description on an indented second line. */
  function ExperienceLine(e: Entry): string {
    Bullet + Get(e, "title", "N/A") + " at " + Get(e, "company", "N/A")
    + " (" + Get(e, "duration", "N/A") + ")\n  " + Description(e)
  }

  /** The formatted entries: the first three only. */
  function ExperienceEntries(exps: seq<Entry>): (r: seq<string>)
    ensures |r| == if |exps| < 3 then |exps| else 3
    ensures forall i :: 0 <= i < |r| ==> r[i] == ExperienceLine(exps[i])
  {
    var n := if |exps| < 3 then |exps| else 3;
    seq(n, i requires 0 <= i < n => ExperienceLine(exps[i]))
  }

  /** `_format_experience` */
  function ExperienceText(exps: seq<Entry>): string {
    if exps == [] then "No experience listed" else Join("\n", ExperienceEntries(exps))
  }

  method FormatExperience(exps: seq<Entry>) returns (r: string)
    ensures r == ExperienceText(exps)
  {
    if exps == [] {
      return "No experience listed";
    }
    var n := if |exps| < 3 then |exps| else 3;
    var formatted: seq<string> := [];
    var i := 0;
    while i < n
      invariant 0 <= i <= n
      invariant |formatted| == i
      invariant forall k :: 0 <= k < i ==> formatted[k] == ExperienceLine(exps[k])
    {
      var e := exps[i];
      var title := Get(e, "title", "N/A");
      var company := Get(e, "company", "N/A");
      var duration := Get(e, "duration", "N/A");
      var description := Description(e);
      formatted := formatted + [Bullet + title + " at " + company + " (" + duration + ")\n  " + description];
      i := i + 1;
    }
    assert formatted == ExperienceEntries(exps);
    r := Join("\n", formatted);
  }

  /** Entries after the third never show in the text. */
  lemma ExperienceTextTopThree(a: seq<Entry>, b: seq<Entry>)
    requires |a| >= 3
    ensures ExperienceText(a + b) == ExperienceText(a)
  {
    assert ExperienceEntries(a + b) == ExperienceEntries(a);
  }

  /** A single entry with a short description is shown whole. */
  lemma ExperienceTextSingle(e: Entry)
    requires "description" in e && |e["description"]| <= 200
    ensures ExperienceText([e]) ==
      Bullet + Get(e, "title", "N/A") + " at " + Get(e, "company", "N/A")
      + " (" + Get(e, "duration", "N/A") + ")\n  " + e["description"]
  {
    assert ExperienceEntries([e]) == [ExperienceLine(e)];
  }

  /** One formatted education: "• degree from school (duration)". */
  function EducationLine(e: Entry): string {
    Bullet + Get(e, "degree", "N/A") + " from " + Get(e, "school", "N/A")
    + " (" + Get(e, "duration", "N/A") + ")"
  }

  /** Every education entry, in order. */
  function EducationEntries(eds: seq<Entry>): (r: seq<string>)
    ensures |r| == |eds|
    ensures forall i :: 0 <= i < |r| ==> r[i] == EducationLine(eds[i])
  {
    seq(|eds|, i requires 0 <= i < |eds| => EducationLine(eds[i]))
  }

  /** `_format_education` */
  function EducationText(eds: seq<Entry>): string {
    if eds == [] then "No education listed" else Join("\n", EducationEntries(eds))
  }

  method FormatEducation(eds: seq<Entry>) returns (r: string)
    ensures r == EducationText(eds)
  {
    if eds == [] {
      return "No education listed";
    }
    var formatted: seq<string> := [];
    for i := 0 to |eds|
      invariant |formatted| == i
      invariant forall k :: 0 <= k < i ==> formatted[k] == EducationLine(eds[k])
    {
      var e := eds[i];
      var school := Get(e, "school", "N/A");
      var degree := Get(e, "degree", "N/A");
      var duration := Get(e, "duration", "N/A");
      formatted := formatted + [Bullet + degree + " from " + school + " (" + duration + ")"];
    }
    assert formatted == EducationEntries(eds);
    r := Join("\n", formatted);
  }

  /** An entry whose values hold no line break. */
  predicate OneLine(e: Entry) {
    forall k :: k in e ==> '\n' !in e[k]
  }

  /** With single-line values, every education entry is exactly one line of
      the text, in order. */
  lemma {:induction false} EducationTextLines(eds: seq<Entry>)
    requires eds != []
    requires forall i :: 0 <= i < |eds| ==> OneLine(eds[i])
    ensures Split(EducationText(eds), "\n") == EducationEntries(eds)
  {
    var lines := EducationEntries(eds);
    forall i | 0 <= i < |lines| ensures '\n' !in lines[i] {
      EducationLineOneLine(eds[i]);
    }
    SplitJoin(lines, '\n');
  }

  lemma EducationLineOneLine(e: Entry)
    requires OneLine(e)
    ensures '\n' !in EducationLine(e)
  {
    var d := Get(e, "degree", "N/A");
    var s := Get(e, "school", "N/A");
    var t := Get(e, "duration", "N/A");
    assert '\n' !in d && '\n' !in s && '\n' !in t;
    assert EducationLine(e) == Bullet + d + " from " + s + " (" + t + ")";
  }

  /* ---------------- section lookup ---------------- */

  /** `_get_section_content`: the headline, the summary or the formatted
      experience; any other section name is not found. */
  function SectionContent(p: Profile, section: string): (r: string)
    ensures section == "headline" ==> r == GetOr(p.headline, "No headline")
    ensures section == "summary" ==> r == GetOr(p.summary, "No summary")
    ensures section == "experience" ==> r == ExperienceText(p.experience)
    ensures section !in {"headline", "summary", "experience"} ==> r == "Section not found"
  {
    if section == "headline" then GetOr(p.headline, "No headline")
    else if section == "summary" then GetOr(p.summary, "No summary")
    else if section == "experience" then ExperienceText(p.experience)
    else "Section not found"
  }

  /** The content of a section depends only on the field it names, and for
      the experience only on its first three entries. */
  lemma SectionContentLocal(p: Profile, q: Profile, section: string)
    requires section == "headline" ==> p.headline == q.headline
    requires section == "summary" ==> p.summary == q.summary
    requires section == "experience" ==>
      p.experience == q.experience ||
      (|p.experience| >= 3 && |q.experience| >= 3 && p.experience[..3] == q.experience[..3])
    ensures SectionContent(p, section) == SectionContent(q, section)
  {
    if section == "experience" && p.experience != q.experience {
      var top := p.experience[..3];
      assert p.experience == top + p.experience[3..];
      assert q.experience == top + q.experience[3..];
      ExperienceTextTopThree(top, p.experience[3..]);
      ExperienceTextTopThree(top, q.experience[3..]);
    }
  }
}
