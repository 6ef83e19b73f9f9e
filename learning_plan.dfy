/** The pure helpers of the learning-plan service: time and cost estimates,
    the study schedule, job titles per career, the fixed timeline, the
    default three-phase path, the default insight text and the skill analysis
    built from an assessment's gaps. */
module LearningPlan {
  import opened Base
  import opened Types

  const TimeToImprove: seq<string> := [
    "Already proficient", "2-4 weeks", "1-2 months", "2-3 months", "3-4 months", "4-6 months"]
  const LongTime: string := "6+ months"

  /** `estimateTimeToImprove`: the table entry for a gap of 0 to 5, otherwise
      six months or more. Every table entry is distinct from the fallback, so
      the fallback appears exactly outside the table. */
  function EstimateTimeToImprove(gap: int): (t: string)
    ensures t == LongTime <==> gap < 0 || gap > 5
    ensures t == "Already proficient" <==> gap == 0
    ensures 0 <= gap <= 5 ==> t == TimeToImprove[gap]
  {
    if 0 <= gap <= 5 then TimeToImprove[gap] else LongTime
  }

  const DefaultCost: string := "$50-150"

  /** `estimateCost`: the cost band of the four known recommendation types,
      and a default band for anything else. */
  function EstimateCost(kind: string): (c: string)
    ensures kind == "course" ==> c == "$50-200"
    ensures kind == "certification" ==> c == "$100-500"
    ensures kind == "book" ==> c == "$20-50"
    ensures kind == "tutorial" ==> c == "Free-$50"
    ensures c == DefaultCost <==> kind !in {"course", "certification", "book", "tutorial"}
  {
    if kind == "course" then "$50-200"
    else if kind == "certification" then "$100-500"
    else if kind == "book" then "$20-50"
    else if kind == "tutorial" then "Free-$50"
    else DefaultCost
  }

  datatype StudySchedule = StudySchedule(dailyHours: string, weeklyGoals: seq<string>, monthlyMilestones: seq<string>)

  /** `generateStudySchedule`: more daily hours exactly when there are more
      than five gaps; the goals and milestones never change. */
  function GenerateStudySchedule(skillCount: int): (s: StudySchedule)
    ensures s.dailyHours == "2-3 hours" <==> skillCount > 5
    ensures s.dailyHours == "1-2 hours" <==> skillCount <= 5
    ensures |s.weeklyGoals| == 4 && |s.monthlyMilestones| == 4
  {
    StudySchedule(
      if skillCount > 5 then "2-3 hours" else "1-2 hours",
      ["Complete 1-2 learning modules", "Practice hands-on exercises",
       "Review and reinforce concepts", "Work on practical projects"],
      ["Complete foundation phase", "Build first project", "Master core concepts", "Prepare for next phase"])
  }

  const KnownTitles: seq<string> := [
    "Software Engineer", "Data Scientist", "Product Manager", "UX/UI Designer",
    "Digital Marketing Specialist", "Cybersecurity Analyst"]
  const GenericRoles: seq<string> := ["Entry Level Positions", "Junior Roles", "Internships"]

  /** `getJobOpportunities`: four roles for each of the six known titles,
      three generic roles for any other title. */
  function GetJobOpportunities(careerTitle: string): (roles: seq<string>)
    ensures careerTitle in KnownTitles ==> |roles| == 4
    ensures careerTitle !in KnownTitles ==> roles == GenericRoles
    ensures |roles| == 4 <==> careerTitle in KnownTitles
  {
    if careerTitle == "Software Engineer" then
      ["Junior Developer", "Full Stack Developer", "Frontend Developer", "Backend Developer"]
    else if careerTitle == "Data Scientist" then
      ["Data Analyst", "ML Engineer", "Research Scientist", "Business Intelligence Analyst"]
    else if careerTitle == "Product Manager" then
      ["Associate PM", "Product Owner", "Strategy Analyst", "Business Analyst"]
    else if careerTitle == "UX/UI Designer" then
      ["UI Designer", "UX Researcher", "Product Designer", "Visual Designer"]
    else if careerTitle == "Digital Marketing Specialist" then
      ["Marketing Coordinator", "SEO Specialist", "Content Marketer", "Social Media Manager"]
    else if careerTitle == "Cybersecurity Analyst" then
      ["Security Analyst", "SOC Analyst", "Penetration Tester", "Security Consultant"]
    else GenericRoles
  }

  datatype Timeline = Timeline(shortTerm: seq<string>, mediumTerm: seq<string>, longTerm: seq<string>)

  const FixedTimeline: Timeline := Timeline(
    ["Complete skill assessment", "Start foundation courses", "Set up learning environment", "Join relevant communities"],
    ["Complete core skill development", "Build portfolio projects", "Gain practical experience", "Network with professionals"],
    ["Achieve target skill levels", "Apply for relevant positions", "Continue advanced learning", "Mentor others in the field"])

  /** `generateTimeline`: the priority counts it computes are never used, so
      every list of gaps gives the same timeline of three four-item terms. */
  function GenerateTimeline(skillGaps: seq<SkillGap>): (t: Timeline)
    ensures t == FixedTimeline
    ensures |t.shortTerm| == 4 && |t.mediumTerm| == 4 && |t.longTerm| == 4
  {
    FixedTimeline
  }

  datatype PlanResource = PlanResource(title: string, kind: string, provider: string, duration: string, priority: string)

  datatype Phase = Phase(
    phase: string,
    duration: string,
    skills: seq<string>,
    resources: seq<PlanResource>,
    milestones: seq<string>)

  datatype LearningPath = LearningPath(totalDuration: string, phases: seq<Phase>)

  /** `generateDefaultLearningPath`: three phases over the career's skills cut
      at 3 and 6, each with one resource named after the career. */
  function GenerateDefaultLearningPath(career: Career): (p: LearningPath)
    ensures |p.phases| == 3
    ensures p.phases[0].skills == Take(career.skills, 3)
    ensures p.phases[1].skills == Slice(career.skills, 3, 6)
    ensures p.phases[2].skills == Drop(career.skills, 6)
    ensures forall i :: 0 <= i < 3 ==> |p.phases[i].resources| == 1 && |p.phases[i].milestones| == 2
  {
    LearningPath("6-9 months", [
      Phase("Foundation Phase", "6-8 weeks", Take(career.skills, 3),
        [PlanResource("Introduction to " + career.title, "course", "Online Learning Platform", "4-6 weeks", "high")],
        ["Understand basic concepts", "Complete introductory projects"]),
      Phase("Development Phase", "8-12 weeks", Slice(career.skills, 3, 6),
        [PlanResource("Advanced " + career.title + " Skills", "course", "Professional Platform", "8-10 weeks", "high")],
        ["Build complex projects", "Master intermediate concepts"]),
      Phase("Specialization Phase", "6-8 weeks", Drop(career.skills, 6),
        [PlanResource(career.title + " Specialization", "certification", "Industry Leader", "6-8 weeks", "medium")],
        ["Achieve specialization", "Prepare for job market"])])
  }

  /** The three phases of the default path cover the career's skills exactly
      once each, in order, whatever the number of skills. */
  lemma DefaultPathCoversSkills(career: Career)
    ensures var ph := GenerateDefaultLearningPath(career).phases;
      ph[0].skills + ph[1].skills + ph[2].skills == career.skills
  {
    var s := career.skills;
    if |s| <= 3 {
      assert Take(s, 3) == s;
    } else if |s| <= 6 {
      assert Take(s, 3) + Slice(s, 3, 6) == s[..3] + s[3..];
    } else {
      assert s == s[..3] + s[3..6] + s[6..];
    }
  }

  /** The potential word of the default insights. */
  function PotentialWord(overallScore: int): (w: string)
    ensures w == "strong" <==> overallScore >= 70
    ensures w == "developing" <==> overallScore < 70
  {
    if overallScore >= 70 then "strong" else "developing"
  }

  /** The readiness clause of the default insights. */
  function ReadinessClause(readiness: Readiness): (c: string)
    ensures c == "you are well-prepared to advance" <==> readiness == HighReadiness
    ensures c == "there are key areas for improvement" <==> readiness != HighReadiness
  {
    if readiness == HighReadiness then "you are well-prepared to advance" else "there are key areas for improvement"
  }

  const InsightsClosing: string :=
    ". Focus on strengthening your weaker skills while leveraging your existing strengths to accelerate your learning journey."

  const InsightsOpening: string := "Based on your assessment for "
  const InsightsPotential: string := " potential in this field. Your current readiness level is "

  /** The part of the default insights after the career title. */
  function InsightsTail(result: AssessmentResult): string
  {
    InsightsShow + PotentialWord(result.overallScore) + InsightsPotential
      + ReadinessName(result.readinessLevel) + ", indicating " + ReadinessClause(result.readinessLevel)
      + InsightsClosing
  }

  /** `generateDefaultInsights`: a fixed text around the career title, the
      potential word, the readiness name and its clause. */
  function GenerateDefaultInsights(career: Career, result: AssessmentResult): (text: string)
    ensures |text| > |InsightsOpening| + |career.title|
    ensures text[..|InsightsOpening| + |career.title|] == InsightsOpening + career.title
  {
    var head := InsightsOpening + career.title;
    assert (head + InsightsTail(result))[..|head|] == head;
    head + InsightsTail(result)
  }

  /** The insight text sees the score only through the 70-point threshold and
      nothing of the result but the score and the readiness level. */
  lemma InsightsDependOnThreshold(career: Career, r1: AssessmentResult, r2: AssessmentResult)
    requires r1.readinessLevel == r2.readinessLevel
    requires r1.overallScore >= 70 <==> r2.overallScore >= 70
    ensures GenerateDefaultInsights(career, r1) == GenerateDefaultInsights(career, r2)
  {
    assert PotentialWord(r1.overallScore) == PotentialWord(r2.overallScore);
  }

  const InsightsShow: string := ", you show "

  /** Indexing into a sentence of seven pieces: the first letters of its second and fourth pieces. */
  lemma PieceLetters(a: string, w: string, p: string, n: string, b: string, c: string, d: string)
    requires |w| > 0 && |n| > 0
    ensures var t := a + w + p + n + b + c + d;
      |a| + |w| + |p| < |t| && t[|a|] == w[0] && t[|a| + |w| + |p|] == n[0]
  {
    var t := a + w + p + n + b + c + d;
    assert t == a + w + p + n + (b + c + d);
    assert (a + w + p + n)[|a|] == w[0];
  }

  /** Where the potential word and the readiness name start in the insight text. */
  lemma InsightsLetters(career: Career, result: AssessmentResult)
    ensures var k := |InsightsOpening| + |career.title| + |InsightsShow|;
      var t := GenerateDefaultInsights(career, result);
      var w := PotentialWord(result.overallScore);
      k + |w| + |InsightsPotential| < |t|
      && t[k] == w[0] && t[k + |w| + |InsightsPotential|] == ReadinessName(result.readinessLevel)[0]
  {
    var w := PotentialWord(result.overallScore);
    var name := ReadinessName(result.readinessLevel);
    assert |w| > 0 && |name| > 0;
    PieceLetters(InsightsShow, w, InsightsPotential, name, ", indicating ", ReadinessClause(result.readinessLevel),
      InsightsClosing);
  }

  /** Conversely, the text gives away the side of the threshold: two results
      with the same insight text for a career are both at least 70 or both
      below. */
  lemma InsightsRevealThreshold(career: Career, r1: AssessmentResult, r2: AssessmentResult)
    requires GenerateDefaultInsights(career, r1) == GenerateDefaultInsights(career, r2)
    ensures r1.overallScore >= 70 <==> r2.overallScore >= 70
  {
    InsightsLetters(career, r1);
    InsightsLetters(career, r2);
  }

  /** ... and the readiness level: two results with the same insight text
      for a career have the same level. */
  lemma InsightsRevealReadiness(career: Career, r1: AssessmentResult, r2: AssessmentResult)
    requires GenerateDefaultInsights(career, r1) == GenerateDefaultInsights(career, r2)
    ensures r1.readinessLevel == r2.readinessLevel
  {
    InsightsRevealThreshold(career, r1, r2);
    InsightsLetters(career, r1);
    InsightsLetters(career, r2);
    assert PotentialWord(r1.overallScore) == PotentialWord(r2.overallScore);
    ReadinessInitials(r1.readinessLevel, r2.readinessLevel);
  }

  /** The three readiness names start with different letters. */
  lemma ReadinessInitials(a: Readiness, b: Readiness)
    ensures ReadinessName(a)[0] == ReadinessName(b)[0] ==> a == b
  {
  }

  /** One entry of `skillAnalysis.skillGaps`. */
  datatype AnalysedGap = AnalysedGap(
    skill: string,
    currentLevel: int,
    targetLevel: int,
    gap: int,
    priority: Priority,
    estimatedTime: string)

  datatype SkillAnalysis = SkillAnalysis(skillGaps: seq<AnalysedGap>, prioritySkills: seq<string>, strongSkills: seq<string>)

  predicate IsClosed(g: SkillGap) { g.gap == 0 }

  /** The `skillAnalysis` record of a plan. */
  function AnalyseSkills(gaps: seq<SkillGap>): (a: SkillAnalysis)
    ensures |a.skillGaps| == |gaps|
    ensures forall i :: 0 <= i < |gaps| ==>
      a.skillGaps[i].skill == gaps[i].skill && a.skillGaps[i].currentLevel == gaps[i].currentLevel
      && a.skillGaps[i].targetLevel == gaps[i].requiredLevel && a.skillGaps[i].gap == gaps[i].gap
      && a.skillGaps[i].priority == gaps[i].priority
      && a.skillGaps[i].estimatedTime == EstimateTimeToImprove(gaps[i].gap)
    ensures a.prioritySkills == SkillNames(Filter(gaps, IsHigh))
    ensures a.strongSkills == SkillNames(Filter(gaps, IsClosed))
  {
    SkillAnalysis(
      seq(|gaps|, i requires 0 <= i < |gaps| =>
        AnalysedGap(gaps[i].skill, gaps[i].currentLevel, gaps[i].requiredLevel, gaps[i].gap,
                    gaps[i].priority, EstimateTimeToImprove(gaps[i].gap))),
      SkillNames(Filter(gaps, IsHigh)),
      SkillNames(Filter(gaps, IsClosed)))
  }

  /** The priority skills are the names of exactly the high-priority gaps, and
      the strong skills the names of exactly the closed gaps, in input order. */
  lemma SkillAnalysisLists(gaps: seq<SkillGap>)
    ensures var a := AnalyseSkills(gaps);
      (forall i :: 0 <= i < |gaps| && IsHigh(gaps[i]) ==> gaps[i].skill in a.prioritySkills)
      && (forall j :: 0 <= j < |a.prioritySkills| ==>
            exists i :: 0 <= i < |gaps| && IsHigh(gaps[i]) && gaps[i].skill == a.prioritySkills[j])
      && (forall i :: 0 <= i < |gaps| && gaps[i].gap == 0 ==> gaps[i].skill in a.strongSkills)
      && (forall j :: 0 <= j < |a.strongSkills| ==>
            exists i :: 0 <= i < |gaps| && gaps[i].gap == 0 && gaps[i].skill == a.strongSkills[j])
  {
    FilteredNames(gaps, IsHigh);
    FilteredNames(gaps, IsClosed);
  }
}
