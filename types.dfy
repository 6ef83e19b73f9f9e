/** The records shared by the components: questions, skill gaps, assessment
    results, careers, learning resources and the rows of the assessment
    history. Only the fields that some modelled logic reads are kept. */
module Types {
  import opened Base

  /** `Question.type`. */
  datatype QuestionKind = MultipleChoice | Scale | TextAnswer

  datatype Question = Question(
    id: string,
    question: string,
    kind: QuestionKind,
    options: Option<seq<string>>,
    skill: string)

  /** `SkillGap.priority`: 'high' | 'medium' | 'low'. */
  datatype Priority = HighPriority | MediumPriority | LowPriority

  datatype SkillGap = SkillGap(
    skill: string,
    currentLevel: int,
    requiredLevel: int,
    gap: int,
    priority: Priority)

  /** `AssessmentResult.readinessLevel`: 'Low' | 'Medium' | 'High'. */
  datatype Readiness = LowReadiness | MediumReadiness | HighReadiness

  datatype AssessmentResult = AssessmentResult(
    overallScore: int,
    skillGaps: seq<SkillGap>,
    recommendations: seq<string>,
    readinessLevel: Readiness,
    completionTime: Option<int>,
    strengths: Option<seq<string>>,
    improvementAreas: Option<seq<string>>,
    nextSteps: Option<seq<string>>)

  /** The text a template literal prints for a readiness level. */
  function ReadinessName(r: Readiness): string
  {
    match r
    case LowReadiness => "Low"
    case MediumReadiness => "Medium"
    case HighReadiness => "High"
  }

  /** `Career` (and `CareerPath`, the same record without the optional fields). */
  datatype Career = Career(
    id: string,
    title: string,
    category: string,
    skills: seq<string>,
    averageSalary: string,
    growthRate: string,
    timeToComplete: Option<string>,
    demandLevel: Option<string>,
    difficulty: Option<string>)

  datatype ResourceKind = Course | Book | Video | Tutorial | Certification

  datatype Difficulty = Beginner | Intermediate | Advanced

  datatype Resource = Resource(
    id: string,
    title: string,
    kind: ResourceKind,
    difficulty: Difficulty,
    skills: seq<string>)

  predicate IsHigh(g: SkillGap) { g.priority == HighPriority }

  predicate IsMedium(g: SkillGap) { g.priority == MediumPriority }

  predicate IsLow(g: SkillGap) { g.priority == LowPriority }

  /** `gaps.map(g => g.skill)`. */
  function SkillNames(gaps: seq<SkillGap>): (r: seq<string>)
    ensures |r| == |gaps|
    ensures forall i :: 0 <= i < |gaps| ==> r[i] == gaps[i].skill
  {
    seq(|gaps|, i requires 0 <= i < |gaps| => gaps[i].skill)
  }

  /** The skill names of `gaps.filter(p)` are exactly the names of the gaps
      that satisfy `p`. */
  lemma FilteredNames(gaps: seq<SkillGap>, p: SkillGap -> bool)
    ensures forall i :: 0 <= i < |gaps| && p(gaps[i]) ==> gaps[i].skill in SkillNames(Filter(gaps, p))
    ensures forall j :: 0 <= j < |SkillNames(Filter(gaps, p))| ==>
      exists i :: 0 <= i < |gaps| && p(gaps[i]) && gaps[i].skill == SkillNames(Filter(gaps, p))[j]
  {
    var kept := Filter(gaps, p);
    var names := SkillNames(kept);
    forall i | 0 <= i < |gaps| && p(gaps[i]) ensures gaps[i].skill in names {
      var k :| 0 <= k < |kept| && kept[k] == gaps[i];
      assert names[k] == gaps[i].skill;
    }
    forall j | 0 <= j < |names|
      ensures exists i :: 0 <= i < |gaps| && p(gaps[i]) && gaps[i].skill == names[j]
    {
      SubsequenceMember(kept, gaps, j);
      var i :| 0 <= i < |gaps| && gaps[i] == kept[j];
      assert gaps[i].skill == names[j];
    }
  }

  /** `assessment_type` of a stored assessment. */
  datatype AssessmentKind = Standard | AI

  /** A row of the stored assessment history; `createdAt` is the creation
      instant in milliseconds. */
  datatype HistoryEntry = HistoryEntry(
    careerPath: string,
    kind: AssessmentKind,
    overallScore: int,
    readinessLevel: string,
    createdAt: int)

  /** `CompanyHiring.type`. */
  datatype CompanyKind = MNC | Service | Product | Startup

  /** A hiring company; the other fields only feed the markup. */
  datatype Company = Company(id: string, name: string, kind: CompanyKind)

  /** The part of `MarketInsights` that the modelled logic reads. */
  datatype MarketInsight = MarketInsight(careerPath: string, competitionLevel: string, demandTrend: string)
}
