/** The personalised learning path: up to four phases built from the skill
    gaps, the career and the resource catalogue, and the set of phases the
    learner has ticked off. The catalogue is a parameter. */
module LearningPath {
  import opened Base
  import opened Types

  /** The four step ids: 'foundation', 'development', 'specialization', 'portfolio'. */
  datatype StepId = Foundation | Development | Specialization | Portfolio

  function IdText(id: StepId): string
  {
    match id
    case Foundation => "foundation"
    case Development => "development"
    case Specialization => "specialization"
    case Portfolio => "portfolio"
  }

  datatype LearningStep = LearningStep(
    id: StepId,
    title: string,
    duration: string,
    resources: seq<Resource>,
    skills: seq<string>,
    priority: Priority)

  /** `r.skills.some(skill => names.includes(skill))`. */
  predicate Touches(r: Resource, names: seq<string>)
  {
    exists k :: 0 <= k < |r.skills| && r.skills[k] in names
  }

  predicate IsAdvancedFor(r: Resource, careerSkills: seq<string>)
  {
    r.difficulty == Advanced && Touches(r, careerSkills)
  }

  predicate IsTutorial(r: Resource) { r.kind == Tutorial }

  function TouchesAny(names: seq<string>): Resource -> bool
  {
    r => Touches(r, names)
  }

  function AdvancedFor(careerSkills: seq<string>): Resource -> bool
  {
    r => IsAdvancedFor(r, careerSkills)
  }

  predicate HasHigh(gaps: seq<SkillGap>) { exists i :: 0 <= i < |gaps| && IsHigh(gaps[i]) }

  predicate HasMedium(gaps: seq<SkillGap>) { exists i :: 0 <= i < |gaps| && IsMedium(gaps[i]) }

  /** The ids of a path with or without its two conditional phases. */
  function PhaseIds(withFoundation: bool, withDevelopment: bool): (ids: seq<StepId>)
    ensures 2 <= |ids| <= 4 && Distinct(ids)
  {
    (if withFoundation then [Foundation] else [])
      + (if withDevelopment then [Development] else [])
      + [Specialization, Portfolio]
  }

  /** The ids the path has, in order. */
  function ExpectedIds(gaps: seq<SkillGap>): (ids: seq<StepId>)
    ensures 2 <= |ids| <= 4 && Distinct(ids)
  {
    PhaseIds(HasHigh(gaps), HasMedium(gaps))
  }

  function StepIds(steps: seq<LearningStep>): (ids: seq<StepId>)
    ensures |ids| == |steps| && forall i :: 0 <= i < |steps| ==> ids[i] == steps[i].id
  {
    seq(|steps|, i requires 0 <= i < |steps| => steps[i].id)
  }

  predicate AllTouch(rs: seq<Resource>, names: seq<string>)
  {
    forall j :: 0 <= j < |rs| ==> Touches(rs[j], names)
  }

  /** What each kind of phase holds: its resources are the first three (two
      for the portfolio) catalogue entries that qualify, in catalogue order;
      foundation and development cover the 'high' and 'medium' skills with
      resources that teach one of them; specialization covers the first three
      career skills with advanced resources for the career; portfolio lists
      tutorials. Each kind has its own priority: 'high', 'medium', 'medium'
      and 'low' in phase order. */
  ghost predicate WellBuilt(s: LearningStep, career: Career, gaps: seq<SkillGap>, catalogue: seq<Resource>)
  {
    SubsequenceOf(s.resources, catalogue)
    && (s.id == Foundation ==>
          s.skills == SkillNames(Filter(gaps, IsHigh)) && s.priority == HighPriority
          && |s.resources| <= 3 && AllTouch(s.resources, s.skills)
          && FirstPassing(s.resources, catalogue, TouchesAny(s.skills), 3))
    && (s.id == Development ==>
          s.skills == SkillNames(Filter(gaps, IsMedium)) && s.priority == MediumPriority
          && |s.resources| <= 3 && AllTouch(s.resources, s.skills)
          && FirstPassing(s.resources, catalogue, TouchesAny(s.skills), 3))
    && (s.id == Specialization ==>
          s.skills == Take(career.skills, 3) && |s.resources| <= 3
          && s.priority == MediumPriority
          && (forall j :: 0 <= j < |s.resources| ==> IsAdvancedFor(s.resources[j], career.skills))
          && FirstPassing(s.resources, catalogue, AdvancedFor(career.skills), 3))
    && (s.id == Portfolio ==>
          s.skills == PortfolioSkills && s.priority == LowPriority
          && |s.resources| <= 2 && (forall j :: 0 <= j < |s.resources| ==> IsTutorial(s.resources[j]))
          && FirstPassing(s.resources, catalogue, IsTutorial, 2))
  }

  // Titles, durations and fixed skills of the four phases.
  const FoundationTitle: string := "Foundation Phase"
  const DevelopmentTitle: string := "Skill Development Phase"
  const SpecializationTitle: string := "Specialization Phase"
  const PortfolioTitle: string := "Portfolio Building Phase"
  const FoundationDuration: string := "4-8 weeks"
  const DevelopmentDuration: string := "6-10 weeks"
  const SpecializationDuration: string := "8-12 weeks"
  const PortfolioDuration: string := "4-6 weeks"
  const PortfolioSkills: seq<string> := ["Portfolio Development", "Project Management"]

  /** The phase for the gaps of one priority. */
  function GapStep(id: StepId, title: string, duration: string, priority: Priority,
                   selects: SkillGap -> bool, gaps: seq<SkillGap>, catalogue: seq<Resource>): (s: LearningStep)
    ensures s.id == id && s.priority == priority
    ensures s.skills == SkillNames(Filter(gaps, selects))
    ensures |s.resources| <= 3 && SubsequenceOf(s.resources, catalogue) && AllTouch(s.resources, s.skills)
    ensures FirstPassing(s.resources, catalogue, TouchesAny(s.skills), 3)
  {
    var names := SkillNames(Filter(gaps, selects));
    LearningStep(id, title, duration, TakeFiltered(catalogue, TouchesAny(names), 3), names, priority)
  }

  function SpecializationStep(career: Career, gaps: seq<SkillGap>, catalogue: seq<Resource>): (s: LearningStep)
    ensures WellBuilt(s, career, gaps, catalogue) && s.id == Specialization
  {
    LearningStep(Specialization, SpecializationTitle, SpecializationDuration,
      TakeFiltered(catalogue, AdvancedFor(career.skills), 3), Take(career.skills, 3), MediumPriority)
  }

  function PortfolioStep(career: Career, gaps: seq<SkillGap>, catalogue: seq<Resource>): (s: LearningStep)
    ensures WellBuilt(s, career, gaps, catalogue) && s.id == Portfolio
  {
    LearningStep(Portfolio, PortfolioTitle, PortfolioDuration,
      TakeFiltered(catalogue, IsTutorial, 2), PortfolioSkills, LowPriority)
  }

  /** The path laid out from its four candidate phases: the conditional ones
      where their test holds, then the two that are always present. */
  function Assemble(withFoundation: bool, foundation: LearningStep, withDevelopment: bool, development: LearningStep,
                    specialization: LearningStep, portfolio: LearningStep): (steps: seq<LearningStep>)
    ensures |steps| == 2 + (if withFoundation then 1 else 0) + (if withDevelopment then 1 else 0)
    ensures forall i :: 0 <= i < |steps| ==> steps[i] in {foundation, development, specialization, portfolio}
  {
    (if withFoundation then [foundation] else []) + (if withDevelopment then [development] else [])
      + [specialization] + [portfolio]
  }

  function FoundationStep(gaps: seq<SkillGap>, catalogue: seq<Resource>): (s: LearningStep)
    ensures s.id == Foundation && s.priority == HighPriority
  {
    GapStep(Foundation, FoundationTitle, FoundationDuration, HighPriority, IsHigh, gaps, catalogue)
  }

  function DevelopmentStep(gaps: seq<SkillGap>, catalogue: seq<Resource>): (s: LearningStep)
    ensures s.id == Development && s.priority == MediumPriority
  {
    GapStep(Development, DevelopmentTitle, DevelopmentDuration, MediumPriority, IsMedium, gaps, catalogue)
  }

  /** The phases in the order `generateLearningSteps` pushes them. */
  function LearningSteps(career: Career, gaps: seq<SkillGap>, catalogue: seq<Resource>): seq<LearningStep>
  {
    Assemble(|Filter(gaps, IsHigh)| > 0, FoundationStep(gaps, catalogue),
             |Filter(gaps, IsMedium)| > 0, DevelopmentStep(gaps, catalogue),
             SpecializationStep(career, gaps, catalogue), PortfolioStep(career, gaps, catalogue))
  }

  /** Laying out phases with the four ids gives the ids in that layout. */
  lemma AssembleIds(withFoundation: bool, foundation: LearningStep, withDevelopment: bool, development: LearningStep,
                    specialization: LearningStep, portfolio: LearningStep)
    requires foundation.id == Foundation && development.id == Development
    requires specialization.id == Specialization && portfolio.id == Portfolio
    ensures StepIds(Assemble(withFoundation, foundation, withDevelopment, development, specialization, portfolio))
         == PhaseIds(withFoundation, withDevelopment)
  {
    var steps := Assemble(withFoundation, foundation, withDevelopment, development, specialization, portfolio);
    var ids := PhaseIds(withFoundation, withDevelopment);
    assert |StepIds(steps)| == |ids|;
    forall i | 0 <= i < |ids| ensures StepIds(steps)[i] == ids[i] {
      if withFoundation && i == 0 {
        assert steps[i] == foundation;
      } else if withDevelopment && i == (if withFoundation then 1 else 0) {
        assert steps[i] == development;
      } else if i == |ids| - 2 {
        assert steps[i] == specialization;
      } else {
        assert steps[i] == portfolio;
      }
    }
  }

  /** Foundation comes first iff some gap is 'high', development next iff
      some gap is 'medium', then specialization and portfolio: two to four
      phases with distinct ids. */
  lemma LearningStepIds(career: Career, gaps: seq<SkillGap>, catalogue: seq<Resource>)
    ensures StepIds(LearningSteps(career, gaps, catalogue)) == ExpectedIds(gaps)
    ensures 2 <= |LearningSteps(career, gaps, catalogue)| <= 4
  {
    FilterKeepsSome(gaps, IsHigh);
    FilterKeepsSome(gaps, IsMedium);
    AssembleIds(|Filter(gaps, IsHigh)| > 0, FoundationStep(gaps, catalogue),
                |Filter(gaps, IsMedium)| > 0, DevelopmentStep(gaps, catalogue),
                SpecializationStep(career, gaps, catalogue), PortfolioStep(career, gaps, catalogue));
  }

  /** Every phase of the path is well built (see `WellBuilt`). */
  lemma LearningStepsWellBuilt(career: Career, gaps: seq<SkillGap>, catalogue: seq<Resource>)
    ensures forall i :: 0 <= i < |LearningSteps(career, gaps, catalogue)| ==>
      WellBuilt(LearningSteps(career, gaps, catalogue)[i], career, gaps, catalogue)
  {
    var f, d := FoundationStep(gaps, catalogue), DevelopmentStep(gaps, catalogue);
    var sp, po := SpecializationStep(career, gaps, catalogue), PortfolioStep(career, gaps, catalogue);
    assert WellBuilt(f, career, gaps, catalogue) && WellBuilt(d, career, gaps, catalogue);
    var steps := LearningSteps(career, gaps, catalogue);
    forall i | 0 <= i < |steps| ensures WellBuilt(steps[i], career, gaps, catalogue) {
      assert steps[i] in {f, d, sp, po};
    }
  }

  /** `generateLearningSteps`: pushes a foundation phase when some gap is
      'high', a development phase when some gap is 'medium', then the
      specialization and portfolio phases. The phases are plain values, so
      building all four before the pushes changes nothing. */
  method GenerateLearningSteps(career: Career, gaps: seq<SkillGap>, catalogue: seq<Resource>)
    returns (steps: seq<LearningStep>)
    ensures steps == LearningSteps(career, gaps, catalogue)
  {
    var critical := Filter(gaps, IsHigh);
    var moderate := Filter(gaps, IsMedium);
    var foundation := FoundationStep(gaps, catalogue);
    var development := DevelopmentStep(gaps, catalogue);
    var specialization := SpecializationStep(career, gaps, catalogue);
    var portfolio := PortfolioStep(career, gaps, catalogue);
    ghost var head := if |critical| > 0 then [foundation] else [];
    ghost var middle := if |moderate| > 0 then [development] else [];
    steps := [];
    if |critical| > 0 {
      steps := steps + [foundation];
    }
    assert steps == head;
    if |moderate| > 0 {
      steps := steps + [development];
    }
    assert steps == head + middle;
    steps := steps + [specialization];
    steps := steps + [portfolio];
    assert steps == head + middle + [specialization] + [portfolio];
  }

  /** `toggleStepCompletion` on the set of completed ids. */
  function Toggled(completed: set<StepId>, id: StepId): (r: set<StepId>)
    ensures id in r <==> id !in completed
    ensures forall x :: x != id ==> (x in r <==> x in completed)
  {
    if id in completed then completed - {id} else completed + {id}
  }

  /** Ticking a phase twice leaves the completed set as it was. */
  lemma ToggleTwice(completed: set<StepId>, id: StepId)
    ensures Toggled(Toggled(completed, id), id) == completed
  {
  }

  class PathProgress {
    /** `learningSteps`, computed once from the gaps. */
    const steps: seq<LearningStep>
    /** `completedSteps`. */
    var completed: set<StepId>

    /** Only ids of phases on screen are ever ticked. */
    ghost predicate Valid()
      reads this
    {
      completed <= Elements(StepIds(steps))
    }

    constructor (steps: seq<LearningStep>)
      ensures Valid()
      ensures this.steps == steps && completed == {}
    {
      this.steps := steps;
      completed := {};
    }

    /** Flips the membership of `id`; the buttons only pass phase ids. */
    method ToggleStepCompletion(id: StepId)
      requires Valid() && id in StepIds(steps)
      modifies this`completed
      ensures Valid()
      ensures completed == Toggled(old(completed), id)
    {
      if id in completed {
        completed := completed - {id};
      } else {
        completed := completed + {id};
      }
    }

    /** The first phase is always active; any later one once its predecessor
        is ticked. */
    function IsActive(index: nat): (active: bool)
      reads this
      requires index < |steps|
      ensures index == 0 ==> active
      ensures index > 0 ==> (active <==> steps[index - 1].id in completed)
    {
      index == 0 || steps[index - 1].id in completed
    }

    /** `completedSteps.size / learningSteps.length * 100`: never above 100,
      and exactly 100 when the phase ids are distinct and all ticked. */
    function CompletionPercentage(): (p: real)
      reads this
      requires Valid() && |steps| > 0
      ensures 0.0 <= p <= 100.0
      ensures Distinct(StepIds(steps)) ==> (p == 100.0 <==> completed == Elements(StepIds(steps)))
    {
      var ids := StepIds(steps);
      ElementsCard(ids);
      SubsetCard(completed, Elements(ids));
      assert |completed| <= |steps|;
      Percentage(|completed|, |steps|);
      |completed| as real / |steps| as real * 100.0
    }
  }

  /** `done / total * 100` for `done <= total`: between 0 and 100, and 100
      exactly when everything is done. */
  lemma Percentage(done: nat, total: nat)
    requires done <= total && 0 < total
    ensures 0.0 <= done as real / total as real * 100.0 <= 100.0
    ensures done as real / total as real * 100.0 == 100.0 <==> done == total
  {
    var q, t := done as real / total as real, total as real;
    assert q * t == done as real;
    assert (1.0 - q) * t == t - done as real;
    PositiveFactor(q, t);
    PositiveFactor(1.0 - q, t);
  }

  /** A product with a positive factor has the sign of the other factor. */
  lemma PositiveFactor(x: real, t: real)
    requires t > 0.0
    ensures x * t >= 0.0 ==> x >= 0.0
    ensures x * t == 0.0 ==> x == 0.0
  {
  }
}
