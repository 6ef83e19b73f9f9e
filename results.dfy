/** The results page of the fixed-question assessment: the score cards, the
    readiness shown from the score, the recommended resources and the market
    section. The resource catalogue and the two industry tables are
    parameters. */
module Results {
  import opened Base
  import opened Types
  import AIAssessment

  predicate IsClosed(g: SkillGap) { g.gap == 0 }

  predicate IsOpen(g: SkillGap) { g.gap > 0 }

  /** `strongSkills`: the number of gaps that are closed. */
  function StrongSkills(gaps: seq<SkillGap>): (n: nat)
    ensures n <= |gaps|
    ensures n == 0 <==> forall i :: 0 <= i < |gaps| ==> gaps[i].gap != 0
    ensures n == |gaps| <==> forall i :: 0 <= i < |gaps| ==> gaps[i].gap == 0
    ensures n == |set i | 0 <= i < |gaps| && gaps[i].gap == 0|
  {
    FilterCount(gaps, IsClosed);
    assert Passing(gaps, IsClosed) == set i | 0 <= i < |gaps| && gaps[i].gap == 0;
    FilterKeepsSome(gaps, IsClosed);
    FilterKeepsAll(gaps, IsClosed);
    |Filter(gaps, IsClosed)|
  }

  /** `improvementAreas`: the number of gaps that are still open. */
  function ImprovementAreas(gaps: seq<SkillGap>): (n: nat)
    ensures n <= |gaps|
    ensures n == 0 <==> forall i :: 0 <= i < |gaps| ==> gaps[i].gap <= 0
    ensures n == |gaps| <==> forall i :: 0 <= i < |gaps| ==> gaps[i].gap > 0
    ensures n == |set i | 0 <= i < |gaps| && gaps[i].gap > 0|
  {
    FilterCount(gaps, IsOpen);
    assert Passing(gaps, IsOpen) == set i | 0 <= i < |gaps| && gaps[i].gap > 0;
    FilterKeepsSome(gaps, IsOpen);
    FilterKeepsAll(gaps, IsOpen);
    |Filter(gaps, IsOpen)|
  }

  /** The two cards never count a gap twice, and together they count every
      gap exactly when no gap is negative. */
  lemma SkillCountsCover(gaps: seq<SkillGap>)
    ensures StrongSkills(gaps) + ImprovementAreas(gaps) <= |gaps|
    ensures StrongSkills(gaps) + ImprovementAreas(gaps) == |gaps| <==> forall i :: 0 <= i < |gaps| ==> gaps[i].gap >= 0
  {
    FilterDisjointLength(gaps, IsClosed, IsOpen);
  }

  /** The readiness card: 'High' from 80, 'Medium' from 60, 'Low' below. */
  function DisplayedReadiness(score: int): (r: Readiness)
    ensures r == HighReadiness <==> score >= 80
    ensures r == MediumReadiness <==> 60 <= score < 80
    ensures r == LowReadiness <==> score < 60
  {
    if score >= 80 then HighReadiness else if score >= 60 then MediumReadiness else LowReadiness
  }

  /** The card reads the score, not the stored level: the mock AI result of
      a career without skills, drawn with 0.99, stores 'Medium' but shows 'High'. */
  lemma StoredReadinessIgnored(career: Career)
    requires career.skills == []
    ensures var r := AIAssessment.CompleteAssessment(career, [], 0.99);
      r.overallScore == 89 && r.readinessLevel == MediumReadiness
      && DisplayedReadiness(r.overallScore) == HighReadiness
  {
    assert (0.99 * 30.0).Floor == 29;
  }

  /** A resource teaches a skill whose gap is still open. */
  predicate Teaches(r: Resource, gaps: seq<SkillGap>)
  {
    exists k, j :: 0 <= k < |r.skills| && 0 <= j < |gaps| && r.skills[k] == gaps[j].skill && gaps[j].gap > 0
  }

  function TeachesOpenGap(gaps: seq<SkillGap>): Resource -> bool
  {
    r => Teaches(r, gaps)
  }

  /** `recommendedResources`: the first six catalogue entries that teach an
      open skill, in catalogue order; fewer than six only when no other entry
      qualifies. */
  function RecommendedResources(catalogue: seq<Resource>, gaps: seq<SkillGap>): (r: seq<Resource>)
    ensures |r| <= 6
    ensures SubsequenceOf(r, catalogue)
    ensures forall i :: 0 <= i < |r| ==> r[i] in catalogue && Teaches(r[i], gaps)
    ensures |r| < 6 ==> forall i :: 0 <= i < |catalogue| && Teaches(catalogue[i], gaps) ==> catalogue[i] in r
    ensures FirstPassing(r, catalogue, TeachesOpenGap(gaps), 6)
  {
    var all := Filter(catalogue, TeachesOpenGap(gaps));
    var r := TakeFiltered(catalogue, TeachesOpenGap(gaps), 6);
    assert |r| < 6 ==> r == all;
    r
  }

  /** `companyHiringData[career.id] || []`. */
  function HiringCompanies(table: map<string, seq<Company>>, careerId: string): (cs: seq<Company>)
    ensures careerId !in table ==> cs == []
    ensures careerId in table ==> cs == table[careerId]
  {
    if careerId in table then table[careerId] else []
  }

  /** What the market section receives. */
  datatype MarketView = MarketView(insights: MarketInsight, companies: seq<Company>)

  /** The market section renders only for a career with insights, and then
      receives its companies, none for a career missing from the hiring table. */
  function MarketSection(insightTable: map<string, MarketInsight>, hiringTable: map<string, seq<Company>>,
                         careerId: string): (v: Option<MarketView>)
    ensures v.Some? <==> careerId in insightTable
    ensures v.Some? ==> v.value.insights == insightTable[careerId]
    ensures v.Some? && careerId !in hiringTable ==> v.value.companies == []
    ensures v.Some? && careerId in hiringTable ==> v.value.companies == hiringTable[careerId]
  {
    if careerId in insightTable
    then Some(MarketView(insightTable[careerId], HiringCompanies(hiringTable, careerId)))
    else None
  }
}
