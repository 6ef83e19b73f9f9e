/** The skill-gap breakdown: gaps bucketed into critical, moderate and strong
    lists, a time estimate per gap size and the estimated months to readiness. */
module SkillGapAnalysis {
  import opened Base
  import opened Types

  predicate IsStrong(g: SkillGap) { g.priority == LowPriority || g.gap == 0 }

  /** The critical list: the 'high' gaps, in input order. */
  function Critical(gaps: seq<SkillGap>): (r: seq<SkillGap>)
    ensures forall i :: 0 <= i < |r| ==> r[i] in gaps && IsHigh(r[i])
    ensures forall i :: 0 <= i < |gaps| && IsHigh(gaps[i]) ==> gaps[i] in r
    ensures SubsequenceOf(r, gaps)
    ensures forall g :: multiset(r)[g] == if IsHigh(g) then multiset(gaps)[g] else 0
  {
    FilterMultiplicity(gaps, IsHigh);
    var r := Filter(gaps, IsHigh);
    forall i | 0 <= i < |r| ensures r[i] in gaps {
      SubsequenceMember(r, gaps, i);
    }
    r
  }

  /** The moderate list: the 'medium' gaps, in input order. */
  function Moderate(gaps: seq<SkillGap>): (r: seq<SkillGap>)
    ensures forall i :: 0 <= i < |r| ==> r[i] in gaps && IsMedium(r[i])
    ensures forall i :: 0 <= i < |gaps| && IsMedium(gaps[i]) ==> gaps[i] in r
    ensures SubsequenceOf(r, gaps)
    ensures forall g :: multiset(r)[g] == if IsMedium(g) then multiset(gaps)[g] else 0
  {
    FilterMultiplicity(gaps, IsMedium);
    var r := Filter(gaps, IsMedium);
    forall i | 0 <= i < |r| ensures r[i] in gaps {
      SubsequenceMember(r, gaps, i);
    }
    r
  }

  /** The strong list: the 'low' gaps together with every closed gap. */
  function Strong(gaps: seq<SkillGap>): (r: seq<SkillGap>)
    ensures forall i :: 0 <= i < |r| ==> r[i] in gaps && (IsLow(r[i]) || r[i].gap == 0)
    ensures forall i :: 0 <= i < |gaps| && (IsLow(gaps[i]) || gaps[i].gap == 0) ==> gaps[i] in r
    ensures SubsequenceOf(r, gaps)
    ensures forall g :: multiset(r)[g] == if IsLow(g) || g.gap == 0 then multiset(gaps)[g] else 0
  {
    FilterMultiplicity(gaps, IsStrong);
    var r := Filter(gaps, IsStrong);
    forall i | 0 <= i < |r| ensures r[i] in gaps {
      SubsequenceMember(r, gaps, i);
    }
    r
  }

  /** No gap is both critical and moderate. */
  lemma CriticalModerateDisjoint(gaps: seq<SkillGap>)
    ensures forall i :: 0 <= i < |Critical(gaps)| ==> Critical(gaps)[i] !in Moderate(gaps)
  {
  }

  /** The strong list is not disjoint from the others: a closed gap that is
      still marked 'high' is listed both as critical and as strong. */
  lemma StrongOverlapsCritical(skill: string, level: int)
    ensures var g := SkillGap(skill, level, level, 0, HighPriority);
      g in Critical([g]) && g in Strong([g])
  {
    var g := SkillGap(skill, level, level, 0, HighPriority);
    assert [g][0] == g;
  }

  const WeeksTable: seq<string> := ["0 weeks", "2-4 weeks", "1-2 months", "2-3 months", "3-4 months", "4-6 months"]

  /** `getEstimatedTime`: the table entry for a gap of 0 to 5, otherwise six
      months or more; no table entry equals the fallback. */
  function GetEstimatedTime(gap: int): (t: string)
    ensures t == "6+ months" <==> gap < 0 || gap > 5
    ensures t == "0 weeks" <==> gap == 0
    ensures 0 <= gap <= 5 ==> t == WeeksTable[gap]
  {
    if 0 <= gap <= 5 then WeeksTable[gap] else "6+ months"
  }

  /** Estimated months to readiness: two per critical gap, one per moderate
      gap. It never exceeds two months per gap, and reaches that bound
      exactly when every gap is critical. */
  function TotalMonths(gaps: seq<SkillGap>): (months: nat)
    ensures months == 2 * |Critical(gaps)| + |Moderate(gaps)|
    ensures months <= 2 * |gaps|
    ensures months == 2 * |gaps| <==> forall i :: 0 <= i < |gaps| ==> IsHigh(gaps[i])
  {
    FilterDisjointLength(gaps, IsHigh, IsMedium);
    FilterKeepsAll(gaps, IsHigh);
    2 * |Critical(gaps)| + |Moderate(gaps)|
  }
}
