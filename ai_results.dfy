/** The results page of the AI assessment: a badge and a bar per skill gap,
    coloured by the size of the gap. Its resource and company lookups are
    the ones of the fixed-question results page (`Results`). */
module AIResults {
  import opened Base
  import opened Types
  import opened Text

  /** The colour family of a gap's badge and bar. */
  datatype Tone = GreenTone | YellowTone | RedTone

  /** Green for a closed gap, yellow up to two levels, red above. A negative
      gap passes the `<= 2` test and is yellow. */
  function GapTone(gap: int): (t: Tone)
    ensures t == GreenTone <==> gap == 0
    ensures t == YellowTone <==> gap != 0 && gap <= 2
    ensures t == RedTone <==> gap > 2
  {
    if gap == 0 then GreenTone else if gap <= 2 then YellowTone else RedTone
  }

  const LevelsToGo: string := " levels to go"

  /** The badge text: 'Proficient' for a closed gap, otherwise the gap
      followed by ' levels to go'. */
  function BadgeText(gap: int): (t: string)
    ensures t == "Proficient" <==> gap == 0
    ensures gap != 0 ==> t == IntToString(gap) + LevelsToGo
  {
    if gap == 0 then "Proficient" else IntToString(gap) + LevelsToGo
  }

  /** The bar width in percent, `max(20, 100 - 20 * gap)`: never below 20,
      full exactly for a closed gap, at the floor from a gap of four. A
      negative gap gives a bar wider than 100. */
  function BarWidth(gap: int): (w: int)
    ensures w >= 20
    ensures gap >= 0 ==> w <= 100
    ensures w == 100 <==> gap == 0
    ensures w == 20 <==> gap >= 4
    ensures gap < 0 ==> w > 100
  {
    Max(20, 100 - gap * 20)
  }

  /** Over gaps of at least zero, a wider bar never means a larger gap. */
  lemma BarWidthMonotone(a: int, b: int)
    requires 0 <= a <= b
    ensures BarWidth(b) <= BarWidth(a)
  {
  }

  /** Everything one gap row shows: the badge, its colour and the bar. */
  datatype GapRow = GapRow(skill: string, badge: string, tone: Tone, width: int)

  /** One gap row. The badge and the bar agree: a closed gap is the only
      green one, and over gaps of at least zero the only one with a full bar. */
  function Row(g: SkillGap): (row: GapRow)
    ensures row.skill == g.skill
    ensures row.tone == GreenTone <==> row.badge == "Proficient"
    ensures g.gap >= 0 ==> (row.tone == GreenTone <==> row.width == 100)
    ensures row.tone == RedTone ==> row.width <= 40
  {
    GapRow(g.skill, BadgeText(g.gap), GapTone(g.gap), BarWidth(g.gap))
  }
}
