/** The career comparison table: up to three selected careers with distinct
    ids, the catalogue entries offered for adding, the text-to-number
    helpers behind the salary, growth and demand rows, and the badges for
    the best value of a row. The catalogue is a parameter. */
module CareerComparison {
  import opened Base
  import opened Types
  import opened Text

  /** No two careers share an id. */
  predicate DistinctIds(cs: seq<Career>)
  {
    forall i, j :: 0 <= i < j < |cs| ==> cs[i].id != cs[j].id
  }

  /** `cs.find(c => c.id === id)` finds something. */
  predicate HasId(cs: seq<Career>, id: string)
  {
    exists i :: 0 <= i < |cs| && cs[i].id == id
  }

  function OtherThan(id: string): Career -> bool
  {
    (c: Career) => c.id != id
  }

  /** A catalogue entry as the comparison lists it, with the three extra fields filled in. */
  function WithDefaults(c: Career): (d: Career)
    ensures d.id == c.id && d.title == c.title && d.skills == c.skills
    ensures d.averageSalary == c.averageSalary && d.growthRate == c.growthRate
    ensures d.timeToComplete == Some("3-6 months") && d.demandLevel == Some("High")
    ensures d.difficulty == Some("Intermediate")
  {
    c.(timeToComplete := Some("3-6 months"), demandLevel := Some("High"), difficulty := Some("Intermediate"))
  }

  function AllWithDefaults(catalogue: seq<Career>): (r: seq<Career>)
    ensures |r| == |catalogue|
    ensures forall i :: 0 <= i < |r| ==> r[i] == WithDefaults(catalogue[i])
  {
    seq(|catalogue|, i requires 0 <= i < |catalogue| => WithDefaults(catalogue[i]))
  }

  /** `availableCareers`: every catalogue entry except the current career,
      in catalogue order, each with the extra fields filled in. */
  function AvailableCareers(catalogue: seq<Career>, currentId: string): (r: seq<Career>)
    ensures |r| <= |catalogue|
    ensures forall i :: 0 <= i < |r| ==> r[i].id != currentId && r[i].demandLevel == Some("High")
    ensures forall i :: 0 <= i < |catalogue| && catalogue[i].id != currentId ==> WithDefaults(catalogue[i]) in r
    ensures SubsequenceOf(r, AllWithDefaults(catalogue))
    ensures forall c :: multiset(r)[c] == if c.id != currentId then multiset(AllWithDefaults(catalogue))[c] else 0
  {
    var all := AllWithDefaults(catalogue);
    FilterMultiplicity(all, OtherThan(currentId));
    var r := Filter(all, OtherThan(currentId));
    forall i | 0 <= i < |r| ensures r[i].demandLevel == Some("High") {
      SubsequenceMember(r, all, i);
    }
    r
  }

  /** Keeping the entries whose id differs from `id` keeps the ids distinct. */
  lemma {:induction false} FilterKeepsDistinctIds(cs: seq<Career>, id: string)
    requires DistinctIds(cs)
    ensures DistinctIds(Filter(cs, OtherThan(id)))
  {
    if cs != [] {
      FilterKeepsDistinctIds(cs[1..], id);
      var rest := Filter(cs[1..], OtherThan(id));
      forall k | 0 <= k < |rest| ensures rest[k].id != cs[0].id {
        SubsequenceMember(rest, cs[1..], k);
      }
    }
  }

  class Comparison {
    /** `currentCareer`. */
    const current: Career
    /** `availableCareers`, fixed when the table opens. */
    const available: seq<Career>
    /** `selectedCareers`. */
    var selected: seq<Career>

    /** At most three careers, no id twice, and the current career never offered. */
    ghost predicate Valid()
      reads this
    {
      |selected| <= 3 && DistinctIds(selected)
      && forall i :: 0 <= i < |available| ==> available[i].id != current.id
    }

    constructor (current: Career, catalogue: seq<Career>)
      ensures Valid()
      ensures this.current == current && available == AvailableCareers(catalogue, current.id)
      ensures selected == [current]
    {
      this.current := current;
      available := AvailableCareers(catalogue, current.id);
      selected := [current];
    }

    /** `addCareerToComparison`: appends only while fewer than three careers
        are selected and none has the same id. */
    method Add(career: Career)
      requires Valid()
      modifies this`selected
      ensures Valid()
      ensures |old(selected)| < 3 && !HasId(old(selected), career.id) ==> selected == old(selected) + [career]
      ensures |old(selected)| >= 3 || HasId(old(selected), career.id) ==> selected == old(selected)
    {
      if |selected| < 3 && !HasId(selected, career.id) {
        selected := selected + [career];
      }
    }

    /** `removeCareerFromComparison`: drops every entry with the id and
        keeps the others in their order. */
    method Remove(careerId: string)
      requires Valid()
      modifies this`selected
      ensures Valid()
      ensures selected == Filter(old(selected), OtherThan(careerId))
      ensures forall i :: 0 <= i < |selected| ==> selected[i].id != careerId
      ensures forall i :: 0 <= i < |old(selected)| && old(selected)[i].id != careerId ==> old(selected)[i] in selected
      ensures SubsequenceOf(selected, old(selected))
      ensures old(|selected| > 0 && selected[0] == current) && careerId != current.id ==>
        |selected| > 0 && selected[0] == current
    {
      FilterKeepsDistinctIds(selected, careerId);
      selected := Filter(selected, OtherThan(careerId));
    }

    /** The buttons for adding careers: the first six available ones while
        fewer than three careers are selected, none otherwise; the current
        career is never offered. */
    function Offers(): (offers: seq<Career>)
      reads this
      ensures |selected| >= 3 ==> offers == []
      ensures |offers| <= 6
      ensures Valid() ==> forall i :: 0 <= i < |offers| ==> offers[i].id != current.id
      ensures |selected| < 3 ==> |offers| == Min(6, |available|) && offers == available[..|offers|]
    {
      if |selected| < 3 then Take(available, 6) else []
    }
  }

  /** `getGrowthRateValue`: `parseInt` after removing the first '%'; `None` is `NaN`. */
  function GrowthRateValue(rate: string): (v: Option<int>)
    ensures v.None? <==> DigitRun(RemoveFirst(rate, '%'), SignEnd(RemoveFirst(rate, '%'))) == []
  {
    ParseInt(RemoveFirst(rate, '%'))
  }

  /** A rate written `N%` reads as `N`. */
  lemma GrowthRateOfPercent(n: nat)
    ensures GrowthRateValue(NatToString(n) + "%") == Some(n)
  {
    var digits := NatToString(n);
    assert '%' !in digits by {
      forall i | 0 <= i < |digits| ensures digits[i] != '%' {
        assert IsDigit(digits[i]);
      }
    }
    RemoveFirstOfAppended(digits, '%');
    assert digits + [] == digits;
    ParseIntOfNatToString(n, []);
  }

  /** The groups of `/\$(\d+),?(\d+)?/`: the digits after the '$', and the
      digits after an optional comma when there are any. */
  datatype SalaryMatch = SalaryMatch(whole: string, rest: Option<string>)

  /** The leftmost match at or after `from`: a '$' followed by a digit. */
  function MatchSalary(s: string, from: nat): (m: Option<SalaryMatch>)
    requires from <= |s|
    ensures m.None? <==> forall p :: from <= p < |s| - 1 ==> !(s[p] == '$' && IsDigit(s[p + 1]))
    ensures m.Some? ==> AllDigits(m.value.whole) && |m.value.whole| > 0
    ensures m.Some? && m.value.rest.Some? ==> AllDigits(m.value.rest.value) && |m.value.rest.value| > 0
    decreases |s| - from
  {
    if from + 1 < |s| && s[from] == '$' && IsDigit(s[from + 1]) then
      var whole := DigitRun(s, from + 1);
      var after := from + 1 + |whole|;
      var restStart := if after < |s| && s[after] == ',' then after + 1 else after;
      var rest := DigitRun(s, restStart);
      Some(SalaryMatch(whole, if rest == [] then None else Some(rest)))
    else if from < |s| then MatchSalary(s, from + 1)
    else None
  }

  /** `getSalaryValue`: the whole part followed by the digits after the
      comma, or by '000' when there are none, read as a number; 0 without a
      match. */
  function SalaryValue(salary: string): (v: nat)
    ensures (forall p :: 0 <= p < |salary| - 1 ==> !(salary[p] == '$' && IsDigit(salary[p + 1]))) ==> v == 0
  {
    match MatchSalary(salary, 0)
    case None => 0
    case Some(m) =>
      var digits := m.whole + (if m.rest.Some? then m.rest.value else "000");
      ParseIntOfDigits(digits, []);
      assert digits + [] == digits;
      ParseInt(digits).value
  }

  /** The match of a text that starts with '$', a run of digits `a`, a
      comma and a run of digits `b`. */
  lemma MatchWithComma(a: string, b: string, tail: string)
    requires AllDigits(a) && |a| > 0 && AllDigits(b) && |b| > 0
    requires tail == [] || !IsDigit(tail[0])
    ensures MatchSalary("$" + a + "," + b + tail, 0) == Some(SalaryMatch(a, Some(b)))
  {
    var s := "$" + a + "," + b + tail;
    assert s[0] == '$' && s[1] == a[0] && s[1 + |a|] == ',';
    assert DigitRun(s, 1) == a by {
      assert s[1..1 + |a|] == a;
      DigitRunUnique(s, 1, a);
    }
    assert DigitRun(s, 2 + |a|) == b by {
      assert s[2 + |a|..2 + |a| + |b|] == b;
      assert 2 + |a| + |b| == |s| || s[2 + |a| + |b|] == tail[0];
      DigitRunUnique(s, 2 + |a|, b);
    }
  }

  /** The match of a text that starts with '$' and a run of digits `a` not
      followed by a comma. */
  lemma MatchWithoutComma(a: string, tail: string)
    requires AllDigits(a) && |a| > 0
    requires tail == [] || (!IsDigit(tail[0]) && tail[0] != ',')
    ensures MatchSalary("$" + a + tail, 0) == Some(SalaryMatch(a, None))
  {
    var s := "$" + a + tail;
    assert s[0] == '$' && s[1] == a[0];
    assert 1 + |a| == |s| || s[1 + |a|] == tail[0];
    assert DigitRun(s, 1) == a by {
      assert s[1..1 + |a|] == a;
      DigitRunUnique(s, 1, a);
    }
    DigitRunUnique(s, 1 + |a|, []);
  }

  /** `$A,B...` reads as the digits of `A` followed by those of `B`. */
  lemma SalaryWithComma(a: string, b: string, tail: string)
    requires AllDigits(a) && |a| > 0 && AllDigits(b) && |b| > 0
    requires tail == [] || !IsDigit(tail[0])
    ensures AllDigits(a + b) && SalaryValue("$" + a + "," + b + tail) == DigitsValue(a + b)
  {
    MatchWithComma(a, b, tail);
    ParseIntOfDigits(a + b, []);
    assert a + b + [] == a + b;
  }

  /** `$A` not followed by a comma and digits reads as `A` thousands. */
  lemma SalaryWithoutComma(a: string, tail: string)
    requires AllDigits(a) && |a| > 0
    requires tail == [] || (!IsDigit(tail[0]) && tail[0] != ',')
    ensures SalaryValue("$" + a + tail) == 1000 * DigitsValue(a)
  {
    MatchWithoutComma(a, tail);
    DigitsValueThousands(a);
    ParseIntOfDigits(a + "000", []);
    assert a + "000" + [] == a + "000";
  }

  /** The salary text of the software engineer's catalogue entry reads as
      95000: the digits before and after the comma. */
  lemma SalaryOfCatalogueEntry(salary: string)
    requires salary == "$95,000 - $150,000"
    ensures SalaryValue(salary) == 95000
  {
    var a, b, tail := "95", "000", " - $150,000";
    assert salary == "$" + a + "," + b + tail;
    SalaryWithComma(a, b, tail);
    DigitsValueThousands(a);
    NinetyFive();
  }

  lemma NinetyFive()
    ensures AllDigits("95") && DigitsValue("95") == 95
  {
    assert "95"[..1] == "9" && "95"[..1][..0] == [];
  }

  /** `getDifficultyScore`: 1, 2, 3 for the three levels, 2 for anything else. */
  function DifficultyScore(difficulty: string): (s: int)
    ensures 1 <= s <= 3
    ensures s == 1 <==> difficulty == "Beginner"
    ensures s == 3 <==> difficulty == "Advanced"
  {
    if difficulty == "Beginner" then 1
    else if difficulty == "Intermediate" then 2
    else if difficulty == "Advanced" then 3
    else 2
  }

  /** `getDemandScore`: 1 to 4 for the four levels, 2 for anything else,
      a missing level included. */
  function DemandScore(demand: Option<string>): (s: int)
    ensures 1 <= s <= 4
    ensures s == 1 <==> demand == Some("Low")
    ensures s == 3 <==> demand == Some("High")
    ensures s == 4 <==> demand == Some("Very High")
    ensures demand.None? ==> s == 2
  {
    match demand
    case None => 2
    case Some(d) =>
      if d == "Low" then 1
      else if d == "Medium" then 2
      else if d == "High" then 3
      else if d == "Very High" then 4
      else 2
  }

  predicate AllDefined(values: seq<Option<int>>)
  {
    forall i :: 0 <= i < |values| ==> values[i].Some?
  }

  /** `Math.max(...values)` over numbers. */
  function MaxOf(values: seq<int>): (m: int)
    requires |values| > 0
    ensures forall i :: 0 <= i < |values| ==> values[i] <= m
    ensures exists i :: 0 <= i < |values| && values[i] == m
  {
    if |values| == 1 then values[0]
    else
      var rest := MaxOf(values[1..]);
      assert forall i :: 1 <= i < |values| ==> values[i] == values[1..][i - 1];
      if values[0] >= rest then values[0] else rest
  }

  /** Entry `i` of a row of values is defined and not below any other. */
  predicate IsBest(values: seq<Option<int>>, i: int)
    requires 0 <= i < |values|
  {
    AllDefined(values) && forall j :: 0 <= j < |values| ==> values[j].value <= values[i].value
  }

  /** The defined values of a row. */
  function Numbers(values: seq<Option<int>>): (ns: seq<int>)
    requires AllDefined(values)
    ensures |ns| == |values| && forall i :: 0 <= i < |values| ==> ns[i] == values[i].value
  {
    seq(|values|, i requires 0 <= i < |values| => values[i].value)
  }

  /** The best-value badge of one row: an entry gets it when its value
      equals the maximum of the row. A `NaN` anywhere (`None`) makes the
      maximum `NaN`, and then no entry gets it. */
  function Badges(values: seq<Option<int>>): (badges: seq<bool>)
    ensures |badges| == |values|
    ensures forall i :: 0 <= i < |values| ==> (badges[i] <==> IsBest(values, i))
  {
    if |values| > 0 && AllDefined(values) then
      var m := MaxOf(Numbers(values));
      var badges := seq(|values|, i requires 0 <= i < |values| => values[i].value == m);
      forall i | 0 <= i < |values| ensures badges[i] <==> IsBest(values, i) {
        var k :| 0 <= k < |values| && Numbers(values)[k] == m;
        assert values[k].value == m;
      }
      badges
    else
      seq(|values|, i => false)
  }

  /** A row of defined values always awards at least one badge. */
  lemma SomeBadge(values: seq<Option<int>>)
    ensures AllDefined(values) && |values| > 0 ==> exists i :: 0 <= i < |values| && Badges(values)[i]
  {
    if AllDefined(values) && |values| > 0 {
      var ns := Numbers(values);
      var m := MaxOf(ns);
      var k :| 0 <= k < |ns| && ns[k] == m;
      assert IsBest(values, k);
      assert Badges(values)[k];
    }
  }

  /** The salaries of the selected careers as numbers. */
  function SalaryValues(selected: seq<Career>): (values: seq<Option<int>>)
    ensures |values| == |selected| && AllDefined(values)
    ensures forall i :: 0 <= i < |selected| ==> values[i] == Some(SalaryValue(selected[i].averageSalary) as int)
  {
    seq(|selected|, i requires 0 <= i < |selected| => Some(SalaryValue(selected[i].averageSalary) as int))
  }

  /** 'Highest' on the salary row: salaries always read as numbers, so a
      non-empty selection always has a highest one. */
  function SalaryBadges(selected: seq<Career>): (badges: seq<bool>)
    ensures |badges| == |selected|
    ensures |selected| > 0 ==> exists i :: 0 <= i < |selected| && badges[i]
    ensures forall i :: 0 <= i < |selected| ==>
      (badges[i] <==> forall j :: 0 <= j < |selected| ==>
         SalaryValue(selected[j].averageSalary) <= SalaryValue(selected[i].averageSalary))
  {
    var values := SalaryValues(selected);
    SomeBadge(values);
    var badges := Badges(values);
    forall i | 0 <= i < |selected|
      ensures badges[i] <==> forall j :: 0 <= j < |selected| ==>
         SalaryValue(selected[j].averageSalary) <= SalaryValue(selected[i].averageSalary)
    {
      assert badges[i] <==> IsBest(values, i);
    }
    badges
  }

  /** The growth rates of the selected careers; `None` for one that is `NaN`. */
  function GrowthValues(selected: seq<Career>): (values: seq<Option<int>>)
    ensures |values| == |selected|
    ensures forall i :: 0 <= i < |selected| ==> values[i] == GrowthRateValue(selected[i].growthRate)
  {
    seq(|selected|, i requires 0 <= i < |selected| => GrowthRateValue(selected[i].growthRate))
  }

  /** 'Fastest' on the growth row: one rate that does not parse takes the
      badge away from every career. */
  function GrowthBadges(selected: seq<Career>): (badges: seq<bool>)
    ensures |badges| == |selected|
    ensures (exists j :: 0 <= j < |selected| && GrowthRateValue(selected[j].growthRate).None?) ==>
      forall i :: 0 <= i < |selected| ==> !badges[i]
    ensures (forall j :: 0 <= j < |selected| ==> GrowthRateValue(selected[j].growthRate).Some?) && |selected| > 0 ==>
      exists i :: 0 <= i < |selected| && badges[i]
    ensures AllDefined(GrowthValues(selected)) ==> forall i :: 0 <= i < |selected| ==>
      (badges[i] <==> forall j :: 0 <= j < |selected| ==> GrowthValues(selected)[j].value <= GrowthValues(selected)[i].value)
  {
    var values := GrowthValues(selected);
    SomeBadge(values);
    Badges(values)
  }

  /** The demand scores of the selected careers. */
  function DemandValues(selected: seq<Career>): (values: seq<Option<int>>)
    ensures |values| == |selected| && AllDefined(values)
    ensures forall i :: 0 <= i < |selected| ==> values[i] == Some(DemandScore(selected[i].demandLevel))
  {
    seq(|selected|, i requires 0 <= i < |selected| => Some(DemandScore(selected[i].demandLevel)))
  }

  /** 'Top Demand' on the demand row; a missing level scores 2. */
  function DemandBadges(selected: seq<Career>): (badges: seq<bool>)
    ensures |badges| == |selected|
    ensures |selected| > 0 ==> exists i :: 0 <= i < |selected| && badges[i]
    ensures forall i :: 0 <= i < |selected| && selected[i].demandLevel == Some("Very High") ==> badges[i]
    ensures forall i :: 0 <= i < |selected| ==>
      (badges[i] <==> forall j :: 0 <= j < |selected| ==>
         DemandScore(selected[j].demandLevel) <= DemandScore(selected[i].demandLevel))
  {
    var values := DemandValues(selected);
    SomeBadge(values);
    var badges := Badges(values);
    forall i | 0 <= i < |selected| && selected[i].demandLevel == Some("Very High") ensures badges[i] {
      assert IsBest(values, i);
    }
    forall i | 0 <= i < |selected|
      ensures badges[i] <==> forall j :: 0 <= j < |selected| ==>
         DemandScore(selected[j].demandLevel) <= DemandScore(selected[i].demandLevel)
    {
      assert badges[i] <==> IsBest(values, i);
    }
    badges
  }
}
