/** The market section of a results page: the competition badge, the trend
    icon and the hiring companies grouped by kind. Startups are never listed. */
module MarketInsights {
  import opened Base
  import opened Types

  function OfKind(kind: CompanyKind): Company -> bool
  {
    (c: Company) => c.kind == kind
  }

  /** `companies.filter(c => c.type === kind)`: the companies of one kind, in
      their order, none left out. */
  function CompaniesOfKind(companies: seq<Company>, kind: CompanyKind): (r: seq<Company>)
    ensures |r| <= |companies|
    ensures forall i :: 0 <= i < |r| ==> r[i].kind == kind && r[i] in companies
    ensures forall i :: 0 <= i < |companies| && companies[i].kind == kind ==> companies[i] in r
    ensures SubsequenceOf(r, companies)
  {
    var r := Filter(companies, OfKind(kind));
    forall i | 0 <= i < |r| ensures r[i] in companies {
      SubsequenceMember(r, companies, i);
    }
    r
  }

  /** A group lists every copy of a company of its kind and no other company. */
  lemma CompaniesOfKindCopies(companies: seq<Company>, kind: CompanyKind)
    ensures forall c ::
      multiset(CompaniesOfKind(companies, kind))[c] == if c.kind == kind then multiset(companies)[c] else 0
  {
    FilterMultiplicity(companies, OfKind(kind));
  }

  /** The three listed groups and the unlisted startups together hold each
      company exactly once. */
  lemma {:induction false} KindsPartition(companies: seq<Company>)
    ensures |CompaniesOfKind(companies, MNC)| + |CompaniesOfKind(companies, Service)|
      + |CompaniesOfKind(companies, Product)| + |CompaniesOfKind(companies, Startup)| == |companies|
  {
    if companies != [] {
      KindsPartition(companies[1..]);
    }
  }

  /** Some company of this kind is present. */
  predicate Hires(companies: seq<Company>, kind: CompanyKind)
  {
    exists i :: 0 <= i < |companies| && companies[i].kind == kind
  }

  /** A group's list is non-empty exactly when a company of its kind is present. */
  lemma GroupNonEmpty(companies: seq<Company>, kind: CompanyKind)
    ensures |CompaniesOfKind(companies, kind)| > 0 <==> Hires(companies, kind)
  {
    FilterKeepsSome(companies, OfKind(kind));
    assert Hires(companies, kind) <==> exists i :: 0 <= i < |companies| && OfKind(kind)(companies[i]);
  }

  /** One group's section: present only when the group has a company. */
  function Section(companies: seq<Company>, kind: CompanyKind): seq<CompanyKind>
  {
    if |CompaniesOfKind(companies, kind)| > 0 then [kind] else []
  }

  /** The groups shown, in page order: a group appears exactly when a company
      of its kind is present, and startups never do. */
  function ShownGroups(companies: seq<Company>): (groups: seq<CompanyKind>)
    ensures Startup !in groups
    ensures MNC in groups <==> Hires(companies, MNC)
    ensures Service in groups <==> Hires(companies, Service)
    ensures Product in groups <==> Hires(companies, Product)
  {
    GroupNonEmpty(companies, MNC);
    GroupNonEmpty(companies, Service);
    GroupNonEmpty(companies, Product);
    Section(companies, MNC) + Section(companies, Service) + Section(companies, Product)
  }

  /** A startup is never listed: it belongs to no shown group. */
  lemma StartupsNotListed(companies: seq<Company>, c: Company)
    requires c.kind == Startup
    ensures c !in CompaniesOfKind(companies, MNC) && c !in CompaniesOfKind(companies, Service)
      && c !in CompaniesOfKind(companies, Product)
  {
  }

  const LowCompetition: string := "text-green-600 bg-green-100"
  const MediumCompetition: string := "text-yellow-600 bg-yellow-100"
  const HighCompetition: string := "text-orange-600 bg-orange-100"
  const VeryHighCompetition: string := "text-red-600 bg-red-100"
  const UnknownCompetition: string := "text-gray-600 bg-gray-100"

  predicate KnownCompetition(level: string)
  {
    level == "Low" || level == "Medium" || level == "High" || level == "Very High"
  }

  /** `getCompetitionColor`: one colour per known level, grey for anything else. */
  function CompetitionColor(level: string): (c: string)
    ensures c == UnknownCompetition <==> !KnownCompetition(level)
    ensures c == LowCompetition <==> level == "Low"
    ensures c == MediumCompetition <==> level == "Medium"
    ensures c == HighCompetition <==> level == "High"
    ensures c == VeryHighCompetition <==> level == "Very High"
  {
    match level
    case "Low" => LowCompetition
    case "Medium" => MediumCompetition
    case "High" => HighCompetition
    case "Very High" => VeryHighCompetition
    case _ => UnknownCompetition
  }

  /** Different known levels never share a colour. */
  lemma CompetitionColorsDistinct(a: string, b: string)
    requires KnownCompetition(a) && KnownCompetition(b) && a != b
    ensures CompetitionColor(a) != CompetitionColor(b)
  {
  }

  /** What `getTrendIcon` draws. */
  datatype TrendIcon = RisingArrow | StableDot | FallingArrow

  /** `getTrendIcon`: a rising arrow for 'Growing', a dot for 'Stable', a
      falling arrow for anything else. */
  function TrendIconOf(trend: string): (icon: TrendIcon)
    ensures icon == RisingArrow <==> trend == "Growing"
    ensures icon == StableDot <==> trend == "Stable"
    ensures icon == FallingArrow <==> trend != "Growing" && trend != "Stable"
  {
    if trend == "Growing" then RisingArrow else if trend == "Stable" then StableDot else FallingArrow
  }

  /** The company-detail dialog: `selectedCompany` and its setter. */
  class CompanyDialog {
    var selected: Option<Company>

    /** Nothing is selected when the section first renders. */
    constructor ()
      ensures selected == None && !Shown()
    {
      selected := None;
    }

    /** The dialog is on screen exactly while a company is selected. */
    function Shown(): (shown: bool)
      reads this
      ensures shown <==> selected.Some?
    {
      selected != None
    }

    /** Clicking a company card opens the dialog on that company. */
    method Select(c: Company)
      modifies this
      ensures selected == Some(c) && Shown()
    {
      selected := Some(c);
    }

    /** The close button clears the selection, which hides the dialog. */
    method Close()
      modifies this
      ensures selected == None && !Shown()
    {
      selected := None;
    }
  }
}
