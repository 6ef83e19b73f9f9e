/** The career catalogue, transcribed from the static reference table: the
    fields that the question bank, the comparison view and the learning-plan
    helpers read. */
module Careers {
  import opened Base
  import opened Types

  // The ids and skill lists of the six catalogue entries.
  const SoftwareEngineerId: string := "software-engineer"
  const DataScientistId: string := "data-scientist"
  const ProductManagerId: string := "product-manager"
  const UxDesignerId: string := "ux-designer"
  const DigitalMarketerId: string := "digital-marketer"
  const CybersecurityAnalystId: string := "cybersecurity-analyst"

  const SoftwareEngineerSkills: seq<string> :=
    ["JavaScript", "Python", "React", "Node.js", "Database Management", "System Design", "Problem Solving", "Version Control"]
  const DataScientistSkills: seq<string> :=
    ["Python", "R", "SQL", "Machine Learning", "Statistics", "Data Visualization", "Big Data", "Business Intelligence"]
  const ProductManagerSkills: seq<string> :=
    ["Strategic Planning", "Market Research", "User Experience", "Agile Methodology", "Communication", "Analytics", "Leadership", "Stakeholder Management"]
  const UxDesignerSkills: seq<string> :=
    ["User Research", "Wireframing", "Prototyping", "Design Tools", "Information Architecture", "Usability Testing", "Visual Design", "Interaction Design"]
  const DigitalMarketerSkills: seq<string> :=
    ["SEO/SEM", "Social Media Marketing", "Content Marketing", "Email Marketing", "Analytics", "PPC Advertising", "Marketing Automation", "Brand Strategy"]
  const CybersecurityAnalystSkills: seq<string> :=
    ["Network Security", "Threat Analysis", "Incident Response", "Security Tools", "Risk Assessment", "Compliance", "Ethical Hacking", "Security Policies"]

  /** The six career paths; each one's skills are what `SkillsOf` finds under its id. */
  function CareerPaths(): (r: seq<Career>)
    ensures |r| == 6
    ensures forall i :: 0 <= i < |r| ==> SkillsOf(r[i].id) == r[i].skills
  {
    [
      Career(SoftwareEngineerId, "Software Engineer", "Technology", SoftwareEngineerSkills,
        "$95,000 - $150,000", "22%", None, None, None),
      Career(DataScientistId, "Data Scientist", "Technology", DataScientistSkills,
        "$100,000 - $170,000", "35%", None, None, None),
      Career(ProductManagerId, "Product Manager", "Management", ProductManagerSkills,
        "$110,000 - $180,000", "19%", None, None, None),
      Career(UxDesignerId, "UX/UI Designer", "Design", UxDesignerSkills,
        "$80,000 - $130,000", "13%", None, None, None),
      Career(DigitalMarketerId, "Digital Marketing Specialist", "Marketing", DigitalMarketerSkills,
        "$55,000 - $90,000", "10%", None, None, None),
      Career(CybersecurityAnalystId, "Cybersecurity Analyst", "Security", CybersecurityAnalystSkills,
        "$90,000 - $140,000", "31%", None, None, None)
    ]
  }

  /** The skills of the catalogue entry with the given id (empty when unknown). */
  function SkillsOf(careerId: string): seq<string>
  {
    if careerId == SoftwareEngineerId then SoftwareEngineerSkills
    else if careerId == DataScientistId then DataScientistSkills
    else if careerId == ProductManagerId then ProductManagerSkills
    else if careerId == UxDesignerId then UxDesignerSkills
    else if careerId == DigitalMarketerId then DigitalMarketerSkills
    else if careerId == CybersecurityAnalystId then CybersecurityAnalystSkills
    else []
  }
}
