/** The fixed question bank: five questions per known career, looked up by
    career id, with the empty list for any other id. */
module QuestionBank {
  import opened Base
  import opened Types
  import opened Text
  import opened Careers

  /** The six ids that have an entry in the bank. */
  predicate IsKnownCareer(id: string)
  {
    || id == SoftwareEngineerId || id == DataScientistId || id == ProductManagerId
    || id == UxDesignerId || id == DigitalMarketerId || id == CybersecurityAnalystId
  }

  /** The shape every question of the bank has: a multiple-choice question
      offers exactly four options, a scale question none, and no question
      asks for free text. */
  predicate WellFormedQuestion(q: Question)
  {
    && (q.kind == MultipleChoice ==> q.options.Some? && |q.options.value| == 4)
    && (q.kind == Scale ==> q.options.None?)
    && q.kind != TextAnswer
  }

  /** Question `i` of a list has id `<prefix>-<i+1>`. */
  predicate NumberedIds(qs: seq<Question>, prefix: string)
  {
    forall i :: 0 <= i < |qs| ==> qs[i].id == prefix + "-" + NatToString(i + 1)
  }

  /** Every question assesses one of the given skills. */
  predicate AssessesSkillsOf(qs: seq<Question>, skills: seq<string>)
  {
    forall i :: 0 <= i < |qs| ==> qs[i].skill in skills
  }

  /** The shape of one career's entry: five well-formed questions numbered
      under one prefix, each assessing one of the career's catalogue skills. */
  predicate CareerBank(qs: seq<Question>, prefix: string, skills: seq<string>)
  {
    && |qs| == 5
    && (forall i :: 0 <= i < |qs| ==> WellFormedQuestion(qs[i]))
    && NumberedIds(qs, prefix)
    && AssessesSkillsOf(qs, skills)
  }

  /** `generateQuestions(careerPath)`: `questionBank[careerPath] || []`. A known
      career gets its five questions, numbered `<prefix>-1` to `<prefix>-5`,
      each assessing a skill the catalogue lists for that career. */
  function GenerateQuestions(careerPath: string): (r: seq<Question>)
    ensures !IsKnownCareer(careerPath) ==> r == []
    ensures IsKnownCareer(careerPath) ==> CareerBank(r, IdPrefix(careerPath), SkillsOf(careerPath))
    ensures forall i :: 0 <= i < |r| ==> WellFormedQuestion(r[i])
  {
    if careerPath == SoftwareEngineerId then SoftwareEngineerQuestions()
    else if careerPath == DataScientistId then DataScientistQuestions()
    else if careerPath == ProductManagerId then ProductManagerQuestions()
    else if careerPath == UxDesignerId then UxDesignerQuestions()
    else if careerPath == DigitalMarketerId then DigitalMarketerQuestions()
    else if careerPath == CybersecurityAnalystId then CybersecurityAnalystQuestions()
    else []
  }

  // The prompt texts of the bank, one constant per question id.
  const PromptSe1: string := "How comfortable are you with JavaScript programming?"
  const PromptSe2: string := "Which best describes your experience with React?"
  const PromptSe3: string := "How would you rate your problem-solving abilities in coding challenges?"
  const PromptSe4: string := "What is your experience with version control systems like Git?"
  const PromptSe5: string := "How confident are you in database design and management?"
  const PromptDs1: string := "What is your proficiency level in Python for data analysis?"
  const PromptDs2: string := "How familiar are you with machine learning algorithms?"
  const PromptDs3: string := "Rate your statistical analysis knowledge"
  const PromptDs4: string := "How comfortable are you with SQL for data querying?"
  const PromptDs5: string := "What is your experience with data visualization tools?"
  const PromptPm1: string := "How experienced are you in strategic planning and roadmapping?"
  const PromptPm2: string := "What is your experience with user experience research?"
  const PromptPm3: string := "Rate your leadership and team management skills"
  const PromptPm4: string := "How familiar are you with Agile methodologies?"
  const PromptPm5: string := "Rate your analytical and data interpretation skills"
  const PromptUx1: string := "How proficient are you in user research methodologies?"
  const PromptUx2: string := "What is your experience with design tools like Figma or Sketch?"
  const PromptUx3: string := "Rate your wireframing and prototyping abilities"
  const PromptUx4: string := "How comfortable are you with usability testing?"
  const PromptUx5: string := "What is your experience with information architecture?"
  const PromptDm1: string := "How experienced are you with SEO and SEM strategies?"
  const PromptDm2: string := "What is your proficiency in social media marketing?"
  const PromptDm3: string := "Rate your content creation and marketing skills"
  const PromptDm4: string := "How comfortable are you with marketing analytics tools?"
  const PromptDm5: string := "What is your experience with PPC advertising?"
  const PromptCs1: string := "How proficient are you in network security principles?"
  const PromptCs2: string := "What is your experience with threat analysis and detection?"
  const PromptCs3: string := "Rate your incident response capabilities"
  const PromptCs4: string := "How familiar are you with security tools and technologies?"
  const PromptCs5: string := "What is your experience with risk assessment?"

  /** The two-letter prefix of the question ids of each career. */
  function IdPrefix(careerPath: string): string
  {
    if careerPath == SoftwareEngineerId then "se"
    else if careerPath == DataScientistId then "ds"
    else if careerPath == ProductManagerId then "pm"
    else if careerPath == UxDesignerId then "ux"
    else if careerPath == DigitalMarketerId then "dm"
    else "cs"
  }

  /** Ids numbered `<prefix>-1` to `<prefix>-9` under one prefix are pairwise
      distinct: they differ in the digit after the prefix. With
      `GenerateQuestions`, the ids of one career's questions never clash. */
  lemma NumberedIdsDistinct(qs: seq<Question>, prefix: string)
    requires NumberedIds(qs, prefix) && |qs| <= 9
    ensures forall i, j :: 0 <= i < j < |qs| ==> qs[i].id != qs[j].id
  {
    forall i, j | 0 <= i < j < |qs|
      ensures qs[i].id != qs[j].id
    {
      assert NatToString(i + 1) == [DigitChar(i + 1)];
      assert NatToString(j + 1) == [DigitChar(j + 1)];
      assert qs[i].id[|prefix| + 1] == DigitChar(i + 1);
      assert qs[j].id[|prefix| + 1] == DigitChar(j + 1);
    }
  }

  function SoftwareEngineerQuestions(): (r: seq<Question>)
    ensures CareerBank(r, "se", SoftwareEngineerSkills)
  {
    [
      Question("se-1", PromptSe1, Scale, None, "JavaScript"),
      Question("se-2", PromptSe2, MultipleChoice, Some(["Never used it", "Basic understanding", "Built several projects", "Expert level"]), "React"),
      Question("se-3", PromptSe3, Scale, None, "Problem Solving"),
      Question("se-4", PromptSe4, MultipleChoice, Some(["No experience", "Basic commands", "Comfortable with branching", "Advanced workflows"]), "Version Control"),
      Question("se-5", PromptSe5, Scale, None, "Database Management")
    ]
  }

  function DataScientistQuestions(): (r: seq<Question>)
    ensures CareerBank(r, "ds", DataScientistSkills)
  {
    [
      Question("ds-1", PromptDs1, Scale, None, "Python"),
      Question("ds-2", PromptDs2, MultipleChoice, Some(["Not familiar", "Know basic concepts", "Implemented several models", "Expert in ML"]), "Machine Learning"),
      Question("ds-3", PromptDs3, Scale, None, "Statistics"),
      Question("ds-4", PromptDs4, Scale, None, "SQL"),
      Question("ds-5", PromptDs5, MultipleChoice, Some(["Never used any", "Basic charts", "Advanced visualizations", "Expert in multiple tools"]), "Data Visualization")
    ]
  }

  function ProductManagerQuestions(): (r: seq<Question>)
    ensures CareerBank(r, "pm", ProductManagerSkills)
  {
    [
      Question("pm-1", PromptPm1, Scale, None, "Strategic Planning"),
      Question("pm-2", PromptPm2, MultipleChoice, Some(["No experience", "Basic understanding", "Conducted user studies", "Expert researcher"]), "User Experience"),
      Question("pm-3", PromptPm3, Scale, None, "Leadership"),
      Question("pm-4", PromptPm4, MultipleChoice, Some(["Not familiar", "Basic knowledge", "Experienced practitioner", "Certified expert"]), "Agile Methodology"),
      Question("pm-5", PromptPm5, Scale, None, "Analytics")
    ]
  }

  function UxDesignerQuestions(): (r: seq<Question>)
    ensures CareerBank(r, "ux", UxDesignerSkills)
  {
    [
      Question("ux-1", PromptUx1, Scale, None, "User Research"),
      Question("ux-2", PromptUx2, MultipleChoice, Some(["Never used", "Basic skills", "Proficient user", "Advanced expert"]), "Design Tools"),
      Question("ux-3", PromptUx3, Scale, None, "Prototyping"),
      Question("ux-4", PromptUx4, Scale, None, "Usability Testing"),
      Question("ux-5", PromptUx5, MultipleChoice, Some(["Not familiar", "Basic understanding", "Created site maps", "Expert in IA"]), "Information Architecture")
    ]
  }

  function DigitalMarketerQuestions(): (r: seq<Question>)
    ensures CareerBank(r, "dm", DigitalMarketerSkills)
  {
    [
      Question("dm-1", PromptDm1, Scale, None, "SEO/SEM"),
      Question("dm-2", PromptDm2, MultipleChoice, Some(["Beginner", "Some experience", "Managed campaigns", "Expert strategist"]), "Social Media Marketing"),
      Question("dm-3", PromptDm3, Scale, None, "Content Marketing"),
      Question("dm-4", PromptDm4, Scale, None, "Analytics"),
      Question("dm-5", PromptDm5, MultipleChoice, Some(["No experience", "Basic campaigns", "Optimized ads", "Advanced strategist"]), "PPC Advertising")
    ]
  }

  function CybersecurityAnalystQuestions(): (r: seq<Question>)
    ensures CareerBank(r, "cs", CybersecurityAnalystSkills)
  {
    [
      Question("cs-1", PromptCs1, Scale, None, "Network Security"),
      Question("cs-2", PromptCs2, MultipleChoice, Some(["No experience", "Basic knowledge", "Analyzed threats", "Expert analyst"]), "Threat Analysis"),
      Question("cs-3", PromptCs3, Scale, None, "Incident Response"),
      Question("cs-4", PromptCs4, Scale, None, "Security Tools"),
      Question("cs-5", PromptCs5, MultipleChoice, Some(["Not familiar", "Basic understanding", "Conducted assessments", "Expert evaluator"]), "Risk Assessment")
    ]
  }
}
