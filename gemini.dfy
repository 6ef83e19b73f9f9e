/** The AI-provider layer: whether the Gemini key is usable, the mock
    question and analysis served when it is not (or when a call fails), and
    the parsers that fill every missing field of a model reply with a
    default. The network call and `JSON.parse` are not modelled: a reply is
    given as an already-parsed record whose fields may each be missing, and
    the draw of `Math.random` is a parameter in [0, 1). */
module Gemini {
  import opened Base
  import opened Types

  const PlaceholderKey: string := "your-gemini-api-key-here"
  const ShortPlaceholderKey: string := "your-api-key"

  /** `isGeminiConfigured`: a key is present, is neither placeholder and is
      longer than 20 characters. */
  function IsGeminiConfigured(apiKey: Option<string>): (configured: bool)
    ensures configured ==> apiKey.Some? && |apiKey.value| > 20
    ensures configured ==> apiKey.value != PlaceholderKey && apiKey.value != ShortPlaceholderKey
  {
    match apiKey
    case None => false
    case Some(k) => k != "" && k != PlaceholderKey && k != ShortPlaceholderKey && |k| > 20
  }

  /** Only the long placeholder needs its own test: the short one is already
      rejected by the length bound, so any other key is accepted exactly when
      it is longer than 20 characters. */
  lemma ConfiguredByLength(k: string)
    requires k != PlaceholderKey
    ensures IsGeminiConfigured(Some(k)) <==> |k| > 20
    ensures |PlaceholderKey| > 20
  {
    assert |ShortPlaceholderKey| == 12;
    assert |PlaceholderKey| == 24;
  }

  /** JavaScript truthiness of an optional string: missing and empty are falsy. */
  predicate Truthy(s: Option<string>) { s.Some? && s.value != "" }

  /** `s || fallback` for an optional string. */
  function OrElse(s: Option<string>, fallback: string): (r: string)
    ensures Truthy(s) ==> r == s.value
    ensures !Truthy(s) ==> r == fallback
  {
    if Truthy(s) then s.value else fallback
  }

  /** `xs?.[i] || fallback`: a missing or empty element gives the fallback. */
  function ElementOr(xs: seq<string>, i: nat, fallback: string): (r: string)
    ensures i < |xs| && xs[i] != "" ==> r == xs[i]
    ensures !(i < |xs| && xs[i] != "") ==> r == fallback
  {
    if i < |xs| && xs[i] != "" then xs[i] else fallback
  }

  /** `AIQuestionRequest`, without the previous answers and skill level, which
      only feed the prompt text. */
  datatype QuestionRequest = QuestionRequest(careerPath: string, focusAreas: seq<string>)

  /** `AIQuestionResponse`. `kind` is a string because the parser copies
      whatever type the reply names. */
  datatype AIQuestion = AIQuestion(
    question: string,
    kind: string,
    options: Option<seq<string>>,
    skill: string,
    difficulty: string,
    reasoning: string)

  /** A question reply after `JSON.parse`: every field may be missing. */
  datatype ParsedQuestion = ParsedQuestion(
    question: Option<string>,
    kind: Option<string>,
    options: Option<seq<string>>,
    skill: Option<string>,
    difficulty: Option<string>,
    reasoning: Option<string>)

  /** The outcome of a model call: it threw, or it returned text that parsed
      to a record (`Some`) or did not parse (`None`). */
  datatype Reply<T> = CallFailed | Replied(payload: Option<T>)

  predicate Filled(q: AIQuestion)
  {
    q.question != "" && q.kind != "" && q.skill != "" && q.difficulty != "" && q.reasoning != ""
  }

  const MockReasoning: string := "Mock question for development"
  const ExperienceOptions: seq<string> := ["No experience", "Some knowledge", "Practical experience", "Expert level"]
  const ProjectQuestion: string := "Describe a challenging project or problem you've solved recently. How did you approach it?"

  /** The four mock templates: text, scale, multiple choice and text. */
  function MockQuestions(request: QuestionRequest): (r: seq<AIQuestion>)
    ensures |r| == 4
    ensures forall i :: 0 <= i < 4 ==> Filled(r[i])
    ensures forall i :: 0 <= i < 4 ==> (r[i].options.Some? <==> r[i].kind == "multiple-choice")
    ensures forall i :: 0 <= i < 4 ==> (r[i].kind == "multiple-choice" <==> i == 2)
    ensures r[2].options == Some(ExperienceOptions) && |ExperienceOptions| == 4
  {
    [ AIQuestion("How would you approach learning " + ElementOr(request.focusAreas, 0, "new technologies")
                   + " for " + request.careerPath + "?",
                 "text", None, ElementOr(request.focusAreas, 0, "General"), "intermediate", MockReasoning),
      AIQuestion("Rate your confidence in " + ElementOr(request.focusAreas, 1, "problem-solving") + " on a scale of 1-5",
                 "scale", None, ElementOr(request.focusAreas, 1, "Problem Solving"), "intermediate", MockReasoning),
      AIQuestion("Which of the following best describes your experience with " + request.careerPath + "?",
                 "multiple-choice", Some(ExperienceOptions), "Experience Level", "beginner",
                 "Assessing your current experience level"),
      AIQuestion(ProjectQuestion, "text", None, "Problem Solving", "intermediate",
                 "Understanding your problem-solving methodology") ]
  }

  /** `getMockQuestion`: the template at `floor(r * 4)`. */
  function GetMockQuestion(request: QuestionRequest, draw: real): (q: AIQuestion)
    requires 0.0 <= draw < 1.0
    ensures q in MockQuestions(request)
    ensures Filled(q)
    ensures q.options.Some? <==> q.kind == "multiple-choice"
  {
    var i := (draw * 4.0).Floor;
    MockQuestions(request)[i]
  }

  /** `parseQuestionResponse`: each truthy field of the reply is kept and each
      falsy one replaced by its default; the type is not checked against the
      four allowed names. A reply that does not parse gives the mock question. */
  function ParseQuestionResponse(parsed: Option<ParsedQuestion>, request: QuestionRequest, draw: real): (q: AIQuestion)
    requires 0.0 <= draw < 1.0
    ensures Filled(q)
    ensures parsed.None? ==> q == GetMockQuestion(request, draw)
    ensures parsed.Some? ==>
      var p := parsed.value;
      q.question == OrElse(p.question, "How would you approach this challenge?")
      && q.kind == OrElse(p.kind, "text")
      && q.options == p.options
      && q.skill == OrElse(p.skill, ElementOr(request.focusAreas, 0, "General"))
      && q.difficulty == OrElse(p.difficulty, "intermediate")
      && q.reasoning == OrElse(p.reasoning, "Generated based on your responses")
  {
    match parsed
    case None => GetMockQuestion(request, draw)
    case Some(p) =>
      AIQuestion(
        OrElse(p.question, "How would you approach this challenge?"),
        OrElse(p.kind, "text"),
        p.options,
        OrElse(p.skill, ElementOr(request.focusAreas, 0, "General")),
        OrElse(p.difficulty, "intermediate"),
        OrElse(p.reasoning, "Generated based on your responses"))
  }

  /** `generateAdaptiveQuestion`: never null. Unconfigured, a failed call or an
      unparsable reply all give the mock question. */
  function GenerateAdaptiveQuestion(apiKey: Option<string>, request: QuestionRequest,
                                    reply: Reply<ParsedQuestion>, draw: real): (q: AIQuestion)
    requires 0.0 <= draw < 1.0
    ensures Filled(q)
    ensures !IsGeminiConfigured(apiKey) ==> q == GetMockQuestion(request, draw)
    ensures reply.CallFailed? ==> q == GetMockQuestion(request, draw)
    ensures IsGeminiConfigured(apiKey) && reply.Replied? ==> q == ParseQuestionResponse(reply.payload, request, draw)
  {
    if !IsGeminiConfigured(apiKey) then GetMockQuestion(request, draw)
    else match reply
      case CallFailed => GetMockQuestion(request, draw)
      case Replied(payload) => ParseQuestionResponse(payload, request, draw)
  }

  /** One entry of `AIAnalysisResponse.skillGaps`. */
  datatype GapEntry = GapEntry(
    skill: string,
    currentLevel: int,
    targetLevel: int,
    gap: int,
    priority: Priority,
    recommendations: seq<string>)

  /** One entry of `AIAnalysisResponse.learningPath`. */
  datatype PhaseEntry = PhaseEntry(phase: string, duration: string, skills: seq<string>, resources: seq<string>)

  /** `AIAnalysisResponse`. */
  datatype Analysis = Analysis(
    overallAssessment: string,
    skillGaps: seq<GapEntry>,
    learningPath: seq<PhaseEntry>,
    nextSteps: seq<string>,
    confidenceScore: int)

  /** An analysis reply after `JSON.parse`: every field may be missing. An empty
      list is truthy in JavaScript, so only a missing list is replaced. */
  datatype ParsedAnalysis = ParsedAnalysis(
    overallAssessment: Option<string>,
    skillGaps: Option<seq<GapEntry>>,
    learningPath: Option<seq<PhaseEntry>>,
    nextSteps: Option<seq<string>>,
    confidenceScore: Option<int>)

  function ListOr<T>(xs: Option<seq<T>>): (r: seq<T>)
    ensures xs.Some? ==> r == xs.value
    ensures xs.None? ==> r == []
  {
    if xs.Some? then xs.value else []
  }

  /** `getMockAnalysis`: the same fixed analysis for every set of answers; only
      the career name appears in it. */
  function MockAnalysis(careerPath: string): (a: Analysis)
    ensures |a.skillGaps| == 1
    ensures a.skillGaps[0].gap == a.skillGaps[0].targetLevel - a.skillGaps[0].currentLevel == 1
    ensures a.skillGaps[0].priority == HighPriority
    ensures |a.learningPath| == 1 && |a.nextSteps| == 3
    ensures a.confidenceScore == 78
    ensures a.overallAssessment != ""
  {
    Analysis(
      "Based on your responses, you show good potential for " + careerPath
        + ". Focus on strengthening key technical skills.",
      [GapEntry("Technical Skills", 3, 4, 1, HighPriority, ["Take advanced courses", "Build practical projects"])],
      [PhaseEntry("Foundation", "2-3 months", ["Core concepts", "Basic tools"], ["Online courses", "Documentation"])],
      ["Complete foundational learning", "Build a portfolio project", "Practice with real scenarios"],
      78)
  }

  /** `parseAnalysisResponse`: a missing or zero confidence becomes 75, missing
      lists become empty, and a reply that does not parse gives the mock. */
  function ParseAnalysisResponse(parsed: Option<ParsedAnalysis>, careerPath: string): (a: Analysis)
    ensures a.confidenceScore != 0 && a.overallAssessment != ""
    ensures parsed.None? ==> a == MockAnalysis(careerPath)
    ensures parsed.Some? ==>
      var p := parsed.value;
      a.overallAssessment == OrElse(p.overallAssessment, "Analysis completed")
      && a.skillGaps == ListOr(p.skillGaps)
      && a.learningPath == ListOr(p.learningPath)
      && a.nextSteps == ListOr(p.nextSteps)
      && (a.confidenceScore == 75 <==> p.confidenceScore.None? || p.confidenceScore.value in {0, 75})
      && (a.confidenceScore != 75 ==> p.confidenceScore == Some(a.confidenceScore))
  {
    match parsed
    case None => MockAnalysis(careerPath)
    case Some(p) =>
      Analysis(
        OrElse(p.overallAssessment, "Analysis completed"),
        ListOr(p.skillGaps),
        ListOr(p.learningPath),
        ListOr(p.nextSteps),
        if p.confidenceScore.Some? && p.confidenceScore.value != 0 then p.confidenceScore.value else 75)
  }

  /** `analyzeUserResponses`: never null; unconfigured, a failed call or an
      unparsable reply give the mock analysis. */
  function AnalyzeUserResponses(apiKey: Option<string>, careerPath: string, reply: Reply<ParsedAnalysis>): (a: Analysis)
    ensures a.confidenceScore != 0 && a.overallAssessment != ""
    ensures !IsGeminiConfigured(apiKey) ==> a == MockAnalysis(careerPath)
    ensures reply.CallFailed? ==> a == MockAnalysis(careerPath)
    ensures IsGeminiConfigured(apiKey) && reply.Replied? ==> a == ParseAnalysisResponse(reply.payload, careerPath)
  {
    if !IsGeminiConfigured(apiKey) then MockAnalysis(careerPath)
    else match reply
      case CallFailed => MockAnalysis(careerPath)
      case Replied(payload) => ParseAnalysisResponse(payload, careerPath)
  }
}
