/** The AI-assessment session: after a staged "generation" it shows five
    free-text prompts built from the career, collects answers keyed by prompt
    index, and on completion builds a mock result from random draws. The
    draws of `Math.random` are parameters here, each a real in [0, 1). */
module AIAssessment {
  import opened Base
  import opened Types

  /** The four generation stages shown while the prompts are prepared. */
  const Steps: seq<string> := [
    "Analyzing Career Requirements",
    "Generating Personalized Questions",
    "Preparing Assessment Interface",
    "Ready for Assessment"]

  /** A value `Math.random()` can return. */
  predicate InUnit(x: real) { 0.0 <= x < 1.0 }

  /** What a template literal prints for `xs[i]`: the element, or the text
      `undefined` past the end of the array. */
  function ElementText(xs: seq<string>, i: nat): (t: string)
    ensures i < |xs| ==> t == xs[i]
    ensures i >= |xs| ==> t == "undefined"
  {
    if i < |xs| then xs[i] else "undefined"
  }

  const FallbackTechnologies: string := "relevant technologies"
  const ProjectPrompt: string := "Describe a challenging project you've worked on related to this field."

  /** The five template prompts. The second falls back to a generic phrase when
      the career has no second skill or it is empty (a falsy `||` operand). */
  function MockPrompts(career: Career): (r: seq<string>)
    ensures |r| == 5
    ensures r[0] == "How would you approach learning " + ElementText(career.skills, 0) + " for " + career.title + "?"
    ensures |career.skills| < 2 || career.skills[1] == "" ==> r[1] == "Describe your experience with " + FallbackTechnologies + "."
    ensures |career.skills| >= 2 && career.skills[1] != "" ==> r[1] == "Describe your experience with " + career.skills[1] + "."
    ensures r[2] == "What motivates you to pursue a career in " + career.category + "?"
    ensures r[3] == "How do you stay updated with trends in " + career.title + "?"
    ensures r[4] == ProjectPrompt
  {
    var second := if |career.skills| >= 2 && career.skills[1] != "" then career.skills[1] else FallbackTechnologies;
    [ "How would you approach learning " + ElementText(career.skills, 0) + " for " + career.title + "?",
      "Describe your experience with " + second + ".",
      "What motivates you to pursue a career in " + career.category + "?",
      "How do you stay updated with trends in " + career.title + "?",
      ProjectPrompt ]
  }

  /** The three draws behind one generated gap: level, gap size and priority. */
  datatype GapDraw = GapDraw(level: real, size: real, priority: real)

  predicate ValidDraw(d: GapDraw) { InUnit(d.level) && InUnit(d.size) && InUnit(d.priority) }

  /** One mock gap: `floor(r*3)+2`, required level 4, `floor(r*2)+1`, and
      'high' when the third draw exceeds one half, 'medium' otherwise. */
  function MockGap(skill: string, d: GapDraw): (g: SkillGap)
    requires ValidDraw(d)
    ensures g.skill == skill && g.requiredLevel == 4
    ensures 2 <= g.currentLevel <= 4
    ensures 1 <= g.gap <= 2
    ensures g.priority != LowPriority
    ensures g.priority == HighPriority <==> d.priority > 0.5
  {
    SkillGap(skill, (d.level * 3.0).Floor + 2, 4, (d.size * 2.0).Floor + 1,
             if d.priority > 0.5 then HighPriority else MediumPriority)
  }

  /** `completeAssessment`: one gap per career skill, a score of
      `floor(r*30)+60`, three recommendations and a fixed 'Medium' readiness. */
  function CompleteAssessment(career: Career, draws: seq<GapDraw>, scoreDraw: real): (r: AssessmentResult)
    requires |draws| == |career.skills|
    requires forall i :: 0 <= i < |draws| ==> ValidDraw(draws[i])
    requires InUnit(scoreDraw)
    ensures |r.skillGaps| == |career.skills|
    ensures forall i :: 0 <= i < |r.skillGaps| ==>
      r.skillGaps[i].skill == career.skills[i] && r.skillGaps[i].requiredLevel == 4
      && 2 <= r.skillGaps[i].currentLevel <= 4 && 1 <= r.skillGaps[i].gap <= 2
      && r.skillGaps[i].priority != LowPriority
    ensures 60 <= r.overallScore <= 89
    ensures r.readinessLevel == MediumReadiness
    ensures |r.recommendations| == 3
    ensures r.recommendations[0] == "Focus on strengthening " + ElementText(career.skills, 0) + " skills"
    ensures r.recommendations[1] == "Consider taking advanced courses in " + ElementText(career.skills, 1)
    ensures r.completionTime.None? && r.strengths.None? && r.improvementAreas.None? && r.nextSteps.None?
  {
    var gaps := seq(|career.skills|, i requires 0 <= i < |career.skills| => MockGap(career.skills[i], draws[i]));
    var skills := SkillNames(gaps);
    assert skills == career.skills;
    AssessmentResult(
      (scoreDraw * 30.0).Floor + 60,
      gaps,
      [ "Focus on strengthening " + ElementText(skills, 0) + " skills",
        "Consider taking advanced courses in " + ElementText(skills, 1),
        "Build a portfolio showcasing your projects" ],
      MediumReadiness,
      None, None, None, None)
  }

  /** A key set drawn from the prompt indices `0 .. n-1` has at most `n`
      keys, and has `n` of them exactly when every prompt index is answered. */
  lemma {:induction false} KeyCountCoversIndices(keys: set<int>, n: nat)
    requires forall k :: k in keys ==> 0 <= k < n
    ensures |keys| <= n
    ensures |keys| == n <==> forall i :: 0 <= i < n ==> i in keys
  {
    if n > 0 {
      var rest := keys - {n - 1};
      KeyCountCoversIndices(rest, n - 1);
      if n - 1 in keys {
        assert keys == rest + {n - 1};
        assert (forall i :: 0 <= i < n ==> i in keys) <==> (forall i :: 0 <= i < n - 1 ==> i in rest);
      } else {
        assert keys == rest;
      }
    } else {
      assert forall k :: k !in keys;
      assert keys == {};
    }
  }

  lemma CompletionMeansAllAnswered(keys: set<int>, n: nat)
    ensures (forall k :: k in keys ==> 0 <= k < n) ==>
      (|keys| >= n <==> forall i :: 0 <= i < n ==> i in keys)
  {
    if forall k :: k in keys ==> 0 <= k < n {
      KeyCountCoversIndices(keys, n);
    }
  }

  class AISession {
    const career: Career
    /** `currentStep`, the stage shown by the loading screen. */
    var currentStep: nat
    /** `isGenerating`. */
    var generating: bool
    /** The prompts on screen, empty until generation finishes. */
    var questions: seq<string>
    /** `responses`, keyed by prompt index. */
    var responses: map<int, string>

    ghost predicate Valid()
      reads this
    {
      currentStep < |Steps| && (questions == [] || questions == MockPrompts(career))
    }

    constructor (career: Career)
      ensures Valid()
      ensures this.career == career
      ensures currentStep == 0 && !generating && questions == [] && responses == map[]
    {
      this.career := career;
      currentStep := 0;
      generating := false;
      questions := [];
      responses := map[];
    }

    /** The staged generation: each stage in turn becomes the current one,
        then the five prompts replace the question list. */
    method GenerateQuestions()
      requires Valid()
      modifies this`currentStep, this`generating, this`questions
      ensures Valid()
      ensures currentStep == |Steps| - 1
      ensures questions == MockPrompts(career) && |questions| == 5
      ensures !generating
    {
      generating := true;
      for i := 0 to |Steps|
        invariant Valid()
        invariant i > 0 ==> currentStep == i - 1
      {
        currentStep := i;
      }
      questions := MockPrompts(career);
      generating := false;
    }

    /** Stores `text` under `index`; every other answer is kept. */
    method HandleResponse(index: int, text: string)
      requires Valid()
      modifies this`responses
      ensures Valid()
      ensures responses == old(responses)[index := text]
      ensures forall k :: k in old(responses) && k != index ==> responses[k] == old(responses)[k]
      ensures old(responses).Keys <= responses.Keys
    {
      responses := responses[index := text];
    }

    /** The completion button is enabled when there are at least as many
        answered keys as prompts; an empty answer counts as answered. */
    function CanComplete(): (enabled: bool)
      reads this
      ensures enabled <==> |responses.Keys| >= |questions|
      ensures (forall k :: k in responses ==> 0 <= k < |questions|) ==>
        (enabled <==> forall i :: 0 <= i < |questions| ==> i in responses)
    {
      CompletionMeansAllAnswered(responses.Keys, |questions|);
      |responses.Keys| >= |questions|
    }

    /** Builds the mock result and hands it over together with the answers. */
    method Complete(draws: seq<GapDraw>, scoreDraw: real) returns (result: AssessmentResult, answers: map<int, string>)
      requires |draws| == |career.skills|
      requires forall i :: 0 <= i < |draws| ==> ValidDraw(draws[i])
      requires InUnit(scoreDraw)
      ensures result == CompleteAssessment(career, draws, scoreDraw)
      ensures answers == responses
    {
      result := CompleteAssessment(career, draws, scoreDraw);
      answers := responses;
    }
  }
}
