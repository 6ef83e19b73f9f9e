/** The fixed-question assessment session: the question list comes from the
    bank for the chosen career, a cursor walks through it and the answers are
    kept in a map from question id to answer. */
module FixedAssessment {
  import opened Base
  import opened Types
  import QuestionBank

  /** A recorded answer: a scale level or the text of a chosen option. */
  datatype Answer = Level(level: int) | Choice(option: string)

  /** The progress bar, `(index + 1) / count * 100`, for a question that is
      on screen (the bar is only drawn when the current question exists). */
  function Progress(index: nat, count: nat): (p: real)
    requires index < count
    ensures 0.0 < p <= 100.0
    ensures p == 100.0 <==> index == count - 1
  {
    var p := (index + 1) as real / count as real * 100.0;
    assert (index + 1) as real <= count as real;
    assert p == 100.0 ==> (index + 1) as real == count as real;
    p
  }

  class Session {
    /** `generateQuestions(career.id)`, fixed for the life of the session. */
    const questions: seq<Question>
    /** `currentQuestion`. */
    var current: nat
    /** `responses`, keyed by question id. */
    var responses: map<string, Answer>

    /** The cursor is on a question, or at 0 when there are no questions. */
    ghost predicate Valid()
      reads this
    {
      current == 0 || current < |questions|
    }

    constructor (careerId: string)
      ensures Valid()
      ensures questions == QuestionBank.GenerateQuestions(careerId)
      ensures current == 0 && responses == map[]
    {
      questions := QuestionBank.GenerateQuestions(careerId);
      current := 0;
      responses := map[];
    }

    /** Records `answer` under `questionId`, overwriting an earlier answer;
        no other key changes and no key disappears. */
    method HandleResponse(questionId: string, answer: Answer)
      requires Valid()
      modifies this`responses
      ensures Valid()
      ensures responses == old(responses)[questionId := answer]
      ensures questionId in responses && responses[questionId] == answer
      ensures old(responses).Keys <= responses.Keys
      ensures forall k :: k in old(responses) && k != questionId ==> responses[k] == old(responses)[k]
    {
      responses := responses[questionId := answer];
    }

    /** Moves to the next question, or, on the last question, hands the whole
        response map to the completion callback and stays where it is. */
    method NextQuestion() returns (completed: Option<map<string, Answer>>)
      requires Valid()
      modifies this`current
      ensures Valid()
      ensures old(current) < |questions| - 1 ==> current == old(current) + 1 && completed == None
      ensures old(current) >= |questions| - 1 ==> current == old(current) && completed == Some(responses)
    {
      if current < |questions| - 1 {
        current := current + 1;
        completed := None;
      } else {
        completed := Some(responses);
      }
    }

    /** Moves back one question unless already on the first. */
    method PrevQuestion()
      requires Valid()
      modifies this`current
      ensures Valid()
      ensures old(current) > 0 ==> current == old(current) - 1
      ensures old(current) == 0 ==> current == 0
    {
      if current > 0 {
        current := current - 1;
      }
    }

    /** `questions[currentQuestion]`; absent exactly when the list is empty,
        in which case the component renders nothing. */
    function CurrentQuestion(): (q: Option<Question>)
      reads this
      requires Valid()
      ensures q.None? <==> |questions| == 0
      ensures q.Some? ==> q.value in questions && q.value.id == questions[current].id
    {
      if current < |questions| then Some(questions[current]) else None
    }

    /** The Next button is enabled only when some question is on screen and
        its id already has an answer. */
    function CanGoNext(): (enabled: bool)
      reads this
      requires Valid()
      ensures enabled <==> current < |questions| && questions[current].id in responses
    {
      match CurrentQuestion()
      case Some(q) => q.id in responses
      case None => false
    }

    /** The Previous button is disabled exactly on the first question. */
    function CanGoPrev(): (enabled: bool)
      reads this
      requires Valid()
      ensures enabled <==> current > 0
      ensures enabled ==> |questions| > 1
    {
      current != 0
    }
  }
}
