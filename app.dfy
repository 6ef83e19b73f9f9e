/** The top-level screen machine: career selection, the fixed-question
    assessment, and the results page, with the selected career and the
    submitted answers kept alongside the current screen. */
module AppFlow {
  import opened Base
  import opened Types
  import FixedAssessment

  /** `AppState`. */
  datatype Screen = CareerSelection | AssessmentScreen | ResultsScreen

  class App {
    /** `currentState`. */
    var screen: Screen
    /** `selectedCareer`; `None` is `undefined`. */
    var selected: Option<Career>
    /** `assessmentResponses`. */
    var responses: map<string, FixedAssessment.Answer>

    /** Away from the selection screen a career is always selected. */
    ghost predicate Valid()
      reads this
    {
      screen != CareerSelection ==> selected.Some?
    }

    constructor ()
      ensures Valid()
      ensures screen == CareerSelection && selected == None && responses == map[]
    {
      screen := CareerSelection;
      selected := None;
      responses := map[];
    }

    /** Stores the chosen career and opens its assessment. */
    method HandleCareerSelection(career: Career)
      requires Valid()
      modifies this`screen, this`selected
      ensures Valid()
      ensures selected == Some(career) && screen == AssessmentScreen
      ensures responses == old(responses)
    {
      selected := Some(career);
      screen := AssessmentScreen;
    }

    /** Stores the submitted answers and shows the results; the career stays.
        Only the assessment screen is wired to this handler. */
    method HandleAssessmentComplete(answers: map<string, FixedAssessment.Answer>)
      requires Valid() && screen == AssessmentScreen
      modifies this`screen, this`responses
      ensures Valid()
      ensures responses == answers && screen == ResultsScreen
      ensures selected == old(selected)
    {
      responses := answers;
      screen := ResultsScreen;
    }

    /** Forgets the career and the answers and returns to the selection screen. */
    method HandleStartOver()
      requires Valid()
      modifies this`screen, this`selected, this`responses
      ensures Valid()
      ensures screen == CareerSelection && selected == None && responses == map[]
    {
      selected := None;
      responses := map[];
      screen := CareerSelection;
    }

    /** Returns to the selection screen, keeping the career and the answers. */
    method HandleBackToCareerSelection()
      requires Valid()
      modifies this`screen
      ensures Valid()
      ensures screen == CareerSelection
      ensures selected == old(selected) && responses == old(responses)
    {
      screen := CareerSelection;
    }

    /** The assessment is rendered on its screen when a career is selected;
        in every reachable state the screen alone decides. */
    function ShowsAssessment(): (shown: bool)
      reads this
      ensures shown ==> selected.Some?
      ensures Valid() ==> (shown <==> screen == AssessmentScreen)
    {
      screen == AssessmentScreen && selected.Some?
    }

    /** The results are rendered on their screen when a career is selected. */
    function ShowsResults(): (shown: bool)
      reads this
      ensures shown ==> selected.Some?
      ensures Valid() ==> (shown <==> screen == ResultsScreen)
    {
      screen == ResultsScreen && selected.Some?
    }
  }
}
