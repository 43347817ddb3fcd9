/**
 * The problem-submission form (client/src/components/SubmitProblem.tsx): the
 * editable list of test cases and the submit cycle that posts the form and,
 * on success, resets it.
 */
module SubmitProblem {
  import opened Wrappers
  import opened Lists
  import opened Text

  datatype TestCase = TestCase(input: string, output: string, isHidden: bool)

  /** A fresh, empty, visible test case (29). */
  const DefaultTestCase := TestCase("", "", false)

  const SubmittedMsg := "Problem submitted successfully!"
  const SubmitFailedMsg := "Submission failed"

  /** The form's starting and post-success values (35-38, 82-87). */
  const InitialDifficulty := "easy"
  const InitialTimeLimit := 1000
  const InitialMemoryLimit := 256

  /** A change of one field of one test case: the field name together with a value of its type. */
  datatype FieldEdit = SetInput(text: string) | SetOutput(text: string) | SetHidden(hidden: bool)

  /** `{ ...testCase, [field]: value }`. */
  function WithEdit(tc: TestCase, edit: FieldEdit): (r: TestCase)
    ensures edit.SetInput? ==> r.input == edit.text && r.output == tc.output && r.isHidden == tc.isHidden
    ensures edit.SetOutput? ==> r.output == edit.text && r.input == tc.input && r.isHidden == tc.isHidden
    ensures edit.SetHidden? ==> r.isHidden == edit.hidden && r.input == tc.input && r.output == tc.output
  {
    match edit
    case SetInput(s) => tc.(input := s)
    case SetOutput(s) => tc.(output := s)
    case SetHidden(b) => tc.(isHidden := b)
  }

  /** `addTestCase` (52-54): one default case at the end, everything before it unchanged. */
  function Appended(cases: seq<TestCase>): (r: seq<TestCase>)
    ensures |r| == |cases| + 1
    ensures r[..|cases|] == cases && r[|cases|] == DefaultTestCase
  {
    cases + [DefaultTestCase]
  }

  /**
   * `removeTestCase(index)` (56-59): a one-case list is left alone; otherwise
   * the case at `index` goes, if there is one.
   */
  function Removed(cases: seq<TestCase>, index: int): (r: seq<TestCase>)
    ensures |cases| == 1 ==> r == cases
    ensures !(0 <= index < |cases|) ==> r == cases
    ensures |cases| != 1 && 0 <= index < |cases| ==>
              |r| == |cases| - 1 && r == cases[..index] + cases[index + 1..]
    ensures |cases| >= 1 ==> |r| >= 1
  {
    if |cases| == 1 then cases
    else
      WithoutIndexSlices(cases, index);
      WithoutIndex(cases, index)
  }

  /** After a removal, every other case keeps its relative position. */
  lemma RemovedKeepsOthers(cases: seq<TestCase>, index: int, j: int)
    requires |cases| > 1 && 0 <= index < |cases| && 0 <= j < |cases| - 1
    ensures Removed(cases, index)[j] == if j < index then cases[j] else cases[j + 1]
  {
  }

  datatype Draft = Draft(title: string, description: string, difficulty: string, timeLimit: int,
                         memoryLimit: int, testCases: seq<TestCase>)

  /** How the post ended: the server accepted it, or failed with an optional message. */
  datatype PostOutcome = Posted | PostFailed(serverMessage: Option<string>)

  class ProblemForm {
    var title: string
    var description: string
    var difficulty: string
    var timeLimit: int
    var memoryLimit: int
    var testCases: seq<TestCase>
    var success: string
    var error: string
    var loading: bool

    /** The list of test cases is never empty. */
    ghost predicate Valid()
      reads this
    {
      |testCases| >= 1
    }

    /** The fields after mounting and after every successful post. */
    ghost predicate IsReset()
      reads this
    {
      && title == "" && description == "" && difficulty == InitialDifficulty
      && timeLimit == InitialTimeLimit && memoryLimit == InitialMemoryLimit
      && testCases == [DefaultTestCase]
    }

    /** The browser's check of the `required` inputs (111, 121, 162, 169) before `onSubmit` runs. */
    predicate RequiredFilled()
      reads this
    {
      && title != "" && description != ""
      && forall i :: 0 <= i < |testCases| ==> testCases[i].input != "" && testCases[i].output != ""
    }

    constructor ()
      ensures Valid() && IsReset()
      ensures success == "" && error == "" && !loading
    {
      title := "";
      description := "";
      difficulty := InitialDifficulty;
      timeLimit := InitialTimeLimit;
      memoryLimit := InitialMemoryLimit;
      testCases := [DefaultTestCase];
      success := "";
      error := "";
      loading := false;
    }

    method SetTitle(value: string)
      requires Valid()
      modifies this`title
      ensures Valid() && title == value
    {
      title := value;
    }

    method SetDescription(value: string)
      requires Valid()
      modifies this`description
      ensures Valid() && description == value
    {
      description := value;
    }

    method SetDifficulty(value: string)
      requires Valid()
      modifies this`difficulty
      ensures Valid() && difficulty == value
    {
      difficulty := value;
    }

    /** `Number(e.target.value)`, with the number already parsed. */
    method SetTimeLimit(value: int)
      requires Valid()
      modifies this`timeLimit
      ensures Valid() && timeLimit == value
    {
      timeLimit := value;
    }

    method SetMemoryLimit(value: int)
      requires Valid()
      modifies this`memoryLimit
      ensures Valid() && memoryLimit == value
    {
      memoryLimit := value;
    }

    /**
     * `handleTestCaseChange` (43-50): copy the list, overwrite entry `index`
     * with one field changed, store the copy. Callers pass a row's own index.
     */
    method ChangeTestCase(index: nat, edit: FieldEdit)
      requires Valid() && index < |testCases|
      modifies this`testCases
      ensures Valid() && |testCases| == |old(testCases)|
      ensures testCases[index] == WithEdit(old(testCases)[index], edit)
      ensures forall j :: 0 <= j < |testCases| && j != index ==> testCases[j] == old(testCases)[j]
    {
      var updated := testCases;
      updated := updated[index := WithEdit(updated[index], edit)];
      testCases := updated;
    }

    method AddTestCase()
      requires Valid()
      modifies this`testCases
      ensures Valid() && testCases == Appended(old(testCases))
    {
      testCases := Appended(testCases);
    }

    method RemoveTestCase(index: int)
      requires Valid()
      modifies this`testCases
      ensures Valid() && testCases == Removed(old(testCases), index)
    {
      testCases := Removed(testCases, index);
    }

    /**
     * `handleSubmit` up to the request (61-80): the messages are cleared and
     * `loading` set, and the form's values are posted. The browser does not
     * submit while a required field is empty or the button is disabled.
     */
    method Submit() returns (request: Option<Draft>)
      requires Valid()
      modifies this`success, this`error, this`loading
      ensures Valid()
      ensures request.Some? <==> old(RequiredFilled()) && !old(loading)
      ensures request.Some? ==>
                && request.value == Draft(title, description, difficulty, timeLimit, memoryLimit, testCases)
                && success == "" && error == "" && loading
      ensures request.None? ==> success == old(success) && error == old(error) && loading == old(loading)
    {
      if RequiredFilled() && !loading {
        success := "";
        error := "";
        loading := true;
        request := Some(Draft(title, description, difficulty, timeLimit, memoryLimit, testCases));
      } else {
        request := None;
      }
    }

    /** The end of `handleSubmit` (81-92): reset on success, message on failure, `loading` off either way. */
    method FinishSubmit(outcome: PostOutcome)
      requires Valid()
      modifies this`title, this`description, this`difficulty, this`timeLimit, this`memoryLimit,
               this`testCases, this`success, this`error, this`loading
      ensures Valid() && !loading
      ensures outcome == Posted ==> IsReset() && success == SubmittedMsg && error == old(error)
      ensures outcome.PostFailed? ==>
                && error == OrElse(outcome.serverMessage, SubmitFailedMsg) && success == old(success)
                && title == old(title) && description == old(description) && difficulty == old(difficulty)
                && timeLimit == old(timeLimit) && memoryLimit == old(memoryLimit)
                && testCases == old(testCases)
    {
      if outcome == Posted {
        success := SubmittedMsg;
        title := "";
        description := "";
        difficulty := InitialDifficulty;
        timeLimit := InitialTimeLimit;
        memoryLimit := InitialMemoryLimit;
        testCases := [DefaultTestCase];
      } else {
        error := OrElse(outcome.serverMessage, SubmitFailedMsg);
      }
      loading := false;
    }
  }
}
