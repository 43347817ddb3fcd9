/**
 * The single-problem screen (client/src/components/ProblemDetail.tsx): which
 * starter code the editor gets for a problem and a language, how languages
 * are labelled, the login gate on submitting and how results are shown. The
 * screen's state is a value; each handler maps it to the next value.
 */
module ProblemDetail {
  import opened Wrappers
  import opened Lists
  import opened Text
  import opened Editor
  import DuelRoomView

  datatype Problem = Problem(id: string, title: string, description: string, difficulty: string,
                             timeLimit: int, memoryLimit: int, acceptedLanguages: seq<string>)

  const SumTitle := "Sum of Two Numbers"

  /** The cases of the language switch for `SumTitle`, in source order; `c` appears twice (76, 82). */
  const SumCases: seq<string> := ["c", "cpp", "python", "c"]

  /** The other titles with their own templates (91-231). */
  const TemplateTitles: seq<string> :=
    ["Factorial Calculation", "Fibonacci Sequence", "Prime Number Check", "Binary Search",
     "Bubble Sort", "Anagram Check", "Longest Common Subsequence", "Dijkstra's Shortest Path",
     "N-Queens Problem", "Knapsack Problem"]

  /** The cases of each of those titles' language switch. */
  const TemplateLanguages: seq<string> := ["python", "c", "cpp", "java"]

  const InitialLanguage := "javascript"
  const LoginMsg := "Please login to submit your solution"
  const SubmitErrorMsg := "Error submitting solution"
  const FetchErrorMsg := "Error fetching problem"

  /** A title with a problem-specific template, the sum problem included. */
  predicate NamedTitle(title: string) {
    title == SumTitle || title in TemplateTitles
  }

  // ---------------------------------------------------------------------
  // Starter code
  // ---------------------------------------------------------------------

  /** The arm a JavaScript `switch (lang)` over `cases` runs: the first case equal to `lang`. */
  function SwitchArm(cases: seq<string>, lang: string): (arm: Option<nat>)
    ensures arm.Some? ==> arm.value < |cases| && cases[arm.value] == lang
    ensures arm.Some? ==> forall j :: 0 <= j < arm.value ==> cases[j] != lang
    ensures arm.None? <==> lang !in cases
  {
    FindIndex(cases, (c: string) => c == lang)
  }

  /**
   * `getDefaultCode(lang)` with the screen's `problem` (73-247): the sum
   * problem's own switch, then the switch on the other titles, then the
   * generic skeletons.
   */
  function DefaultCode(problem: Option<Problem>, lang: string): (c: Code)
    ensures problem.Some? && problem.value.title == SumTitle ==>
              (c != Blank <==> lang == "c" || lang == "cpp" || lang == "python")
              && (c == Blank || c == Template(SumTitle, lang))
    ensures problem.Some? && problem.value.title in TemplateTitles ==>
              (c != Blank <==> lang in TemplateLanguages)
              && (c == Blank || c == Template(problem.value.title, lang))
    ensures problem.None? || !NamedTitle(problem.value.title) ==> c == StubCode(lang)
  {
    if problem.Some? && problem.value.title == SumTitle then
      match SwitchArm(SumCases, lang)
      case Some(arm) => Template(SumTitle, SumCases[arm])
      case None => Blank
    else if problem.Some? && problem.value.title in TemplateTitles then
      if lang in TemplateLanguages then Template(problem.value.title, lang) else Blank
    else
      StubCode(lang)
  }

  /** The second `case 'c'` of the sum problem's switch (82) never runs: the first one (76) catches `c`. */
  lemma DuplicateSumCaseUnreachable(lang: string)
    ensures SwitchArm(SumCases, lang) != Some(3)
  {
  }

  /** The sum problem has no Java template, although every other named problem does. */
  lemma SumHasNoJava(p: Problem, q: Problem)
    requires p.title == SumTitle && q.title in TemplateTitles
    ensures DefaultCode(Some(p), "java") == Blank
    ensures DefaultCode(Some(q), "java") == Template(q.title, "java")
  {
  }

  /**
   * No named problem has a JavaScript template: in the screen's first language
   * (53), or after choosing javascript (249-253), the starter code for the
   * shown problem is empty exactly for the named problems, and the JavaScript
   * skeleton for any other problem.
   */
  lemma InitialLanguageBlankForNamedProblems(p: Problem)
    ensures DefaultCode(Some(p), InitialLanguage) == Blank <==> NamedTitle(p.title)
  {
    assert InitialLanguage !in TemplateLanguages;
    assert InitialLanguage !in SumCases;
  }

  // ---------------------------------------------------------------------
  // Language labels
  // ---------------------------------------------------------------------

  /** The label of a language in the selector (338-343). */
  function LanguageLabel(lang: string): (name: string)
    ensures lang == "cpp" ==> name == "C++"
    ensures lang == "c" ==> name == "C"
    ensures lang == "javascript" ==> name == "JavaScript"
    ensures lang == "python" ==> name == "Python"
    ensures lang != "cpp" && lang != "c" && lang != "javascript" && lang != "python" ==>
              |name| == |lang| && (|lang| > 0 ==> name[0] == UpperChar(lang[0]) && name[1..] == lang[1..])
    ensures lang == "" ==> name == ""
  {
    if lang == "cpp" then "C++"
    else if lang == "c" then "C"
    else if lang == "javascript" then "JavaScript"
    else if lang == "python" then "Python"
    else Capitalize(lang)
  }

  /**
   * This screen and the duel screen label languages with different tables,
   * yet they agree on every language but `javascript`, which the duel
   * screen shows as "Javascript".
   */
  lemma LabelTablesDifferOnlyOnJavaScript(lang: string)
    ensures lang != "javascript" ==> LanguageLabel(lang) == DuelRoomView.DuelLanguageLabel(lang)
    ensures LanguageLabel("javascript") == "JavaScript"
    ensures DuelRoomView.DuelLanguageLabel("javascript") == "Javascript"
  {
    if lang == "java" {
      assert Capitalize("java") == "Java";
    }
    assert Capitalize("javascript") == "Javascript";
  }

  datatype LanguageOption = LanguageOption(value: string, name: string)

  /** The selector's entries, one per accepted language in order (337-345). */
  function LanguageOptions(accepted: seq<string>): (options: seq<LanguageOption>)
    ensures |options| == |accepted|
    ensures forall i :: 0 <= i < |accepted| ==>
              options[i].value == accepted[i] && options[i].name == LanguageLabel(accepted[i])
  {
    seq(|accepted|, i requires 0 <= i < |accepted| => LanguageOption(accepted[i], LanguageLabel(accepted[i])))
  }

  // ---------------------------------------------------------------------
  // The screen
  // ---------------------------------------------------------------------

  datatype TestResult = TestResult(passed: bool, output: string, expectedOutput: string,
                                   executionTime: int, memoryUsed: int)
  datatype Submission = Submission(status: string, testResults: seq<TestResult>)

  datatype Page = Page(problem: Option<Problem>, code: Code, language: string,
                       submission: Option<Submission>, error: string)

  /** The state before anything has loaded (51-55). */
  const InitialPage := Page(None, Blank, InitialLanguage, None, "")

  /** What the fetch of the problem returned: the problem, or a failure. */
  datatype FetchOutcome = Fetched(problem: Problem) | FetchFailed

  /**
   * The fetch effect as written (59-67): the starter code is computed with
   * the `problem` the effect's closure captured, the one shown before this
   * fetch, not the problem just received.
   */
  function LoadProblemAsWritten(page: Page, outcome: FetchOutcome): (next: Page)
    ensures outcome.Fetched? ==>
              next == page.(problem := Some(outcome.problem), code := DefaultCode(page.problem, page.language))
    ensures outcome == FetchFailed ==> next == page.(error := FetchErrorMsg)
  {
    match outcome
    case Fetched(p) => page.(problem := Some(p), code := DefaultCode(page.problem, page.language))
    case FetchFailed => page.(error := FetchErrorMsg)
  }

  /** The fetch effect with the starter code of the problem just received, as its comment intends (63). */
  function LoadProblem(page: Page, outcome: FetchOutcome): (next: Page)
    ensures outcome.Fetched? ==>
              && next.problem == Some(outcome.problem)
              && next.code == DefaultCode(next.problem, next.language)
              && next.language == page.language && next.submission == page.submission
              && next.error == page.error
    ensures outcome == FetchFailed ==> next == page.(error := FetchErrorMsg)
  {
    match outcome
    case Fetched(p) => page.(problem := Some(p), code := DefaultCode(Some(p), page.language))
    case FetchFailed => page.(error := FetchErrorMsg)
  }

  /**
   * Were the screen to stay mounted while its id changed from the factorial
   * problem to the sum problem, in Python, the editor would get the
   * factorial template as written.
   */
  lemma StaleLoadShowsPreviousTemplate(previous: Problem, next: Problem)
    requires previous.title == "Factorial Calculation" && next.title == SumTitle
    ensures LoadProblemAsWritten(InitialPage.(problem := Some(previous), language := "python"), Fetched(next)).code
            == Template("Factorial Calculation", "python")
    ensures LoadProblem(InitialPage.(problem := Some(previous), language := "python"), Fetched(next)).code
            == Template(SumTitle, "python")
  {
    assert "Factorial Calculation" in TemplateTitles;
    assert SumCases[2] == "python";
    assert SwitchArm(SumCases, "python") == Some(2);
  }

  /**
   * The first load, from the page as mounted: no language selector is shown
   * while loading (274-275), so the language is still javascript. As written
   * every problem, named or not, gets the JavaScript skeleton; with the
   * fetched problem's own code a named problem starts empty instead.
   */
  lemma FirstLoadIgnoresTitle(p: Problem)
    ensures LoadProblemAsWritten(InitialPage, Fetched(p)).code == Stub(InitialLanguage)
    ensures NamedTitle(p.title) ==> LoadProblem(InitialPage, Fetched(p)).code == Blank
    ensures !NamedTitle(p.title) ==> LoadProblem(InitialPage, Fetched(p)).code == Stub(InitialLanguage)
  {
    assert InitialLanguage in StubLanguages;
    InitialLanguageBlankForNamedProblems(p);
  }

  /** `handleLanguageChange` (249-253): the new language and its starter code for the shown problem. */
  function ChangeLanguage(page: Page, lang: string): (next: Page)
    ensures next.language == lang && next.code == DefaultCode(page.problem, lang)
    ensures next.problem == page.problem && next.submission == page.submission && next.error == page.error
  {
    page.(language := lang, code := DefaultCode(page.problem, lang))
  }

  /** Editing in the editor: `setCode(value || '')` (318). */
  function EditCode(page: Page, value: Option<string>): (next: Page)
    ensures next.code == EditorValue(value) && next.(code := page.code) == page
  {
    page.(code := EditorValue(value))
  }

  datatype SubmissionRequest = SubmissionRequest(problemId: string, code: Code, language: string)

  /** What a click on "Submit Solution" does to the page and which request it makes, if any. */
  datatype SubmitStep = SubmitStep(page: Page, request: Option<SubmissionRequest>)

  /** `handleSubmit` up to the request (255-266): nothing is posted without a login. */
  function HandleSubmit(page: Page, isAuthenticated: bool, problemId: string): (step: SubmitStep)
    ensures step.request.Some? <==> isAuthenticated
    ensures !isAuthenticated ==> step.page == page.(error := LoginMsg)
    ensures isAuthenticated ==>
              step.page == page && step.request.value == SubmissionRequest(problemId, page.code, page.language)
  {
    if !isAuthenticated then SubmitStep(page.(error := LoginMsg), None)
    else SubmitStep(page, Some(SubmissionRequest(problemId, page.code, page.language)))
  }

  /** The response to the post (267-271): the results and no error, or an error and the old results. */
  function SubmitFinished(page: Page, response: Option<Submission>): (next: Page)
    ensures response.Some? ==> next.submission == response && next.error == ""
    ensures response.None? ==> next.submission == page.submission && next.error == SubmitErrorMsg
    ensures next.problem == page.problem && next.code == page.code && next.language == page.language
  {
    match response
    case Some(s) => page.(submission := Some(s), error := "")
    case None => page.(error := SubmitErrorMsg)
  }

  /**
   * On a page not already showing the login error, a submit shows it exactly
   * when the user is not logged in.
   */
  lemma LoginErrorIffUnauthenticated(page: Page, isAuthenticated: bool, problemId: string)
    requires page.error != LoginMsg
    ensures HandleSubmit(page, isAuthenticated, problemId).page.error == LoginMsg <==> !isAuthenticated
  {
  }

  /** One result under "Test Results" (370-395). */
  datatype ResultView = ResultView(number: nat, verdict: string, expected: Option<string>, got: Option<string>,
                                   executionTime: int, memoryUsed: int)

  function ShowResult(index: nat, r: TestResult): (v: ResultView)
    ensures v.number == index + 1
    ensures v.verdict == (if r.passed then "Passed" else "Failed")
    ensures v.expected.Some? <==> !r.passed
    ensures v.got.Some? <==> !r.passed
    ensures !r.passed ==> v.expected == Some(r.expectedOutput) && v.got == Some(r.output)
    ensures v.executionTime == r.executionTime && v.memoryUsed == r.memoryUsed
  {
    ResultView(index + 1, if r.passed then "Passed" else "Failed",
               if r.passed then None else Some(r.expectedOutput),
               if r.passed then None else Some(r.output),
               r.executionTime, r.memoryUsed)
  }

  function ResultViews(s: Submission): (views: seq<ResultView>)
    ensures |views| == |s.testResults|
    ensures forall i :: 0 <= i < |views| ==> views[i] == ShowResult(i, s.testResults[i])
  {
    seq(|s.testResults|, i requires 0 <= i < |s.testResults| => ShowResult(i, s.testResults[i]))
  }

  /** Expected and actual output are shown for the failed results and only for them. */
  lemma OutputsShownOnlyForFailures(s: Submission, i: nat)
    requires i < |s.testResults|
    ensures ResultViews(s)[i].expected.Some? <==> !s.testResults[i].passed
    ensures ResultViews(s)[i].got.Some? <==> !s.testResults[i].passed
  {
  }
}
