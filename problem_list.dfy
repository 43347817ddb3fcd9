/**
 * The problem list (client/src/components/ProblemList.tsx): the query sent
 * for the search box and the difficulty filter, and how each problem is
 * shown: a preview of its description and a chip coloured by difficulty.
 */
module ProblemList {
  datatype Problem = Problem(id: string, title: string, difficulty: string, description: string)

  datatype ChipColor = Success | Warning | Error | Default

  /** `getDifficultyColor` (50-61). */
  function DifficultyColor(difficulty: string): (c: ChipColor)
    ensures difficulty == "easy" ==> c == Success
    ensures difficulty == "medium" ==> c == Warning
    ensures difficulty == "hard" ==> c == Error
    ensures difficulty != "easy" && difficulty != "medium" && difficulty != "hard" ==> c == Default
  {
    match difficulty
    case "easy" => Success
    case "medium" => Warning
    case "hard" => Error
    case _ => Default
  }

  /** The three difficulties get three different colours, and nothing else gets a colour. */
  lemma ColorsTellDifficultiesApart(d1: string, d2: string)
    ensures DifficultyColor(d1) != Default <==> d1 in ["easy", "medium", "hard"]
    ensures DifficultyColor(d1) != Default && DifficultyColor(d1) == DifficultyColor(d2) ==> d1 == d2
  {
  }

  const PreviewLength := 150
  const Ellipsis := "..."

  /** `description.substring(0, 150) + '...'` (110). */
  function Preview(description: string): (p: string)
    ensures |p| == (if |description| < PreviewLength then |description| else PreviewLength) + |Ellipsis|
    ensures |p| <= PreviewLength + |Ellipsis|
    ensures p[..|p| - |Ellipsis|] <= description
    ensures p[|p| - |Ellipsis|..] == Ellipsis
  {
    var n := if |description| < PreviewLength then |description| else PreviewLength;
    var p := description[..n] + Ellipsis;
    assert p[..n] == description[..n];
    p
  }

  /** The ellipsis follows even a description that fits whole. */
  lemma ShortDescriptionStillGetsEllipsis(description: string)
    requires |description| <= PreviewLength
    ensures Preview(description) == description + Ellipsis
  {
    assert description[..|description|] == description;
  }

  // ---------------------------------------------------------------------
  // The query
  // ---------------------------------------------------------------------

  datatype Param = Param(name: string, value: string)

  /** The parameters the fetch effect sends (36-38): each filter is sent only when it is non-empty. */
  function QueryParams(search: string, difficulty: string): (ps: seq<Param>)
    ensures |ps| <= 2
  {
    (if search != "" then [Param("search", search)] else [])
    + (if difficulty != "" then [Param("difficulty", difficulty)] else [])
  }

  predicate HasParam(ps: seq<Param>, name: string) {
    exists i :: 0 <= i < |ps| && ps[i].name == name
  }

  /**
   * A filter appears in the query exactly when it is non-empty, with its own
   * value, and `search` comes before `difficulty`.
   */
  lemma QueryHasNonEmptyFilters(search: string, difficulty: string)
    ensures HasParam(QueryParams(search, difficulty), "search") <==> search != ""
    ensures HasParam(QueryParams(search, difficulty), "difficulty") <==> difficulty != ""
    ensures forall i :: 0 <= i < |QueryParams(search, difficulty)| ==>
              var p := QueryParams(search, difficulty)[i];
              (p.name == "search" && p.value == search) || (p.name == "difficulty" && p.value == difficulty)
    ensures search != "" && difficulty != "" ==>
              QueryParams(search, difficulty) == [Param("search", search), Param("difficulty", difficulty)]
    ensures search != "" && difficulty == "" ==> QueryParams(search, difficulty) == [Param("search", search)]
    ensures search == "" && difficulty != "" ==>
              QueryParams(search, difficulty) == [Param("difficulty", difficulty)]
    ensures search == "" && difficulty == "" ==> QueryParams(search, difficulty) == []
  {
    var ps := QueryParams(search, difficulty);
    if search != "" {
      assert ps[0].name == "search";
    }
    if difficulty != "" {
      assert ps[|ps| - 1].name == "difficulty";
    }
  }

  datatype DifficultyOption = DifficultyOption(value: string, text: string)

  /** The difficulty selector (87-90). */
  const DifficultyOptions: seq<DifficultyOption> :=
    [DifficultyOption("", "All"), DifficultyOption("easy", "Easy"),
     DifficultyOption("medium", "Medium"), DifficultyOption("hard", "Hard")]

  /** Choosing "All" filters nothing: it sends the same query as no choice, with no difficulty. */
  lemma AllSendsNoDifficulty(search: string)
    ensures DifficultyOptions[0].text == "All"
    ensures QueryParams(search, DifficultyOptions[0].value) == QueryParams(search, "")
    ensures !HasParam(QueryParams(search, DifficultyOptions[0].value), "difficulty")
  {
    QueryHasNonEmptyFilters(search, "");
  }

  /** A `URLSearchParams` the effect appends to. */
  class SearchParams {
    var params: seq<Param>

    constructor ()
      ensures params == []
    {
      params := [];
    }

    method Append(name: string, value: string)
      modifies this
      ensures params == old(params) + [Param(name, value)]
    {
      params := params + [Param(name, value)];
    }
  }

  /** The effect's conditional appends (36-38). */
  method BuildQuery(search: string, difficulty: string) returns (query: SearchParams)
    ensures fresh(query)
    ensures query.params == QueryParams(search, difficulty)
  {
    query := new SearchParams();
    if search != "" {
      query.Append("search", search);
    }
    if difficulty != "" {
      query.Append("difficulty", difficulty);
    }
  }

  // ---------------------------------------------------------------------
  // The rows
  // ---------------------------------------------------------------------

  datatype Row = Row(title: string, preview: string, chip: string, color: ChipColor, path: string)

  /** Where clicking a problem leads (99). */
  function ProblemPath(id: string): string {
    "/problems/" + id
  }

  /** One list item per problem, in the order the server sent them (96-118). */
  function Rows(problems: seq<Problem>): (rows: seq<Row>)
    ensures |rows| == |problems|
    ensures forall i :: 0 <= i < |problems| ==>
              rows[i] == Row(problems[i].title, Preview(problems[i].description), problems[i].difficulty,
                             DifficultyColor(problems[i].difficulty), ProblemPath(problems[i].id))
  {
    seq(|problems|, i requires 0 <= i < |problems| =>
          Row(problems[i].title, Preview(problems[i].description), problems[i].difficulty,
              DifficultyColor(problems[i].difficulty), ProblemPath(problems[i].id)))
  }
}
