/**
 * The admin review screen (client/src/components/AdminReview.tsx): the list
 * of pending problems, approving or rejecting one, and the access check. The
 * screen's state is a value; each handler maps it to the next value.
 */
module AdminReview {
  import opened Wrappers
  import opened Lists
  import opened Text
  import opened Duel

  datatype Creator = Creator(username: Option<string>, email: Option<string>)

  datatype PendingProblem = PendingProblem(id: string, title: string, description: string, difficulty: string,
                                           createdBy: Option<Creator>, status: string)

  datatype ReviewState = ReviewState(pending: seq<PendingProblem>, loading: bool, error: string, success: string)

  /** The state at mount (25-28). */
  const InitialState := ReviewState([], true, "", "")

  const FetchFailedMsg := "Failed to fetch pending problems"
  const AccessDeniedMsg := "You do not have admin access."
  const NoPendingMsg := "No pending problems."

  datatype Action = Approve | Reject

  /** The word the action is spelled with in its route and messages. */
  function ActionName(a: Action): string {
    match a
    case Approve => "approve"
    case Reject => "reject"
  }

  /** The success message (56): the action's name with a `d` appended. */
  function SuccessMessage(a: Action): string {
    "Problem " + ActionName(a) + "d successfully!"
  }

  /** Appending `d` gives "approved" but the misspelt "rejectd". */
  lemma SuccessMessagesAsShown()
    ensures SuccessMessage(Approve) == "Problem approved successfully!"
    ensures SuccessMessage(Reject) == "Problem rejectd successfully!"
    ensures SuccessMessage(Approve) != SuccessMessage(Reject)
  {
  }

  /** The failure message (59): the server's, else one naming the action. */
  function FailureMessage(a: Action, serverMessage: Option<string>): (m: string)
    ensures serverMessage.Some? && serverMessage.value != "" ==> m == serverMessage.value
    ensures serverMessage.None? || serverMessage.value == "" ==> m == "Failed to " + ActionName(a) + " problem"
  {
    OrElse(serverMessage, "Failed to " + ActionName(a) + " problem")
  }

  /** The user is an administrator: `user?.isAdmin` (31, 63). */
  predicate IsAdmin(user: Option<User>) {
    user.Some? && user.value.isAdmin
  }

  // ---------------------------------------------------------------------
  // Loading the list
  // ---------------------------------------------------------------------

  /** The fetch effect's first step (31-34): for an administrator only, `loading` on and the error cleared. */
  function StartFetch(user: Option<User>, state: ReviewState): (r: Option<ReviewState>)
    ensures r.Some? <==> IsAdmin(user)
    ensures r.Some? ==> r.value == state.(loading := true, error := "")
  {
    if IsAdmin(user) then Some(state.(loading := true, error := "")) else None
  }

  /** What the fetch of the pending problems returned. */
  datatype FetchOutcome = Loaded(problems: seq<PendingProblem>) | LoadFailed(serverMessage: Option<string>)

  /** The end of the fetch (39-44): the list, or a message; `loading` off either way. */
  function FinishFetch(state: ReviewState, outcome: FetchOutcome): (next: ReviewState)
    ensures !next.loading && next.success == state.success
    ensures outcome.Loaded? ==> next.pending == outcome.problems && next.error == state.error
    ensures outcome.LoadFailed? ==>
              next.pending == state.pending && next.error == OrElse(outcome.serverMessage, FetchFailedMsg)
  {
    match outcome
    case Loaded(ps) => state.(pending := ps, loading := false)
    case LoadFailed(m) => state.(error := OrElse(m, FetchFailedMsg), loading := false)
  }

  // ---------------------------------------------------------------------
  // Approving and rejecting
  // ---------------------------------------------------------------------

  /** `pendingProblems.filter(p => p._id !== id)` (57). */
  function WithoutId(pending: seq<PendingProblem>, id: string): seq<PendingProblem> {
    Filter(pending, (p: PendingProblem) => p.id != id)
  }

  /** Removing `id` removes every problem with that id and keeps every other one, in order. */
  lemma WithoutIdRemovesExactly(pending: seq<PendingProblem>, id: string)
    ensures forall i :: 0 <= i < |WithoutId(pending, id)| ==> WithoutId(pending, id)[i].id != id
    ensures forall i :: 0 <= i < |pending| && pending[i].id != id ==> pending[i] in WithoutId(pending, id)
    ensures IsSubsequence(WithoutId(pending, id), pending)
  {
    FilterIsSubsequence(pending, (p: PendingProblem) => p.id != id);
  }

  /** A problem with another id keeps its place between what was before it and what was after it. */
  lemma WithoutIdKeepsOrder(before: seq<PendingProblem>, p: PendingProblem, after: seq<PendingProblem>, id: string)
    requires p.id != id
    ensures WithoutId(before + [p] + after, id) == WithoutId(before, id) + [p] + WithoutId(after, id)
  {
    var f := (q: PendingProblem) => q.id != id;
    FilterAppend(before + [p], after, f);
    FilterAppend(before, [p], f);
    assert Filter([p], f) == [p] by {
      assert [p][1..] == [];
    }
  }

  /** A click on Approve or Reject (50-51): both messages are cleared before the request. */
  function BeginAction(state: ReviewState): (next: ReviewState)
    ensures next.error == "" && next.success == ""
    ensures next.pending == state.pending && next.loading == state.loading
  {
    state.(error := "", success := "")
  }

  /** How the approve or reject request ended. */
  datatype ActionOutcome = Done | ActionFailed(serverMessage: Option<string>)

  /**
   * The end of `handleAction` as written (56-60): on success the list
   * becomes the one captured when the button was clicked, filtered.
   */
  function CompleteActionAsWritten(state: ReviewState, captured: seq<PendingProblem>, id: string, a: Action,
                                   outcome: ActionOutcome): (next: ReviewState)
    ensures outcome == Done ==>
              next == state.(success := SuccessMessage(a), pending := WithoutId(captured, id))
    ensures outcome.ActionFailed? ==> next == state.(error := FailureMessage(a, outcome.serverMessage))
  {
    match outcome
    case Done => state.(success := SuccessMessage(a), pending := WithoutId(captured, id))
    case ActionFailed(m) => state.(error := FailureMessage(a, m))
  }

  /** The end of `handleAction`, filtering the list as it is when the response arrives. */
  function CompleteAction(state: ReviewState, id: string, a: Action, outcome: ActionOutcome): (next: ReviewState)
    ensures next.loading == state.loading
    ensures outcome == Done ==>
              && next.success == SuccessMessage(a) && next.error == state.error
              && (forall i :: 0 <= i < |next.pending| ==> next.pending[i].id != id)
              && (forall i :: 0 <= i < |state.pending| && state.pending[i].id != id ==>
                    state.pending[i] in next.pending)
              && IsSubsequence(next.pending, state.pending)
    ensures outcome.ActionFailed? ==>
              && next.pending == state.pending && next.success == state.success
              && next.error == FailureMessage(a, outcome.serverMessage)
  {
    WithoutIdRemovesExactly(state.pending, id);
    match outcome
    case Done => state.(success := SuccessMessage(a), pending := WithoutId(state.pending, id))
    case ActionFailed(m) => state.(error := FailureMessage(a, m))
  }

  /**
   * Two problems approved one after the other before the first response:
   * as written, the second response restores the first problem.
   */
  lemma OverlappingActionsRestoreProblem(x: PendingProblem, y: PendingProblem)
    requires x.id != y.id
    ensures var s0 := BeginAction(BeginAction(InitialState.(pending := [x, y], loading := false)));
            var s1 := CompleteActionAsWritten(s0, [x, y], x.id, Approve, Done);
            var s2 := CompleteActionAsWritten(s1, [x, y], y.id, Approve, Done);
            s2.pending == [x]
    ensures var s0 := BeginAction(BeginAction(InitialState.(pending := [x, y], loading := false)));
            var s1 := CompleteAction(s0, x.id, Approve, Done);
            var s2 := CompleteAction(s1, y.id, Approve, Done);
            s2.pending == []
  {
    var f := (q: PendingProblem) => q.id != x.id;
    var g := (q: PendingProblem) => q.id != y.id;
    assert [x, y][1..] == [y];
    assert [y][1..] == [];
    assert [x][1..] == [];
    assert Filter([x, y], f) == [y];
    assert Filter([x, y], g) == [x];
    assert Filter([y], g) == [];
  }

  // ---------------------------------------------------------------------
  // The screen
  // ---------------------------------------------------------------------

  datatype Card = Card(title: string, details: string, description: string, id: string)

  datatype Screen =
    | AccessDenied(message: string)
    | ReviewList(spinner: bool, error: Option<string>, success: Option<string>, emptyNote: Option<string>,
                 cards: seq<Card>)

  const UnknownCreator := "Unknown"

  /** Whether the problem names a creator with a non-empty username. */
  predicate HasCreatorName(p: PendingProblem) {
    p.createdBy.Some? && p.createdBy.value.username.Some? && p.createdBy.value.username.value != ""
  }

  /** "Submitted by": `createdBy?.username || 'Unknown'` (84). */
  function SubmittedBy(p: PendingProblem): (name: string)
    ensures HasCreatorName(p) ==> name == p.createdBy.value.username.value
    ensures !HasCreatorName(p) ==> name == UnknownCreator
  {
    OrElse(if p.createdBy.Some? then p.createdBy.value.username else None, UnknownCreator)
  }

  /** One pending problem's card (80-86): its title, the difficulty and creator line, its description. */
  function ShowCard(p: PendingProblem): (c: Card)
    ensures c.title == p.title && c.description == p.description && c.id == p.id
    ensures c.details == "Difficulty: " + p.difficulty + " | Submitted by: " + SubmittedBy(p)
    ensures HasCreatorName(p) ==> c.details[|c.details| - |p.createdBy.value.username.value|..]
                                  == p.createdBy.value.username.value
  {
    var c := Card(p.title, "Difficulty: " + p.difficulty + " | Submitted by: " + SubmittedBy(p),
                  p.description, p.id);
    var prefix := "Difficulty: " + p.difficulty + " | Submitted by: ";
    assert c.details == prefix + SubmittedBy(p);
    assert (prefix + SubmittedBy(p))[|prefix|..] == SubmittedBy(p);
    c
  }

  /** A message is rendered only when it is non-empty (`{error && <Alert>}`). */
  function NonEmpty(s: string): (m: Option<string>)
    ensures m.Some? <==> s != ""
    ensures m.Some? ==> m.value == s
  {
    if s != "" then Some(s) else None
  }

  /** What the screen shows (63-107). */
  function ShowScreen(user: Option<User>, state: ReviewState): (s: Screen)
    ensures s.AccessDenied? <==> !IsAdmin(user)
    ensures s.AccessDenied? ==> s.message == AccessDeniedMsg
    ensures s.ReviewList? ==>
              && s.spinner == state.loading
              && (s.error.Some? <==> state.error != "") && (s.success.Some? <==> state.success != "")
              && (s.error.Some? ==> s.error.value == state.error)
              && (s.success.Some? ==> s.success.value == state.success)
              && s.emptyNote == (if !state.loading && state.pending == [] then Some(NoPendingMsg) else None)
              && |s.cards| == |state.pending|
              && (forall i :: 0 <= i < |state.pending| ==> s.cards[i] == ShowCard(state.pending[i]))
              && forall i :: 0 <= i < |state.pending| ==>
                   s.cards[i].title == state.pending[i].title && s.cards[i].id == state.pending[i].id
                   && s.cards[i].description == state.pending[i].description
  {
    if !IsAdmin(user) then AccessDenied(AccessDeniedMsg)
    else
      ReviewList(state.loading, NonEmpty(state.error), NonEmpty(state.success),
                 if !state.loading && |state.pending| == 0 then Some(NoPendingMsg) else None,
                 seq(|state.pending|, i requires 0 <= i < |state.pending| => ShowCard(state.pending[i])))
  }

  /** A user who is not an administrator starts no fetch and sees only the access message. */
  lemma NonAdminSeesNothing(user: Option<User>, state: ReviewState)
    requires !IsAdmin(user)
    ensures StartFetch(user, state).None?
    ensures ShowScreen(user, state) == AccessDenied(AccessDeniedMsg)
  {
  }
}
