# AlgoArena client rules, modelled in Dafny

This project models the rules that AlgoArena's web client applies on six screens. Each rule is stated as a contract, and the properties the screens rely on are proved.

- **Duel room** (`DuelRoom.tsx`):
  - the countdown and match-timer arithmetic on millisecond timestamps;
  - which room snapshot the page keeps;
  - when the ready and submit actions are sent or refused;
  - the opponent and outcome banners;
  - the language labels.
- **Duel lobby** (`DuelLobby.tsx`): the room list, the Join-button rule, and the create and join actions.
- **Problem submission** (`SubmitProblem.tsx`): the editable list of test cases, and the submit cycle that resets the form.
- **Problem detail** (`ProblemDetail.tsx`):
  - which starter code a title and a language select;
  - the language labels;
  - the login gate;
  - how test results are shown.
- **Problem list** (`ProblemList.tsx`): the difficulty colour, the description preview, and the query parameters built from the search box and the filter.
- **Admin review** (`AdminReview.tsx`): approving or rejecting a pending problem, its messages, and the admin-only access.

Screens whose handlers overwrite fields of the page are Dafny classes:
- `DuelRoomView.DuelRoomPage`;
- `DuelLobby.LobbyPage`;
- `SubmitProblem.ProblemForm`;
- the `URLSearchParams` object, `ProblemList.SearchParams`.

In these classes, each handler is a method. Its `modifies` clause names the fields it sets, and its `ensures` gives their new values. Events the page emits on its socket are recorded in a `sent` sequence. The routes it navigates to are recorded in `navigations`.

ProblemDetail and AdminReview only compute values, so their state is a datatype, and each handler is a function from one state to the next.

Other modelling choices:
- **Clock.** `Date.now()` is an integer parameter.
- **Server.** Every server answer (a room snapshot, a fetched list, a failed post) arrives as a parameter of the handler that receives it.
- **Starter templates.** The template source texts are opaque values of `Editor.Code`: `Blank` is the empty string, `Stub(lang)` a generic skeleton, `Template(title, lang)` a problem's own template, and `Typed(text)` what the user typed.
- **`switch` statements.** A JavaScript `switch` runs the first case that matches; `ProblemDetail.SwitchArm` models this with `Lists.FindIndex`.
- **Truthiness.** JavaScript truthiness is written out. A start time of `0` counts as false (`Duel.StartTimeTruthy`). `x || fallback` on a string is `Text.OrElse`.

Two behaviours are modelled exactly as written, although they look unintended:
- **The match timer counts `timeLimit` as seconds.** The duel screen computes `timeLimit - floor((now - startTime) / 1000)`. The problem form, however, labels the field "Time Limit (ms)" and defaults it to 1000. So a problem entered with the default lasts 1000 seconds: `DuelRoomView.TimeLimitCountsSeconds`, `DuelRoomView.DefaultLimitLastsOverSixteenMinutes`.
- **The reject message reads "rejectd".** The success message appends `d` to the action's name, giving "Problem rejectd successfully!": `AdminReview.SuccessMessagesAsShown`.

The problem screen's switch has ten titled templates besides "Sum of Two Numbers". The model follows the code and lists all ten in `ProblemDetail.TemplateTitles`.

## Model

| member | source | states |
|---|---|---|
| Lists.FindIndex | client/src/components/DuelRoom.tsx:485 | The first position whose element satisfies the predicate, or None exactly when no element does (`find`/`findIndex`). |
| Lists.Filter | client/src/components/AdminReview.tsx:57 | The result is no longer than the input. It holds only elements of the input that pass, and holds every element that passes. |
| Lists.FilterIsSubsequence | client/src/components/AdminReview.tsx:57 | `filter` keeps the surviving elements in their original order. |
| Lists.SubsequenceDropFirst | client/src/components/AdminReview.tsx:57 | Adding an element in front of a sequence keeps every subsequence of it a subsequence. |
| Lists.FilterAppend | client/src/components/AdminReview.tsx:57 | Filtering a concatenation filters each part. |
| Lists.WithoutIndex | client/src/components/SubmitProblem.tsx:58 | `filter((_, i) => i !== k)` is one element shorter exactly when `k` is a position of the list, and as long otherwise. |
| Lists.WithoutIndexSlices | client/src/components/SubmitProblem.tsx:58 | `filter((_, i) => i !== k)` cuts out exactly position `k` when `k` is in range, and otherwise returns the sequence unchanged. |
| Text.OrElse | client/src/components/SubmitProblem.tsx:89 | `x \|\| fallback`: exactly the value when it is a non-empty string, and exactly the fallback when the value is absent or empty. |
| Text.UpperChar | client/src/components/ProblemDetail.tsx:343 | A lower-case ASCII letter becomes its own capital (code point minus 32); every other character is kept. |
| Text.Capitalize | client/src/components/ProblemDetail.tsx:343 | Same length; the first character is upper-cased and the rest is kept. |
| Editor.EditorValue | client/src/components/DuelRoom.tsx:416 | `value \|\| ''`: empty exactly when the editor reports nothing or an empty string, otherwise the typed text. |
| Editor.StubCode | client/src/components/DuelRoom.tsx:50-62 | A skeleton exactly for javascript, python, c and cpp, and that language's skeleton; '' for any other language. |
| DuelClock.Remaining | client/src/components/DuelRoom.tsx:122 | `max(0, budget - floor(elapsed/1000))` is never negative, and never exceeds the budget once the start has passed. |
| DuelClock.DivMonotone | client/src/components/DuelRoom.tsx:128 | `Math.floor(x / 1000)` never decreases as `x` grows, which the timers' monotonicity rests on. |
| DuelClock.RemainingNonIncreasing | client/src/components/DuelRoom.tsx:128 | With a fixed start, the remaining time never goes up as the clock advances. |
| DuelClock.RemainingPositiveIff | client/src/components/DuelRoom.tsx:128 | Time remains exactly while fewer than `budget * 1000` ms have passed. |
| DuelClock.RemainingFirstSecond | client/src/components/DuelRoom.tsx:128 | During the first second, the whole budget is shown. |
| DuelClock.CountdownStartsAtFive | client/src/components/DuelRoom.tsx:122 | The countdown shows 5 during its first second. |
| DuelClock.CountdownEnds | client/src/components/DuelRoom.tsx:184 | The countdown is 0 from 5000 ms after its start. |
| DuelRoomView.HandlerCountdownAsWritten | client/src/components/DuelRoom.tsx:120-126 | The handlers' countdown with its two clock reads. It is never negative, and is 0 outside `starting`. |
| DuelRoomView.HandlerCountdownCanShowSix | client/src/components/DuelRoom.tsx:122 | A room without a start time shows 6 when the clock advances between the two reads. |
| DuelRoomView.HandlerCountdown | client/src/components/DuelRoom.tsx:151-157 | With one clock read: 0 outside `starting`, 5 without a start time, and at most 5 once started. |
| DuelRoomView.TimerRuns | client/src/components/DuelRoom.tsx:127 | The match timer runs exactly for an in-progress room with a problem and a truthy start time. |
| DuelRoomView.MatchTimeLeft | client/src/components/DuelRoom.tsx:127-132 | Time left is 0 unless the duel is in progress with a problem and a start time. It is never negative, and never exceeds `timeLimit` once started. |
| DuelRoomView.MatchTimeLeftNonIncreasing | client/src/components/DuelRoom.tsx:159 | Time left never goes up as the clock advances. |
| DuelRoomView.TimeLimitCountsSeconds | client/src/components/DuelRoom.tsx:159 | Time remains exactly while fewer than `timeLimit * 1000` ms have passed, so `timeLimit` is in seconds. |
| DuelRoomView.DefaultLimitLastsOverSixteenMinutes | client/src/components/SubmitProblem.tsx:36 | A problem with the form's default limit of 1000 still shows 999 after one second, and 1 after 999.999 seconds. |
| DuelRoomView.TickCountdown | client/src/components/DuelRoom.tsx:183-191 | The interval's countdown is positive only in `starting` with a non-null start time, and is at most 5 once started. |
| DuelRoomView.TickTimeLeft | client/src/components/DuelRoom.tsx:192-200 | The interval's time left is 0 without a room, and otherwise agrees with the handlers' formula. |
| DuelRoomView.UserIsReady | client/src/components/DuelRoom.tsx:359 | `players.some(...)`: true exactly when a user is present and some player with the user's id is ready. |
| DuelRoomView.ReadyControlShown | client/src/components/DuelRoom.tsx:359-365 | A control appears exactly while waiting. It shows the waiting note exactly when the user is already ready, and otherwise a button enabled exactly when there is a socket. |
| DuelRoomView.SubmitDisabled | client/src/components/DuelRoom.tsx:453 | The submit button is disabled without a socket, while submitting, outside `in-progress`, or with no time left. |
| DuelRoomView.IsOpponent | client/src/components/DuelRoom.tsx:485 | A player is the opponent when their id differs from the user's; without a user every player is. |
| DuelRoomView.OpponentSubmitted | client/src/components/DuelRoom.tsx:485 | True exactly when the first player whose id is not the user's has a submission. |
| DuelRoomView.OpponentIsOtherPlayer | client/src/components/DuelRoom.tsx:485 | In a two-player room, each player's opponent is the other player. |
| DuelRoomView.UserWon | client/src/components/DuelRoom.tsx:502 | `winnerId === user?.id`: true only with both a winner and a user, and equal ids. |
| DuelRoomView.WinnerName | client/src/components/DuelRoom.tsx:505 | A name exactly when some player has the winner's id, and then that player's name. |
| DuelRoomView.ShownOutcome | client/src/components/DuelRoom.tsx:502-508 | "You won", another player's win, or a draw, each exactly under its condition (an empty winner id is a draw). |
| DuelRoomView.OutcomeOfTwoPlayers | client/src/components/DuelRoom.tsx:502-505 | The winner sees "You won", and the loser sees the winner's name. |
| DuelRoomView.TestLabel | client/src/components/DuelRoom.tsx:473 | "Passed" exactly for a passed test; otherwise "Failed: " followed by the error or "Incorrect output". |
| DuelRoomView.DuelLanguageLabel | client/src/components/DuelRoom.tsx:437-442 | cpp, c, java and python get their fixed labels. Any other language keeps its length and gets only an upper-cased first letter. |
| DuelRoomView.SubmitGate | client/src/components/DuelRoom.tsx:238-256 | Sent exactly with a socket, a user and an in-progress room. Refused with "not in progress" exactly when the room is absent or not in progress. With an in-progress room, refused with "User not authenticated." without a user, and with "Socket not connected." for a user without a socket, the user being tested first. "Not in a duel room" is never shown. |
| DuelRoomView.ReadyGate | client/src/components/DuelRoom.tsx:258-270 | Sent exactly with a socket, a user and a waiting room. Refused with "not waiting" exactly when the room is absent or not waiting. With a waiting room, refused with "User not authenticated." without a user, and with "Socket not connected." for a user without a socket, the user being tested first. "Not in a duel room" is never shown. |
| DuelRoomView.EnabledSubmitIsSent | client/src/components/DuelRoom.tsx:453 | A click on an enabled submit button is always sent. |
| DuelRoomView.UpdateResetsCode | client/src/components/DuelRoom.tsx:148 | An update resets the editor exactly when the previous room had no problem and the incoming one has one. |
| DuelRoomView.StaleTickZeroesTimer | client/src/components/DuelRoom.tsx:182-207 | With time left, the interval's captured null room makes the next tick set the time to 0 and disable submitting. |
| DuelRoomView.StaleUpdateResetsCode | client/src/components/DuelRoom.tsx:148-150 | Against the captured null room, every update that carries a problem resets the editor. Against the actual previous room, none does. |
| DuelRoomView.DuelRoomPage.constructor | client/src/components/DuelRoom.tsx:66-91 | The initial state; a socket only with both a user and a token, and otherwise the authentication error. |
| DuelRoomView.DuelRoomPage.OnConnect | client/src/components/DuelRoom.tsx:92-95 | Clears the error. |
| DuelRoomView.DuelRoomPage.OnDisconnect | client/src/components/DuelRoom.tsx:97-101 | Forgets the room and shows the disconnect message. |
| DuelRoomView.DuelRoomPage.OnDuelCreated | client/src/components/DuelRoom.tsx:103-109 | Keeps the room, shows its id, resets "copied" and clears the error. |
| DuelRoomView.DuelRoomPage.OnDuelJoined | client/src/components/DuelRoom.tsx:111-133 | The corrected handler of the :122 finding: keeps the room and hides the id, gives the skeleton when the room has a problem, and sets the countdown from a single clock read. |
| DuelRoomView.DuelRoomPage.OnDuelJoinedAsWritten | client/src/components/DuelRoom.tsx:111-133 | The handler as written: the same new room, id flag, error and code, with the countdown from two clock reads, so it can show 6. |
| DuelRoomView.DuelRoomPage.OnJoinError | client/src/components/DuelRoom.tsx:135-138 | Shows the server's message. |
| DuelRoomView.DuelRoomPage.OnDuelUpdate | client/src/components/DuelRoom.tsx:140-164 | Keeps the room and hides the id past waiting. Resets the editor only when a problem first appears, and sets the timers. |
| DuelRoomView.DuelRoomPage.OnDuelUpdateAsWritten | client/src/components/DuelRoom.tsx:140-164 | The same, with the captured null room and two clock reads. |
| DuelRoomView.DuelRoomPage.OnDuelEnded | client/src/components/DuelRoom.tsx:166-172 | Keeps the final room and ends submitting. |
| DuelRoomView.DuelRoomPage.OnSubmissionResult | client/src/components/DuelRoom.tsx:174-179 | Stores the verdict and ends submitting. |
| DuelRoomView.DuelRoomPage.Tick | client/src/components/DuelRoom.tsx:182-201 | One tick of the interval against the page's current room. |
| DuelRoomView.DuelRoomPage.TickAsWritten | client/src/components/DuelRoom.tsx:182-201 | One tick against the captured null room: both timers become 0. |
| DuelRoomView.DuelRoomPage.HandleCreateDuel | client/src/components/DuelRoom.tsx:209-216 | Emits `createDuel` with the user's id and name only with a socket and a user. Without a user, it shows the authentication error. |
| DuelRoomView.DuelRoomPage.EditRoomIdInput | client/src/components/DuelRoom.tsx:335 | Stores the typed room id. |
| DuelRoomView.DuelRoomPage.HandleJoinDuel | client/src/components/DuelRoom.tsx:218-228 | Emits `joinDuel` and clears the input only with a socket, a user and an id. Otherwise it leaves the emitted events unchanged and shows the matching error. |
| DuelRoomView.DuelRoomPage.HandleLanguageChange | client/src/components/DuelRoom.tsx:230-236 | Stores the language, and replaces the code with its skeleton only when the room has a problem. |
| DuelRoomView.DuelRoomPage.EditCode | client/src/components/DuelRoom.tsx:416 | Stores the editor's value. |
| DuelRoomView.DuelRoomPage.HandleSubmitCode | client/src/components/DuelRoom.tsx:238-256 | Emits `submitCode` with the room, the user, the code and the language, and sets submitting, exactly when the gate sends. Otherwise it shows the gate's message. |
| DuelRoomView.DuelRoomPage.HandleReadyClick | client/src/components/DuelRoom.tsx:258-270 | Emits `playerReady` exactly when the gate sends; otherwise it shows the gate's message. |
| DuelRoomView.DuelRoomPage.CopyRoomId | client/src/components/DuelRoom.tsx:272-278 | Sets "copied" only when the room has a non-empty id. |
| DuelRoomView.DuelRoomPage.OnCopiedTimeout | client/src/components/DuelRoom.tsx:276 | The timer clears "copied". |
| DuelLobby.JoinEnabled | client/src/components/DuelLobby.tsx:161 | The negation of the Join button's `disabled`: fewer than two players and status `waiting`. |
| DuelLobby.JoinNeedsSeatAndWaiting | client/src/components/DuelLobby.tsx:161 | Join is enabled exactly for a waiting room with fewer than two players. |
| DuelLobby.DuelPath | client/src/components/DuelLobby.tsx:91 | The route is the fixed prefix followed by the room id. |
| DuelLobby.LobbyRows | client/src/components/DuelLobby.tsx:143-170 | The single "No duel rooms available." row exactly for an empty list. Otherwise there is one row per room, in order, with its player count and Join state. |
| DuelLobby.NoRoomsRowIffEmpty | client/src/components/DuelLobby.tsx:143-146 | The "no rooms" row appears exactly when there are no rooms. |
| DuelLobby.LobbyPage.constructor | client/src/components/DuelLobby.tsx:26-38 | A socket only with both a user and a token, and otherwise the lobby's authentication error. |
| DuelLobby.LobbyPage.OnConnect | client/src/components/DuelLobby.tsx:46-50 | Clears the error and requests the room list. |
| DuelLobby.LobbyPage.OnDisconnect | client/src/components/DuelLobby.tsx:52-55 | Shows the connection-lost message. |
| DuelLobby.LobbyPage.OnConnectError | client/src/components/DuelLobby.tsx:57-60 | Shows the connection-failed message. |
| DuelLobby.LobbyPage.OnRoomList | client/src/components/DuelLobby.tsx:62-65 | Replaces the room list with the one received. |
| DuelLobby.LobbyPage.OnDuelCreated | client/src/components/DuelLobby.tsx:67-71 | Navigates to the new room. |
| DuelLobby.LobbyPage.OnServerError | client/src/components/DuelLobby.tsx:73-81 | Shows the server's message for a join or creation error. |
| DuelLobby.LobbyPage.HandleJoinRoom | client/src/components/DuelLobby.tsx:88-95 | With a socket and a user, emits `joinDuel` and navigates at once. Without a user, it shows the error, and without a socket it does nothing. |
| DuelLobby.LobbyPage.HandleCreateDuel | client/src/components/DuelLobby.tsx:97-113 | Emits `createDuel` without navigating. Otherwise it shows the authentication error or the socket error. |
| SubmitProblem.WithEdit | client/src/components/SubmitProblem.tsx:45-48 | Sets the named field of a test case and keeps the other two. |
| SubmitProblem.Appended | client/src/components/SubmitProblem.tsx:52-54 | One default test case is added at the end; the rest are unchanged. |
| SubmitProblem.Removed | client/src/components/SubmitProblem.tsx:56-59 | A one-case list is unchanged. Otherwise the case at the index is cut out, and an out-of-range index changes nothing. The list never becomes empty. |
| SubmitProblem.RemovedKeepsOthers | client/src/components/SubmitProblem.tsx:58 | After a removal, cases before the index keep their positions and later ones move up by one. |
| SubmitProblem.ProblemForm.constructor | client/src/components/SubmitProblem.tsx:33-41 | The empty form: difficulty "easy", limits 1000 and 256, one default test case, no messages. |
| SubmitProblem.ProblemForm.SetTitle | client/src/components/SubmitProblem.tsx:108 | Stores the title. |
| SubmitProblem.ProblemForm.SetDescription | client/src/components/SubmitProblem.tsx:116 | Stores the description. |
| SubmitProblem.ProblemForm.SetDifficulty | client/src/components/SubmitProblem.tsx:129 | Stores the difficulty. |
| SubmitProblem.ProblemForm.SetTimeLimit | client/src/components/SubmitProblem.tsx:140 | Stores the time limit. |
| SubmitProblem.ProblemForm.SetMemoryLimit | client/src/components/SubmitProblem.tsx:148 | Stores the memory limit. |
| SubmitProblem.ProblemForm.ChangeTestCase | client/src/components/SubmitProblem.tsx:43-50 | Only the case at the index changes, and only in the edited field. The list keeps its length. |
| SubmitProblem.ProblemForm.AddTestCase | client/src/components/SubmitProblem.tsx:52-54 | The list becomes `Appended` of the old list. |
| SubmitProblem.ProblemForm.RemoveTestCase | client/src/components/SubmitProblem.tsx:56-59 | The list becomes `Removed` of the old list, and stays non-empty. |
| SubmitProblem.ProblemForm.Submit | client/src/components/SubmitProblem.tsx:61-80 | Posts the form's values exactly when every required field is filled and no post is running. It then clears both messages and sets loading; otherwise nothing changes. |
| SubmitProblem.ProblemForm.FinishSubmit | client/src/components/SubmitProblem.tsx:81-92 | On success, resets every field and shows the success message. On failure, shows the server's message or "Submission failed" and keeps the fields. Loading ends either way. |
| ProblemDetail.SwitchArm | client/src/components/ProblemDetail.tsx:75-86 | The first case equal to the language, or none exactly when no case is equal. |
| ProblemDetail.DefaultCode | client/src/components/ProblemDetail.tsx:73-247 | The sum problem has a template exactly for c, cpp and python. Each of the ten other titles has one exactly for python, c, cpp and java. Any other problem, or none, gets the generic skeleton. |
| ProblemDetail.DuplicateSumCaseUnreachable | client/src/components/ProblemDetail.tsx:82-83 | The second `case 'c'` of the sum switch never runs. |
| ProblemDetail.SumHasNoJava | client/src/components/ProblemDetail.tsx:74-101 | Java gives '' for the sum problem but a template for every other titled problem. |
| ProblemDetail.InitialLanguageBlankForNamedProblems | client/src/components/ProblemDetail.tsx:249-253 | In javascript, the first language (53) and one the selector offers, a problem's own starter code is empty exactly for the titled problems and the JavaScript skeleton otherwise. This is what the corrected load and a language change give; the first load as written does not consult the title. |
| ProblemDetail.LanguageLabel | client/src/components/ProblemDetail.tsx:338-343 | cpp, c, javascript and python get their fixed labels. Any other language keeps its length and gets only an upper-cased first letter, and '' stays ''. |
| ProblemDetail.LabelTablesDifferOnlyOnJavaScript | client/src/components/ProblemDetail.tsx:338-343 | The problem screen and the duel screen label every language alike except javascript. |
| ProblemDetail.LanguageOptions | client/src/components/ProblemDetail.tsx:337-345 | One entry per accepted language, in order, each with its label. |
| ProblemDetail.LoadProblemAsWritten | client/src/components/ProblemDetail.tsx:58-71 | The fetched problem is stored, but the starter code is chosen for the problem shown before it. A failure shows "Error fetching problem". |
| ProblemDetail.LoadProblem | client/src/components/ProblemDetail.tsx:58-71 | The fetched problem is stored with the starter code for that problem in the current language; the rest is kept. |
| ProblemDetail.StaleLoadShowsPreviousTemplate | client/src/components/ProblemDetail.tsx:64 | If the screen stayed mounted while its id changed from the factorial problem to the sum problem, in Python, it would show the factorial template as written, and the sum template when corrected. |
| ProblemDetail.FirstLoadIgnoresTitle | client/src/components/ProblemDetail.tsx:64 | From the page as mounted (still in javascript, no selector while loading): as written every problem gets the JavaScript skeleton. Corrected, a titled problem starts empty and any other problem gets the skeleton. |
| ProblemDetail.ChangeLanguage | client/src/components/ProblemDetail.tsx:249-253 | Stores the language and the starter code for the shown problem; the rest is kept. |
| ProblemDetail.EditCode | client/src/components/ProblemDetail.tsx:318 | Only the code changes, to the editor's value. |
| ProblemDetail.HandleSubmit | client/src/components/ProblemDetail.tsx:255-266 | A request with the problem id, the code and the language is made exactly for a logged-in user. Otherwise the login error is shown. |
| ProblemDetail.SubmitFinished | client/src/components/ProblemDetail.tsx:267-271 | On success, stores the results and clears the error. On failure, keeps the old results and shows "Error submitting solution". |
| ProblemDetail.LoginErrorIffUnauthenticated | client/src/components/ProblemDetail.tsx:256-259 | On a page not already showing it, a submit shows the login error exactly when the user is not logged in. |
| ProblemDetail.ShowResult | client/src/components/ProblemDetail.tsx:370-395 | The case number counts from 1. The verdict is Passed or Failed, and expected and actual output appear exactly for a failed case. |
| ProblemDetail.ResultViews | client/src/components/ProblemDetail.tsx:370 | One view per test result, in order. |
| ProblemDetail.OutputsShownOnlyForFailures | client/src/components/ProblemDetail.tsx:382-391 | Expected and actual output are shown exactly for the failed results. |
| ProblemList.DifficultyColor | client/src/components/ProblemList.tsx:50-61 | easy gives success, medium warning, hard error, and anything else default. |
| ProblemList.ColorsTellDifficultiesApart | client/src/components/ProblemList.tsx:50-61 | Only the three difficulties get a non-default colour, each a different one. |
| ProblemList.Preview | client/src/components/ProblemList.tsx:110 | The first min(150, length) characters of the description followed by "...", so at most 153 characters. |
| ProblemList.ShortDescriptionStillGetsEllipsis | client/src/components/ProblemList.tsx:110 | A description of up to 150 characters is shown whole, followed by "...". |
| ProblemList.QueryParams | client/src/components/ProblemList.tsx:36-38 | At most two parameters. |
| ProblemList.QueryHasNonEmptyFilters | client/src/components/ProblemList.tsx:36-38 | `search` is present exactly when non-empty, and likewise `difficulty`, each with its own value, with `search` first. Each of the four combinations gives exactly its list: none, one or both parameters. |
| ProblemList.AllSendsNoDifficulty | client/src/components/ProblemList.tsx:87 | The "All" option sends no difficulty parameter. |
| ProblemList.SearchParams.constructor | client/src/components/ProblemList.tsx:36 | A new `URLSearchParams` is empty. |
| ProblemList.SearchParams.Append | client/src/components/ProblemList.tsx:37-38 | `append` adds one parameter at the end. |
| ProblemList.BuildQuery | client/src/components/ProblemList.tsx:36-38 | The conditional appends produce exactly `QueryParams`. |
| ProblemList.ProblemPath | client/src/components/ProblemList.tsx:99 | Clicking a problem leads to `/problems/` followed by its id. |
| ProblemList.Rows | client/src/components/ProblemList.tsx:96-118 | One row per problem, in order, with its title, preview, difficulty chip and link. |
| AdminReview.SuccessMessage | client/src/components/AdminReview.tsx:56 | `Problem ${action}d successfully!`: the action's name with a `d` appended. |
| AdminReview.SuccessMessagesAsShown | client/src/components/AdminReview.tsx:56 | Approving shows "Problem approved successfully!", and rejecting shows "Problem rejectd successfully!". |
| AdminReview.FailureMessage | client/src/components/AdminReview.tsx:59 | The server's message if non-empty, otherwise "Failed to approve problem" or "Failed to reject problem". |
| AdminReview.IsAdmin | client/src/components/AdminReview.tsx:31 | `user?.isAdmin`: a user is present and flagged as an administrator. |
| AdminReview.StartFetch | client/src/components/AdminReview.tsx:30-34 | Only an administrator starts the fetch, which sets loading and clears the error. |
| AdminReview.FinishFetch | client/src/components/AdminReview.tsx:39-44 | Stores the list, or shows the server's message or the fetch failure; loading ends. |
| AdminReview.WithoutId | client/src/components/AdminReview.tsx:57 | `pendingProblems.filter(p => p._id !== id)`; its meaning is stated by the two lemmas below it. |
| AdminReview.WithoutIdRemovesExactly | client/src/components/AdminReview.tsx:57 | No problem with the id remains, every other one remains, and the order is kept. |
| AdminReview.WithoutIdKeepsOrder | client/src/components/AdminReview.tsx:57 | A problem with another id stays between the survivors before it and those after it. |
| AdminReview.BeginAction | client/src/components/AdminReview.tsx:50-51 | Both messages are cleared and the list is untouched. |
| AdminReview.CompleteActionAsWritten | client/src/components/AdminReview.tsx:56-60 | On success, the list becomes the one captured at the click, filtered. |
| AdminReview.CompleteAction | client/src/components/AdminReview.tsx:56-60 | On success, the current list loses exactly the id and keeps the rest in order, with the success message. On failure, the list is unchanged and the failure message is shown. |
| AdminReview.OverlappingActionsRestoreProblem | client/src/components/AdminReview.tsx:57 | Two overlapping approvals leave the first problem listed as written, and remove both when corrected. |
| AdminReview.SubmittedBy | client/src/components/AdminReview.tsx:84 | Exactly the creator's username when there is a non-empty one, and exactly "Unknown" otherwise. |
| AdminReview.ShowCard | client/src/components/AdminReview.tsx:80-86 | The card carries the problem's title, description and id, and the line "Difficulty: … \| Submitted by: …", which ends with the creator's username when there is one. |
| AdminReview.NonEmpty | client/src/components/AdminReview.tsx:75-76 | `{error && <Alert>}`: a message is shown exactly when non-empty, with its own text. |
| AdminReview.ShowScreen | client/src/components/AdminReview.tsx:63-107 | Access denied exactly for a non-administrator. Otherwise: a spinner while loading, each message shown with its own text exactly when non-empty, the "No pending problems." note exactly when loaded and empty, and one card per problem in order, each being that problem's card. |
| AdminReview.NonAdminSeesNothing | client/src/components/AdminReview.tsx:31 | A non-administrator starts no fetch and sees only the access message. |

## Left out

- Sockets, HTTP requests, navigation and the clipboard are not performed. Emitted events and routes are recorded in sequences, and every answer is a parameter.
- React's batching and re-rendering are not modelled. A handler's updates are applied at once.
- The duel effect re-running when the language changes is not modelled: the disconnect, the fresh socket and the fresh interval. The lobby's effect re-running on a new user or token is not modelled either.
- Timers are not scheduled. The interval's tick and the two-second "copied" timeout are methods the environment calls.
- Layout and styling are left out. So are the "log in" screens the duel pages show without a user.
- `toUpperCase` is modelled for ASCII letters only.
- ProblemList.Preview: counts characters, where `substring` counts UTF-16 code units.
- ProblemList.QueryParams: the parameters are modelled as name/value pairs. Their percent-encoding into the URL is not modelled.
- The number inputs are modelled as integers. `Number('')` giving 0 and non-numeric input giving NaN are left out.
- `handleTestCaseChange` receives a field name and a value of any type. The model pairs each field with a value of its own type, so a mistyped pair cannot be expressed.
- SubmitProblem.ProblemForm.Submit: the browser's `required` check is taken as "non-empty". The number fields always hold a number.
- ProblemDetail.LanguageOptions: takes the accepted languages as a list. The problem screen reads the list without a guard (337), so its failure for a problem that has no list is not modelled.
- The server files are not part of this model: the duel manager, judging, and the database seed. So room transitions, winner choice and verdicts arrive as inputs.

## Findings

| source | as written | input that shows it | evidently intended | confidence | as-written member | corrected member |
|---|---|---|---|---|---|---|
| client/src/components/DuelRoom.tsx:182-207 | The interval is created once per effect run, and its callback reads the `currentRoom` of that render, which is null at mount. Every tick therefore sets the countdown and the time left to 0. | A running duel with time left: one tick sets the time left to 0, which disables the submit button. | Each tick reads the room the page currently holds. | not executed; high | DuelRoomView.DuelRoomPage.TickAsWritten, DuelRoomView.StaleTickZeroesTimer | DuelRoomView.DuelRoomPage.Tick |
| client/src/components/DuelRoom.tsx:148 | `!currentRoom?.problem` in the `duelUpdate` handler reads the mount-time null room. Every update carrying a problem resets the editor to the skeleton. | Two updates of a room that already has a problem: the second wipes the typed code. | Reset only when the problem first appears. | not executed; high | DuelRoomView.DuelRoomPage.OnDuelUpdateAsWritten, DuelRoomView.StaleUpdateResetsCode | DuelRoomView.DuelRoomPage.OnDuelUpdate |
| client/src/components/DuelRoom.tsx:122 | `Date.now() - (room.startTime \|\| Date.now())` reads the clock twice. | A room in `starting` without a start time, with the second read 1 ms later: the countdown shows 6. | The countdown never exceeds 5. | not executed; medium | DuelRoomView.HandlerCountdownAsWritten, DuelRoomView.HandlerCountdownCanShowSix, DuelRoomView.DuelRoomPage.OnDuelJoinedAsWritten, DuelRoomView.DuelRoomPage.OnDuelUpdateAsWritten | DuelRoomView.HandlerCountdown, DuelRoomView.DuelRoomPage.OnDuelJoined, DuelRoomView.DuelRoomPage.OnDuelUpdate |
| client/src/components/ProblemDetail.tsx:64 | The fetch effect chooses the starter code with `getDefaultCode` of the render that started it, whose `problem` is the one shown before the fetch: null on the first load. | The first load of "Factorial Calculation", in the initial javascript: the editor gets the generic JavaScript skeleton, although no titled problem has JavaScript code. Every visit shows this: the screen is routed at client/src/App.tsx:53-56, is reached from the problem list, and links to no other problem, so each load is a first load. The previous problem's template would show only if the screen stayed mounted while its id changed, which nothing in the app does. | The starter code of the problem just fetched. | not executed; medium | ProblemDetail.LoadProblemAsWritten, ProblemDetail.FirstLoadIgnoresTitle, ProblemDetail.StaleLoadShowsPreviousTemplate | ProblemDetail.LoadProblem |
| client/src/components/AdminReview.tsx:57 | On success, the list becomes the `pendingProblems` captured at the click, filtered. | Approve x, then approve y before x's response arrives: after both responses, x is listed again. | Both problems leave the list. | not executed; medium | AdminReview.CompleteActionAsWritten, AdminReview.OverlappingActionsRestoreProblem | AdminReview.CompleteAction |
