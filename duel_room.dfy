/**
 * The duel screen (client/src/components/DuelRoom.tsx): the rules it applies
 * to the room snapshots it receives, and the page state its socket handlers,
 * its one-second interval and its buttons overwrite.
 */
module DuelRoomView {
  import opened Wrappers
  import opened Lists
  import opened Text
  import opened Editor
  import opened Duel
  import DuelClock

  const AuthRequiredMsg := "Authentication required to join a duel."
  const DisconnectedMsg := "Disconnected from duel server. Please refresh or try again."
  const NotAuthenticatedMsg := "User not authenticated."
  const EnterRoomIdMsg := "Please enter a Room ID to join."
  const NotInProgressMsg := "Cannot submit code when duel is not in progress."
  const NoSocketMsg := "Socket not connected."
  const NotInRoomMsg := "Not in a duel room."
  const NotWaitingMsg := "Cannot set ready state when duel is not waiting."

  // ---------------------------------------------------------------------
  // Clock formulas
  // ---------------------------------------------------------------------

  /**
   * The countdown of the `duelJoined` and `duelUpdate` handlers as written:
   * `Date.now() - (room.startTime || Date.now())` reads the clock twice, at
   * `first` and then at `second`.
   */
  function HandlerCountdownAsWritten(room: Room, first: int, second: int): (c: int)
    ensures c >= 0
    ensures room.status != Starting ==> c == 0
  {
    if room.status == Starting then
      DuelClock.Remaining(DuelClock.CountdownSeconds, first,
                          if StartTimeTruthy(room) then room.startTime.value else second)
    else 0
  }

  /** When the clock ticks between the two reads, a room without a start time shows a countdown of 6. */
  lemma HandlerCountdownCanShowSix(room: Room, first: int, second: int)
    requires room.status == Starting && !StartTimeTruthy(room)
    requires first < second <= first + 1000
    ensures HandlerCountdownAsWritten(room, first, second) == 6
  {
    assert (first - second) / 1000 == -1;
  }

  /** The handlers' countdown with the clock read once. */
  function HandlerCountdown(room: Room, now: int): (c: int)
    ensures c >= 0
    ensures room.status != Starting ==> c == 0
    ensures room.status == Starting && !StartTimeTruthy(room) ==> c == 5
    ensures room.status == Starting && StartTimeTruthy(room) && now >= room.startTime.value ==> c <= 5
  {
    HandlerCountdownAsWritten(room, now, now)
  }

  /** The match timer runs only in progress, with a problem and a truthy start time. */
  predicate TimerRuns(room: Room) {
    room.status == InProgress && room.problem.Some? && StartTimeTruthy(room)
  }

  /** "Time left" of the handlers: `problem.timeLimit` minus the whole seconds since `startTime`. */
  function MatchTimeLeft(room: Room, now: int): (t: int)
    ensures t >= 0
    ensures !TimerRuns(room) ==> t == 0
    ensures TimerRuns(room) && now >= room.startTime.value && room.problem.value.timeLimit >= 0
            ==> t <= room.problem.value.timeLimit
  {
    if TimerRuns(room) then
      DuelClock.Remaining(room.problem.value.timeLimit, now, room.startTime.value)
    else 0
  }

  lemma MatchTimeLeftNonIncreasing(room: Room, t1: int, t2: int)
    requires t1 <= t2
    ensures MatchTimeLeft(room, t2) <= MatchTimeLeft(room, t1)
  {
    if TimerRuns(room) {
      DuelClock.RemainingNonIncreasing(room.problem.value.timeLimit, room.startTime.value, t1, t2);
    }
  }

  /**
   * `timeLimit` is counted in seconds: time is left exactly while fewer than
   * `timeLimit * 1000` milliseconds have passed since the start.
   */
  lemma TimeLimitCountsSeconds(room: Room, now: int)
    requires TimerRuns(room)
    ensures MatchTimeLeft(room, now) > 0 <==> now - room.startTime.value < room.problem.value.timeLimit * 1000
  {
    DuelClock.RemainingPositiveIff(room.problem.value.timeLimit, now, room.startTime.value);
  }

  /** The problem form's default limit of 1000 (labelled milliseconds) still shows 999 after one second. */
  lemma DefaultLimitLastsOverSixteenMinutes(room: Room)
    requires TimerRuns(room) && room.problem.value.timeLimit == 1000
    ensures MatchTimeLeft(room, room.startTime.value + 1000) == 999
    ensures MatchTimeLeft(room, room.startTime.value + 999_999) == 1
  {
  }

  /** The interval's countdown (183-191): it only asks that `startTime` is not null. */
  function TickCountdown(room: Option<Room>, now: int): (c: int)
    ensures c >= 0
    ensures c > 0 ==> room.Some? && room.value.status == Starting && room.value.startTime.Some?
    ensures (room.Some? && room.value.status == Starting && room.value.startTime.Some?
             && now >= room.value.startTime.value) ==> c <= 5
  {
    if room.Some? && room.value.status == Starting && room.value.startTime.Some? then
      DuelClock.Remaining(DuelClock.CountdownSeconds, now, room.value.startTime.value)
    else 0
  }

  /** The interval's time left (192-200) agrees with the handlers' formula. */
  function TickTimeLeft(room: Option<Room>, now: int): (t: int)
    ensures t >= 0
    ensures room.None? ==> t == 0
    ensures room.Some? ==> t == MatchTimeLeft(room.value, now)
  {
    if room.Some? && TimerRuns(room.value) then
      DuelClock.Remaining(room.value.problem.value.timeLimit, now, room.value.startTime.value)
    else 0
  }

  // ---------------------------------------------------------------------
  // What the screen shows
  // ---------------------------------------------------------------------

  /** `players.some(p => p.userId === user?.id && p.isReady)`. */
  predicate UserIsReady(room: Room, user: Option<User>)
    ensures UserIsReady(room, user) <==>
              user.Some? && exists i :: 0 <= i < |room.players| && room.players[i].userId == user.value.id
                                        && room.players[i].isReady
  {
    FindIndex(room.players, (p: Player) => user.Some? && p.userId == user.value.id && p.isReady).Some?
  }

  datatype ReadyControl = NoReadyControl | WaitingForOpponent | ReadyButton(enabled: bool)

  /** The waiting-room control (359-365). */
  function ReadyControlShown(room: Room, user: Option<User>, hasSocket: bool): (c: ReadyControl)
    ensures c != NoReadyControl <==> room.status == Waiting
    ensures c == WaitingForOpponent <==>
            room.status == Waiting && user.Some? &&
            exists i :: 0 <= i < |room.players| && room.players[i].userId == user.value.id && room.players[i].isReady
    ensures c.ReadyButton? ==> c.enabled == hasSocket
  {
    if room.status != Waiting then NoReadyControl
    else if UserIsReady(room, user) then WaitingForOpponent
    else ReadyButton(hasSocket && room.status == Waiting)
  }

  /** The submit button's `disabled` (453). */
  predicate SubmitDisabled(hasSocket: bool, submitting: bool, room: Room, timeLeft: int) {
    !hasSocket || submitting || room.status != InProgress || timeLeft == 0
  }

  /** A player is the opponent when their id differs from `user?.id` (every player is, without a user). */
  predicate IsOpponent(p: Player, user: Option<User>) {
    user.None? || p.userId != user.value.id
  }

  /** "Opponent has submitted" (485): the first player who is not the user has a submission. */
  function OpponentSubmitted(room: Room, user: Option<User>): (b: bool)
    ensures b <==> exists i :: 0 <= i < |room.players| && IsOpponent(room.players[i], user)
                               && (forall j :: 0 <= j < i ==> !IsOpponent(room.players[j], user))
                               && room.players[i].submission.Some?
  {
    var k := FindIndex(room.players, (p: Player) => IsOpponent(p, user));
    if k.Some? then
      assert IsOpponent(room.players[k.value], user);
      room.players[k.value].submission.Some?
    else false
  }

  /** In a two-player room the opponent of either player is the other one. */
  lemma OpponentIsOtherPlayer(room: Room, me: User)
    requires |room.players| == 2 && room.players[0].userId != room.players[1].userId
    requires me.id == room.players[0].userId || me.id == room.players[1].userId
    ensures OpponentSubmitted(room, Some(me)) ==
            (if me.id == room.players[0].userId then room.players[1] else room.players[0]).submission.Some?
  {
    if me.id == room.players[0].userId {
      assert !IsOpponent(room.players[0], Some(me)) && IsOpponent(room.players[1], Some(me));
    } else {
      assert IsOpponent(room.players[0], Some(me));
    }
  }

  datatype Outcome = YouWon | PlayerWon(username: Option<string>) | Draw

  /** `currentRoom.winnerId === user?.id`: null never equals undefined. */
  predicate UserWon(room: Room, user: Option<User>) {
    room.winnerId.Some? && user.Some? && room.winnerId.value == user.value.id
  }

  /** `players.find(p => p.userId === winnerId)?.username`. */
  function WinnerName(room: Room): (n: Option<string>)
    requires room.winnerId.Some?
    ensures n.Some? <==> exists i :: 0 <= i < |room.players| && room.players[i].userId == room.winnerId.value
    ensures n.Some? ==> exists i :: 0 <= i < |room.players| && room.players[i].userId == room.winnerId.value
                                    && room.players[i].username == n.value
  {
    var k := FindIndex(room.players, (p: Player) => p.userId == room.winnerId.value);
    if k.Some? then
      assert room.players[k.value].userId == room.winnerId.value;
      Some(room.players[k.value].username)
    else None
  }

  /** The completed-duel banner (502-508): exactly one of the three outcomes. */
  function ShownOutcome(room: Room, user: Option<User>): (o: Outcome)
    ensures o == YouWon <==> UserWon(room, user)
    ensures o.PlayerWon? <==> !UserWon(room, user) && room.winnerId.Some? && room.winnerId.value != ""
    ensures o == Draw <==> !UserWon(room, user) && (room.winnerId.None? || room.winnerId.value == "")
    ensures o.PlayerWon? ==> o.username == WinnerName(room)
  {
    if UserWon(room, user) then YouWon
    else if room.winnerId.Some? && room.winnerId.value != "" then PlayerWon(WinnerName(room))
    else Draw
  }

  /** The two members of a decided room see complementary banners. */
  lemma OutcomeOfTwoPlayers(room: Room, winner: User, loser: User)
    requires |room.players| == 2 && room.players[0].userId == winner.id && room.players[1].userId == loser.id
    requires winner.id != loser.id && winner.id != ""
    requires room.winnerId == Some(winner.id)
    ensures ShownOutcome(room, Some(winner)) == YouWon
    ensures ShownOutcome(room, Some(loser)) == PlayerWon(Some(room.players[0].username))
  {
    assert room.players[0].userId == room.winnerId.value;
  }

  datatype TestResult = TestResult(passed: bool, error: Option<string>)
  datatype Verdict = Verdict(passedAll: bool, testResults: Option<seq<TestResult>>)

  /** One line of the last submission's result (473). */
  function TestLabel(r: TestResult): (s: string)
    ensures s == "Passed" <==> r.passed
    ensures !r.passed ==> s == "Failed: " + OrElse(r.error, "Incorrect output")
  {
    if r.passed then "Passed" else "Failed: " + OrElse(r.error, "Incorrect output")
  }

  /** The languages offered in the duel's selector are labelled by this table (437-442). */
  function DuelLanguageLabel(lang: string): (name: string)
    ensures lang == "cpp" ==> name == "C++"
    ensures lang == "c" ==> name == "C"
    ensures lang == "java" ==> name == "Java"
    ensures lang == "python" ==> name == "Python"
    ensures lang != "cpp" && lang != "c" && lang != "java" && lang != "python" ==>
            |name| == |lang| && (|lang| > 0 ==> name[0] == UpperChar(lang[0]) && name[1..] == lang[1..])
  {
    if lang == "cpp" then "C++"
    else if lang == "c" then "C"
    else if lang == "java" then "Java"
    else if lang == "python" then "Python"
    else Capitalize(lang)
  }

  // ---------------------------------------------------------------------
  // Action gates
  // ---------------------------------------------------------------------

  datatype Gate = Send | Refuse(message: string) | Ignore

  /** `handleSubmitCode` (238-256): which branch a click takes. */
  function SubmitGate(hasSocket: bool, user: Option<User>, room: Option<Room>): (g: Gate)
    ensures g == Send <==> hasSocket && user.Some? && room.Some? && room.value.status == InProgress
    ensures g == Refuse(NotInProgressMsg) <==> room.None? || room.value.status != InProgress
    ensures room.Some? && room.value.status == InProgress && user.None? ==> g == Refuse(NotAuthenticatedMsg)
    ensures room.Some? && room.value.status == InProgress && user.Some? && !hasSocket ==> g == Refuse(NoSocketMsg)
    ensures g != Refuse(NotInRoomMsg) && g != Ignore
  {
    if hasSocket && user.Some? && room.Some? && room.value.status == InProgress then Send
    else if room.None? || room.value.status != InProgress then Refuse(NotInProgressMsg)
    else if user.None? then Refuse(NotAuthenticatedMsg)
    else if !hasSocket then Refuse(NoSocketMsg)
    else if room.None? then Refuse(NotInRoomMsg)
    else Ignore
  }

  /** `handleReadyClick` (258-270): which branch a click takes. */
  function ReadyGate(hasSocket: bool, user: Option<User>, room: Option<Room>): (g: Gate)
    ensures g == Send <==> hasSocket && user.Some? && room.Some? && room.value.status == Waiting
    ensures g == Refuse(NotWaitingMsg) <==> room.None? || room.value.status != Waiting
    ensures room.Some? && room.value.status == Waiting && user.None? ==> g == Refuse(NotAuthenticatedMsg)
    ensures room.Some? && room.value.status == Waiting && user.Some? && !hasSocket ==> g == Refuse(NoSocketMsg)
    ensures g != Refuse(NotInRoomMsg) && g != Ignore
  {
    if hasSocket && user.Some? && room.Some? && room.value.status == Waiting then Send
    else if room.None? || room.value.status != Waiting then Refuse(NotWaitingMsg)
    else if user.None? then Refuse(NotAuthenticatedMsg)
    else if !hasSocket then Refuse(NoSocketMsg)
    else if room.None? then Refuse(NotInRoomMsg)
    else Ignore
  }

  /** A click on an enabled submit button is always sent. */
  lemma EnabledSubmitIsSent(hasSocket: bool, submitting: bool, user: Option<User>, room: Room, timeLeft: int)
    requires !SubmitDisabled(hasSocket, submitting, room, timeLeft) && user.Some?
    ensures SubmitGate(hasSocket, user, Some(room)) == Send
  {
  }

  // ---------------------------------------------------------------------
  // Stale room in the handlers registered at mount
  // ---------------------------------------------------------------------

  /** `!currentRoom?.problem && room.problem`: whether an update resets the editor to the skeleton. */
  predicate UpdateResetsCode(previous: Option<Room>, incoming: Room) {
    !(previous.Some? && previous.value.problem.Some?) && incoming.problem.Some?
  }

  /**
   * The interval callback sees the room as it was when the effect ran (null):
   * a running match with time left has its timer set to 0 and its submit
   * button disabled at the next tick.
   */
  lemma StaleTickZeroesTimer(room: Room, now: int)
    requires MatchTimeLeft(room, now) > 0
    ensures TickTimeLeft(Some(room), now) > 0
    ensures TickTimeLeft(None, now) == 0
    ensures SubmitDisabled(true, false, room, TickTimeLeft(None, now))
  {
  }

  /**
   * The update handler also sees the mount-time room: every update that carries
   * a problem resets the editor, although the room already had that problem.
   */
  lemma StaleUpdateResetsCode(previous: Room, incoming: Room)
    requires previous.problem.Some? && incoming.problem.Some?
    ensures UpdateResetsCode(None, incoming)
    ensures !UpdateResetsCode(Some(previous), incoming)
  {
  }

  // ---------------------------------------------------------------------
  // The page
  // ---------------------------------------------------------------------

  class DuelRoomPage {
    const user: Option<User>
    var hasSocket: bool
    var roomIdInput: string
    var currentRoom: Option<Room>
    var error: string
    var code: Code
    var language: string
    var submissionResult: Option<Verdict>
    var submitting: bool
    var countdown: int
    var timeLeft: int
    var showRoomId: bool
    var copied: bool
    /** Everything emitted on the socket so far, oldest first. */
    var sent: seq<ClientEvent>

    ghost predicate Valid()
      reads this
    {
      && countdown >= 0 && timeLeft >= 0
      && (hasSocket ==> user.Some?)
      && (submitting ==> hasSocket)
      && forall i :: 0 <= i < |sent| ==> SentBy(sent[i], user)
    }

    /** The initial state and the mount effect (66-90): a socket only with a user and a token ("" for none). */
    constructor (user: Option<User>, token: string)
      ensures Valid()
      ensures this.user == user
      ensures hasSocket == (user.Some? && token != "")
      ensures error == (if hasSocket then "" else AuthRequiredMsg)
      ensures roomIdInput == "" && currentRoom == None && code == Blank && language == "javascript"
      ensures submissionResult == None && !submitting && countdown == 0 && timeLeft == 0
      ensures !showRoomId && !copied && sent == []
    {
      this.user := user;
      roomIdInput := "";
      currentRoom := None;
      code := Blank;
      language := "javascript";
      submissionResult := None;
      submitting := false;
      countdown := 0;
      timeLeft := 0;
      showRoomId := false;
      copied := false;
      sent := [];
      if user.None? || token == "" {
        hasSocket := false;
        error := AuthRequiredMsg;
      } else {
        hasSocket := true;
        error := "";
      }
    }

    method OnConnect()
      requires Valid()
      modifies this`error
      ensures Valid() && error == ""
    {
      error := "";
    }

    method OnDisconnect()
      requires Valid()
      modifies this`currentRoom, this`error
      ensures Valid() && currentRoom == None && error == DisconnectedMsg
    {
      currentRoom := None;
      error := DisconnectedMsg;
    }

    method OnDuelCreated(room: Room)
      requires Valid()
      modifies this`currentRoom, this`showRoomId, this`copied, this`error
      ensures Valid() && currentRoom == Some(room) && showRoomId && !copied && error == ""
    {
      currentRoom := Some(room);
      showRoomId := true;
      copied := false;
      error := "";
    }

    /** `duelJoined` with the clock read once, at `now`. */
    method OnDuelJoined(room: Room, now: int)
      requires Valid()
      modifies this`currentRoom, this`showRoomId, this`error, this`code, this`countdown, this`timeLeft
      ensures Valid() && currentRoom == Some(room) && !showRoomId && error == ""
      ensures code == (if room.problem.Some? then StubCode(language) else old(code))
      ensures countdown == HandlerCountdown(room, now) && timeLeft == MatchTimeLeft(room, now)
    {
      currentRoom := Some(room);
      showRoomId := false;
      error := "";
      if room.problem.Some? {
        code := StubCode(language);
      }
      countdown := HandlerCountdown(room, now);
      timeLeft := MatchTimeLeft(room, now);
    }

    /** `duelJoined` as written (111-133): the countdown reads the clock twice, at `first` and at `second`. */
    method OnDuelJoinedAsWritten(room: Room, first: int, second: int)
      requires Valid()
      modifies this`currentRoom, this`showRoomId, this`error, this`code, this`countdown, this`timeLeft
      ensures Valid() && currentRoom == Some(room) && !showRoomId && error == ""
      ensures code == (if room.problem.Some? then StubCode(language) else old(code))
      ensures countdown == HandlerCountdownAsWritten(room, first, second)
      ensures timeLeft == MatchTimeLeft(room, first)
    {
      currentRoom := Some(room);
      showRoomId := false;
      error := "";
      if room.problem.Some? {
        code := StubCode(language);
      }
      countdown := HandlerCountdownAsWritten(room, first, second);
      timeLeft := MatchTimeLeft(room, first);
    }

    method OnJoinError(message: string)
      requires Valid()
      modifies this`error
      ensures Valid() && error == message
    {
      error := message;
    }

    /** `duelUpdate`, with the previous room read from the page state. */
    method OnDuelUpdate(room: Room, now: int)
      requires Valid()
      modifies this`currentRoom, this`showRoomId, this`code, this`countdown, this`timeLeft
      ensures Valid() && currentRoom == Some(room)
      ensures showRoomId == (old(showRoomId) && room.status == Waiting)
      ensures code == (if UpdateResetsCode(old(currentRoom), room) then StubCode(language) else old(code))
      ensures countdown == HandlerCountdown(room, now) && timeLeft == MatchTimeLeft(room, now)
    {
      var resets := UpdateResetsCode(currentRoom, room);
      currentRoom := Some(room);
      if room.status != Waiting {
        showRoomId := false;
      }
      if resets {
        code := StubCode(language);
      }
      countdown := HandlerCountdown(room, now);
      timeLeft := MatchTimeLeft(room, now);
    }

    /** `duelUpdate` as written: the previous room is the mount-time null and the clock is read twice. */
    method OnDuelUpdateAsWritten(room: Room, first: int, second: int)
      requires Valid()
      modifies this`currentRoom, this`showRoomId, this`code, this`countdown, this`timeLeft
      ensures Valid() && currentRoom == Some(room)
      ensures showRoomId == (old(showRoomId) && room.status == Waiting)
      ensures code == (if UpdateResetsCode(None, room) then StubCode(language) else old(code))
      ensures countdown == HandlerCountdownAsWritten(room, first, second)
      ensures timeLeft == MatchTimeLeft(room, first)
    {
      currentRoom := Some(room);
      if room.status != Waiting {
        showRoomId := false;
      }
      if UpdateResetsCode(None, room) {
        code := StubCode(language);
      }
      countdown := HandlerCountdownAsWritten(room, first, second);
      timeLeft := MatchTimeLeft(room, first);
    }

    method OnDuelEnded(room: Room)
      requires Valid()
      modifies this`currentRoom, this`submitting
      ensures Valid() && currentRoom == Some(room) && !submitting
    {
      currentRoom := Some(room);
      submitting := false;
    }

    method OnSubmissionResult(result: Option<Verdict>)
      requires Valid()
      modifies this`submissionResult, this`submitting
      ensures Valid() && submissionResult == result && !submitting
    {
      submissionResult := result;
      submitting := false;
    }

    /** One run of the one-second interval, reading the page's current room. */
    method Tick(now: int)
      requires Valid()
      modifies this`countdown, this`timeLeft
      ensures Valid()
      ensures countdown == TickCountdown(currentRoom, now) && timeLeft == TickTimeLeft(currentRoom, now)
    {
      countdown := TickCountdown(currentRoom, now);
      timeLeft := TickTimeLeft(currentRoom, now);
    }

    /** The interval as written: its callback holds the room captured at mount, which is null. */
    method TickAsWritten(now: int)
      requires Valid()
      modifies this`countdown, this`timeLeft
      ensures Valid()
      ensures countdown == TickCountdown(None, now) && timeLeft == TickTimeLeft(None, now)
      ensures countdown == 0 && timeLeft == 0
    {
      countdown := TickCountdown(None, now);
      timeLeft := TickTimeLeft(None, now);
    }

    method HandleCreateDuel()
      requires Valid()
      modifies this`sent, this`error
      ensures Valid()
      ensures hasSocket && user.Some? ==>
                sent == old(sent) + [CreateDuel(user.value.id, user.value.username)] && error == ""
      ensures user.None? ==> sent == old(sent) && error == NotAuthenticatedMsg
      ensures !hasSocket && user.Some? ==> sent == old(sent) && error == old(error)
    {
      if hasSocket && user.Some? {
        sent := sent + [CreateDuel(user.value.id, user.value.username)];
        error := "";
      } else if user.None? {
        error := NotAuthenticatedMsg;
      }
    }

    method EditRoomIdInput(value: string)
      requires Valid()
      modifies this`roomIdInput
      ensures Valid() && roomIdInput == value
    {
      roomIdInput := value;
    }

    method HandleJoinDuel()
      requires Valid()
      modifies this`sent, this`error, this`roomIdInput
      ensures Valid()
      ensures hasSocket && user.Some? && old(roomIdInput) != "" ==>
                sent == old(sent) + [JoinDuel(old(roomIdInput), user.value.id, user.value.username)]
                && error == "" && roomIdInput == ""
      ensures user.None? ==> sent == old(sent) && error == NotAuthenticatedMsg && roomIdInput == old(roomIdInput)
      ensures user.Some? && old(roomIdInput) == "" ==>
                sent == old(sent) && error == EnterRoomIdMsg && roomIdInput == ""
      ensures !hasSocket && user.Some? && old(roomIdInput) != "" ==>
                sent == old(sent) && error == old(error) && roomIdInput == old(roomIdInput)
    {
      if hasSocket && user.Some? && roomIdInput != "" {
        sent := sent + [JoinDuel(roomIdInput, user.value.id, user.value.username)];
        error := "";
        roomIdInput := "";
      } else if user.None? {
        error := NotAuthenticatedMsg;
      } else if roomIdInput == "" {
        error := EnterRoomIdMsg;
      }
    }

    method HandleLanguageChange(newLanguage: string)
      requires Valid()
      modifies this`language, this`code
      ensures Valid() && language == newLanguage
      ensures code == (if currentRoom.Some? && currentRoom.value.problem.Some? then StubCode(newLanguage)
                       else old(code))
    {
      language := newLanguage;
      if currentRoom.Some? && currentRoom.value.problem.Some? {
        code := StubCode(newLanguage);
      }
    }

    method EditCode(value: Option<string>)
      requires Valid()
      modifies this`code
      ensures Valid() && code == EditorValue(value)
    {
      code := EditorValue(value);
    }

    /** `submitCode` is emitted, and `submitting` set, exactly when the gate says Send. */
    method HandleSubmitCode()
      requires Valid()
      modifies this`submitting, this`sent, this`error
      ensures Valid()
      ensures SubmitGate(hasSocket, user, currentRoom) == Send ==>
                && submitting && error == old(error)
                && sent == old(sent) + [SubmitCode(currentRoom.value.id, user.value.id, code, language)]
      ensures SubmitGate(hasSocket, user, currentRoom).Refuse? ==>
                && submitting == old(submitting) && sent == old(sent)
                && error == SubmitGate(hasSocket, user, currentRoom).message
    {
      var gate := SubmitGate(hasSocket, user, currentRoom);
      if gate == Send {
        submitting := true;
        sent := sent + [SubmitCode(currentRoom.value.id, user.value.id, code, language)];
      } else if gate.Refuse? {
        error := gate.message;
      }
    }

    /** `playerReady` is emitted exactly when the gate says Send. */
    method HandleReadyClick()
      requires Valid()
      modifies this`sent, this`error
      ensures Valid()
      ensures ReadyGate(hasSocket, user, currentRoom) == Send ==>
                error == old(error) && sent == old(sent) + [PlayerReady(currentRoom.value.id, user.value.id)]
      ensures ReadyGate(hasSocket, user, currentRoom).Refuse? ==>
                sent == old(sent) && error == ReadyGate(hasSocket, user, currentRoom).message
    {
      var gate := ReadyGate(hasSocket, user, currentRoom);
      if gate == Send {
        sent := sent + [PlayerReady(currentRoom.value.id, user.value.id)];
      } else if gate.Refuse? {
        error := gate.message;
      }
    }

    /** `copyRoomId` (272-278): the clipboard write itself is outside the model. */
    method CopyRoomId()
      requires Valid()
      modifies this`copied
      ensures Valid()
      ensures copied == (if currentRoom.Some? && currentRoom.value.id != "" then true else old(copied))
    {
      if currentRoom.Some? && currentRoom.value.id != "" {
        copied := true;
      }
    }

    /** The two-second timer started by a copy. */
    method OnCopiedTimeout()
      requires Valid()
      modifies this`copied
      ensures Valid() && !copied
    {
      copied := false;
    }
  }
}
