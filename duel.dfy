/**
 * The duel-room snapshot the server pushes to the client (the `DuelRoom`
 * interface of the duel screens) and the actions the client emits.
 */
module Duel {
  import opened Wrappers
  import opened Editor

  datatype Status = Waiting | Starting | InProgress | Completed

  /** The signed-in user as the authentication context yields it. */
  datatype User = User(id: string, username: string, isAdmin: bool)

  datatype PlayerSubmission = PlayerSubmission(code: string, language: string, passedAll: Option<bool>)

  datatype Player = Player(userId: string, socketId: string, username: string, isReady: bool,
                           submission: Option<PlayerSubmission>)

  /** The part of the assigned problem the duel screen reads; `timeLimit` is used as is. */
  datatype DuelProblem = DuelProblem(id: string, title: string, description: string, difficulty: string,
                                     timeLimit: int, memoryLimit: int,
                                     acceptedLanguages: Option<seq<string>>)

  datatype Room = Room(id: string, players: seq<Player>, problem: Option<DuelProblem>, status: Status,
                       startTime: Option<int>, winnerId: Option<string>)

  /** Events the client emits on its socket.io connection. */
  datatype ClientEvent =
    | CreateDuel(userId: string, username: string)
    | JoinDuel(roomId: string, userId: string, username: string)
    | PlayerReady(roomId: string, userId: string)
    | SubmitCode(roomId: string, userId: string, code: Code, language: string)
    | GetRoomList

  /** `room.startTime` used as a JavaScript condition: null and 0 are false. */
  predicate StartTimeTruthy(room: Room) {
    room.startTime.Some? && room.startTime.value != 0
  }

  /** The emitted event names the given user (every event except the room-list request does). */
  predicate SentBy(e: ClientEvent, user: Option<User>) {
    e.GetRoomList? || (user.Some? && e.userId == user.value.id)
  }
}
