/**
 * The duel lobby (client/src/components/DuelLobby.tsx): the room list the
 * server pushes, the join rule for each room and the create/join actions.
 */
module DuelLobby {
  import opened Wrappers
  import opened Duel

  const AuthRequiredMsg := "Authentication required to view the duel lobby."
  const ConnectionLostMsg := "Connection lost. Please refresh the page."
  const ConnectFailedMsg := "Failed to connect to server. Please check your connection."
  const NotAuthenticatedMsg := "User not authenticated."
  const NoSocketMsg := "Socket not connected."

  /** How many players a duel room holds. */
  const Capacity := 2

  /** The Join button is enabled (the negation of its `disabled`, 161). */
  predicate JoinEnabled(room: Room) {
    !(|room.players| >= Capacity || room.status != Waiting)
  }

  /** A full room is never joinable, whatever its status; a room past waiting never, whatever its size. */
  lemma JoinNeedsSeatAndWaiting(room: Room)
    ensures JoinEnabled(room) <==> |room.players| < 2 && room.status == Waiting
    ensures |room.players| >= 2 ==> !JoinEnabled(room)
    ensures room.status != Waiting ==> !JoinEnabled(room)
  {
  }

  /** Where the lobby sends the user for a room. */
  function DuelPath(roomId: string): (path: string)
    ensures |path| == |"/duel?roomId="| + |roomId|
    ensures path[..|"/duel?roomId="|] == "/duel?roomId=" && path[|"/duel?roomId="|..] == roomId
  {
    "/duel?roomId=" + roomId
  }

  datatype LobbyRow = NoRoomsRow | RoomRow(id: string, players: nat, status: Status, joinable: bool)

  /** The list under "Available Rooms" (143-170). */
  function LobbyRows(rooms: seq<Room>): (rows: seq<LobbyRow>)
    ensures rooms == [] <==> rows == [NoRoomsRow]
    ensures rooms != [] ==> |rows| == |rooms|
    ensures rooms != [] ==> forall i :: 0 <= i < |rooms| ==>
              rows[i] == RoomRow(rooms[i].id, |rooms[i].players|, rooms[i].status, JoinEnabled(rooms[i]))
  {
    if rooms == [] then [NoRoomsRow]
    else
      var rows := seq(|rooms|, i requires 0 <= i < |rooms| =>
                        RoomRow(rooms[i].id, |rooms[i].players|, rooms[i].status, JoinEnabled(rooms[i])));
      assert rows[0].RoomRow?;
      rows
  }

  /** The "No duel rooms available." row appears iff the list is empty, and then alone. */
  lemma NoRoomsRowIffEmpty(rooms: seq<Room>)
    ensures NoRoomsRow in LobbyRows(rooms) <==> rooms == []
  {
    if rooms != [] {
      var rows := LobbyRows(rooms);
      forall i | 0 <= i < |rows| ensures rows[i] != NoRoomsRow {
        assert rows[i].RoomRow?;
      }
    }
  }

  class LobbyPage {
    const user: Option<User>
    var hasSocket: bool
    var rooms: seq<Room>
    var error: string
    /** Everything emitted on the socket so far, oldest first. */
    var sent: seq<ClientEvent>
    /** Every route `navigate` was called with, oldest first. */
    var navigations: seq<string>

    ghost predicate Valid()
      reads this
    {
      && (hasSocket ==> user.Some?)
      && forall i :: 0 <= i < |sent| ==> SentBy(sent[i], user)
    }

    /** The initial state and the mount effect (28-43). */
    constructor (user: Option<User>, token: string)
      ensures Valid()
      ensures this.user == user
      ensures hasSocket == (user.Some? && token != "")
      ensures error == (if hasSocket then "" else AuthRequiredMsg)
      ensures rooms == [] && sent == [] && navigations == []
    {
      this.user := user;
      rooms := [];
      sent := [];
      navigations := [];
      if user.None? || token == "" {
        hasSocket := false;
        error := AuthRequiredMsg;
      } else {
        hasSocket := true;
        error := "";
      }
    }

    /** On connect the lobby asks for the room list. */
    method OnConnect()
      requires Valid()
      modifies this`error, this`sent
      ensures Valid() && error == "" && sent == old(sent) + [GetRoomList]
    {
      error := "";
      sent := sent + [GetRoomList];
    }

    method OnDisconnect()
      requires Valid()
      modifies this`error
      ensures Valid() && error == ConnectionLostMsg
    {
      error := ConnectionLostMsg;
    }

    method OnConnectError()
      requires Valid()
      modifies this`error
      ensures Valid() && error == ConnectFailedMsg
    {
      error := ConnectFailedMsg;
    }

    /** A `roomList` event replaces the stored rooms wholesale. */
    method OnRoomList(roomList: seq<Room>)
      requires Valid()
      modifies this`rooms
      ensures Valid() && rooms == roomList
    {
      rooms := roomList;
    }

    /** Creating a duel navigates only once the server confirms it. */
    method OnDuelCreated(room: Room)
      requires Valid()
      modifies this`navigations
      ensures Valid() && navigations == old(navigations) + [DuelPath(room.id)]
    {
      navigations := navigations + [DuelPath(room.id)];
    }

    /** Both `joinError` and `duelError` show the server's message. */
    method OnServerError(message: string)
      requires Valid()
      modifies this`error
      ensures Valid() && error == message
    {
      error := message;
    }

    method HandleJoinRoom(roomId: string)
      requires Valid()
      modifies this`sent, this`navigations, this`error
      ensures Valid()
      ensures hasSocket && user.Some? ==>
                && sent == old(sent) + [JoinDuel(roomId, user.value.id, user.value.username)]
                && navigations == old(navigations) + [DuelPath(roomId)]
                && error == old(error)
      ensures user.None? ==> sent == old(sent) && navigations == old(navigations) && error == NotAuthenticatedMsg
      ensures !hasSocket && user.Some? ==>
                sent == old(sent) && navigations == old(navigations) && error == old(error)
    {
      if hasSocket && user.Some? {
        sent := sent + [JoinDuel(roomId, user.value.id, user.value.username)];
        navigations := navigations + [DuelPath(roomId)];
      } else if user.None? {
        error := NotAuthenticatedMsg;
      }
    }

    /** Creating emits `createDuel` and does not navigate. */
    method HandleCreateDuel()
      requires Valid()
      modifies this`sent, this`error
      ensures Valid()
      ensures hasSocket && user.Some? ==>
                sent == old(sent) + [CreateDuel(user.value.id, user.value.username)] && error == old(error)
      ensures user.None? ==> sent == old(sent) && error == NotAuthenticatedMsg
      ensures !hasSocket && user.Some? ==> sent == old(sent) && error == NoSocketMsg
    {
      if hasSocket && user.Some? {
        sent := sent + [CreateDuel(user.value.id, user.value.username)];
      } else if user.None? {
        error := NotAuthenticatedMsg;
      } else if !hasSocket {
        error := NoSocketMsg;
      }
    }
  }
}
