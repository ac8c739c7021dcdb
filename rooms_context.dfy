/** The rooms context: the list of channels, the selected one, a loading flag, an error and
    the room-info panel flag. Every service call's result is an input. */
module RoomsContext {
  import opened Wrappers
  import opened Domain
  import opened Seqs

  const LoadFailedText := "Failed to load rooms"
  const JoinFailedText := "Failed to join room"
  const LeaveFailedText := "Failed to leave room"
  const CreateFailedText := "Failed to create room"

  function IdIsNot(roomId: string): Room -> bool
  {
    (r: Room) => r.id != roomId
  }

  /** `prevRooms.filter(room => room._id !== roomId)` */
  function WithoutRoom(rooms: seq<Room>, roomId: string): (rest: seq<Room>)
    ensures forall r :: r in rest <==> r in rooms && r.id != roomId
  {
    Keep(rooms, IdIsNot(roomId))
  }

  /** Leaving removes every copy of the left room and keeps every other room as often as before. */
  lemma LeaveCounts(rooms: seq<Room>, roomId: string, r: Room)
    ensures multiset(WithoutRoom(rooms, roomId))[r] == if r.id == roomId then 0 else multiset(rooms)[r]
  {
    KeepCount(rooms, IdIsNot(roomId), r);
  }

  /** Filtering works piecewise, so the rooms kept stay in their relative order. */
  lemma LeaveKeepsOrder(before: seq<Room>, after: seq<Room>, roomId: string)
    ensures WithoutRoom(before + after, roomId) == WithoutRoom(before, roomId) + WithoutRoom(after, roomId)
  {
    KeepConcat(before, after, IdIsNot(roomId));
  }

  /** Leaving a room the list does not hold leaves the list as it is. */
  lemma LeaveAbsentRoom(rooms: seq<Room>, roomId: string)
    requires forall r :: r in rooms ==> r.id != roomId
    ensures WithoutRoom(rooms, roomId) == rooms
  {
    KeepAll(rooms, IdIsNot(roomId));
  }

  class RoomStore {
    var rooms: seq<Room>
    var currentRoom: Option<Room>
    var isLoading: bool
    var error: Option<string>
    var showRoomInfo: bool

    constructor ()
      ensures rooms == [] && currentRoom == None && !isLoading && error == None && !showRoomInfo
    {
      rooms, currentRoom, isLoading, error, showRoomInfo := [], None, false, None, false;
    }

    /** `loadRooms`: the fetched list replaces the old one; a refusal or an exception keeps the
        list and records the error; `isLoading` ends false. */
    method LoadRooms(reply: Reply<seq<Room>>)
      modifies this`rooms, this`isLoading, this`error
      ensures rooms == if reply.Succeeded? then reply.value else old(rooms)
      ensures error == ErrorOf(reply, LoadFailedText)
      ensures !isLoading
    {
      isLoading := true;
      error := None;
      match reply {
        case Succeeded(fetched) => rooms := fetched;
        case Refused(e) => error := Some(e);
        case Raised => error := Some(LoadFailedText);
      }
      isLoading := false;
    }

    /** The effect on authentication: load when signed in, otherwise forget rooms, selection
        and error. */
    method AuthEffect(authenticated: bool, reply: Reply<seq<Room>>)
      modifies this`rooms, this`isLoading, this`error, this`currentRoom
      ensures authenticated ==>
        rooms == (if reply.Succeeded? then reply.value else old(rooms))
        && error == ErrorOf(reply, LoadFailedText) && !isLoading && currentRoom == old(currentRoom)
      ensures !authenticated ==>
        rooms == [] && currentRoom == None && error == None && isLoading == old(isLoading)
    {
      if authenticated {
        LoadRooms(reply);
      } else {
        rooms := [];
        currentRoom := None;
        error := None;
      }
    }

    /** `selectRoom` */
    method SelectRoom(room: Option<Room>)
      modifies this`currentRoom, this`error
      ensures currentRoom == room && error == None
    {
      currentRoom := room;
      error := None;
    }

    /** `joinRoom`: on success the list is reloaded through `loadRooms` and success is reported
        whatever the reload gave; on failure the list is untouched and the error is reported. */
    method JoinRoom(reply: Reply<()>, reload: Reply<seq<Room>>) returns (r: Outcome)
      modifies this`rooms, this`isLoading, this`error
      ensures r.Pass? <==> reply.Succeeded?
      ensures reply.Succeeded? ==>
        rooms == (if reload.Succeeded? then reload.value else old(rooms)) && error == ErrorOf(reload, LoadFailedText)
      ensures !reply.Succeeded? ==>
        rooms == old(rooms) && error == ErrorOf(reply, JoinFailedText) && r == Fail(error.value)
      ensures !isLoading
    {
      isLoading := true;
      match reply {
        case Succeeded(_) =>
          LoadRooms(reload);
          r := Pass;
        case Refused(e) =>
          error := Some(e);
          r := Fail(e);
        case Raised =>
          error := Some(JoinFailedText);
          r := Fail(JoinFailedText);
      }
      isLoading := false;
    }

    /** `leaveRoom`: on success every room with that id leaves the list and the selection is
        cleared when it is the room left; on failure only the error changes. */
    method LeaveRoom(roomId: string, reply: Reply<()>) returns (r: Outcome)
      modifies this`rooms, this`isLoading, this`error, this`currentRoom
      ensures r.Pass? <==> reply.Succeeded?
      ensures reply.Succeeded? ==>
        && rooms == WithoutRoom(old(rooms), roomId) && error == old(error)
        && currentRoom == if old(currentRoom).Some? && old(currentRoom).value.id == roomId then None else old(currentRoom)
      ensures !reply.Succeeded? ==>
        && rooms == old(rooms) && currentRoom == old(currentRoom)
        && error == ErrorOf(reply, LeaveFailedText) && r == Fail(error.value)
      ensures !isLoading
    {
      isLoading := true;
      match reply {
        case Succeeded(_) =>
          rooms := WithoutRoom(rooms, roomId);
          if currentRoom.Some? && currentRoom.value.id == roomId {
            currentRoom := None;
          }
          r := Pass;
        case Refused(e) =>
          error := Some(e);
          r := Fail(e);
        case Raised =>
          error := Some(LeaveFailedText);
          r := Fail(LeaveFailedText);
      }
      isLoading := false;
    }

    /** `createRoom`: like `joinRoom`, and success hands back the created room. */
    method CreateRoom(reply: Reply<Room>, reload: Reply<seq<Room>>) returns (r: Result<Room>)
      modifies this`rooms, this`isLoading, this`error
      ensures reply.Succeeded? ==>
        && r == Ok(reply.value)
        && rooms == (if reload.Succeeded? then reload.value else old(rooms)) && error == ErrorOf(reload, LoadFailedText)
      ensures !reply.Succeeded? ==>
        rooms == old(rooms) && error == ErrorOf(reply, CreateFailedText) && r == Err(error.value)
      ensures !isLoading
    {
      isLoading := true;
      match reply {
        case Succeeded(room) =>
          LoadRooms(reload);
          r := Ok(room);
        case Refused(e) =>
          error := Some(e);
          r := Err(e);
        case Raised =>
          error := Some(CreateFailedText);
          r := Err(CreateFailedText);
      }
      isLoading := false;
    }

    /** `clearError` */
    method ClearError()
      modifies this`error
      ensures error == None
    {
      error := None;
    }

    /** `toggleRoomInfo` */
    method ToggleRoomInfo()
      modifies this`showRoomInfo
      ensures showRoomInfo == !old(showRoomInfo)
    {
      showRoomInfo := !showRoomInfo;
    }

    /** `closeRoomInfo`: the result does not depend on the flag before, so a second call changes nothing. */
    method CloseRoomInfo()
      modifies this`showRoomInfo
      ensures !showRoomInfo
    {
      showRoomInfo := false;
    }
  }
}
