/** Deep-link room resolution of the chat page: the `roomId` URL parameter
    selects a room from the loaded list, or starts a refresh of the list,
    and after a failed refresh a room record fetched directly is turned into
    a room. `Number(...)` is the parameter `numberOf`. */
module RoomParams {
  import opened Js

  datatype Room = Room(id: int, name: string, participants: seq<string>)

  /** What one run of the effect does. */
  datatype Decision =
    | NoRoomParam
    | InvalidRoomId
    | AlreadySelected
    | SelectRoom(room: Room)
    | StartRefresh(roomId: int)
    | AwaitConnection
    | RefreshPending

  /** Response data of the direct room lookup: absent, a room record, or an
      object whose `data` field holds the payload. `name` and
      `participants` are `None` when missing. */
  datatype RoomBody =
    | NoData
    | RoomRecord(id: int, name: Option<string>, participants: Option<seq<string>>)
    | RoomEnvelope(data: RoomBody)

  datatype LookupOutcome = LookupOk(body: RoomBody) | LookupFailed

  /** The room id a deep link names: none for a missing or empty parameter
      or one that converts to NaN. */
  function ParamRoomId(param: Option<string>, numberOf: string -> Option<int>): (r: Option<int>)
    ensures r.None? <==> param.None? || param.value == "" || numberOf(param.value).None?
    ensures r.Some? ==> r == numberOf(param.value)
  {
    if param.None? || param.value == "" then None else numberOf(param.value)
  }

  /** The body of the effect in `ChatRoomWithParams`: a chain of guards, then
      the first room of the list with that id, then a refresh when connected
      and not already loading. */
  function Resolve(param: Option<string>, numberOf: string -> Option<int>, currentRoom: Option<Room>,
                   rooms: seq<Room>, isConnected: bool, isLoadingRoom: bool): (d: Decision)
    ensures param.None? || param.value == "" <==> d == NoRoomParam
    ensures d == InvalidRoomId <==> param.Some? && param.value != "" && numberOf(param.value).None?
    ensures d == AlreadySelected <==>
      ParamRoomId(param, numberOf).Some? && currentRoom.Some? && currentRoom.value.id == ParamRoomId(param, numberOf).value
    ensures d.SelectRoom? <==>
      && ParamRoomId(param, numberOf).Some?
      && !(currentRoom.Some? && currentRoom.value.id == ParamRoomId(param, numberOf).value)
      && exists i :: 0 <= i < |rooms| && rooms[i].id == ParamRoomId(param, numberOf).value
    ensures d.SelectRoom? ==>
      exists i :: 0 <= i < |rooms| && rooms[i] == d.room && d.room.id == ParamRoomId(param, numberOf).value
                  && forall j :: 0 <= j < i ==> rooms[j].id != d.room.id
    ensures d.StartRefresh? <==>
      && ParamRoomId(param, numberOf).Some?
      && (currentRoom.None? || currentRoom.value.id != ParamRoomId(param, numberOf).value)
      && (forall j :: 0 <= j < |rooms| ==> rooms[j].id != ParamRoomId(param, numberOf).value)
      && isConnected && !isLoadingRoom
    ensures d.StartRefresh? ==> d.roomId == ParamRoomId(param, numberOf).value
    ensures d == RefreshPending ==> isConnected && isLoadingRoom
    ensures d == AwaitConnection ==> !isConnected
  {
    if param.None? || param.value == "" then NoRoomParam
    else
      var roomId := numberOf(param.value);
      if roomId.None? then InvalidRoomId
      else if currentRoom.Some? && currentRoom.value.id == roomId.value then AlreadySelected
      else
        var k := FindIndex(rooms, (room: Room) => room.id == roomId.value);
        if k.Some? then SelectRoom(rooms[k.value])
        else if isConnected && !isLoadingRoom then StartRefresh(roomId.value)
        else if !isConnected then AwaitConnection
        else RefreshPending
  }

  /** Once the selected room is current, the next run of the effect does
      nothing: the resolution reaches a fixed point. */
  lemma ResolveSettles(param: Option<string>, numberOf: string -> Option<int>, currentRoom: Option<Room>,
                       rooms: seq<Room>, isConnected: bool, isLoadingRoom: bool)
    requires Resolve(param, numberOf, currentRoom, rooms, isConnected, isLoadingRoom).SelectRoom?
    ensures var room := Resolve(param, numberOf, currentRoom, rooms, isConnected, isLoadingRoom).room;
      Resolve(param, numberOf, Some(room), rooms, isConnected, isLoadingRoom) == AlreadySelected
  {
  }

  /** `response.data?.data || response.data`: the nested payload when
      there is one, else the data itself. */
  function UnwrapRoom(b: RoomBody): (r: RoomBody)
    ensures b.RoomEnvelope? && !b.data.NoData? ==> r == b.data
    ensures !b.RoomEnvelope? || b.data.NoData? ==> r == b
    ensures r.RoomRecord? ==> r == b || b == RoomEnvelope(r)
  {
    if b.RoomEnvelope? && !b.data.NoData? then b.data else b
  }

  /** The room built from a directly fetched record: only for a record with
      a non-zero id; the name defaults to `채팅방 <id>` and the participants
      to an empty list. */
  function FallbackRoom(body: RoomBody): (r: Option<Room>)
    ensures r.Some? <==> UnwrapRoom(body).RoomRecord? && UnwrapRoom(body).id != 0
    ensures r.Some? ==> r.value.id == UnwrapRoom(body).id && r.value.name != ""
    ensures r.Some? && (UnwrapRoom(body).name.None? || UnwrapRoom(body).name.value == "") ==>
      r.value.name == "채팅방 " + IntToString(r.value.id)
    ensures r.Some? && UnwrapRoom(body).name.Some? && UnwrapRoom(body).name.value != "" ==>
      r.value.name == UnwrapRoom(body).name.value
    ensures r.Some? && UnwrapRoom(body).participants.Some? ==>
      r.value.participants == UnwrapRoom(body).participants.value
    ensures r.Some? && UnwrapRoom(body).participants.None? ==> r.value.participants == []
  {
    var data := UnwrapRoom(body);
    if data.RoomRecord? && data.id != 0 then
      var name := if data.name.Some? && data.name.value != "" then data.name.value
                  else "채팅방 " + IntToString(data.id);
      Some(Room(data.id, name, data.participants.GetOr([])))
    else None
  }

  /** The default name names the room's id. */
  lemma FallbackDefaultName(id: int)
    requires id != 0
    ensures FallbackRoom(RoomRecord(id, None, None)) == Some(Room(id, "채팅방 " + IntToString(id), []))
    ensures FallbackRoom(RoomEnvelope(RoomRecord(id, Some(""), None))) == FallbackRoom(RoomRecord(id, None, None))
  {
  }

  /** The component's own state: whether a refresh it started is pending. */
  class RoomLoader {
    var isLoadingRoom: bool

    constructor ()
      ensures !isLoadingRoom
    {
      isLoadingRoom := false;
    }

    /** One run of the effect; only a started refresh changes the flag. */
    method RunEffect(param: Option<string>, numberOf: string -> Option<int>, currentRoom: Option<Room>,
                     rooms: seq<Room>, isConnected: bool) returns (d: Decision)
      modifies this
      ensures d == Resolve(param, numberOf, currentRoom, rooms, isConnected, old(isLoadingRoom))
      ensures d.StartRefresh? ==> isLoadingRoom
      ensures !d.StartRefresh? ==> isLoadingRoom == old(isLoadingRoom)
    {
      d := Resolve(param, numberOf, currentRoom, rooms, isConnected, isLoadingRoom);
      if d.StartRefresh? {
        isLoadingRoom := true;
      }
    }

    /** The refresh resolved: the flag drops and the next run re-checks. */
    method RefreshSucceeded()
      modifies this
      ensures !isLoadingRoom
    {
      isLoadingRoom := false;
    }

    /** The refresh failed: the flag drops and the room is looked up
        directly; a usable record becomes the room to select. */
    method RefreshFailed(lookup: LookupOutcome) returns (selected: Option<Room>)
      modifies this
      ensures !isLoadingRoom
      ensures lookup.LookupFailed? ==> selected == None
      ensures lookup.LookupOk? ==> selected == FallbackRoom(lookup.body)
    {
      isLoadingRoom := false;
      match lookup {
        case LookupFailed =>
          selected := None;
        case LookupOk(body) =>
          selected := FallbackRoom(body);
      }
    }
  }
}
