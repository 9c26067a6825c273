/** The Socket.IO server's in-memory room table: plain create, read,
    overwrite and delete by room code, with no rules of its own. */
module Store {
  import opened Common
  import opened ServerConstants

  /** `{ id, displayName }` as sent by `room:join`. */
  type Member = Participant

  /** `{ code, participants, state, layout }`. */
  datatype Room = Room(code: string, participants: seq<Member>, state: RoomState, layout: Json)

  class RoomStore {
    /** The `rooms` Map. */
    var rooms: map<string, Room>

    constructor ()
      ensures rooms == map[]
    {
      rooms := map[];
    }

    /** `getRoom`: the stored room, `None` standing for `undefined`. */
    function GetRoom(code: string): (r: Option<Room>)
      reads this
      ensures r.Some? <==> code in rooms
      ensures r.Some? ==> r.value == rooms[code]
    {
      if code in rooms then Some(rooms[code]) else None
    }

    /** `saveRoom`: creates or overwrites one entry and returns what is now
        stored under `code`. */
    method SaveRoom(code: string, data: Room) returns (stored: Room)
      modifies this
      ensures rooms == old(rooms)[code := data]
      ensures stored == data && GetRoom(code) == Some(data)
      ensures forall c :: c != code ==> GetRoom(c) == old(GetRoom(c))
    {
      rooms := rooms[code := data];
      stored := rooms[code];
    }

    /** `deleteRoom`: removes the entry; the result says whether there was
        one. */
    method DeleteRoom(code: string) returns (existed: bool)
      modifies this
      ensures existed == (code in old(rooms))
      ensures rooms == old(rooms) - {code}
      ensures GetRoom(code).None?
      ensures forall c :: c != code ==> GetRoom(c) == old(GetRoom(c))
    {
      existed := code in rooms;
      rooms := rooms - {code};
    }

    /** `getAll`: every stored entry. */
    function GetAll(): (all: map<string, Room>)
      reads this
      ensures forall c :: c in all <==> GetRoom(c).Some?
      ensures forall c :: c in all ==> GetRoom(c) == Some(all[c])
    {
      rooms
    }
  }
}
