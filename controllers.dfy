/** The Socket.IO server's controllers: they call the room service and
    emit the answers. `socket.emit`, `socket.to(x).emit` and
    `io.to(code).emit` become entries of `outbox` with an explicit set of
    recipient sockets. */
module Controllers {
  import opened Common
  import opened ServerConstants
  import opened Store
  import opened Service
  import opened SocketRoutes

  /** One emission: the sockets it reaches, the event name, the arguments. */
  datatype Emit = Emit(to: set<string>, event: string, args: seq<Json>)

  function JoinedPayload(room: Room): Json {
    JObj(map["participants" := ParticipantsJson(room.participants)])
  }

  const ReadyPayload: Json := JObj(map["ready" := JBool(true)])

  function ErrorPayload(message: string): Json {
    JObj(map["message" := JStr(message)])
  }

  /** The `code` a `room:join` payload carries, when it is a string. */
  function JoinCode(data: Json): (r: Option<string>)
    ensures r.Some? <==> Field(data, "code").Some? && Field(data, "code").value.JStr?
    ensures r.Some? ==> Field(data, "code").value == JStr(r.value)
  {
    match Field(data, "code")
    case Some(JStr(c)) => Some(c)
    case _ => None
  }

  /** The room `joinRoom` stores for `p` under `code` when it accepts: a new
      idle room, the room unchanged for a member already in it, or the room
      with `p` appended. */
  function RoomAfterJoin(rooms: map<string, Room>, code: string, p: Participant): Room {
    if code !in rooms then Room(code, [p], Idle, JNull)
    else if HasMember(rooms[code].participants, p.id) then rooms[code]
    else rooms[code].(participants := rooms[code].participants + [p])
  }

  /** `joined` after `socket.join(code)` by `id`. */
  function JoinedAfter(joined: map<string, set<string>>, code: string, id: string): map<string, set<string>> {
    joined[code := (if code in joined then joined[code] else {}) + {id}]
  }

  /** `relayToPeer`'s guard: a truthy `data.to`. */
  predicate HasTarget(data: Json) {
    Field(data, "to").Some? && Truthy(Field(data, "to").value)
  }

  class SocketServer {
    const service: RoomService
    /** The connected sockets, by id. */
    var connected: set<string>
    /** The Socket.IO rooms entered by `socket.join(code)`. */
    var joined: map<string, set<string>>
    /** `socket.data.roomCode`, by socket id. */
    var roomCode: map<string, string>
    var outbox: seq<Emit>

    ghost predicate Valid()
      reads this, service, service.store
    {
      && service.Valid()
      && roomCode.Keys <= connected
      && (forall c :: c in joined ==> joined[c] <= connected)
    }

    /** The sockets in Socket.IO room `name`: every socket is in the room
        named by its own id, and in each room it joined. */
    function Members(name: string): (m: set<string>)
      reads this`connected, this`joined
      ensures name in connected ==> name in m
      ensures name in joined ==> joined[name] <= m
      ensures forall s :: s in m ==> (s == name && name in connected) || (name in joined && s in joined[name])
    {
      (if name in connected then {name} else {}) + (if name in joined then joined[name] else {})
    }

    /** The sockets `socket.to(to)` addresses: Socket.IO takes one room
        name or a list of them and reaches each socket in any of them
        once. A room name that is not a string matches no room. */
    function Targets(to: Json): (m: set<string>)
      reads this`connected, this`joined
      ensures to.JArr? ==>
                forall s :: s in m <==> exists i :: 0 <= i < |to.items| && to.items[i].JStr? && s in Members(to.items[i].s)
      ensures !to.JStr? && !to.JArr? ==> m == {}
    {
      match to
      case JStr(name) => Members(name)
      case JArr(items) => ListedMembers(items)
      case _ => {}
    }

    /** The sockets in any room a list names. */
    function ListedMembers(names: seq<Json>): (m: set<string>)
      reads this`connected, this`joined
      ensures forall s :: s in m <==> exists i :: 0 <= i < |names| && names[i].JStr? && s in Members(names[i].s)
    {
      if names == [] then {}
      else (if names[0].JStr? then Members(names[0].s) else {}) + ListedMembers(names[1..])
    }

    /** The room a code names, as far as the socket has a truthy one. */
    function CodeOf(id: string): Option<string>
      reads this
    {
      if id in roomCode && roomCode[id] != "" then Some(roomCode[id]) else None
    }

    constructor (s: RoomService)
      requires s.Valid()
      ensures Valid() && service == s
      ensures connected == {} && joined == map[] && roomCode == map[] && outbox == []
    {
      service := s;
      connected := {};
      joined := map[];
      roomCode := map[];
      outbox := [];
    }

    /** `io.on('connection')`: a new socket with a fresh id. */
    method Connect(id: string)
      requires Valid() && id !in connected
      modifies this
      ensures Valid()
      ensures connected == old(connected) + {id}
      ensures joined == old(joined) && roomCode == old(roomCode) && outbox == old(outbox)
    {
      connected := connected + {id};
    }

    /** `handleJoin`. A `null` payload cannot be destructured and a code that
        is not a string is not modelled, so nothing happens for either;
        a refused join answers `room:error` to the requester only
        and neither enters the room nor records the code; an accepted one
        enters the room, records the code, tells the whole room who is in
        it, and announces `room:ready` once two are in. */
    method HandleJoin(id: string, data: Json)
      requires Valid() && id in connected
      modifies this, service.store
      ensures Valid() && connected == old(connected)
      ensures JoinCode(data).None? ==>
                outbox == old(outbox) && roomCode == old(roomCode) && joined == old(joined)
                && service.store.rooms == old(service.store.rooms)
      ensures JoinCode(data).Some? ==>
                var code := JoinCode(data).value;
                var p := Participant(id, OrNull(Field(data, "displayName")));
                var rooms := old(service.store.rooms);
                var refused := code in rooms && !HasMember(rooms[code].participants, id)
                               && |rooms[code].participants| >= MAX_PARTICIPANTS;
                && (refused ==>
                      && outbox == old(outbox) + [Emit({id}, Name(RoomError), [ErrorPayload(FullMessage)])]
                      && roomCode == old(roomCode) && joined == old(joined)
                      && service.store.rooms == rooms)
                && (!refused ==>
                      && service.store.rooms == rooms[code := RoomAfterJoin(rooms, code, p)]
                      && HasMember(service.store.rooms[code].participants, id)
                      && roomCode == old(roomCode)[id := code]
                      && joined == JoinedAfter(old(joined), code, id)
                      && id in Members(code)
                      && var room := service.store.rooms[code];
                         outbox == old(outbox)
                           + [Emit(Members(code), Name(RoomJoined), [JoinedPayload(room)])]
                           + (if |room.participants| >= MAX_PARTICIPANTS
                              then [Emit(Members(code), Name(RoomReady), [ReadyPayload])] else []))
    {
      if JoinCode(data).None? {
        return;
      }
      var code := JoinCode(data).value;
      var r := service.JoinRoom(code, Participant(id, OrNull(Field(data, "displayName"))));
      if r.JoinErr? {
        outbox := outbox + [Emit({id}, Name(RoomError), [ErrorPayload(r.error)])];
        return;
      }
      Enter(id, code, r.room);
    }

    /** The accepted half of `handleJoin`: `socket.join(code)`, the code
        recorded on the socket, `room:joined` to the room, and `room:ready`
        once it is full. */
    method Enter(id: string, code: string, room: Room)
      requires Valid() && id in connected
      modifies this`joined, this`roomCode, this`outbox
      ensures Valid()
      ensures roomCode == old(roomCode)[id := code] && id in Members(code)
      ensures joined == JoinedAfter(old(joined), code, id)
      ensures outbox == old(outbox)
                + [Emit(Members(code), Name(RoomJoined), [JoinedPayload(room)])]
                + (if |room.participants| >= MAX_PARTICIPANTS
                   then [Emit(Members(code), Name(RoomReady), [ReadyPayload])] else [])
    {
      joined := JoinedAfter(joined, code, id);
      roomCode := roomCode[id := code];
      outbox := outbox + [Emit(Members(code), Name(RoomJoined), [JoinedPayload(room)])];
      if |room.participants| >= MAX_PARTICIPANTS {
        outbox := outbox + [Emit(Members(code), Name(RoomReady), [ReadyPayload])];
      }
    }

    /** A socket going away: Socket.IO takes it out of every room, then
        `handleDisconnect` runs. Without a truthy `roomCode` nothing else
        happens; otherwise the socket leaves its room in the service, and
        the rest of the room hears `room:joined` unless the room was
        deleted. */
    method Disconnect(id: string)
      requires Valid() && id in connected
      modifies this, service.store
      ensures Valid()
      ensures connected == old(connected) - {id} && roomCode == old(roomCode) - {id}
      ensures forall c :: c in joined <==> c in old(joined)
      ensures forall c :: c in joined ==> joined[c] == old(joined)[c] - {id}
      ensures old(CodeOf(id)).None? ==>
                outbox == old(outbox) && service.store.rooms == old(service.store.rooms)
      ensures old(CodeOf(id)).Some? ==>
                var code := old(CodeOf(id)).value;
                var rooms := old(service.store.rooms);
                && (code !in rooms ==> outbox == old(outbox) && service.store.rooms == rooms)
                && (code in rooms && RemoveMember(rooms[code].participants, id) == [] ==>
                      outbox == old(outbox) && service.store.rooms == rooms - {code})
                && (code in rooms && RemoveMember(rooms[code].participants, id) != [] ==>
                      var room := rooms[code].(participants := RemoveMember(rooms[code].participants, id));
                      && service.store.rooms == rooms[code := room]
                      && outbox == old(outbox) + [Emit(Members(code), Name(RoomJoined), [JoinedPayload(room)])])
    {
      var code := CodeOf(id);
      Detach(id);
      if code.Some? {
        var r := service.LeaveRoom(code.value, id);
        if r.Some? && r.value.Remaining? {
          outbox := outbox + [Emit(Members(code.value), Name(RoomJoined), [JoinedPayload(r.value.room)])];
        }
      }
    }

    /** Socket.IO's part of a disconnect: the socket is gone, out of every
        room, and its data with it. */
    method Detach(id: string)
      requires Valid()
      modifies this`connected, this`joined, this`roomCode
      ensures Valid()
      ensures connected == old(connected) - {id} && id !in roomCode
      ensures roomCode == old(roomCode) - {id}
      ensures forall c :: c in joined <==> c in old(joined)
      ensures forall c :: c in joined ==> joined[c] == old(joined)[c] - {id}
    {
      connected := connected - {id};
      joined := map c | c in joined :: joined[c] - {id};
      roomCode := roomCode - {id};
    }

    /** `handleSessionStart`: `session:start` goes to the whole room only
        when the service reports a start. With a `null` payload the service
        has already started the session when reading `data.layout` throws,
        so nothing is emitted. */
    method HandleSessionStart(id: string, data: Json, now: int)
      requires Valid()
      modifies this, service.store
      ensures Valid()
      ensures roomCode == old(roomCode) && joined == old(joined) && connected == old(connected)
      ensures var rooms := old(service.store.rooms);
              var started := id in roomCode && roomCode[id] in rooms && rooms[roomCode[id]].state == Idle;
              && (started ==>
                    var code := roomCode[id];
                    && service.store.rooms == rooms[code := rooms[code].(state := Session)]
                    && outbox == old(outbox) + if data == JNull then []
                       else [Emit(Members(code), Name(SessionStart), [StartPayload(now, OrNull(Field(data, "layout")))])])
              && (!started ==> outbox == old(outbox) && service.store.rooms == rooms)
    {
      if id !in roomCode {
        return;
      }
      var code := roomCode[id];
      var r := service.StartSession(code, OrNull(Field(data, "layout")));
      if r == Some(Started) && data != JNull {
        outbox := outbox + [Emit(Members(code), Name(SessionStart), [StartPayload(now, OrNull(Field(data, "layout")))])];
      }
    }

    /** `handleSessionLayout`: emitted to the whole room only when the
        service stored the layout. */
    method HandleSessionLayout(id: string, layout: Json)
      requires Valid()
      modifies this, service.store
      ensures Valid()
      ensures roomCode == old(roomCode) && joined == old(joined) && connected == old(connected)
      ensures var rooms := old(service.store.rooms);
              var ok := id in roomCode && roomCode[id] in rooms && rooms[roomCode[id]].state == Idle;
              && (ok ==>
                    var code := roomCode[id];
                    && service.store.rooms == rooms[code := rooms[code].(layout := layout)]
                    && outbox == old(outbox) + [Emit(Members(code), Name(SessionLayout), [layout])])
              && (!ok ==> outbox == old(outbox) && service.store.rooms == rooms)
    {
      if id !in roomCode {
        return;
      }
      var code := roomCode[id];
      var ok := service.UpdateLayout(code, layout);
      if ok {
        outbox := outbox + [Emit(Members(code), Name(SessionLayout), [layout])];
      }
    }

    /** `handleSessionReset`: emitted, without arguments, only when the
        room exists. */
    method HandleSessionReset(id: string)
      requires Valid()
      modifies this, service.store
      ensures Valid()
      ensures roomCode == old(roomCode) && joined == old(joined) && connected == old(connected)
      ensures var rooms := old(service.store.rooms);
              var ok := id in roomCode && roomCode[id] in rooms;
              && (ok ==>
                    var code := roomCode[id];
                    && service.store.rooms == rooms[code := rooms[code].(state := Idle, layout := JNull)]
                    && outbox == old(outbox) + [Emit(Members(code), Name(SessionReset), [])])
              && (!ok ==> outbox == old(outbox) && service.store.rooms == rooms)
    {
      if id !in roomCode {
        return;
      }
      var code := roomCode[id];
      var ok := service.ResetSession(code);
      if ok {
        outbox := outbox + [Emit(Members(code), Name(SessionReset), [])];
      }
    }

    /** `handleWebRTC` through `relayToPeer`: relayed only when `data.to` is
        truthy, only to the sockets of the room or rooms it names other
        than the sender,
        under `webrtc:<tag>`, with `to` kept and `from` added. No fallback. */
    method HandleWebRtc(id: string, tag: string, data: Json)
      requires Valid()
      modifies this`outbox
      ensures HasTarget(data) ==>
                var to := data.fields["to"];
                outbox == old(outbox) + [Emit(Targets(to) - {id},
                                              SignalName(tag), [SpreadWith(data, "from", id)])]
      ensures !HasTarget(data) ==> outbox == old(outbox)
    {
      if HasTarget(data) {
        var to := data.fields["to"];
        outbox := outbox + [Emit(Targets(to) - {id}, SignalName(tag), [SpreadWith(data, "from", id)])];
      }
    }

    /** `handlePhotoSend`: with a room code, every other socket in the room
        gets `photo:receive` with `from` added. */
    method HandlePhotoSend(id: string, payload: Json)
      requires Valid()
      modifies this`outbox
      ensures CodeOf(id).Some? ==>
                outbox == old(outbox) + [Emit(Members(CodeOf(id).value) - {id}, Name(PhotoReceive), [SpreadWith(payload, "from", id)])]
      ensures CodeOf(id).None? ==> outbox == old(outbox)
    {
      var code := CodeOf(id);
      if code.Some? {
        outbox := outbox + [Emit(Members(code.value) - {id}, Name(PhotoReceive), [SpreadWith(payload, "from", id)])];
      }
    }

    /** `handleLocation`: with a room code and a numeric `lat`, the whole
        room, the sender included, gets the update. */
    method HandleLocation(id: string, payload: Json)
      requires Valid()
      modifies this`outbox
      ensures CodeOf(id).Some? && IsNumberField(payload, "lat") ==>
                outbox == old(outbox) + [Emit(Members(CodeOf(id).value), Name(LocationUpdate), [DefaultSender(payload, id)])]
      ensures !(CodeOf(id).Some? && IsNumberField(payload, "lat")) ==> outbox == old(outbox)
    {
      var code := CodeOf(id);
      if code.Some? && IsNumberField(payload, "lat") {
        outbox := outbox + [Emit(Members(code.value), Name(LocationUpdate), [DefaultSender(payload, id)])];
      }
    }

    /** `handleGenericRelay`: with a room code, the payload goes unchanged
        to every other socket in the room under `relayAs`. */
    method HandleGenericRelay(id: string, relayAs: Event, data: Json)
      requires Valid()
      modifies this`outbox
      ensures CodeOf(id).Some? ==>
                outbox == old(outbox) + [Emit(Members(CodeOf(id).value) - {id}, Name(relayAs), [data])]
      ensures CodeOf(id).None? ==> outbox == old(outbox)
    {
      var code := CodeOf(id);
      if code.Some? {
        outbox := outbox + [Emit(Members(code.value) - {id}, Name(relayAs), [data])];
      }
    }

    /** An event arriving on a connected socket, handed to the handler the
        registration table names; `now` is `Date.now()`. */
    method Receive(id: string, e: Event, data: Json, now: int)
      requires Valid() && id in connected
      modifies this, service.store
      ensures Valid()
      ensures RouteOf(e) == Unregistered ==>
                outbox == old(outbox) && service.store.rooms == old(service.store.rooms)
                && roomCode == old(roomCode) && connected == old(connected)
      // `room:join`: as HandleJoin.
      ensures RouteOf(e) == ToJoin ==>
                && connected == old(connected)
                && (JoinCode(data).None? ==>
                      outbox == old(outbox) && roomCode == old(roomCode) && joined == old(joined)
                      && service.store.rooms == old(service.store.rooms))
                && (JoinCode(data).Some? ==>
                      var code := JoinCode(data).value;
                      var p := Participant(id, OrNull(Field(data, "displayName")));
                      var rooms := old(service.store.rooms);
                      var refused := code in rooms && !HasMember(rooms[code].participants, id)
                                     && |rooms[code].participants| >= MAX_PARTICIPANTS;
                      && (refused ==>
                            && outbox == old(outbox) + [Emit({id}, Name(RoomError), [ErrorPayload(FullMessage)])]
                            && roomCode == old(roomCode) && joined == old(joined)
                            && service.store.rooms == rooms)
                      && (!refused ==>
                            var room := RoomAfterJoin(rooms, code, p);
                            && service.store.rooms == rooms[code := room]
                            && roomCode == old(roomCode)[id := code]
                            && joined == JoinedAfter(old(joined), code, id)
                            && outbox == old(outbox)
                               + [Emit(Members(code), Name(RoomJoined), [JoinedPayload(room)])]
                               + (if |room.participants| >= MAX_PARTICIPANTS
                                  then [Emit(Members(code), Name(RoomReady), [ReadyPayload])] else [])))
      // `disconnect`: as Disconnect.
      ensures RouteOf(e) == ToDisconnect ==>
                && connected == old(connected) - {id} && roomCode == old(roomCode) - {id}
                && (forall c :: c in joined <==> c in old(joined))
                && (forall c :: c in joined ==> joined[c] == old(joined)[c] - {id})
                && (old(CodeOf(id)).None? ==>
                      outbox == old(outbox) && service.store.rooms == old(service.store.rooms))
                && (old(CodeOf(id)).Some? ==>
                      var code := old(CodeOf(id)).value;
                      var rooms := old(service.store.rooms);
                      && (code !in rooms ==> outbox == old(outbox) && service.store.rooms == rooms)
                      && (code in rooms && RemoveMember(rooms[code].participants, id) == [] ==>
                            outbox == old(outbox) && service.store.rooms == rooms - {code})
                      && (code in rooms && RemoveMember(rooms[code].participants, id) != [] ==>
                            var room := rooms[code].(participants := RemoveMember(rooms[code].participants, id));
                            && service.store.rooms == rooms[code := room]
                            && outbox == old(outbox) + [Emit(Members(code), Name(RoomJoined), [JoinedPayload(room)])]))
      // The session events: as HandleSessionStart, HandleSessionLayout and
      // HandleSessionReset.
      ensures RouteOf(e) == ToSessionStart ==>
                var rooms := old(service.store.rooms);
                var started := id in roomCode && roomCode[id] in rooms && rooms[roomCode[id]].state == Idle;
                && (started ==>
                      var code := roomCode[id];
                      && service.store.rooms == rooms[code := rooms[code].(state := Session)]
                      && outbox == old(outbox) + if data == JNull then []
                         else [Emit(Members(code), Name(SessionStart), [StartPayload(now, OrNull(Field(data, "layout")))])])
                && (!started ==> outbox == old(outbox) && service.store.rooms == rooms)
      ensures RouteOf(e) == ToSessionLayout ==>
                var rooms := old(service.store.rooms);
                var ok := id in roomCode && roomCode[id] in rooms && rooms[roomCode[id]].state == Idle;
                && (ok ==>
                      var code := roomCode[id];
                      && service.store.rooms == rooms[code := rooms[code].(layout := data)]
                      && outbox == old(outbox) + [Emit(Members(code), Name(SessionLayout), [data])])
                && (!ok ==> outbox == old(outbox) && service.store.rooms == rooms)
      ensures RouteOf(e) == ToSessionReset ==>
                var rooms := old(service.store.rooms);
                var ok := id in roomCode && roomCode[id] in rooms;
                && (ok ==>
                      var code := roomCode[id];
                      && service.store.rooms == rooms[code := rooms[code].(state := Idle, layout := JNull)]
                      && outbox == old(outbox) + [Emit(Members(code), Name(SessionReset), [])])
                && (!ok ==> outbox == old(outbox) && service.store.rooms == rooms)
      // Relays: as HandleWebRtc, HandlePhotoSend, HandleGenericRelay and
      // HandleLocation.
      ensures RouteOf(e).ToWebRtc? ==>
                && (HasTarget(data) ==>
                      var to := data.fields["to"];
                      outbox == old(outbox) + [Emit(Targets(to) - {id},
                                                    SignalName(RouteOf(e).tag), [SpreadWith(data, "from", id)])])
                && (!HasTarget(data) ==> outbox == old(outbox))
      ensures RouteOf(e) == ToPhotoSend ==>
                && (CodeOf(id).Some? ==>
                      outbox == old(outbox) + [Emit(Members(CodeOf(id).value) - {id}, Name(PhotoReceive), [SpreadWith(data, "from", id)])])
                && (CodeOf(id).None? ==> outbox == old(outbox))
      ensures RouteOf(e).ToGenericRelay? ==>
                && (CodeOf(id).Some? ==>
                      outbox == old(outbox) + [Emit(Members(CodeOf(id).value) - {id}, Name(RouteOf(e).relayAs), [data])])
                && (CodeOf(id).None? ==> outbox == old(outbox))
      ensures RouteOf(e) == ToLocation ==>
                && (CodeOf(id).Some? && IsNumberField(data, "lat") ==>
                      outbox == old(outbox) + [Emit(Members(CodeOf(id).value), Name(LocationUpdate), [DefaultSender(data, id)])])
                && (!(CodeOf(id).Some? && IsNumberField(data, "lat")) ==> outbox == old(outbox))
      // Only a join or a disconnect changes who is where; only a join, a
      // disconnect or a session event changes the store.
      ensures RouteOf(e) !in {ToJoin, ToDisconnect} ==>
                connected == old(connected) && roomCode == old(roomCode) && joined == old(joined)
      ensures !RouteOf(e).ToJoin? && !RouteOf(e).ToDisconnect? && !RouteOf(e).ToSessionStart?
              && !RouteOf(e).ToSessionLayout? && !RouteOf(e).ToSessionReset? ==>
                service.store.rooms == old(service.store.rooms)
    {
      match RouteOf(e) {
        case ToJoin => HandleJoin(id, data);
        case ToDisconnect => Disconnect(id);
        case ToSessionStart => HandleSessionStart(id, data, now);
        case ToSessionLayout => HandleSessionLayout(id, data);
        case ToSessionReset => HandleSessionReset(id);
        case ToWebRtc(tag) => HandleWebRtc(id, tag, data);
        case ToPhotoSend => HandlePhotoSend(id, data);
        case ToGenericRelay(relayAs) => HandleGenericRelay(id, relayAs, data);
        case ToLocation => HandleLocation(id, data);
        case Unregistered =>
      }
    }
  }
}
