/** The worker's per-room Durable Object: a registry of the room's
    WebSocket sessions in registration order, the room engine, and the
    message controller that answers and relays envelopes `{type, payload}`.
    Every `ws.send` is an entry appended to `outbox`. */
module RoomDO {
  import opened Common
  import opened WorkerConstants
  import opened Engine

  /** A registered connection: whether its socket is OPEN, and the display
      name given by `room:join` (`null` until then). */
  datatype SessionEntry = SessionEntry(open: bool, displayName: Json)

  /** One `ws.send(JSON.stringify({type, payload}))` to one session. */
  datatype Outgoing = Outgoing(to: string, event: Event, payload: Json)

  /** `fetch`'s answer: 426 for a request that is not a WebSocket upgrade,
      101 with the new session's id otherwise. */
  datatype FetchResult = UpgradeRequired | Accepted(sessionId: string)

  /** The arm of the `switch (type)` in `handleMessage`. */
  datatype Handler =
    | OnJoin | OnLeave | OnStart | OnLayout | OnReset
    | OnWebRtc(signal: Event)
    | OnPhoto(relayAs: Event)
    | OnLocation
    | Ignore

  /** The `case` labels of the switch, by event. Events the server only
      sends fall to `default`. */
  function HandlerOf(e: Event): Handler {
    match e
    case RoomJoin => OnJoin
    case RoomLeave => OnLeave
    case SessionStart => OnStart
    case SessionLayout => OnLayout
    case SessionReset => OnReset
    case WebrtcOffer => OnWebRtc(e)
    case WebrtcAnswer => OnWebRtc(e)
    case WebrtcCandidate => OnWebRtc(e)
    case PhotoSend => OnPhoto(PhotoReceive)
    case PhotoMeta => OnPhoto(PhotoMeta)
    case PhotoTransferComplete => OnPhoto(PhotoTransferred)
    case LocationUpdate => OnLocation
    case _ => Ignore
  }

  /** The handler for a decoded `type` member; anything but a known inbound
      event name is ignored. */
  function Dispatch(t: Option<Json>): (h: Handler)
    ensures h != Ignore ==> t.Some? && t.value.JStr? && Lookup(t.value.s).Some?
                              && h == HandlerOf(Lookup(t.value.s).value)
  {
    if t.Some? && t.value.JStr? then
      match Lookup(t.value.s)
      case Some(e) => HandlerOf(e)
      case None => Ignore
    else Ignore
  }

  /** An event sent under its own name reaches its own arm of the switch:
      the inbound events are handled, the outbound-only ones are not. */
  lemma DispatchByName(e: Event)
    ensures Dispatch(Some(JStr(Name(e)))) == HandlerOf(e)
    ensures HandlerOf(e) == Ignore <==>
              e in {RoomJoined, RoomReady, RoomError, PhotoReceive, PhotoTransferred}
  {
    LookupName(e);
  }

  /** The sessions, in registration order, that a broadcast reaches: open
      sockets, skipping `except`. */
  function Recipients(ids: seq<string>, sessions: map<string, SessionEntry>, except: Option<string>): (r: seq<string>)
    ensures |r| <= |ids|
    ensures forall x :: x in r ==> x in sessions && sessions[x].open && except != Some(x)
  {
    if ids == [] then []
    else
      var last := ids[|ids| - 1];
      Recipients(ids[..|ids| - 1], sessions, except)
        + (if last in sessions && sessions[last].open && except != Some(last) then [last] else [])
  }

  /** A broadcast reaches exactly the open sessions other than the excluded
      one; a closed socket is skipped without affecting the others. */
  lemma {:induction false} RecipientsMeaning(ids: seq<string>, sessions: map<string, SessionEntry>,
                                             except: Option<string>, x: string)
    ensures x in Recipients(ids, sessions, except) <==>
              x in ids && x in sessions && sessions[x].open && except != Some(x)
    decreases |ids|
  {
    if ids != [] {
      var init := ids[..|ids| - 1];
      RecipientsMeaning(init, sessions, except, x);
      assert ids == init + [ids[|ids| - 1]];
    }
  }

  /** No session receives the same broadcast twice. */
  lemma {:induction false} RecipientsDistinct(ids: seq<string>, sessions: map<string, SessionEntry>,
                                              except: Option<string>)
    requires Distinct(ids)
    ensures Distinct(Recipients(ids, sessions, except))
    decreases |ids|
  {
    if ids != [] {
      var init := ids[..|ids| - 1];
      var last := ids[|ids| - 1];
      assert Distinct(init);
      assert last !in init;
      RecipientsDistinct(init, sessions, except);
      RecipientsMeaning(init, sessions, except, last);
      DistinctSnoc(Recipients(init, sessions, except), last);
    }
  }

  lemma RecipientsStep(ids: seq<string>, sessions: map<string, SessionEntry>, except: Option<string>, i: nat)
    requires i < |ids|
    ensures Recipients(ids[..i + 1], sessions, except) == Recipients(ids[..i], sessions, except)
              + if ids[i] in sessions && sessions[ids[i]].open && except != Some(ids[i]) then [ids[i]] else []
  {
    assert ids[..i + 1][..i] == ids[..i];
  }

  /** One turn of the broadcast loop: the next id gets the envelope
      exactly when its session is open and it is not excluded. */
  lemma BroadcastStep(ids: seq<string>, sessions: map<string, SessionEntry>, except: Option<string>, i: nat, e: Event, p: Json)
    requires i < |ids| && ids[i] in sessions
    ensures Envelopes(Recipients(ids[..i + 1], sessions, except), e, p)
            == Envelopes(Recipients(ids[..i], sessions, except), e, p)
               + if sessions[ids[i]].open && except != Some(ids[i]) then [Outgoing(ids[i], e, p)] else []
  {
    RecipientsStep(ids, sessions, except, i);
    if sessions[ids[i]].open && except != Some(ids[i]) {
      EnvelopesSnoc(Recipients(ids[..i], sessions, except), ids[i], e, p);
    } else {
      assert Recipients(ids[..i + 1], sessions, except) == Recipients(ids[..i], sessions, except);
    }
  }

  /** The same envelope, once per recipient. */
  function Envelopes(to: seq<string>, e: Event, p: Json): (r: seq<Outgoing>)
    ensures |r| == |to|
    ensures forall i :: 0 <= i < |r| ==> r[i] == Outgoing(to[i], e, p)
  {
    if to == [] then [] else [Outgoing(to[0], e, p)] + Envelopes(to[1..], e, p)
  }

  lemma {:induction false} EnvelopesSnoc(to: seq<string>, x: string, e: Event, p: Json)
    ensures Envelopes(to + [x], e, p) == Envelopes(to, e, p) + [Outgoing(x, e, p)]
  {
    assert |Envelopes(to + [x], e, p)| == |Envelopes(to, e, p) + [Outgoing(x, e, p)]|;
  }

  /** `getParticipants`: the sessions with a truthy display name, in
      registration order. */
  function ParticipantList(ids: seq<string>, sessions: map<string, SessionEntry>): (r: seq<Participant>)
    ensures |r| <= |ids|
  {
    if ids == [] then []
    else
      (if ids[0] in sessions && Truthy(sessions[ids[0]].displayName)
       then [Participant(ids[0], sessions[ids[0]].displayName)] else [])
      + ParticipantList(ids[1..], sessions)
  }

  /** The participant list holds exactly the named sessions, each with its
      own name. */
  lemma {:induction false} ParticipantListMeaning(ids: seq<string>, sessions: map<string, SessionEntry>,
                                                  p: Participant)
    ensures p in ParticipantList(ids, sessions) <==>
              p.id in ids && p.id in sessions && Truthy(sessions[p.id].displayName)
              && p.displayName == sessions[p.id].displayName
  {
    if ids != [] {
      ParticipantListMeaning(ids[1..], sessions, p);
      assert ids == [ids[0]] + ids[1..];
    }
  }

  lemma {:induction false} ParticipantListAppend(a: seq<string>, b: seq<string>, sessions: map<string, SessionEntry>)
    ensures ParticipantList(a + b, sessions) == ParticipantList(a, sessions) + ParticipantList(b, sessions)
  {
    if a == [] {
      assert a + b == b;
    } else {
      assert (a + b)[0] == a[0] && (a + b)[1..] == a[1..] + b;
      ParticipantListAppend(a[1..], b, sessions);
    }
  }

  /** Changing a session that is not listed does not change the list. */
  lemma {:induction false} ParticipantListFrame(ids: seq<string>, sessions: map<string, SessionEntry>,
                                                x: string, v: SessionEntry)
    requires x !in ids
    ensures ParticipantList(ids, sessions[x := v]) == ParticipantList(ids, sessions)
  {
    if ids != [] {
      ParticipantListFrame(ids[1..], sessions, x, v);
    }
  }

  /** Renaming one session adds at most one participant. */
  lemma {:induction false} ParticipantListUpdate(ids: seq<string>, sessions: map<string, SessionEntry>,
                                                 x: string, v: SessionEntry)
    requires Distinct(ids)
    ensures |ParticipantList(ids, sessions[x := v])| <= |ParticipantList(ids, sessions)| + 1
  {
    if ids != [] {
      assert Distinct(ids[1..]);
      if ids[0] == x {
        assert x !in ids[1..];
        ParticipantListFrame(ids[1..], sessions, x, v);
      } else {
        ParticipantListUpdate(ids[1..], sessions, x, v);
      }
    }
  }

  /** Removing a session never adds a participant. */
  lemma {:induction false} ParticipantListRemove(ids: seq<string>, sessions: map<string, SessionEntry>, x: string)
    ensures |ParticipantList(Without(ids, x), sessions - {x})| <= |ParticipantList(ids, sessions)|
  {
    if ids != [] {
      ParticipantListRemove(ids[1..], sessions, x);
      if ids[0] != x {
        var w := Without(ids[1..], x);
        assert Without(ids, x) == [ids[0]] + w;
        assert ([ids[0]] + w)[0] == ids[0] && ([ids[0]] + w)[1..] == w;
      }
    }
  }

  /** The loop of `broadcast`/`broadcastExcept` over the sessions Map:
      the envelopes it sends, in registration order. */
  method Deliveries(ids: seq<string>, entries: map<string, SessionEntry>, except: Option<string>, e: Event, p: Json)
    returns (sent: seq<Outgoing>)
    requires Elements(ids) == entries.Keys
    ensures sent == Envelopes(Recipients(ids, entries, except), e, p)
  {
    sent := [];
    var i := 0;
    while i < |ids|
      invariant 0 <= i <= |ids|
      invariant sent == Envelopes(Recipients(ids[..i], entries, except), e, p)
    {
      var id := ids[i];
      assert id in Elements(ids);
      BroadcastStep(ids, entries, except, i, e, p);
      if entries[id].open && except != Some(id) {
        sent := sent + [Outgoing(id, e, p)];
      }
      i := i + 1;
    }
    assert ids[..i] == ids;
  }

  const FullError: Json := JObj(map["message" := JStr("Room is full (max 2 participants)")])
  const ReadyPayload: Json := JObj(map["ready" := JBool(true)])
  const EmptyPayload: Json := JObj(map[])

  /** `{ ...rest, from: sessionId }` where `rest` is the payload without
      its `to` member. */
  function SignalPayload(payload: Json, from: string): (r: Json)
    ensures r.JObj? && "from" in r.fields && r.fields["from"] == JStr(from)
    ensures "to" !in r.fields
    ensures forall k :: k in Spread(payload) && k != "to" && k != "from" ==>
              k in r.fields && r.fields[k] == Spread(payload)[k]
  {
    JObj((Spread(payload) - {"to"})["from" := JStr(from)])
  }

  /** The session a signalling message is addressed to: a truthy `to` that
      names a registered session; `None` means "everyone else". */
  function SignalTarget(payload: Json, sessions: map<string, SessionEntry>): (t: Option<string>)
    ensures t.Some? ==> t.value in sessions && Field(payload, "to") == Some(JStr(t.value))
    ensures t.None? ==> forall s :: s in sessions ==> Field(payload, "to") != Some(JStr(s)) || s == ""
  {
    match Field(payload, "to")
    case Some(JStr(s)) => if s != "" && s in sessions then Some(s) else None
    case _ => None
  }

  /** The layout named by a `session:layout` payload: a bare string, or its
      `layout` member. */
  function LayoutOf(payload: Json): (l: Json)
    ensures payload.JStr? ==> l == payload
    ensures !payload.JStr? && Field(payload, "layout").Some? ==> l == payload.fields["layout"]
    ensures !payload.JStr? && Field(payload, "layout").None? ==> l == JNull
  {
    if payload.JStr? then payload else OrNull(Field(payload, "layout"))
  }

  /** The registry invariant: the key order lists each session once, the
      engine knows only registered sessions and under their own names,
      every named session has joined the engine, and at most two sessions
      are named. */
  ghost predicate Registry(order: seq<string>, sessions: map<string, SessionEntry>, members: map<string, Json>) {
    && Distinct(order) && Elements(order) == sessions.Keys
    && members.Keys <= sessions.Keys
    && (forall id :: id in members ==> members[id] == sessions[id].displayName)
    && (forall id :: id in sessions && Truthy(sessions[id].displayName) ==> id in members)
    && |ParticipantList(order, sessions)| <= MAX_PARTICIPANTS
  }

  /** A join below capacity keeps the registry invariant. */
  lemma RegistryJoin(order: seq<string>, sessions: map<string, SessionEntry>, members: map<string, Json>,
                     id: string, name: Json)
    requires Registry(order, sessions, members) && id in sessions
    requires |ParticipantList(order, sessions)| < MAX_PARTICIPANTS
    ensures Registry(order, sessions[id := SessionEntry(sessions[id].open, name)], members[id := name])
  {
    ParticipantListUpdate(order, sessions, id, SessionEntry(sessions[id].open, name));
  }

  /** Removing a session from the registry and the engine keeps the
      invariant. */
  lemma RegistryLeave(order: seq<string>, sessions: map<string, SessionEntry>, members: map<string, Json>,
                      id: string)
    requires Registry(order, sessions, members)
    ensures Registry(Without(order, id), sessions - {id}, members - {id})
  {
    ParticipantListRemove(order, sessions, id);
  }

  /** The object's invariant over its state: the registry invariant, and
      at most one `session:start` since the engine was last idle. */
  ghost predicate ObjectInv(order: seq<string>, sessions: map<string, SessionEntry>, members: map<string, Json>,
                            state: RoomState, startsSinceIdle: nat)
  {
    && Registry(order, sessions, members)
    && startsSinceIdle <= 1
    && (state == Idle ==> startsSinceIdle == 0)
  }

  class RoomDurableObject {
    /** The keys of the `sessions` Map in registration order. */
    var order: seq<string>
    var sessions: map<string, SessionEntry>
    const engine: RoomEngine
    /** Every envelope sent so far, in sending order. */
    var outbox: seq<Outgoing>
    /** How many `session:start` broadcasts happened since the engine was
        last idle. */
    ghost var startsSinceIdle: nat

    ghost predicate Valid()
      reads this`order, this`sessions, this`startsSinceIdle, engine
    {
      engine.Valid() && ObjectInv(order, sessions, engine.participants, engine.state, startsSinceIdle)
    }

    /** `getParticipants`. */
    function Participants(): seq<Participant>
      reads this`order, this`sessions
    {
      ParticipantList(order, sessions)
    }

    /** `getActiveParticipantCount`: the number of named sessions. */
    function ActiveCount(): (n: nat)
      reads this, engine
      requires Valid()
      ensures n <= MAX_PARTICIPANTS
      ensures forall p :: p in Participants() ==> p.id in engine.participants
    {
      forall p | p in Participants() ensures p.id in engine.participants {
        ParticipantListMeaning(order, sessions, p);
      }
      |Participants()|
    }

    constructor ()
      ensures Valid() && fresh(engine)
      ensures order == [] && sessions == map[] && outbox == []
      ensures engine.participants == map[] && engine.state == Idle && engine.layout == JNull
    {
      order := [];
      sessions := map[];
      engine := new RoomEngine();
      outbox := [];
      startsSinceIdle := 0;
    }

    /** `fetch`: a request without `Upgrade: websocket` is answered 426 and
        registers nothing; otherwise the socket is accepted (OPEN) and
        registered under a fresh id with a `null` display name. */
    method Fetch(upgrade: Option<string>, freshId: string) returns (r: FetchResult)
      requires Valid() && freshId !in sessions
      modifies this
      ensures Valid() && outbox == old(outbox)
      ensures upgrade != Some("websocket") ==>
                r == UpgradeRequired && sessions == old(sessions) && order == old(order)
      ensures upgrade == Some("websocket") ==>
                r == Accepted(freshId)
                && sessions == old(sessions)[freshId := SessionEntry(true, JNull)]
                && order == old(order) + [freshId]
    {
      if upgrade != Some("websocket") {
        return UpgradeRequired;
      }
      ParticipantListAppend(order, [freshId], sessions[freshId := SessionEntry(true, JNull)]);
      ParticipantListFrame(order, sessions, freshId, SessionEntry(true, JNull));
      DistinctSnoc(order, freshId);
      order := order + [freshId];
      sessions := sessions[freshId := SessionEntry(true, JNull)];
      r := Accepted(freshId);
    }

    /** The runtime changing a socket's `readyState` (for instance to
        CLOSING) before its `close` event arrives. */
    method SetSocketOpen(id: string, open: bool)
      requires Valid()
      modifies this
      ensures Valid() && order == old(order) && outbox == old(outbox)
      ensures id in old(sessions) ==>
                sessions == old(sessions)[id := SessionEntry(open, old(sessions)[id].displayName)]
      ensures id !in old(sessions) ==> sessions == old(sessions)
    {
      if id in sessions {
        var s := sessions[id];
        assert ParticipantList(order, sessions[id := s.(open := open)]) == ParticipantList(order, sessions) by {
          SameNamesSameList(order, sessions, sessions[id := s.(open := open)]);
        }
        sessions := sessions[id := s.(open := open)];
      }
    }

    /** `send`: delivered only to a registered session whose socket is OPEN. */
    method Send(to: string, e: Event, p: Json)
      modifies this`outbox
      ensures outbox == old(outbox) + if to in sessions && sessions[to].open then [Outgoing(to, e, p)] else []
    {
      if to in sessions && sessions[to].open {
        outbox := outbox + [Outgoing(to, e, p)];
      }
    }

    /** `broadcast` (`except == None`) and `broadcastExcept`: one envelope to
        every open session in registration order, skipping `except`. */
    method BroadcastExcept(except: Option<string>, e: Event, p: Json)
      requires Valid()
      modifies this`outbox
      ensures Valid()
      ensures outbox == old(outbox) + Envelopes(Recipients(order, sessions, except), e, p)
    {
      var sent := Deliveries(order, sessions, except, e, p);
      outbox := outbox + sent;
    }

    /** `broadcastParticipants`: `room:joined` with the named sessions. */
    method BroadcastParticipants()
      requires Valid()
      modifies this`outbox
      ensures Valid()
      ensures outbox == old(outbox) + Envelopes(Recipients(order, sessions, None), RoomJoined,
                                                JoinedPayload(order, sessions))
    {
      BroadcastExcept(None, RoomJoined, JoinedPayload(order, sessions));
    }

    /** `handleJoin`. A `null` payload cannot be destructured, so the
        handler throws before doing anything; an unregistered id is
        ignored; a room that already has two named sessions (counting the
        requester) answers `room:error` to the requester only; otherwise the
        name is recorded in the session and the engine, `room:joined` goes to
        everyone and `room:ready` follows once two are named. */
    method HandleJoin(id: string, payload: Json)
      requires Valid()
      modifies this, engine
      ensures Valid()
      ensures payload == JNull || id !in old(sessions) ==>
                sessions == old(sessions) && outbox == old(outbox)
                && engine.participants == old(engine.participants) && engine.order == old(engine.order)
      ensures payload != JNull && id in old(sessions) && old(|Participants()|) >= MAX_PARTICIPANTS ==>
                sessions == old(sessions) && engine.participants == old(engine.participants)
                && engine.order == old(engine.order)
                && outbox == old(outbox) + if sessions[id].open then [Outgoing(id, RoomError, FullError)] else []
      ensures payload != JNull && id in old(sessions) && old(|Participants()|) < MAX_PARTICIPANTS ==>
                var name := OrNull(Field(payload, "displayName"));
                && sessions == old(sessions)[id := SessionEntry(old(sessions)[id].open, name)]
                && engine.participants == old(engine.participants)[id := name]
                && engine.order == Append(old(engine.order), id)
                && outbox == old(outbox)
                   + Envelopes(Recipients(order, sessions, None), RoomJoined, JoinedPayload(order, sessions))
                   + (if |Participants()| >= MAX_PARTICIPANTS
                      then Envelopes(Recipients(order, sessions, None), RoomReady, ReadyPayload) else [])
      ensures order == old(order)
      ensures engine.state == old(engine.state) && engine.layout == old(engine.layout)
    {
      if payload == JNull || id !in sessions {
        return;
      }
      var name := OrNull(Field(payload, "displayName"));
      if ActiveCount() >= MAX_PARTICIPANTS {
        Send(id, RoomError, FullError);
        return;
      }
      Admit(id, name);
    }

    /** The accepting half of `handleJoin`. */
    method Admit(id: string, name: Json)
      requires Valid() && id in sessions && |Participants()| < MAX_PARTICIPANTS
      modifies this`sessions, this`outbox, engine
      ensures Valid()
      ensures sessions == old(sessions)[id := SessionEntry(old(sessions)[id].open, name)]
      ensures engine.participants == old(engine.participants)[id := name]
      ensures outbox == old(outbox)
                + Envelopes(Recipients(order, sessions, None), RoomJoined, JoinedPayload(order, sessions))
                + (if |Participants()| >= MAX_PARTICIPANTS
                   then Envelopes(Recipients(order, sessions, None), RoomReady, ReadyPayload) else [])
      ensures engine.order == Append(old(engine.order), id)
      ensures engine.state == old(engine.state) && engine.layout == old(engine.layout)
    {
      Register(id, name);
      var full := |Participants()| >= MAX_PARTICIPANTS;
      BroadcastParticipants();
      if full {
        BroadcastExcept(None, RoomReady, ReadyPayload);
      }
    }

    /** The registry half of `handleJoin`: the session takes the name and
        the engine gains (or renames) the participant. */
    method Register(id: string, name: Json)
      requires Valid() && id in sessions && |Participants()| < MAX_PARTICIPANTS
      modifies this`sessions, engine
      ensures Valid()
      ensures sessions == old(sessions)[id := SessionEntry(old(sessions)[id].open, name)]
      ensures engine.participants == old(engine.participants)[id := name]
      ensures engine.order == Append(old(engine.order), id)
      ensures engine.state == old(engine.state) && engine.layout == old(engine.layout)
    {
      RegistryJoin(order, sessions, engine.participants, id, name);
      sessions := sessions[id := SessionEntry(sessions[id].open, name)];
      var _ := engine.Join(id, name);
    }

    /** `handleDisconnect`: the session leaves the registry and the engine;
        the others hear `room:joined` if anyone is left. Repeating it for
        the same id changes neither the registry nor the engine's members. */
    method HandleDisconnect(id: string)
      requires Valid()
      modifies this, engine
      ensures Valid()
      ensures sessions == old(sessions) - {id} && order == Without(old(order), id)
      ensures engine.participants == old(engine.participants) - {id}
      ensures engine.order == Without(old(engine.order), id)
      ensures |engine.participants| < 2 ==> engine.state == Idle && engine.layout == JNull
      ensures |engine.participants| >= 2 ==>
                engine.state == old(engine.state) && engine.layout == old(engine.layout)
      ensures outbox == old(outbox) + if order != []
                then Envelopes(Recipients(order, sessions, None), RoomJoined, JoinedPayload(order, sessions))
                else []
    {
      Unregister(id);
      AnnounceRemaining();
    }

    /** The tail of `handleDisconnect`: `room:joined` to the sessions left,
        if there are any. */
    method AnnounceRemaining()
      requires Valid()
      modifies this`outbox
      ensures Valid()
      ensures outbox == old(outbox) + if order != []
                then Envelopes(Recipients(order, sessions, None), RoomJoined, JoinedPayload(order, sessions))
                else []
    {
      if order != [] {
        BroadcastParticipants();
      }
    }

    /** The registry half of `handleDisconnect`: the session and the
        participant go, and the engine may fall back to idle. */
    method Unregister(id: string)
      requires Valid()
      modifies this`order, this`sessions, this`startsSinceIdle, engine
      ensures Valid()
      ensures sessions == old(sessions) - {id} && order == Without(old(order), id)
      ensures engine.participants == old(engine.participants) - {id}
      ensures engine.order == Without(old(engine.order), id)
      ensures |engine.participants| < 2 ==> engine.state == Idle && engine.layout == JNull
      ensures |engine.participants| >= 2 ==>
                engine.state == old(engine.state) && engine.layout == old(engine.layout)
    {
      RegistryLeave(order, sessions, engine.participants, id);
      order := Without(order, id);
      sessions := sessions - {id};
      engine.Leave(id);
      if engine.state == Idle {
        startsSinceIdle := 0;
      }
    }

    /** `handleLeave`: a disconnect followed by `session:reset` to whoever
        remains. */
    method HandleLeave(id: string)
      requires Valid()
      modifies this, engine
      ensures Valid()
      ensures sessions == old(sessions) - {id} && order == Without(old(order), id)
      ensures engine.participants == old(engine.participants) - {id}
      ensures engine.order == Without(old(engine.order), id)
      ensures |engine.participants| < 2 ==> engine.state == Idle && engine.layout == JNull
      ensures |engine.participants| >= 2 ==>
                engine.state == old(engine.state) && engine.layout == old(engine.layout)
      ensures outbox == old(outbox)
                + (if order != []
                   then Envelopes(Recipients(order, sessions, None), RoomJoined, JoinedPayload(order, sessions))
                   else [])
                + Envelopes(Recipients(order, sessions, None), SessionReset, EmptyPayload)
    {
      HandleDisconnect(id);
      BroadcastExcept(None, SessionReset, EmptyPayload);
    }

    /** `handleSessionStart`: `session:start` with `startTime = now + 1000`
        and the layout is broadcast exactly when the engine accepts the
        start, that is when the room was idle. */
    method HandleSessionStart(payload: Json, now: int) returns (started: bool)
      requires Valid()
      modifies this, engine
      ensures Valid()
      ensures started <==> old(engine.state) == Idle
      ensures started ==>
                && engine.state == Session && startsSinceIdle == 1
                && engine.layout == OrNull(Field(payload, "layout"))
                && outbox == old(outbox) + Envelopes(Recipients(order, sessions, None), SessionStart,
                     StartPayload(now, OrNull(Field(payload, "layout"))))
      ensures !started ==> outbox == old(outbox) && engine.layout == old(engine.layout)
      ensures engine.state == Session
      ensures sessions == old(sessions) && order == old(order)
      ensures engine.participants == old(engine.participants) && engine.order == old(engine.order)
    {
      var layout := OrNull(Field(payload, "layout"));
      started := engine.StartSession(layout);
      if started {
        startsSinceIdle := startsSinceIdle + 1;
        BroadcastExcept(None, SessionStart, StartPayload(now, layout));
      }
    }

    /** `handleSessionLayout`: the layout is stored and broadcast only while
        idle. */
    method HandleSessionLayout(payload: Json) returns (updated: bool)
      requires Valid()
      modifies this, engine
      ensures Valid()
      ensures updated <==> engine.state == Idle
      ensures updated ==>
                && engine.layout == LayoutOf(payload)
                && outbox == old(outbox) + Envelopes(Recipients(order, sessions, None), SessionLayout, LayoutOf(payload))
      ensures !updated ==> outbox == old(outbox) && engine.layout == old(engine.layout)
      ensures engine.state == old(engine.state)
      ensures sessions == old(sessions) && order == old(order)
      ensures engine.participants == old(engine.participants) && engine.order == old(engine.order)
    {
      updated := engine.UpdateLayout(LayoutOf(payload));
      if updated {
        BroadcastExcept(None, SessionLayout, LayoutOf(payload));
      }
    }

    /** `handleSessionReset`: always idle again, always broadcast. */
    method HandleSessionReset()
      requires Valid()
      modifies this, engine
      ensures Valid()
      ensures engine.state == Idle && engine.layout == JNull && startsSinceIdle == 0
      ensures outbox == old(outbox) + Envelopes(Recipients(order, sessions, None), SessionReset, EmptyPayload)
      ensures sessions == old(sessions) && order == old(order)
      ensures engine.participants == old(engine.participants) && engine.order == old(engine.order)
    {
      var _ := engine.ResetSession();
      startsSinceIdle := 0;
      BroadcastExcept(None, SessionReset, EmptyPayload);
    }

    /** `handleWebRTC`: a `null` payload cannot be destructured and throws;
        a registered target gets the signal alone, without `to` and with
        `from` = sender; otherwise every other open session gets it. */
    method HandleWebRtc(id: string, e: Event, payload: Json)
      requires Valid()
      modifies this`outbox
      ensures payload == JNull ==> outbox == old(outbox)
      ensures payload != JNull && SignalTarget(payload, sessions).Some? ==>
                var t := SignalTarget(payload, sessions).value;
                outbox == old(outbox) + if sessions[t].open then [Outgoing(t, e, SignalPayload(payload, id))] else []
      ensures payload != JNull && SignalTarget(payload, sessions).None? ==>
                outbox == old(outbox) + Envelopes(Recipients(order, sessions, Some(id)), e, SignalPayload(payload, id))
    {
      if payload == JNull {
        return;
      }
      var target := SignalTarget(payload, sessions);
      if target.Some? {
        Send(target.value, e, SignalPayload(payload, id));
      } else {
        BroadcastExcept(Some(id), e, SignalPayload(payload, id));
      }
    }

    /** `handlePhotoSend`, `handlePhotoMeta` and
        `handlePhotoTransferComplete`: relayed to every other open session
        under `relayAs`, with `from` forced to the sender. */
    method RelayPhoto(id: string, relayAs: Event, payload: Json)
      requires Valid()
      modifies this`outbox
      ensures outbox == old(outbox) + Envelopes(Recipients(order, sessions, Some(id)), relayAs, SpreadWith(payload, "from", id))
    {
      BroadcastExcept(Some(id), relayAs, SpreadWith(payload, "from", id));
    }

    /** `handleLocation`: only a numeric `lat` is broadcast, to every open
        session including the sender. */
    method HandleLocation(id: string, payload: Json)
      requires Valid()
      modifies this`outbox
      ensures IsNumberField(payload, "lat") ==>
                outbox == old(outbox) + Envelopes(Recipients(order, sessions, None), LocationUpdate, DefaultSender(payload, id))
      ensures !IsNumberField(payload, "lat") ==> outbox == old(outbox)
    {
      if IsNumberField(payload, "lat") {
        BroadcastExcept(None, LocationUpdate, DefaultSender(payload, id));
      }
    }

    /** `handleMessage`: a decoded envelope (`None` when `JSON.parse` fails)
        goes to the handler its `type` names; `now` is `Date.now()`. */
    method HandleMessage(id: string, msg: Option<Json>, now: int)
      requires Valid()
      modifies this, engine
      ensures Valid()
      ensures KindOf(msg) == Ignore ==>
                outbox == old(outbox) && sessions == old(sessions) && order == old(order)
                && engine.participants == old(engine.participants) && engine.order == old(engine.order)
                && engine.state == old(engine.state) && engine.layout == old(engine.layout)
      // `room:join`: as HandleJoin.
      ensures KindOf(msg) == OnJoin ==>
                var p := PayloadOf(msg);
                && order == old(order)
                && (p == JNull || id !in old(sessions) ==>
                      sessions == old(sessions) && outbox == old(outbox)
                      && engine.participants == old(engine.participants) && engine.order == old(engine.order))
                && (p != JNull && id in old(sessions) && old(|Participants()|) >= MAX_PARTICIPANTS ==>
                      sessions == old(sessions) && engine.participants == old(engine.participants)
                      && engine.order == old(engine.order)
                      && outbox == old(outbox) + if sessions[id].open then [Outgoing(id, RoomError, FullError)] else [])
                && (p != JNull && id in old(sessions) && old(|Participants()|) < MAX_PARTICIPANTS ==>
                      var name := OrNull(Field(p, "displayName"));
                      && sessions == old(sessions)[id := SessionEntry(old(sessions)[id].open, name)]
                      && engine.participants == old(engine.participants)[id := name]
                      && engine.order == Append(old(engine.order), id)
                      && outbox == old(outbox)
                         + Envelopes(Recipients(order, sessions, None), RoomJoined, JoinedPayload(order, sessions))
                         + (if |Participants()| >= MAX_PARTICIPANTS
                            then Envelopes(Recipients(order, sessions, None), RoomReady, ReadyPayload) else []))
                && engine.state == old(engine.state) && engine.layout == old(engine.layout)
      // `room:leave`: as HandleLeave.
      ensures KindOf(msg) == OnLeave ==>
                && sessions == old(sessions) - {id} && order == Without(old(order), id)
                && engine.participants == old(engine.participants) - {id}
                && engine.order == Without(old(engine.order), id)
                && (|engine.participants| < 2 ==> engine.state == Idle && engine.layout == JNull)
                && (|engine.participants| >= 2 ==>
                      engine.state == old(engine.state) && engine.layout == old(engine.layout))
                && outbox == old(outbox)
                   + (if order != []
                      then Envelopes(Recipients(order, sessions, None), RoomJoined, JoinedPayload(order, sessions))
                      else [])
                   + Envelopes(Recipients(order, sessions, None), SessionReset, EmptyPayload)
      // The session events: as HandleSessionStart, HandleSessionLayout and
      // HandleSessionReset.
      ensures KindOf(msg) == OnStart ==>
                var layout := OrNull(Field(PayloadOf(msg), "layout"));
                && engine.state == Session
                && (old(engine.state) == Idle ==>
                      engine.layout == layout
                      && outbox == old(outbox) + Envelopes(Recipients(order, sessions, None), SessionStart,
                                                           StartPayload(now, layout)))
                && (old(engine.state) != Idle ==> outbox == old(outbox) && engine.layout == old(engine.layout))
      ensures KindOf(msg) == OnLayout ==>
                var layout := LayoutOf(PayloadOf(msg));
                && engine.state == old(engine.state)
                && (engine.state == Idle ==>
                      engine.layout == layout
                      && outbox == old(outbox) + Envelopes(Recipients(order, sessions, None), SessionLayout, layout))
                && (engine.state != Idle ==> outbox == old(outbox) && engine.layout == old(engine.layout))
      ensures KindOf(msg) == OnReset ==>
                engine.state == Idle && engine.layout == JNull
                && outbox == old(outbox) + Envelopes(Recipients(order, sessions, None), SessionReset, EmptyPayload)
      // Relays: as HandleWebRtc, RelayPhoto and HandleLocation.
      ensures KindOf(msg).OnWebRtc? ==>
                var p, e := PayloadOf(msg), KindOf(msg).signal;
                && (p == JNull ==> outbox == old(outbox))
                && (p != JNull && SignalTarget(p, sessions).Some? ==>
                      var t := SignalTarget(p, sessions).value;
                      outbox == old(outbox) + if sessions[t].open then [Outgoing(t, e, SignalPayload(p, id))] else [])
                && (p != JNull && SignalTarget(p, sessions).None? ==>
                      outbox == old(outbox) + Envelopes(Recipients(order, sessions, Some(id)), e, SignalPayload(p, id)))
      ensures KindOf(msg).OnPhoto? ==>
                outbox == old(outbox) + Envelopes(Recipients(order, sessions, Some(id)), KindOf(msg).relayAs,
                                                  SpreadWith(PayloadOf(msg), "from", id))
      ensures KindOf(msg) == OnLocation ==>
                var p := PayloadOf(msg);
                && (IsNumberField(p, "lat") ==>
                      outbox == old(outbox) + Envelopes(Recipients(order, sessions, None), LocationUpdate, DefaultSender(p, id)))
                && (!IsNumberField(p, "lat") ==> outbox == old(outbox))
      // Only a join or a leave changes the registry or the participants.
      ensures KindOf(msg) !in {OnJoin, OnLeave} ==>
                sessions == old(sessions) && order == old(order)
                && engine.participants == old(engine.participants) && engine.order == old(engine.order)
      ensures !KindOf(msg).OnStart? && !KindOf(msg).OnLayout? && !KindOf(msg).OnReset? && !KindOf(msg).OnLeave? ==>
                engine.state == old(engine.state) && engine.layout == old(engine.layout)
    {
      if msg.None? {
        return;
      }
      var payload := OrNull(Field(msg.value, "payload"));
      match Dispatch(Field(msg.value, "type")) {
        case OnJoin => HandleJoin(id, payload);
        case OnLeave => HandleLeave(id);
        case OnStart => var _ := HandleSessionStart(payload, now);
        case OnLayout => var _ := HandleSessionLayout(payload);
        case OnReset => HandleSessionReset();
        case OnWebRtc(e) => HandleWebRtc(id, e, payload);
        case OnPhoto(e) => RelayPhoto(id, e, payload);
        case OnLocation => HandleLocation(id, payload);
        case Ignore =>
      }
    }
  }

  /** The arm a decoded envelope reaches; an envelope that did not parse
      reaches none. */
  function KindOf(msg: Option<Json>): Handler {
    if msg.None? then Ignore else Dispatch(Field(msg.value, "type"))
  }

  /** The envelope's `payload` member, `null` when absent. */
  function PayloadOf(msg: Option<Json>): Json {
    if msg.None? then JNull else OrNull(Field(msg.value, "payload"))
  }

  /** The `room:joined` payload: `{ participants: getParticipants() }`. */
  function JoinedPayload(ids: seq<string>, sessions: map<string, SessionEntry>): Json {
    JObj(map["participants" := ParticipantsJson(ParticipantList(ids, sessions))])
  }

  /** Changing anything but the names leaves the participant list alone. */
  lemma {:induction false} SameNamesSameList(ids: seq<string>, s: map<string, SessionEntry>, t: map<string, SessionEntry>)
    requires s.Keys == t.Keys
    requires forall k :: k in s ==> s[k].displayName == t[k].displayName
    ensures ParticipantList(ids, s) == ParticipantList(ids, t)
  {
    if ids != [] {
      SameNamesSameList(ids[1..], s, t);
    }
  }
}
