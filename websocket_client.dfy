/** The plainer WebSocket client: `connect` is called with the room code,
    an emit on a socket that is not open is dropped, and a lost connection
    is retried with capped exponential backoff, ten times by default. The
    WebSocket runtime is foreign, as for the adapter. */
module Client {
  import opened Common
  import opened Listeners
  import opened WsCommon

  const RECONNECT_MAX_ATTEMPTS: int := 10

  class WebSocketClient {
    const serverUrl: Url
    const reconnection: bool
    const reconnectionAttempts: int
    const reconnectionDelay: nat
    const listeners: Registry

    var ws: Option<Ws>
    var created: nat
    var roomCode: Option<string>
    var reconnectAttempts: nat
    var isConnecting: bool
    var isManualClose: bool
    var id: Option<string>
    /** What `ws.send` put on the wire, in order. */
    var wire: seq<Message>
    /** The delays of the reconnect timers set and not yet fired, oldest
        first. */
    var timers: seq<nat>
    var local: seq<LocalEvent>

    ghost predicate Valid()
      reads this
    {
      && (ws.Some? ==> ws.value.serial < created)
      && (timers != [] ==> roomCode.Some?)
      && (created > 0 ==> roomCode.Some?)
    }

    predicate IsOpen()
      reads this
    {
      ws.Some? && ws.value.state == Open
    }

    /** `new WebSocketClient(serverUrl, options)`: reconnection on, ten
        attempts and a one-second base unless the caller says otherwise. */
    constructor (serverUrl: Url, reconnection: Option<bool>, attempts: Option<int>, delay: Option<nat>)
      ensures Valid() && fresh(listeners) && listeners.handlers == map[]
      ensures this.serverUrl == serverUrl
      ensures this.reconnection == reconnection.GetOr(true)
      ensures reconnectionAttempts == attempts.GetOr(RECONNECT_MAX_ATTEMPTS)
      ensures reconnectionDelay == delay.GetOr(RECONNECT_DELAY_BASE)
      ensures ws.None? && roomCode.None? && reconnectAttempts == 0 && !isConnecting && !isManualClose
      ensures id.None? && wire == [] && timers == [] && local == []
    {
      this.serverUrl := serverUrl;
      this.reconnection := reconnection.GetOr(true);
      reconnectionAttempts := attempts.GetOr(RECONNECT_MAX_ATTEMPTS);
      reconnectionDelay := delay.GetOr(RECONNECT_DELAY_BASE);
      listeners := new Registry();
      ws := None;
      created := 0;
      roomCode := None;
      reconnectAttempts := 0;
      isConnecting := false;
      isManualClose := false;
      id := None;
      wire := [];
      timers := [];
      local := [];
    }

    /** `_emit`: the local listeners registered for the event run. */
    method EmitLocal(event: string, data: Json)
      modifies this`local
      ensures local == old(local) + [LocalEvent(event, data, listeners.Handlers(event))]
    {
      local := local + [LocalEvent(event, data, listeners.Handlers(event))];
    }

    /** `_scheduleReconnect`: a timer with the capped backoff unless the
        attempts are used up. Unlike the adapter, it does not look at the
        room code. */
    method ScheduleReconnect()
      requires Valid() && roomCode.Some?
      modifies this`timers
      ensures Valid()
      ensures timers == old(timers)
                + if reconnectAttempts < reconnectionAttempts then [Backoff(reconnectionDelay, reconnectAttempts)] else []
    {
      if reconnectAttempts >= reconnectionAttempts {
        return;
      }
      timers := timers + [Backoff(reconnectionDelay, reconnectAttempts)];
    }

    /** `connect`: a no-op while open or connecting; otherwise the code is
        recorded and a socket opened on the URL for it. */
    method Connect(code: string, wsThrows: bool, errorMessage: string)
      requires Valid()
      modifies this`roomCode, this`isConnecting, this`isManualClose, this`ws, this`created, this`local, this`timers
      ensures Valid()
      ensures IsOpen() == old(IsOpen())
      ensures old(IsOpen()) || old(isConnecting) ==>
                roomCode == old(roomCode) && ws == old(ws) && isConnecting == old(isConnecting)
                && isManualClose == old(isManualClose) && created == old(created)
                && timers == old(timers) && local == old(local)
      ensures !old(IsOpen()) && !old(isConnecting) && !wsThrows ==>
                && roomCode == Some(code) && isConnecting && !isManualClose
                && ws == Some(Ws(BuildWsUrl(serverUrl, code), old(created), Connecting))
                && created == old(created) + 1 && timers == old(timers) && local == old(local)
      ensures !old(IsOpen()) && !old(isConnecting) && wsThrows ==>
                && roomCode == Some(code) && !isConnecting && !isManualClose && ws == old(ws) && created == old(created)
                && local == old(local) + [LocalEvent("connect_error", JObj(map["message" := JStr(errorMessage)]),
                                                     listeners.Handlers("connect_error"))]
                && timers == old(timers)
                   + if reconnectAttempts < reconnectionAttempts then [Backoff(reconnectionDelay, reconnectAttempts)] else []
    {
      if ws.Some? && ws.value.state == Open {
        return;
      }
      if isConnecting {
        return;
      }
      StartConnect(code, wsThrows, errorMessage);
    }

    /** The part of `connect` past its guards. */
    method StartConnect(code: string, wsThrows: bool, errorMessage: string)
      requires Valid() && !IsOpen()
      modifies this`roomCode, this`isConnecting, this`isManualClose, this`ws, this`created, this`local, this`timers
      ensures Valid() && !IsOpen() && roomCode == Some(code) && !isManualClose
      ensures !wsThrows ==>
                && isConnecting && ws == Some(Ws(BuildWsUrl(serverUrl, code), old(created), Connecting))
                && created == old(created) + 1 && timers == old(timers) && local == old(local)
      ensures wsThrows ==>
                && !isConnecting && ws == old(ws) && created == old(created)
                && local == old(local) + [LocalEvent("connect_error", JObj(map["message" := JStr(errorMessage)]),
                                                     listeners.Handlers("connect_error"))]
                && timers == old(timers)
                   + if reconnectAttempts < reconnectionAttempts then [Backoff(reconnectionDelay, reconnectAttempts)] else []
    {
      roomCode := Some(code);
      isConnecting := true;
      isManualClose := false;
      var url := BuildWsUrl(serverUrl, code);
      if wsThrows {
        isConnecting := false;
        EmitLocal("connect_error", JObj(map["message" := JStr(errorMessage)]));
        ScheduleReconnect();
        return;
      }
      ws := Some(Ws(url, created, Connecting));
      created := created + 1;
    }

    /** `emit`: sent on an open socket, dropped otherwise; there is no
        queue. */
    method Emit(event: string, data: Json)
      modifies this`wire
      ensures wire == old(wire) + if IsOpen() then [Message(event, data)] else []
    {
      if ws.None? || ws.value.state != Open {
        return;
      }
      wire := wire + [Message(event, data)];
    }

    /** `ws.onopen` of the socket made as number `serial`: attempts start
        again from zero, a new id, `connect`. The handler does not look at
        which socket opened, so the `onopen` of a socket that is no longer
        the current one clears `isConnecting` while the current socket may
        still be connecting; only the current socket, when it is the one
        that opened, becomes OPEN. */
    method OnOpen(serial: nat, newId: string)
      requires Valid() && serial < created
      requires ws.Some? && ws.value.serial == serial ==> ws.value.state == Connecting
      modifies this`ws, this`isConnecting, this`reconnectAttempts, this`id, this`local
      ensures Valid()
      ensures old(ws).Some? && old(ws).value.serial == serial ==> ws == Some(old(ws).value.(state := Open)) && IsOpen()
      ensures old(ws).None? || old(ws).value.serial != serial ==> ws == old(ws)
      ensures !isConnecting && reconnectAttempts == 0 && id == Some(newId)
      ensures local == old(local) + [LocalEvent("connect", JNull, listeners.Handlers("connect"))]
    {
      if ws.Some? && ws.value.serial == serial {
        ws := Some(ws.value.(state := Open));
      }
      isConnecting := false;
      reconnectAttempts := 0;
      id := Some(newId);
      EmitLocal("connect", JNull);
    }

    /** `ws.onclose` of the socket made as number `serial`: `disconnect`
        for the listeners, and a reconnect unless the close was asked for.
        The handler does not look at which socket closed, so a late close
        of a socket that `disconnect` dropped acts on the flags all the
        same; only the current socket's state becomes CLOSED. */
    method OnClose(serial: nat, reason: Json)
      requires Valid() && serial < created
      modifies this`ws, this`isConnecting, this`local, this`timers
      ensures Valid() && !isConnecting
      ensures old(ws).Some? && old(ws).value.serial == serial ==> ws == Some(old(ws).value.(state := Closed))
      ensures old(ws).None? || old(ws).value.serial != serial ==> ws == old(ws)
      ensures local == old(local)
                + [LocalEvent("disconnect", if Truthy(reason) then reason else JStr("Connection closed"),
                              listeners.Handlers("disconnect"))]
      ensures var arm := !isManualClose && reconnection && reconnectAttempts < reconnectionAttempts;
              timers == old(timers) + if arm then [Backoff(reconnectionDelay, reconnectAttempts)] else []
    {
      if ws.Some? && ws.value.serial == serial {
        ws := Some(ws.value.(state := Closed));
      }
      isConnecting := false;
      EmitLocal("disconnect", if Truthy(reason) then reason else JStr("Connection closed"));
      if !isManualClose && reconnection {
        ScheduleReconnect();
      }
    }

    /** `ws.onerror`. */
    method OnError()
      modifies this`local
      ensures local == old(local)
                + [LocalEvent("connect_error", JObj(map["message" := JStr("WebSocket error")]),
                              listeners.Handlers("connect_error"))]
    {
      EmitLocal("connect_error", JObj(map["message" := JStr("WebSocket error")]));
    }

    /** `ws.onmessage`: a parsed `{ type, payload }` goes to the listeners
        of `type`; an unparsable frame is dropped. */
    method OnMessage(frame: Option<Message>)
      modifies this`local
      ensures frame.None? ==> local == old(local)
      ensures frame.Some? ==>
                local == old(local) + [LocalEvent(frame.value.event, frame.value.data, listeners.Handlers(frame.value.event))]
    {
      if frame.Some? {
        EmitLocal(frame.value.event, frame.value.data);
      }
    }

    /** The oldest reconnect timer fires: one more attempt, then `connect`
        with the recorded code. */
    method FireReconnect(wsThrows: bool, errorMessage: string)
      requires Valid() && timers != []
      modifies this`timers, this`reconnectAttempts, this`roomCode, this`isConnecting, this`isManualClose,
               this`ws, this`created, this`local
      ensures Valid()
      ensures reconnectAttempts == old(reconnectAttempts) + 1
      ensures wire == old(wire)
      // An open socket or a connect under way: only the timer and the count change.
      ensures old(IsOpen()) || old(isConnecting) ==>
                && timers == old(timers)[1..] && ws == old(ws) && roomCode == old(roomCode)
                && isConnecting == old(isConnecting) && isManualClose == old(isManualClose)
                && created == old(created) && local == old(local)
      ensures !old(IsOpen()) && !old(isConnecting) && !wsThrows ==>
                && timers == old(timers)[1..] && roomCode == old(roomCode)
                && isConnecting && !isManualClose && created == old(created) + 1
                && ws == Some(Ws(BuildWsUrl(serverUrl, old(roomCode).value), old(created), Connecting))
                && local == old(local)
      // The `WebSocket` constructor throws: `connect_error`, and a retry
      // while attempts remain.
      ensures !old(IsOpen()) && !old(isConnecting) && wsThrows ==>
                && roomCode == old(roomCode) && !isConnecting && !isManualClose && ws == old(ws) && created == old(created)
                && local == old(local) + [LocalEvent("connect_error", JObj(map["message" := JStr(errorMessage)]),
                                                     listeners.Handlers("connect_error"))]
                && timers == old(timers)[1..]
                   + if reconnectAttempts < reconnectionAttempts
                     then [Backoff(reconnectionDelay, reconnectAttempts)] else []
    {
      timers := timers[1..];
      reconnectAttempts := reconnectAttempts + 1;
      Connect(roomCode.value, wsThrows, errorMessage);
    }

    /** `disconnect`, as written: no reconnect on the coming close, the
        socket dropped; a timer already set is not cleared. */
    method Disconnect()
      modifies this`isManualClose, this`ws
      ensures isManualClose && ws.None?
    {
      isManualClose := true;
      ws := None;
    }

    /** `disconnect` with its evident intent: pending reconnect timers are
        cleared too. */
    method DisconnectCorrected()
      modifies this`isManualClose, this`ws, this`timers
      ensures isManualClose && ws.None? && timers == []
    {
      isManualClose := true;
      ws := None;
      timers := [];
    }

    method On(event: string, h: HandlerId)
      modifies listeners
      ensures listeners.Handlers(event) == old(listeners.Handlers(event)) + [h]
      ensures forall e :: e != event ==> listeners.Handlers(e) == old(listeners.Handlers(e))
    {
      listeners.On(event, h);
    }

    method Off(event: string, h: Option<HandlerId>)
      modifies listeners
      ensures h.None? ==> listeners.Handlers(event) == []
      ensures h.Some? ==> listeners.Handlers(event) == RemoveFirst(old(listeners.Handlers(event)), h.value)
      ensures forall e :: e != event ==> listeners.Handlers(e) == old(listeners.Handlers(e))
    {
      listeners.Off(event, h);
    }
  }

  /** An emit before the socket opens is lost: it is not sent when the
      socket opens later. */
  method EmitBeforeOpenIsLost(c: WebSocketClient, code: string, event: string, data: Json, newId: string)
    requires c.Valid() && c.ws.None? && !c.isConnecting
    modifies c
    ensures c.IsOpen() && c.wire == old(c.wire)
  {
    var serial := c.created;
    c.Connect(code, false, "");
    c.Emit(event, data);
    c.OnOpen(serial, newId);
  }

  /** A reconnect already scheduled when `disconnect` is called still
      fires and opens a new socket. */
  method DisconnectThenTimerReconnects(c: WebSocketClient)
    requires c.Valid() && c.timers != [] && !c.isConnecting
    modifies c
    ensures c.ws.Some? && c.ws.value.state == Connecting && !c.isManualClose
  {
    c.Disconnect();
    c.FireReconnect(false, "");
  }

  /** With the corrected `disconnect` no timer is left and the close that
      follows schedules none. */
  method CorrectedDisconnectStaysDown(c: WebSocketClient, reason: Json)
    requires c.Valid() && c.ws.Some?
    modifies c
    ensures c.timers == [] && c.ws.None? && c.isManualClose
  {
    var dropped := c.ws.value.serial;
    c.DisconnectCorrected();
    c.OnClose(dropped, reason);
  }

  /** A `connect` right after `disconnect` opens a second socket; the
      first socket's close arrives later, clears `isConnecting` and arms a
      reconnect whose timer opens a third socket beside the second. When
      the second socket then opens, its `onopen` clears `isConnecting`
      again while the third is still connecting, so the next `connect`
      passes both guards and opens a fourth. */
  method LateOpenOpensFourthSocket(c: WebSocketClient, code: string, reason: Json, secondId: string)
    requires c.Valid() && c.IsOpen() && !c.isConnecting
    requires c.reconnection && c.reconnectAttempts < c.reconnectionAttempts
    modifies c
    ensures c.Valid() && c.ws.Some? && c.ws.value.state == Connecting
    ensures c.ws.value.serial == old(c.created) + 2 && c.created == old(c.created) + 3
  {
    var dropped := c.ws.value.serial;
    var second := c.created;
    c.Disconnect();
    c.Connect(code, false, "");
    c.OnClose(dropped, reason);
    assert c.timers != [];
    c.FireReconnect(false, "");
    assert c.ws.value.serial == second + 1 && c.isConnecting;
    c.OnOpen(second, secondId);
    c.Connect(code, false, "");
  }
}
