/** The Socket.IO-shaped adapter over a native WebSocket that the rooms
    page uses: the connection is opened by the first `room:join`, emits
    made before the socket is open wait in a FIFO queue, and a lost
    connection is retried with capped exponential backoff. The WebSocket
    runtime is foreign: its events arrive as the `On…` methods, timers as
    `FireReconnect`, and fresh ids as parameters. */
module Adapter {
  import opened Common
  import opened Listeners
  import opened WsCommon
  import opened JsString

  /** `String(code)` as the URL API writes a room code; an array is its
      elements' texts joined with commas, `null` elements giving "". */
  function ParamText(code: Json): (r: string)
    ensures code.JStr? ==> r == code.s
    ensures code.JArr? && code.items == [] ==> r == ""
    decreases code
  {
    match code
    case JStr(s) => s
    case JNum(n) => if n >= 0 then NatToString(n) else "-" + NatToString(-n)
    case JBool(b) => if b then "true" else "false"
    case JNull => "null"
    case JObj(_) => "[object Object]"
    case JArr(items) => ItemsText(items)
  }

  /** `Array.prototype.join(",")` over the elements' texts. */
  function ItemsText(items: seq<Json>): string
    decreases items
  {
    if items == [] then ""
    else
      (if items[0].JNull? then "" else ParamText(items[0]))
      + (if |items| == 1 then "" else "," + ItemsText(items[1..]))
  }

  /** A one-element array reads as its element, and as "" when that
      element is `null`. */
  lemma ParamTextSingleton(x: Json)
    ensures ParamText(JArr([x])) == if x.JNull? then "" else ParamText(x)
  {
  }

  /** Joining splits at any element boundary: the text of two non-empty
      arrays put together is their texts with a comma between. */
  lemma {:induction false} ItemsTextAppend(xs: seq<Json>, ys: seq<Json>)
    requires xs != [] && ys != []
    ensures ItemsText(xs + ys) == ItemsText(xs) + "," + ItemsText(ys)
    decreases |xs|
  {
    assert (xs + ys)[0] == xs[0];
    if |xs| > 1 {
      assert (xs + ys)[1..] == xs[1..] + ys;
      ItemsTextAppend(xs[1..], ys);
    } else {
      assert (xs + ys)[1..] == ys;
    }
  }

  /** The truthy `data?.code` that makes an emit a connecting join. */
  predicate IsConnectingJoin(event: string, data: Json): (r: bool)
    ensures r ==> event == "room:join" && data.JObj? && "code" in data.fields
  {
    event == "room:join" && Field(data, "code").Some? && Truthy(Field(data, "code").value)
  }

  class SocketAdapter {
    const serverUrl: Url
    /** `options`, after the defaults were spread under them. */
    const reconnection: bool
    const reconnectionAttempts: int
    const reconnectionDelay: nat
    const listeners: Registry

    var ws: Option<Ws>
    /** WebSockets created so far. */
    var created: nat
    var roomCode: Option<Json>
    var reconnectAttempts: nat
    var isConnecting: bool
    var isManualClose: bool
    var id: Option<string>
    var connectedFlag: bool
    /** `_pendingEmits`. */
    var pending: seq<Message>
    /** What `ws.send` put on the wire, in order. */
    var wire: seq<Message>
    /** The delays of the reconnect timers set and not yet fired, oldest
        first. */
    var timers: seq<nat>
    var local: seq<LocalEvent>

    ghost predicate Valid()
      reads this
    {
      && (ws.Some? ==> ws.value.serial < created)
      && (connectedFlag ==> id.Some?)
      && (timers != [] ==> roomCode.Some? && Truthy(roomCode.value))
    }

    /** `connected`: the flag and an open socket. The flag alone does not
        decide it: the `onopen` of a socket that is no longer the current
        one raises the flag while the current socket is still connecting. */
    function Connected(): (c: bool)
      reads this
      requires Valid()
      ensures c ==> ws.Some? && ws.value.state == Open
      ensures c ==> connectedFlag && id.Some?
    {
      connectedFlag && ws.Some? && ws.value.state == Open
    }

    predicate IsOpen()
      reads this
    {
      ws.Some? && ws.value.state == Open
    }

    /** `new SocketAdapter(serverUrl, options)`: each option the caller
        leaves out takes its default (reconnection on, 5 attempts, a
        one-second base). */
    constructor (serverUrl: Url, reconnection: Option<bool>, attempts: Option<int>, delay: Option<nat>)
      ensures Valid() && fresh(listeners) && listeners.handlers == map[]
      ensures this.serverUrl == serverUrl
      ensures this.reconnection == reconnection.GetOr(true)
      ensures reconnectionAttempts == attempts.GetOr(5)
      ensures reconnectionDelay == delay.GetOr(RECONNECT_DELAY_BASE)
      ensures ws.None? && roomCode.None? && reconnectAttempts == 0 && !isConnecting && !isManualClose
      ensures id.None? && !connectedFlag && pending == [] && wire == [] && timers == [] && local == []
    {
      this.serverUrl := serverUrl;
      this.reconnection := reconnection.GetOr(true);
      reconnectionAttempts := attempts.GetOr(5);
      reconnectionDelay := delay.GetOr(RECONNECT_DELAY_BASE);
      listeners := new Registry();
      ws := None;
      created := 0;
      roomCode := None;
      reconnectAttempts := 0;
      isConnecting := false;
      isManualClose := false;
      id := None;
      connectedFlag := false;
      pending := [];
      wire := [];
      timers := [];
      local := [];
    }

    /** `_emit`: the local listeners registered for the event run. */
    method EmitLocal(event: string, data: Json)
      modifies this`local
      ensures local == old(local) + [LocalEvent(event, data, listeners.Handlers(event))]
    {
      local := local + [LocalEvent(event, data, listeners.Handlers(event))];
    }

    /** `_scheduleReconnect`: nothing without a truthy room code or once
        the attempts are used up; otherwise a timer with the capped
        backoff for the current attempt. */
    method ScheduleReconnect()
      requires Valid()
      modifies this`timers
      ensures Valid()
      ensures var arm := roomCode.Some? && Truthy(roomCode.value) && reconnectAttempts < reconnectionAttempts;
              timers == old(timers) + if arm then [Backoff(reconnectionDelay, reconnectAttempts)] else []
    {
      if roomCode.None? || !Truthy(roomCode.value) {
        return;
      }
      if reconnectAttempts >= reconnectionAttempts {
        return;
      }
      timers := timers + [Backoff(reconnectionDelay, reconnectAttempts)];
    }

    /** `_connect`: a no-op while a socket is open or a connect is under
        way; otherwise it records the code and opens a socket on the URL
        for it. `wsThrows` is the `WebSocket` constructor throwing, which
        reports `connect_error` and schedules a retry. */
    method Connect(code: Json, wsThrows: bool, errorMessage: string)
      requires Valid() && Truthy(code)
      modifies this`roomCode, this`isConnecting, this`isManualClose, this`ws, this`created, this`local, this`timers
      ensures Valid()
      ensures IsOpen() == old(IsOpen())
      ensures old(IsOpen()) || old(isConnecting) ==>
                roomCode == old(roomCode) && ws == old(ws) && isConnecting == old(isConnecting)
                && isManualClose == old(isManualClose) && created == old(created)
                && timers == old(timers) && local == old(local)
      ensures !old(IsOpen()) && !old(isConnecting) && !wsThrows ==>
                && roomCode == Some(code) && isConnecting && !isManualClose
                && ws == Some(Ws(BuildWsUrl(serverUrl, ParamText(code)), old(created), Connecting))
                && created == old(created) + 1 && timers == old(timers) && local == old(local)
      ensures !old(IsOpen()) && !old(isConnecting) && wsThrows ==>
                && roomCode == Some(code) && !isConnecting && !isManualClose && ws == old(ws) && created == old(created)
                && local == old(local) + [LocalEvent("connect_error", JObj(map["message" := JStr(errorMessage)]),
                                                     listeners.Handlers("connect_error"))]
                && timers == old(timers)
                   + if reconnectAttempts < reconnectionAttempts
                     then [Backoff(reconnectionDelay, reconnectAttempts)] else []
    {
      if ws.Some? && ws.value.state == Open {
        return;
      }
      if isConnecting {
        return;
      }
      StartConnect(code, wsThrows, errorMessage);
    }

    /** The part of `_connect` past its guards. */
    method StartConnect(code: Json, wsThrows: bool, errorMessage: string)
      requires Valid() && Truthy(code) && !IsOpen()
      modifies this`roomCode, this`isConnecting, this`isManualClose, this`ws, this`created, this`local, this`timers
      ensures Valid() && !IsOpen() && roomCode == Some(code) && !isManualClose
      ensures !wsThrows ==>
                && isConnecting && ws == Some(Ws(BuildWsUrl(serverUrl, ParamText(code)), old(created), Connecting))
                && created == old(created) + 1 && timers == old(timers) && local == old(local)
      ensures wsThrows ==>
                && !isConnecting && ws == old(ws) && created == old(created)
                && local == old(local) + [LocalEvent("connect_error", JObj(map["message" := JStr(errorMessage)]),
                                                     listeners.Handlers("connect_error"))]
                && timers == old(timers)
                   + if reconnectAttempts < reconnectionAttempts
                     then [Backoff(reconnectionDelay, reconnectAttempts)] else []
    {
      roomCode := Some(code);
      isConnecting := true;
      isManualClose := false;
      var url := BuildWsUrl(serverUrl, ParamText(code));
      if wsThrows {
        isConnecting := false;
        ConnectFailed(errorMessage);
        return;
      }
      ws := Some(Ws(url, created, Connecting));
      created := created + 1;
    }

    /** The `catch` of `_connect`: `connect_error` for the listeners and a
        retry. */
    method ConnectFailed(errorMessage: string)
      requires Valid() && roomCode.Some? && Truthy(roomCode.value)
      modifies this`local, this`timers
      ensures Valid()
      ensures local == old(local) + [LocalEvent("connect_error", JObj(map["message" := JStr(errorMessage)]),
                                                listeners.Handlers("connect_error"))]
      ensures timers == old(timers)
                + if reconnectAttempts < reconnectionAttempts
                  then [Backoff(reconnectionDelay, reconnectAttempts)] else []
    {
      EmitLocal("connect_error", JObj(map["message" := JStr(errorMessage)]));
      ScheduleReconnect();
    }

    /** `_send`: only an open socket sends. */
    method Send(event: string, data: Json)
      modifies this`wire
      ensures wire == old(wire) + if IsOpen() then [Message(event, data)] else []
    {
      if ws.Some? && ws.value.state == Open {
        wire := wire + [Message(event, data)];
      }
    }

    /** `emit`, as written. A connecting join opens the socket for its
        code and is queued, even when the socket is open already; any
        other emit is queued while the socket is not open and sent when
        it is. */
    method Emit(event: string, data: Json, wsThrows: bool, errorMessage: string)
      requires Valid()
      modifies this`roomCode, this`isConnecting, this`isManualClose, this`ws, this`created, this`local,
               this`timers, this`pending, this`wire
      ensures Valid()
      ensures IsOpen() == old(IsOpen())
      ensures IsConnectingJoin(event, data) ==>
                pending == old(pending) + [Message(event, data)] && wire == old(wire)
      ensures IsConnectingJoin(event, data) && (old(IsOpen()) || old(isConnecting)) ==>
                ws == old(ws) && roomCode == old(roomCode) && isConnecting == old(isConnecting)
                && isManualClose == old(isManualClose) && created == old(created)
                && timers == old(timers) && local == old(local)
      // A connecting join on a socket that is neither open nor opening
      // starts the connect for its code, as Connect states.
      ensures IsConnectingJoin(event, data) && !old(IsOpen()) && !old(isConnecting) ==>
                var code := Field(data, "code").value;
                && roomCode == Some(code) && !isManualClose
                && (!wsThrows ==>
                      && isConnecting && created == old(created) + 1
                      && ws == Some(Ws(BuildWsUrl(serverUrl, ParamText(code)), old(created), Connecting))
                      && timers == old(timers) && local == old(local))
                && (wsThrows ==>
                      && !isConnecting && ws == old(ws) && created == old(created)
                      && local == old(local) + [LocalEvent("connect_error", JObj(map["message" := JStr(errorMessage)]),
                                                           listeners.Handlers("connect_error"))]
                      && timers == old(timers)
                         + if old(reconnectAttempts) < reconnectionAttempts
                           then [Backoff(reconnectionDelay, old(reconnectAttempts))] else [])
      ensures reconnectAttempts == old(reconnectAttempts) && connectedFlag == old(connectedFlag) && id == old(id)
      ensures !IsConnectingJoin(event, data) ==>
                && ws == old(ws) && timers == old(timers) && local == old(local)
                && roomCode == old(roomCode) && isConnecting == old(isConnecting)
                && isManualClose == old(isManualClose) && created == old(created)
                && (old(IsOpen()) ==> wire == old(wire) + [Message(event, data)] && pending == old(pending))
                && (!old(IsOpen()) ==> pending == old(pending) + [Message(event, data)] && wire == old(wire))
    {
      if IsConnectingJoin(event, data) {
        Connect(Field(data, "code").value, wsThrows, errorMessage);
        pending := pending + [Message(event, data)];
        return;
      }
      if ws.None? || ws.value.state != Open {
        pending := pending + [Message(event, data)];
        return;
      }
      Send(event, data);
    }

    /** `emit` with its evident intent: a join on a socket that is open
        already is sent at once instead of waiting for an open event that
        will not come. */
    method EmitCorrected(event: string, data: Json, wsThrows: bool, errorMessage: string)
      requires Valid()
      modifies this`roomCode, this`isConnecting, this`isManualClose, this`ws, this`created, this`local,
               this`timers, this`pending, this`wire
      ensures Valid()
      ensures old(IsOpen()) ==> wire == old(wire) + [Message(event, data)] && pending == old(pending)
      ensures !old(IsOpen()) ==> pending == old(pending) + [Message(event, data)] && wire == old(wire)
    {
      if IsConnectingJoin(event, data) && !IsOpen() {
        Connect(Field(data, "code").value, wsThrows, errorMessage);
        pending := pending + [Message(event, data)];
        return;
      }
      if ws.None? || ws.value.state != Open {
        pending := pending + [Message(event, data)];
        return;
      }
      Send(event, data);
    }

    /** `to(target).emit(event, data)`: sent at once with `to` added,
        dropped when not open; never queued. */
    method EmitTo(target: string, event: string, data: Json)
      modifies this`wire
      ensures wire == old(wire) + if IsOpen() then [Message(event, SpreadWith(data, "to", target))] else []
    {
      Send(event, SpreadWith(data, "to", target));
    }

    /** The `while (this._pendingEmits.length > 0)` loop: the queue is
        emptied in FIFO order through `_send`, so it reaches the wire when
        the current socket is open and is lost when it is not. */
    method Flush()
      modifies this`pending, this`wire
      ensures pending == []
      ensures wire == old(wire) + if IsOpen() then old(pending) else []
    {
      while pending != []
        invariant IsOpen() ==> wire + pending == old(wire) + old(pending)
        invariant !IsOpen() ==> wire == old(wire)
        decreases |pending|
      {
        var m := pending[0];
        pending := pending[1..];
        Send(m.event, m.data);
      }
    }

    /** `ws.onopen` of the socket made as number `serial`: the connect is
        over, the attempts start again from zero, the id is new, listeners
        hear `connect`, then the queue is flushed. The handler does not
        look at which socket opened: the `onopen` of a socket that is no
        longer the current one does all of this too, and its flush goes
        through the current socket, which drops the queue unless that one
        is open. The model does not track the sockets it dropped, so which
        of them can still open is the caller's to say. Listeners' own
        emits are not modelled. */
    method OnOpen(serial: nat, newId: string)
      requires Valid() && serial < created
      requires ws.Some? && ws.value.serial == serial ==> ws.value.state == Connecting
      modifies this`ws, this`isConnecting, this`reconnectAttempts, this`connectedFlag, this`id
      modifies this`local, this`pending, this`wire
      ensures Valid() && connectedFlag
      ensures !isConnecting && reconnectAttempts == 0 && id == Some(newId)
      ensures old(ws).Some? && old(ws).value.serial == serial ==>
                ws == Some(old(ws).value.(state := Open)) && Connected()
      ensures old(ws).None? || old(ws).value.serial != serial ==>
                ws == old(ws) && Connected() == old(IsOpen())
      ensures pending == [] && wire == old(wire) + if IsOpen() then old(pending) else []
      ensures local == old(local) + [LocalEvent("connect", JNull, listeners.Handlers("connect"))]
    {
      MarkOpen(serial, newId);
      EmitLocal("connect", JNull);
      Flush();
    }

    /** The state changes of `ws.onopen`, before any listener runs: only
        the current socket, when it is the one that opened, becomes OPEN. */
    method MarkOpen(serial: nat, newId: string)
      requires Valid() && serial < created
      modifies this`ws, this`isConnecting, this`reconnectAttempts, this`connectedFlag, this`id
      ensures Valid() && connectedFlag
      ensures !isConnecting && reconnectAttempts == 0 && id == Some(newId)
      ensures old(ws).Some? && old(ws).value.serial == serial ==>
                ws == Some(old(ws).value.(state := Open)) && Connected()
      ensures old(ws).None? || old(ws).value.serial != serial ==> ws == old(ws)
    {
      if ws.Some? && ws.value.serial == serial {
        ws := Some(ws.value.(state := Open));
      }
      isConnecting := false;
      reconnectAttempts := 0;
      connectedFlag := true;
      id := Some(newId);
    }

    /** `ws.onclose` of the socket made as number `serial`: listeners hear
        `disconnect` (with the reason, or "Connection closed"), and unless
        the close was asked for a reconnect is scheduled. The handler does
        not look at which socket closed, so a late close of a socket that
        `disconnect` dropped acts on the flags all the same; only the
        current socket's state becomes CLOSED. */
    method OnClose(serial: nat, reason: Json)
      requires Valid() && serial < created
      modifies this`ws, this`isConnecting, this`connectedFlag, this`local, this`timers
      ensures Valid() && !Connected() && !isConnecting
      ensures old(ws).Some? && old(ws).value.serial == serial ==> ws == Some(old(ws).value.(state := Closed))
      ensures old(ws).None? || old(ws).value.serial != serial ==> ws == old(ws)
      ensures local == old(local)
                + [LocalEvent("disconnect", if Truthy(reason) then reason else JStr("Connection closed"),
                              listeners.Handlers("disconnect"))]
      ensures var arm := !isManualClose && reconnection && roomCode.Some? && Truthy(roomCode.value)
                         && reconnectAttempts < reconnectionAttempts;
              timers == old(timers) + if arm then [Backoff(reconnectionDelay, reconnectAttempts)] else []
    {
      if ws.Some? && ws.value.serial == serial {
        ws := Some(ws.value.(state := Closed));
      }
      isConnecting := false;
      connectedFlag := false;
      EmitLocal("disconnect", if Truthy(reason) then reason else JStr("Connection closed"));
      if !isManualClose && reconnection {
        ScheduleReconnect();
      }
    }

    /** `ws.onerror`. */
    method OnError()
      modifies this`local
      ensures local == old(local)
                + [LocalEvent("connect_error", JObj(map["message" := JStr("WebSocket error")]),
                              listeners.Handlers("connect_error"))]
    {
      EmitLocal("connect_error", JObj(map["message" := JStr("WebSocket error")]));
    }

    /** `ws.onmessage`: a frame that parses to `{ type, payload }` goes to
        the listeners of `type`; one that does not is dropped. */
    method OnMessage(frame: Option<Message>)
      modifies this`local
      ensures frame.None? ==> local == old(local)
      ensures frame.Some? ==>
                local == old(local) + [LocalEvent(frame.value.event, frame.value.data, listeners.Handlers(frame.value.event))]
    {
      if frame.Some? {
        EmitLocal(frame.value.event, frame.value.data);
      }
    }

    /** The oldest reconnect timer fires: one more attempt is counted and
        `_connect` runs with the recorded code. */
    method FireReconnect(wsThrows: bool, errorMessage: string)
      requires Valid() && timers != []
      modifies this`timers, this`reconnectAttempts, this`roomCode, this`isConnecting, this`isManualClose,
               this`ws, this`created, this`local
      ensures Valid()
      ensures reconnectAttempts == old(reconnectAttempts) + 1
      ensures pending == old(pending) && wire == old(wire)
      // An open socket or a connect under way: only the timer and the count change.
      ensures old(IsOpen()) || old(isConnecting) ==>
                && timers == old(timers)[1..] && ws == old(ws) && roomCode == old(roomCode)
                && isConnecting == old(isConnecting) && isManualClose == old(isManualClose)
                && created == old(created) && local == old(local)
      ensures !old(IsOpen()) && !old(isConnecting) && !wsThrows ==>
                && timers == old(timers)[1..] && roomCode == old(roomCode)
                && isConnecting && !isManualClose && created == old(created) + 1
                && ws == Some(Ws(BuildWsUrl(serverUrl, ParamText(old(roomCode).value)), old(created), Connecting))
                && local == old(local)
      // The `WebSocket` constructor throws: `connect_error`, and a retry
      // while attempts remain.
      ensures !old(IsOpen()) && !old(isConnecting) && wsThrows ==>
                && roomCode == old(roomCode) && !isConnecting && !isManualClose && ws == old(ws) && created == old(created)
                && local == old(local) + [LocalEvent("connect_error", JObj(map["message" := JStr(errorMessage)]),
                                                     listeners.Handlers("connect_error"))]
                && timers == old(timers)[1..]
                   + if reconnectAttempts < reconnectionAttempts
                     then [Backoff(reconnectionDelay, reconnectAttempts)] else []
    {
      timers := timers[1..];
      reconnectAttempts := reconnectAttempts + 1;
      Connect(roomCode.value, wsThrows, errorMessage);
    }

    /** `disconnect`, as written: no reconnect on the coming close, and
        the socket is dropped. A timer already set is not cleared. */
    method Disconnect()
      requires Valid()
      modifies this`isManualClose, this`connectedFlag, this`ws
      ensures Valid() && isManualClose && !Connected() && ws.None?
    {
      isManualClose := true;
      connectedFlag := false;
      ws := None;
    }

    /** `disconnect` with its evident intent: the timers set for a
        reconnect are cleared too. */
    method DisconnectCorrected()
      requires Valid()
      modifies this`isManualClose, this`connectedFlag, this`ws, this`timers
      ensures Valid() && isManualClose && !Connected() && ws.None? && timers == []
    {
      isManualClose := true;
      connectedFlag := false;
      ws := None;
      timers := [];
    }

    /** `on` and `off`, delegated to the registry. */
    method On(event: string, h: HandlerId)
      modifies listeners
      ensures listeners.Handlers(event) == old(listeners.Handlers(event)) + [h]
      ensures forall e :: e != event ==> listeners.Handlers(e) == old(listeners.Handlers(e))
    {
      listeners.On(event, h);
    }

    method Off(event: string, h: Option<HandlerId>)
      modifies listeners
      ensures h.None? ==> listeners.Handlers(event) == []
      ensures h.Some? ==> listeners.Handlers(event) == RemoveFirst(old(listeners.Handlers(event)), h.value)
      ensures forall e :: e != event ==> listeners.Handlers(e) == old(listeners.Handlers(e))
    {
      listeners.Off(event, h);
    }
  }

  /** The join that follows a refused one (another try after `room:error`)
      on the open socket of that first join waits in the queue and never
      reaches the wire: only an open event flushes, and an open socket
      gets none. */
  method RejoinWhileOpenIsStuck(a: SocketAdapter, data: Json)
    returns (stuck: Message)
    requires a.Valid() && a.Connected()
    requires IsConnectingJoin("room:join", data)
    modifies a
    ensures a.IsOpen() && a.ws == old(a.ws) && a.wire == old(a.wire)
    ensures a.pending == old(a.pending) + [stuck] && stuck == Message("room:join", data)
  {
    a.Emit("room:join", data, false, "");
    stuck := Message("room:join", data);
  }

  /** The corrected emit sends that join at once. */
  method RejoinWhileOpenIsSent(a: SocketAdapter, data: Json)
    requires a.Valid() && a.Connected()
    modifies a
    ensures a.wire == old(a.wire) + [Message("room:join", data)] && a.pending == old(a.pending)
  {
    a.EmitCorrected("room:join", data, false, "");
  }

  /** A reconnect already scheduled when the page calls `disconnect` still
      fires and opens a new socket, for which `isManualClose` is reset. */
  method DisconnectThenTimerReconnects(a: SocketAdapter)
    requires a.Valid() && a.timers != [] && !a.isConnecting
    modifies a
    ensures a.ws.Some? && a.ws.value.state == Connecting && !a.isManualClose
  {
    a.Disconnect();
    a.FireReconnect(false, "");
  }

  /** With the corrected `disconnect` nothing is left to fire, and the
      close that follows schedules nothing. */
  method CorrectedDisconnectStaysDown(a: SocketAdapter, reason: Json)
    requires a.Valid() && a.ws.Some?
    modifies a
    ensures a.timers == [] && a.ws.None? && a.isManualClose
  {
    var dropped := a.ws.value.serial;
    a.DisconnectCorrected();
    a.OnClose(dropped, reason);
  }

  /** A join right after `disconnect` opens a second socket; the first
      socket's close arrives later, clears `isConnecting` while the second
      is still connecting and, as `_connect` reset `isManualClose`, arms a
      reconnect whose timer opens a third socket beside the second. */
  method LateCloseOpensAnotherSocket(a: SocketAdapter, data: Json, reason: Json)
    requires a.Valid() && a.Connected() && !a.isConnecting
    requires IsConnectingJoin("room:join", data)
    requires a.reconnection && a.reconnectAttempts < a.reconnectionAttempts
    modifies a
    ensures a.Valid() && old(a.ws).Some? && a.ws.Some?
    ensures a.ws.value.serial == old(a.created) + 1 && a.ws.value.state == Connecting
    ensures a.created == old(a.created) + 2
    ensures a.pending == old(a.pending) + [Message("room:join", data)] && a.wire == old(a.wire)
  {
    var dropped := a.ws.value.serial;
    a.Disconnect();
    a.Emit("room:join", data, false, "");
    assert a.ws.Some? && a.ws.value.serial == old(a.created) && a.ws.value.state == Connecting;
    a.OnClose(dropped, reason);
    assert a.timers != [];
    a.FireReconnect(false, "");
  }

  /** Continuing that trace: the second socket, which nothing closed,
      opens while the third is still connecting. Its `onopen` raises the
      flag although the adapter is not connected, and flushes the queue
      through the third socket, which drops it; when the third socket
      opens there is nothing left to flush. The queued join never reaches
      the wire although the adapter ends up connected. */
  method LateOpenLosesJoin(a: SocketAdapter, data: Json, reason: Json, secondId: string, thirdId: string)
    returns (flagRaised: bool, connectedThen: bool)
    requires a.Valid() && a.Connected() && !a.isConnecting
    requires IsConnectingJoin("room:join", data)
    requires a.reconnection && a.reconnectAttempts < a.reconnectionAttempts
    modifies a
    ensures flagRaised && !connectedThen
    ensures a.Valid() && a.Connected() && a.id == Some(thirdId)
    ensures a.pending == [] && a.wire == old(a.wire)
  {
    var second := a.created;
    LateCloseOpensAnotherSocket(a, data, reason);
    a.OnOpen(second, secondId);
    flagRaised, connectedThen := a.connectedFlag, a.Connected();
    a.OnOpen(second + 1, thirdId);
  }
}
