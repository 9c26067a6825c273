/** The room hook of the browser: it validates a join before sending it,
    follows the participant list the room sends and tells the capture flow
    to pause or resume, makes up room codes from UUIDs and adopts a code
    from the page URL. The socket is the adapter (its emits are recorded),
    the alert dialog, the clipboard and the browser history are foreign
    and recorded as effects. */
module RoomHook {
  import opened Common
  import opened JsString
  import opened WsCommon
  import WorkerRouter

  // ---------------------------------------------------------------------
  // The join guards

  datatype JoinCheck = NameMissing | CodeMissing | Proceed

  /** The two guards of `joinRoom`, in order: a name that is empty after
      trimming, then an empty room code. */
  function CheckJoin(displayName: string, roomCode: string): (r: JoinCheck)
    ensures r == Proceed ==> displayName != "" && roomCode != ""
  {
    if displayName == "" || Trim(displayName) == "" then NameMissing
    else if roomCode == "" then CodeMissing
    else Proceed
  }

  /** The name is missing exactly when it is nothing but white space; the
      code is missing when the name is there and the code is empty; a join
      goes ahead otherwise. */
  lemma CheckJoinMeaning(displayName: string, roomCode: string)
    ensures CheckJoin(displayName, roomCode) == NameMissing <==> AllSpace(displayName)
    ensures CheckJoin(displayName, roomCode) == CodeMissing <==> !AllSpace(displayName) && roomCode == ""
    ensures CheckJoin(displayName, roomCode) == Proceed <==> !AllSpace(displayName) && roomCode != ""
  {
    TrimEmptyIffBlank(displayName);
  }

  // ---------------------------------------------------------------------
  // The `room:joined` reaction

  /** `joined?.length` as the `<` and `>=` of the handler read it: the
      length of an array or a string, an object's `length` member when it
      is a number, `null` or a boolean (converted to 0, or 0 and 1), and
      `undefined` otherwise. */
  function LengthOf(joined: Option<Json>): (r: Option<int>)
    ensures joined.Some? && joined.value.JArr? ==> r == Some(|joined.value.items|)
    ensures joined.None? ==> r.None?
    ensures r.Some? ==> joined.Some? && (joined.value.JArr? || joined.value.JStr? || joined.value.JObj?)
  {
    if joined.None? then None
    else match joined.value
      case JArr(items) => Some(|items|)
      case JStr(s) => Some(|s|)
      case JObj(fields) =>
        if "length" !in fields then None
        else (match fields["length"]
          case JNum(n) => Some(n)
          case JNull => Some(0)
          case JBool(b) => Some(if b then 1 else 0)
          case _ => None)
      case _ => None
  }

  predicate IsCaptureStep(step: string) {
    step == "countdown" || step == "processing"
  }

  datatype Reaction = Pause | Resume | NoReaction

  /** Which callback the `room:joined` handler calls: pause when fewer
      than two are left during capture, otherwise resume when two or more
      are there; a callback that is not a function is skipped, and an
      undefined length compares false both ways. */
  function JoinedReaction(joined: Option<Json>, step: string, hasPause: bool, hasResume: bool): (r: Reaction)
    ensures r == Pause <==> hasPause && LengthOf(joined).Some? && LengthOf(joined).value < 2 && IsCaptureStep(step)
    ensures r == Resume <==>
              !(hasPause && LengthOf(joined).Some? && LengthOf(joined).value < 2 && IsCaptureStep(step))
              && hasResume && LengthOf(joined).Some? && LengthOf(joined).value >= 2
  {
    var n := LengthOf(joined);
    if hasPause && n.Some? && n.value < 2 && IsCaptureStep(step) then Pause
    else if hasResume && n.Some? && n.value >= 2 then Resume
    else NoReaction
  }

  /** With both callbacks given and a list of participants: two or more
      resume, fewer pause during capture and do nothing at any other
      step. */
  lemma JoinedReactionOnList(items: seq<Json>, step: string)
    ensures |items| >= 2 ==> JoinedReaction(Some(JArr(items)), step, true, true) == Resume
    ensures |items| < 2 && IsCaptureStep(step) ==> JoinedReaction(Some(JArr(items)), step, true, true) == Pause
    ensures |items| < 2 && !IsCaptureStep(step) ==> JoinedReaction(Some(JArr(items)), step, true, true) == NoReaction
    ensures JoinedReaction(None, step, true, true) == NoReaction
  {
  }

  /** `joined || []`. */
  function ParticipantsAfter(joined: Option<Json>): (r: Json)
    ensures joined.Some? && Truthy(joined.value) ==> r == joined.value
    ensures (joined.None? || !Truthy(joined.value)) ==> r == JArr([])
  {
    if joined.Some? && Truthy(joined.value) then joined.value else JArr([])
  }

  // ---------------------------------------------------------------------
  // Room codes

  /** `uuid.split('-')[0].toUpperCase()`. */
  function GeneratedCode(uuid: string): (r: string)
    ensures '-' !in r
    ensures ToUpper(r) == r
  {
    var c := ToUpper(FirstSegment(uuid, '-'));
    ToUpperIdempotent(FirstSegment(uuid, '-'));
    assert forall i :: 0 <= i < |c| ==> c[i] == UpperChar(FirstSegment(uuid, '-')[i]);
    c
  }

  predicate IsHexDigit(c: char) {
    ('0' <= c <= '9') || ('a' <= c <= 'f') || ('A' <= c <= 'F')
  }

  /** The shape of `crypto.randomUUID()`: eight hex digits, then a dash. */
  predicate UuidShaped(uuid: string) {
    |uuid| >= 9 && uuid[8] == '-' && forall i :: 0 <= i < 8 ==> IsHexDigit(uuid[i])
  }

  /** A code made from a UUID is its first eight hex digits, upper-cased;
      the worker accepts it and routes it to the room of exactly that
      code. */
  lemma GeneratedCodeAccepted(uuid: string, httpMethod: string, timestamp: string)
    requires UuidShaped(uuid) && httpMethod != "OPTIONS"
    ensures GeneratedCode(uuid) == ToUpper(uuid[..8])
    ensures IsRoomCode(GeneratedCode(uuid)) && |GeneratedCode(uuid)| == 8
    ensures WorkerRouter.Route(WorkerRouter.Request(httpMethod, "/ws", Some(GeneratedCode(uuid))), timestamp)
            == WorkerRouter.ToRoom(GeneratedCode(uuid))
  {
    assert uuid == uuid[..8] + ['-'] + uuid[9..];
    FirstSegmentPrefix(uuid[..8], '-', uuid[9..]);
    assert IsRoomCode(uuid[..8]);
    ToUpperKeepsRoomCode(uuid[..8]);
    BuiltUrlReachesRoom(Url("https:", "", "/", []), GeneratedCode(uuid), httpMethod, timestamp);
  }

  /** A `?code=` parameter as the hook adopts it: upper-cased when it is
      present and not empty. Only the ASCII letters are upper-cased. */
  function AdoptedCode(query: seq<(string, string)>, current: string): (r: string)
    ensures GetParam(query, "code").Some? && GetParam(query, "code").value != "" ==>
              r == ToUpper(GetParam(query, "code").value)
    ensures GetParam(query, "code").None? || GetParam(query, "code").value == "" ==> r == current
  {
    var p := GetParam(query, "code");
    if p.Some? && p.value != "" then ToUpper(p.value) else current
  }

  /** A code adopted from the URL and then typed in again in another case
      is the same code. */
  lemma AdoptedCodeCaseInsensitive(a: string, b: string, current: string)
    requires a != "" && ToUpper(a) == ToUpper(b)
    ensures AdoptedCode([("code", a)], current) == AdoptedCode([("code", b)], current)
  {
    assert |b| == |a|;
  }

  // ---------------------------------------------------------------------
  // The hook

  /** The `room:join` message for a code and a name. */
  function JoinMessage(code: string, displayName: string): Message {
    Message("room:join", JObj(map["code" := JStr(code), "displayName" := JStr(displayName)]))
  }

  /** A call of one of the callbacks the hook was given. */
  datatype Callback = PauseCall | ResumeCall | LocationCall(payload: Json)

  /** The alert dialogs the hook raises: "Please enter your name!" and the
      room-full warning. */
  datatype Alert = NameAlert | RoomFullAlert

  class RoomHookState {
    /** `window.location.origin` and `pathname`. */
    const origin: string
    const pathname: string
    /** Whether the callbacks given are functions. */
    const hasPause: bool
    const hasResume: bool
    const hasLocation: bool

    var participants: Json
    var selfId: string
    var status: string
    var roomCode: string
    var displayName: string
    /** The flow's current step, which the hook reads through `stepRef`
        and sets with `setStep`. */
    var step: string
    /** What the hook emitted on the socket, in order. */
    var sent: seq<Message>
    /** The URLs pushed on the browser history. */
    var history: seq<string>
    /** The alert dialogs shown. */
    var alerts: seq<Alert>
    var calls: seq<Callback>

    /** The hook mounted: the socket is made, the status says so in
        socket-only mode, and a `?code=` in the URL is adopted. */
    constructor (origin: string, pathname: string, socketOnly: bool, step: string, query: seq<(string, string)>,
                 hasPause: bool, hasResume: bool, hasLocation: bool)
      ensures this.origin == origin && this.pathname == pathname && this.step == step
      ensures this.hasPause == hasPause && this.hasResume == hasResume && this.hasLocation == hasLocation
      ensures participants == JArr([]) && selfId == "" && displayName == ""
      ensures status == (if socketOnly then "Socket-only ready" else "Disconnected")
      ensures roomCode == AdoptedCode(query, "")
      ensures sent == [] && history == [] && alerts == [] && calls == []
    {
      this.origin := origin;
      this.pathname := pathname;
      this.hasPause := hasPause;
      this.hasResume := hasResume;
      this.hasLocation := hasLocation;
      this.step := step;
      participants := JArr([]);
      selfId := "";
      status := if socketOnly then "Socket-only ready" else "Disconnected";
      roomCode := AdoptedCode(query, "");
      displayName := "";
      sent := [];
      history := [];
      alerts := [];
      calls := [];
    }

    /** The page URL carrying a room code. */
    function CodeUrl(code: string): string
      reads this
    {
      origin + pathname + "?code=" + code
    }

    /** `joinRoom`: a blank name raises the alert, an empty code does
        nothing; otherwise the URL gets the code, one `room:join` with the
        code and the name goes out, and the flow moves to the room. */
    method JoinRoom() returns (ok: bool)
      modifies this`sent, this`history, this`alerts, this`step
      ensures ok <==> CheckJoin(displayName, roomCode) == Proceed
      ensures match CheckJoin(displayName, roomCode)
              case NameMissing => alerts == old(alerts) + [NameAlert] && unchanged(this`sent, this`history, this`step)
              case CodeMissing => unchanged(this`alerts, this`sent, this`history, this`step)
              case Proceed =>
                && sent == old(sent) + [JoinMessage(roomCode, displayName)]
                && history == old(history) + [CodeUrl(roomCode)]
                && step == "room" && unchanged(this`alerts)
    {
      var check := CheckJoin(displayName, roomCode);
      if check == NameMissing {
        alerts := alerts + [NameAlert];
        ok := false;
      } else if check == CodeMissing {
        ok := false;
      } else {
        SendJoin();
        ok := true;
      }
    }

    /** The part of `joinRoom` past its guards. */
    method SendJoin()
      modifies this`sent, this`history, this`step
      ensures sent == old(sent) + [JoinMessage(roomCode, displayName)]
      ensures history == old(history) + [CodeUrl(roomCode)] && step == "room"
    {
      history := history + [CodeUrl(roomCode)];
      sent := sent + [JoinMessage(roomCode, displayName)];
      step := "room";
    }

    /** `leaveRoom`: `room:leave` without a payload (`null` here), and the
        URL loses its code. The socket is always there once mounted. */
    method LeaveRoom()
      modifies this`sent, this`history
      ensures sent == old(sent) + [Message("room:leave", JNull)]
      ensures history == old(history) + [origin + pathname]
    {
      sent := sent + [Message("room:leave", JNull)];
      history := history + [origin + pathname];
    }

    /** `emitLayout`: the layout as the payload. */
    method EmitLayout(layout: Json)
      modifies this`sent
      ensures sent == old(sent) + [Message("session:layout", layout)]
    {
      sent := sent + [Message("session:layout", layout)];
    }

    /** `emitSessionStart`: the layout wrapped as `{ layout }`. */
    method EmitSessionStart(layout: Json)
      modifies this`sent
      ensures sent == old(sent) + [Message("session:start", JObj(map["layout" := layout]))]
    {
      sent := sent + [Message("session:start", JObj(map["layout" := layout]))];
    }

    /** `generateRoomCode`: the code becomes the UUID's first segment,
        upper-cased (copying it to the clipboard is left out). */
    method GenerateRoomCode(uuid: string)
      modifies this`roomCode
      ensures roomCode == GeneratedCode(uuid)
    {
      roomCode := ToUpper(FirstSegment(uuid, '-'));
    }

    /** `connect`: the status, and the socket's id as this user's id. */
    method OnConnect(id: Option<string>)
      modifies this`status, this`selfId
      ensures status == "Connected" && selfId == id.GetOr("")
    {
      status := "Connected";
      selfId := id.GetOr("");
    }

    method OnConnectError(message: string)
      modifies this`status
      ensures status == "Connection Error: " + message
    {
      status := "Connection Error: " + message;
    }

    /** `room:error`: the room-full alert, the status, and back to the join
        step. */
    method OnRoomError(message: string)
      modifies this`alerts, this`status, this`step
      ensures alerts == old(alerts) + [RoomFullAlert]
      ensures status == "Room Error: " + message && step == "join"
    {
      alerts := alerts + [RoomFullAlert];
      status := "Room Error: " + message;
      step := "join";
    }

    method OnDisconnect(reason: string)
      modifies this`status
      ensures status == "Disconnected: " + reason
    {
      status := "Disconnected: " + reason;
    }

    /** `room:joined`: the list is replaced by the one received (or `[]`),
        then pause or resume is called as `JoinedReaction` decides. A
        `null` payload cannot be destructured: the handler throws before
        doing anything. */
    method OnRoomJoined(payload: Json)
      modifies this`participants, this`calls
      ensures payload == JNull ==> participants == old(participants) && calls == old(calls)
      ensures payload != JNull ==>
                var joined := Field(payload, "participants");
                && participants == ParticipantsAfter(joined)
                && calls == old(calls) + match JoinedReaction(joined, step, hasPause, hasResume)
                                         case Pause => [PauseCall]
                                         case Resume => [ResumeCall]
                                         case NoReaction => []
    {
      if payload == JNull {
        return;
      }
      var joined := Field(payload, "participants");
      participants := ParticipantsAfter(joined);
      var n := LengthOf(joined);
      if hasPause && n.Some? && n.value < 2 && (step == "countdown" || step == "processing") {
        calls := calls + [PauseCall];
      } else if hasResume && n.Some? && n.value >= 2 {
        calls := calls + [ResumeCall];
      }
    }

    /** `location:update`: handed to the callback when there is one. */
    method OnLocationUpdate(payload: Json)
      modifies this`calls
      ensures calls == old(calls) + if hasLocation then [LocationCall(payload)] else []
    {
      if hasLocation {
        calls := calls + [LocationCall(payload)];
      }
    }
  }

  /** The partner leaving during the countdown pauses it, and their
      coming back resumes it. */
  method LeaveAndReturnDuringCountdown(h: RoomHookState, me: Json, partner: Json)
    requires h.hasPause && h.hasResume && h.step == "countdown"
    modifies h
    ensures h.calls == old(h.calls) + [PauseCall, ResumeCall]
    ensures h.participants == JArr([me, partner])
  {
    h.OnRoomJoined(JObj(map["participants" := JArr([me])]));
    h.OnRoomJoined(JObj(map["participants" := JArr([me, partner])]));
  }

  /** A non-empty link code is adopted upper-cased, whatever the current
      code, and with a name that is not blank the join goes ahead. */
  lemma LinkCodeAdopted(code: string, name: string, current: string)
    requires code != "" && !AllSpace(name)
    ensures AdoptedCode([("code", code)], current) == ToUpper(code)
    ensures CheckJoin(name, ToUpper(code)) == Proceed
  {
    assert GetParam([("code", code)], "code") == Some(code);
    assert |ToUpper(code)| == |code|;
    CheckJoinMeaning(name, ToUpper(code));
  }

  /** A code taken from an invitation link joins the room of the
      upper-cased code. */
  method JoinFromLink(h: RoomHookState, code: string, name: string)
    requires code != "" && !AllSpace(name)
    modifies h
    ensures h.sent == old(h.sent) + [JoinMessage(ToUpper(code), name)]
    ensures h.step == "room"
  {
    LinkCodeAdopted(code, name, h.roomCode);
    h.roomCode := AdoptedCode([("code", code)], h.roomCode);
    h.displayName := name;
    var ok := h.JoinRoom();
  }
}
