/** The worker's entry point: answers CORS preflights, validates the room
    code of a `/ws` upgrade and forwards it to the room object named by the
    upper-cased code, and serves the health and info endpoints. */
module WorkerRouter {
  import opened Common
  import opened JsString

  /** The parts of a request the router looks at: the method, the URL's
      path and its `room` query parameter (`None` when absent). */
  datatype Request = Request(httpMethod: string, path: string, room: Option<string>)

  datatype Response =
    | Reply(status: nat, headers: seq<(string, string)>, body: Option<Json>)
    /** Handed to the room object `idFromName(name)`. */
    | ToRoom(name: string)

  const CorsHeaders: seq<(string, string)> := [
    ("Access-Control-Allow-Origin", "*"),
    ("Access-Control-Allow-Methods", "GET, POST, OPTIONS"),
    ("Access-Control-Allow-Headers", "Content-Type, Upgrade, Connection"),
    ("Access-Control-Max-Age", "86400")
  ]
  const JsonOnly: seq<(string, string)> := [("Content-Type", "application/json")]
  const JsonAnyOrigin: seq<(string, string)> :=
    [("Content-Type", "application/json"), ("Access-Control-Allow-Origin", "*")]

  function ErrorBody(message: string): Option<Json> {
    Some(JObj(map["error" := JStr(message)]))
  }

  /** The `/health` body; `timestamp` is `new Date().toISOString()`. */
  function HealthBody(timestamp: string): Json {
    JObj(map["status" := JStr("ok"), "service" := JStr("ldr-photobooth"), "timestamp" := JStr(timestamp)])
  }

  const InfoBody: Json := JObj(map[
    "name" := JStr("LDR Photobooth Signaling Server"),
    "version" := JStr("1.0.0"),
    "endpoints" := JObj(map["websocket" := JStr("/ws?room=ROOMCODE"), "health" := JStr("/health")]),
    "usage" := JStr("Connect via WebSocket to /ws?room=YOUR_ROOM_CODE")
  ])

  /** The guarded returns of the worker's `fetch`, in their order. */
  function Route(req: Request, timestamp: string): (r: Response)
    ensures req.httpMethod == "OPTIONS" ==> r == Reply(200, CorsHeaders, None)
    ensures r.ToRoom? <==>
              req.httpMethod != "OPTIONS" && req.path == "/ws" && req.room.Some? && IsRoomCode(req.room.value)
    ensures r.ToRoom? ==> r.name == ToUpper(req.room.value) && IsRoomCode(r.name) && ToUpper(r.name) == r.name
    ensures req.httpMethod != "OPTIONS" && req.path == "/ws" && (req.room.None? || req.room.value == "") ==>
              r == Reply(400, JsonOnly, ErrorBody("Missing room parameter"))
    ensures req.httpMethod != "OPTIONS" && req.path == "/ws" && req.room.Some? && req.room.value != ""
            && !IsRoomCode(req.room.value) ==>
              r == Reply(400, JsonOnly, ErrorBody("Invalid room code"))
    ensures r.Reply? && r.status == 404 <==>
              req.httpMethod != "OPTIONS" && req.path !in {"/ws", "/health", "/", "/api"}
    ensures r.Reply? && r.status == 200 <==>
              req.httpMethod == "OPTIONS" || req.path in {"/health", "/", "/api"}
  {
    if req.httpMethod == "OPTIONS" then
      Reply(200, CorsHeaders, None)
    else if req.path == "/ws" then
      if req.room.None? || req.room.value == "" then
        Reply(400, JsonOnly, ErrorBody("Missing room parameter"))
      else if !IsRoomCode(req.room.value) then
        Reply(400, JsonOnly, ErrorBody("Invalid room code"))
      else
        ToUpperKeepsRoomCode(req.room.value);
        ToUpperIdempotent(req.room.value);
        ToRoom(ToUpper(req.room.value))
    else if req.path == "/health" then
      Reply(200, JsonAnyOrigin, Some(HealthBody(timestamp)))
    else if req.path == "/" || req.path == "/api" then
      Reply(200, JsonAnyOrigin, Some(InfoBody))
    else
      Reply(404, JsonAnyOrigin, ErrorBody("Not Found"))
  }

  /** Room codes that differ only in ASCII case are routed identically, so
      they reach the same room object. */
  lemma CaseInsensitiveRooms(req: Request, a: string, b: string, timestamp: string)
    requires ToUpper(a) == ToUpper(b)
    ensures Route(req.(room := Some(a)), timestamp) == Route(req.(room := Some(b)), timestamp)
  {
    CaseEquivalentRoomCode(a, b);
    assert |a| == |b|;
  }
}
