/** What the two browser WebSocket adapters share: the socket URL they
    build from the server URL and the room code, the reconnect backoff, and
    the WebSocket object's ready states. */
module WsCommon {
  import opened Common
  import opened JsString
  import WorkerRouter

  /** The parts of a `URL` the adapters touch; `query` is the list of
      search parameters in order. */
  datatype Url = Url(protocol: string, host: string, path: string, query: seq<(string, string)>)

  /** `searchParams.get(key)`: the first value, `None` standing for `null`. */
  function GetParam(q: seq<(string, string)>, key: string): Option<string> {
    if q == [] then None
    else if q[0].0 == key then Some(q[0].1)
    else GetParam(q[1..], key)
  }

  /** Every pair under `key` removed. */
  function DropParam(q: seq<(string, string)>, key: string): (r: seq<(string, string)>)
    ensures GetParam(r, key).None?
    ensures forall k :: k != key ==> GetParam(r, k) == GetParam(q, k)
  {
    if q == [] then []
    else if q[0].0 == key then DropParam(q[1..], key)
    else [q[0]] + DropParam(q[1..], key)
  }

  /** `searchParams.set(key, value)`: the first pair under `key` takes
      the value and the others go; with none, the pair is appended. */
  function SetParam(q: seq<(string, string)>, key: string, value: string): (r: seq<(string, string)>)
    ensures GetParam(r, key) == Some(value)
    ensures forall k :: k != key ==> GetParam(r, k) == GetParam(q, k)
  {
    if q == [] then [(key, value)]
    else if q[0].0 == key then [(key, value)] + DropParam(q[1..], key)
    else [q[0]] + SetParam(q[1..], key, value)
  }

  /** `_buildWsUrl` / `buildWsUrl`: `https:` becomes `wss:`, any other
      protocol `ws:`; the path becomes `/ws` and `room` the code; host and
      the other parameters stay. */
  function BuildWsUrl(base: Url, roomCode: string): (r: Url)
    ensures r.protocol == (if base.protocol == "https:" then "wss:" else "ws:")
    ensures r.host == base.host && r.path == "/ws"
    ensures GetParam(r.query, "room") == Some(roomCode)
    ensures forall k :: k != "room" ==> GetParam(r.query, k) == GetParam(base.query, k)
  {
    Url(if base.protocol == "https:" then "wss:" else "ws:", base.host, "/ws", SetParam(base.query, "room", roomCode))
  }

  /** The client and the worker agree: the URL built for a valid room code
      is handed, on its upgrade request, to the room object named by the
      upper-cased code; an invalid code is refused with 400. */
  lemma BuiltUrlReachesRoom(base: Url, roomCode: string, httpMethod: string, timestamp: string)
    requires httpMethod != "OPTIONS"
    ensures var u := BuildWsUrl(base, roomCode);
            var r := WorkerRouter.Route(WorkerRouter.Request(httpMethod, u.path, GetParam(u.query, "room")), timestamp);
            && (IsRoomCode(roomCode) ==> r == WorkerRouter.ToRoom(ToUpper(roomCode)))
            && (!IsRoomCode(roomCode) ==> r.Reply? && r.status == 400)
  {
  }

  const RECONNECT_MAX_DELAY: nat := 30000
  const RECONNECT_DELAY_BASE: nat := 1000

  function Pow2(n: nat): (r: nat)
    ensures r >= 1
  {
    if n == 0 then 1 else 2 * Pow2(n - 1)
  }

  /** `base * Math.pow(2, n)`, doubling `n` times. */
  function Scaled(base: nat, n: nat): nat {
    if n == 0 then base else 2 * Scaled(base, n - 1)
  }

  lemma {:induction false} ScaledIsProduct(base: nat, n: nat)
    ensures Scaled(base, n) == base * Pow2(n)
  {
    if n > 0 {
      ScaledIsProduct(base, n - 1);
      calc {
        Scaled(base, n);
        2 * (base * Pow2(n - 1));
        { MulAssoc(2, base, Pow2(n - 1)); }
        base * (2 * Pow2(n - 1));
      }
    }
  }

  lemma MulAssoc(a: nat, b: nat, c: nat)
    ensures a * (b * c) == b * (a * c)
  {
  }

  /** `Math.min(reconnectionDelay * Math.pow(2, attempts), 30000)`. */
  function Backoff(base: nat, attempts: nat): (d: nat)
    ensures d <= RECONNECT_MAX_DELAY && d <= Scaled(base, attempts)
  {
    if Scaled(base, attempts) < RECONNECT_MAX_DELAY then Scaled(base, attempts) else RECONNECT_MAX_DELAY
  }

  /** The wait is the doubled base, capped at thirty seconds. */
  lemma BackoffBounds(base: nat, attempts: nat)
    ensures Backoff(base, attempts) <= RECONNECT_MAX_DELAY
    ensures Backoff(base, attempts) <= base * Pow2(attempts)
    ensures Backoff(base, attempts) == RECONNECT_MAX_DELAY || Backoff(base, attempts) == base * Pow2(attempts)
  {
    ScaledIsProduct(base, attempts);
  }

  lemma {:induction false} Pow2Monotone(a: nat, b: nat)
    requires a <= b
    ensures Pow2(a) <= Pow2(b)
    decreases b
  {
    if a < b {
      Pow2Monotone(a, b - 1);
    }
  }

  /** Each further attempt waits at least as long as the one before. */
  lemma BackoffMonotone(base: nat, a: nat, b: nat)
    requires a <= b
    ensures Backoff(base, a) <= Backoff(base, b)
  {
    Pow2Monotone(a, b);
    ScaledIsProduct(base, a);
    ScaledIsProduct(base, b);
    assert base * Pow2(a) <= base * Pow2(b) by {
      MulMonotone(base, Pow2(a), Pow2(b));
    }
  }

  lemma MulMonotone(k: nat, x: nat, y: nat)
    requires x <= y
    ensures k * x <= k * y
  {
  }

  /** With the default one-second base the waits are 1, 2, 4, 8 and 16
      seconds, and 30 seconds from the sixth attempt on. */
  lemma DefaultSchedule(attempts: nat)
    ensures attempts <= 4 ==> Backoff(RECONNECT_DELAY_BASE, attempts) == 1000 * Pow2(attempts)
    ensures attempts >= 5 ==> Backoff(RECONNECT_DELAY_BASE, attempts) == RECONNECT_MAX_DELAY
  {
    ScaledIsProduct(RECONNECT_DELAY_BASE, attempts);
    if attempts <= 4 {
      Pow2Monotone(attempts, 4);
      assert Pow2(4) == 16;
    } else {
      Pow2Monotone(5, attempts);
      assert Pow2(5) == 32;
      MulMonotone(1000, 32, Pow2(attempts));
    }
  }

  /** `WebSocket.readyState`. */
  datatype ReadyState = Connecting | Open | Closing | Closed

  /** A `WebSocket` the adapter created: its URL, which creation it was,
      and its state. */
  datatype Ws = Ws(url: Url, serial: nat, state: ReadyState)

  /** A frame on the wire, `JSON.stringify({ type, payload })`. */
  datatype Message = Message(event: string, data: Json)
}
