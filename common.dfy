/** Values shared by every part of the model: an optional value, the decoded
    JSON payloads that travel in message envelopes, and the sequence helpers
    used to model a JavaScript `Map`, whose keys keep insertion order. */
module Common {

  datatype Option<+T> = None | Some(value: T) {
    function GetOr(default: T): T {
      match this
      case Some(v) => v
      case None => default
    }
  }

  /** A decoded JSON value. Numbers are modelled as integers: only their
      presence (`typeof x === 'number'`) and identity matter to the core. */
  datatype Json =
    | JNull
    | JBool(b: bool)
    | JNum(n: int)
    | JStr(s: string)
    | JArr(items: seq<Json>)
    | JObj(fields: map<string, Json>)

  /** A participant record `{ id, displayName }`, as both servers keep it
      and send it in `room:joined`. */
  datatype Participant = Participant(id: string, displayName: Json)

  /** The `participants` array of `room:joined`: one `{ id, displayName }`
      object per participant, in the given order. */
  function ParticipantsJson(ps: seq<Participant>): (r: Json)
    ensures r.JArr? && |r.items| == |ps|
    ensures forall i :: 0 <= i < |ps| ==>
              r.items[i] == JObj(map["id" := JStr(ps[i].id), "displayName" := ps[i].displayName])
  {
    JArr(seq(|ps|, i requires 0 <= i < |ps| =>
      JObj(map["id" := JStr(ps[i].id), "displayName" := ps[i].displayName])))
  }

  /** JavaScript truthiness of a JSON value (`null`, `false`, `0` and `""`
      are falsy). */
  predicate Truthy(v: Json) {
    match v
    case JNull => false
    case JBool(b) => b
    case JNum(n) => n != 0
    case JStr(s) => s != ""
    case _ => true
  }

  /** `v?.key`: the member of an object, `None` standing for `undefined`. */
  function Field(v: Json, key: string): (r: Option<Json>)
    ensures r.Some? <==> v.JObj? && key in v.fields
    ensures r.Some? ==> r.value == v.fields[key]
  {
    if v.JObj? && key in v.fields then Some(v.fields[key]) else None
  }

  /** The own members that `{...v}` copies out of a value: an object's
      members, nothing for `null` and for the other primitives. */
  function Spread(v: Json): map<string, Json> {
    if v.JObj? then v.fields else map[]
  }

  /** An undefined member read as a value (`undefined` is approximated by
      `null`). */
  function OrNull(o: Option<Json>): Json {
    o.GetOr(JNull)
  }

  /** `typeof v?.key === 'number'`. */
  predicate IsNumberField(v: Json, key: string) {
    Field(v, key).Some? && Field(v, key).value.JNum?
  }

  predicate Distinct<T(==)>(s: seq<T>) {
    forall i, j :: 0 <= i < j < |s| ==> s[i] != s[j]
  }

  function Elements<T>(s: seq<T>): set<T> {
    set x | x in s
  }

  /** `s` with every occurrence of `x` removed, the others keeping their
      order: what `Map.delete` does to the key order. */
  function Without<T(==)>(s: seq<T>, x: T): (r: seq<T>)
    ensures Elements(r) == Elements(s) - {x}
    ensures Distinct(s) ==> Distinct(r)
    ensures x !in s ==> r == s
    ensures |r| <= |s|
  {
    if s == [] then []
    else
      assert Elements(s) == {s[0]} + Elements(s[1..]);
      assert Distinct(s) ==> Distinct(s[1..]) && s[0] !in s[1..];
      var rest := Without(s[1..], x);
      if s[0] == x then rest
      else
        assert Elements([s[0]] + rest) == {s[0]} + Elements(rest);
        DistinctCons(s[0], rest);
        [s[0]] + rest
  }

  lemma DistinctCons<T>(x: T, t: seq<T>)
    ensures x !in t && Distinct(t) ==> Distinct([x] + t)
  {
    if x !in t && Distinct(t) {
      forall i, j | 0 <= i < j < |[x] + t| ensures ([x] + t)[i] != ([x] + t)[j] {
        if i > 0 {
          assert ([x] + t)[i] == t[i - 1] && ([x] + t)[j] == t[j - 1];
        } else {
          assert ([x] + t)[j] == t[j - 1];
        }
      }
    }
  }

  lemma DistinctSnoc<T>(s: seq<T>, x: T)
    ensures x !in s && Distinct(s) ==> Distinct(s + [x])
  {
    if x !in s && Distinct(s) {
      forall i, j | 0 <= i < j < |s + [x]| ensures (s + [x])[i] != (s + [x])[j] {
        assert (s + [x])[i] == s[i];
      }
    }
  }

  /** Removing a key that occurs once shortens the order by exactly one. */
  lemma {:induction false} WithoutLength<T>(s: seq<T>, x: T)
    requires Distinct(s) && x in s
    ensures |Without(s, x)| == |s| - 1
  {
    if s[0] != x {
      assert x in s[1..];
      WithoutLength(s[1..], x);
    } else {
      assert x !in s[1..];
    }
  }

  /** `Map.set`: a new key goes to the end, an existing key keeps its place. */
  function Append<T(==)>(s: seq<T>, x: T): (r: seq<T>)
    ensures Distinct(s) ==> Distinct(r)
    ensures Elements(r) == Elements(s) + {x}
  {
    if x in s then s else s + [x]
  }

  /** A sequence without repetitions has as many elements as its set. */
  lemma {:induction false} DistinctCard<T>(s: seq<T>)
    requires Distinct(s)
    ensures |Elements(s)| == |s|
  {
    if s != [] {
      DistinctCard(s[1..]);
      assert Elements(s) == Elements(s[1..]) + {s[0]};
      assert s[0] !in Elements(s[1..]);
    }
  }

  /** The concatenation of a sequence of byte chunks (`new Blob(chunks)`). */
  function Concat<T>(chunks: seq<seq<T>>): seq<T> {
    if chunks == [] then [] else chunks[0] + Concat(chunks[1..])
  }

  lemma {:induction false} ConcatAppend<T>(chunks: seq<seq<T>>, c: seq<T>)
    ensures Concat(chunks + [c]) == Concat(chunks) + c
  {
    if chunks == [] {
      assert chunks + [c] == [c];
    } else {
      assert (chunks + [c])[1..] == chunks[1..] + [c];
      ConcatAppend(chunks[1..], c);
    }
  }

  /** `{ ...payload, [key]: value }`, as `{ ...data, from: socket.id }`
      and `{ ...data, to: target }` write it: the named member overrides
      any member of that name in the payload. */
  function SpreadWith(payload: Json, key: string, value: string): (r: Json)
    ensures r.JObj? && key in r.fields && r.fields[key] == JStr(value)
    ensures r.fields.Keys == Spread(payload).Keys + {key}
    ensures forall k :: k in Spread(payload) && k != key ==> r.fields[k] == Spread(payload)[k]
  {
    JObj(Spread(payload)[key := JStr(value)])
  }

  /** The `session:start` payload both servers send:
      `{ startTime: Date.now() + 1000, layout }`. */
  function StartPayload(now: int, layout: Json): (r: Json)
    ensures r.JObj? && "startTime" in r.fields && "layout" in r.fields
    ensures r.fields["startTime"] == JNum(now + 1000) && r.fields["layout"] == layout
  {
    JObj(map["startTime" := JNum(now + 1000), "layout" := layout])
  }

  /** `{ from: id, ...payload }`: a `from` in the payload wins. */
  function DefaultSender(payload: Json, from: string): (r: Json)
    ensures r.JObj? && r.fields.Keys == Spread(payload).Keys + {"from"}
    ensures r.fields["from"] == if "from" in Spread(payload) then Spread(payload)["from"] else JStr(from)
    ensures forall k :: k in Spread(payload) ==> r.fields[k] == Spread(payload)[k]
  {
    JObj(map["from" := JStr(from)] + Spread(payload))
  }
}
