/** The worker's room state machine: who is in the room (in join order),
    whether a capture session runs, and the chosen layout. */
module Engine {
  import opened Common
  import opened WorkerConstants

  datatype Snapshot = Snapshot(participants: seq<Participant>, state: RoomState, layout: Json)

  class RoomEngine {
    /** The keys of the `participants` Map in insertion order. */
    var order: seq<string>
    /** The `participants` Map: id to display name. */
    var participants: map<string, Json>
    var state: RoomState
    /** The layout; `null` when none is chosen. */
    var layout: Json

    ghost predicate Valid()
      reads this
    {
      Distinct(order) && Elements(order) == participants.Keys
    }

    /** An empty, idle room without a layout. */
    constructor ()
      ensures Valid()
      ensures order == [] && participants == map[] && state == Idle && layout == JNull
    {
      order := [];
      participants := map[];
      state := Idle;
      layout := JNull;
    }

    /** `join` sets (or overwrites) the participant and always succeeds; a
        re-join keeps the participant's place in the order. */
    method Join(id: string, displayName: Json) returns (ok: bool)
      requires Valid()
      modifies this
      ensures Valid() && ok
      ensures participants == old(participants)[id := displayName]
      ensures order == Append(old(order), id)
      ensures id in old(participants) ==> order == old(order)
      ensures |participants| == old(|participants|) + if id in old(participants) then 0 else 1
      ensures state == old(state) && layout == old(layout)
    {
      order := Append(order, id);
      participants := participants[id := displayName];
      ok := true;
    }

    /** `leave` removes `id` (if present) and, once fewer than two remain,
        drops back to an idle room without a layout. */
    method Leave(id: string)
      requires Valid()
      modifies this
      ensures Valid()
      ensures participants == old(participants) - {id}
      ensures order == Without(old(order), id)
      ensures |participants| < 2 ==> state == Idle && layout == JNull
      ensures |participants| >= 2 ==> state == old(state) && layout == old(layout)
    {
      order := Without(order, id);
      participants := participants - {id};
      if |participants| < 2 {
        state := Idle;
        layout := JNull;
      }
    }

    /** `hasParticipant`: whether `id` has joined and not left. */
    predicate HasParticipant(id: string)
      reads this
      requires Valid()
    {
      id in participants
    }

    /** `getParticipantCount`: the size of the Map. */
    function ParticipantCount(): (n: nat)
      reads this
      requires Valid()
      ensures n == |order|
    {
      DistinctCard(order);
      |participants|
    }

    /** `startSession` succeeds exactly when the room is idle; then it is in
        session with the given layout. A refusal changes nothing. */
    method StartSession(newLayout: Json) returns (ok: bool)
      requires Valid()
      modifies this
      ensures Valid()
      ensures ok <==> old(state) == Idle
      ensures ok ==> state == Session && layout == newLayout
      ensures !ok ==> state == old(state) && layout == old(layout)
      ensures order == old(order) && participants == old(participants)
    {
      if state != Idle {
        return false;
      }
      state := Session;
      layout := newLayout;
      ok := true;
    }

    /** `updateLayout` changes only the layout, and only while idle. */
    method UpdateLayout(newLayout: Json) returns (ok: bool)
      requires Valid()
      modifies this
      ensures Valid()
      ensures ok <==> old(state) == Idle
      ensures layout == if ok then newLayout else old(layout)
      ensures state == old(state)
      ensures order == old(order) && participants == old(participants)
    {
      if state != Idle {
        return false;
      }
      layout := newLayout;
      ok := true;
    }

    /** `resetSession` always succeeds: idle, no layout, same participants. */
    method ResetSession() returns (ok: bool)
      requires Valid()
      modifies this
      ensures Valid() && ok
      ensures state == Idle && layout == JNull
      ensures order == old(order) && participants == old(participants)
    {
      state := Idle;
      layout := JNull;
      ok := true;
    }

    /** `getState`: the participants in join order with their names, the
        state and the layout. */
    function GetState(): (r: Snapshot)
      reads this
      requires Valid()
      ensures |r.participants| == ParticipantCount()
      ensures forall i :: 0 <= i < |r.participants| ==>
                r.participants[i].id == order[i]
                && r.participants[i].displayName == participants[order[i]]
      ensures forall id :: id in participants <==>
                exists i :: 0 <= i < |r.participants| && r.participants[i].id == id
      ensures r.state == state && r.layout == layout
    {
      var ps := seq(|order|, i requires 0 <= i < |order| reads this requires Valid() =>
                      Participant(order[i], participants[order[i]]));
      assert forall id :: id in participants ==> exists i :: 0 <= i < |order| && order[i] == id by {
        forall id | id in participants ensures exists i :: 0 <= i < |order| && order[i] == id {
          assert id in Elements(order);
        }
      }
      Snapshot(ps, state, layout)
    }
  }

  /** Two `startSession` calls in a row from a fresh room: the first
      succeeds, the second is refused and keeps the first layout. */
  method StartTwice(a: Json, b: Json) returns (first: bool, second: bool, e: RoomEngine)
    ensures first && !second
    ensures e.state == Session && e.layout == a
  {
    e := new RoomEngine();
    first := e.StartSession(a);
    second := e.StartSession(b);
  }

  /** A room with zero or one participant can still enter a session:
      `startSession` looks only at the state. */
  method StartAlone(l: Json) returns (ok: bool, e: RoomEngine)
    ensures e.Valid() && ok && e.ParticipantCount() <= 1
  {
    e := new RoomEngine();
    ok := e.StartSession(l);
  }

  /** A re-join with the same id does not change the count. */
  method RejoinKeepsCount(id: string, n1: Json, n2: Json) returns (c1: nat, c2: nat, e: RoomEngine)
    ensures c1 == c2 == 1
    ensures e.Valid() && id in e.participants && e.participants[id] == n2
  {
    e := new RoomEngine();
    var _ := e.Join(id, n1);
    c1 := e.ParticipantCount();
    var _ := e.Join(id, n2);
    c2 := e.ParticipantCount();
  }
}
