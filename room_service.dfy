/** The Socket.IO server's room rules: a room is created by its first
    join, holds at most two participants with distinct ids, disappears with
    its last participant, and a session starts only from `IDLE`. */
module Service {
  import opened Common
  import opened ServerConstants
  import opened Store

  datatype JoinResult = JoinOk(room: Room) | JoinErr(error: string)

  datatype LeaveResult = Deleted | Remaining(room: Room)

  datatype StartResult = Started | AlreadyActive(error: string)

  const FullMessage: string := "Room is full (max 2 participants)"
  const ActiveMessage: string := "Session already active"

  /** `participants.find(p => p.id === id)` found something. */
  predicate HasMember(ps: seq<Member>, id: string) {
    exists i :: 0 <= i < |ps| && ps[i].id == id
  }

  predicate DistinctIds(ps: seq<Member>) {
    forall i, j :: 0 <= i < j < |ps| ==> ps[i].id != ps[j].id
  }

  /** `participants.filter(p => p.id !== id)`. */
  function RemoveMember(ps: seq<Member>, id: string): (r: seq<Member>)
    ensures |r| <= |ps|
    ensures forall m :: m in r <==> m in ps && m.id != id
    ensures !HasMember(ps, id) ==> r == ps
  {
    if ps == [] then []
    else if ps[0].id == id then RemoveMember(ps[1..], id)
    else
      assert !HasMember(ps, id) ==> !HasMember(ps[1..], id) by {
        if HasMember(ps[1..], id) {
          var i :| 0 <= i < |ps[1..]| && ps[1..][i].id == id;
          assert ps[i + 1].id == id;
        }
      }
      [ps[0]] + RemoveMember(ps[1..], id)
  }

  /** The tail of a list with distinct ids has distinct ids, none of them
      the head's. */
  lemma DistinctTail(ps: seq<Member>)
    requires DistinctIds(ps) && ps != []
    ensures DistinctIds(ps[1..])
    ensures forall x :: x in ps[1..] ==> x.id != ps[0].id
  {
    forall x | x in ps[1..] ensures x.id != ps[0].id {
      var k :| 0 <= k < |ps[1..]| && ps[1..][k] == x;
      assert ps[k + 1] == x;
    }
    forall a, b | 0 <= a < b < |ps[1..]| ensures ps[1..][a].id != ps[1..][b].id {
      assert ps[1..][a] == ps[a + 1] && ps[1..][b] == ps[b + 1];
    }
  }

  /** Putting a member whose id is new in front keeps the ids distinct. */
  lemma DistinctCons(m: Member, r: seq<Member>)
    requires DistinctIds(r) && forall x :: x in r ==> x.id != m.id
    ensures DistinctIds([m] + r)
  {
    forall i, j | 0 <= i < j < |[m] + r| ensures ([m] + r)[i].id != ([m] + r)[j].id {
      assert ([m] + r)[j] == r[j - 1];
      if i > 0 {
        assert ([m] + r)[i] == r[i - 1];
      } else {
        assert r[j - 1] in r;
      }
    }
  }

  /** With distinct ids, leaving removes exactly the one matching entry
      and keeps the others in their order. */
  lemma {:induction false} RemoveMemberAt(ps: seq<Member>, i: nat)
    requires DistinctIds(ps) && i < |ps|
    ensures RemoveMember(ps, ps[i].id) == ps[..i] + ps[i + 1..]
  {
    DistinctTail(ps);
    if i == 0 {
      RemoveHead(ps);
    } else {
      var id, t := ps[i].id, ps[1..];
      assert t[i - 1] == ps[i];
      assert ps[i] in t;
      assert RemoveMember(ps, id) == [ps[0]] + RemoveMember(t, id);
      RemoveMemberAt(t, i - 1);
      SpliceCons(ps, i);
    }
  }

  /** Leaving removes the head, whose id the tail does not repeat. */
  lemma RemoveHead(ps: seq<Member>)
    requires ps != [] && forall x :: x in ps[1..] ==> x.id != ps[0].id
    ensures RemoveMember(ps, ps[0].id) == ps[..0] + ps[1..]
  {
    var id, t := ps[0].id, ps[1..];
    forall k | 0 <= k < |t| ensures t[k].id != id {
      assert t[k] in t;
    }
    assert ps[..0] + ps[1..] == t;
  }

  lemma SpliceCons(ps: seq<Member>, i: nat)
    requires 0 < i < |ps|
    ensures [ps[0]] + (ps[1..][..i - 1] + ps[1..][i..]) == ps[..i] + ps[i + 1..]
  {
    assert ps[1..][..i - 1] == ps[1..i] && ps[1..][i..] == ps[i + 1..];
    assert ps[..i] == [ps[0]] + ps[1..i];
  }



  /** A stored room: filed under its own code, one or two participants,
      no id twice. */
  ghost predicate RoomOk(code: string, room: Room) {
    room.code == code && 1 <= |room.participants| <= MAX_PARTICIPANTS && DistinctIds(room.participants)
  }

  lemma DistinctIdsSnoc(ps: seq<Member>, m: Member)
    requires DistinctIds(ps) && !HasMember(ps, m.id)
    ensures DistinctIds(ps + [m])
  {
    forall i, j | 0 <= i < j < |ps + [m]| ensures (ps + [m])[i].id != (ps + [m])[j].id {
      if j == |ps| {
        assert (ps + [m])[i] == ps[i];
      } else {
        assert (ps + [m])[i] == ps[i] && (ps + [m])[j] == ps[j];
      }
    }
  }

  lemma {:induction false} RemoveKeepsDistinct(ps: seq<Member>, id: string)
    requires DistinctIds(ps)
    ensures DistinctIds(RemoveMember(ps, id))
    decreases |ps|
  {
    if ps != [] {
      DistinctTail(ps);
      RemoveKeepsDistinct(ps[1..], id);
      if ps[0].id != id {
        DistinctCons(ps[0], RemoveMember(ps[1..], id));
      }
    }
  }


  class RoomService {
    /** The singleton `RoomStore` the service writes. */
    const store: RoomStore

    ghost predicate Valid()
      reads this, store
    {
      forall c :: c in store.rooms ==> RoomOk(c, store.rooms[c])
    }

    constructor ()
      ensures Valid() && fresh(store) && store.rooms == map[]
    {
      store := new RoomStore();
    }

    /** `joinRoom`: an unknown code creates an idle room without a layout;
        a participant whose id is present already succeeds with no change
        (even in a full room); a third distinct participant is refused;
        anyone else is appended. */
    method JoinRoom(code: string, p: Member) returns (r: JoinResult)
      requires Valid()
      modifies store
      ensures Valid()
      ensures code !in old(store.rooms) ==>
                r == JoinOk(Room(code, [p], Idle, JNull))
                && store.rooms == old(store.rooms)[code := r.room]
      ensures code in old(store.rooms) && HasMember(old(store.rooms)[code].participants, p.id) ==>
                r == JoinOk(old(store.rooms)[code]) && store.rooms == old(store.rooms)
      ensures code in old(store.rooms) && !HasMember(old(store.rooms)[code].participants, p.id)
              && |old(store.rooms)[code].participants| >= MAX_PARTICIPANTS ==>
                r == JoinErr(FullMessage) && store.rooms == old(store.rooms)
      ensures code in old(store.rooms) && !HasMember(old(store.rooms)[code].participants, p.id)
              && |old(store.rooms)[code].participants| < MAX_PARTICIPANTS ==>
                var room := old(store.rooms)[code];
                r == JoinOk(room.(participants := room.participants + [p]))
                && store.rooms == old(store.rooms)[code := r.room]
      ensures r.JoinOk? ==> code in store.rooms && store.rooms[code] == r.room && HasMember(r.room.participants, p.id)
    {
      var found := store.GetRoom(code);
      var room: Room;
      if found.None? {
        room := Room(code, [], Idle, JNull);
        var _ := store.SaveRoom(code, room);
      } else {
        room := found.value;
      }
      if HasMember(room.participants, p.id) {
        return JoinOk(room);
      }
      if |room.participants| >= MAX_PARTICIPANTS {
        return JoinErr(FullMessage);
      }
      DistinctIdsSnoc(room.participants, p);
      room := room.(participants := room.participants + [p]);
      assert room.participants[|room.participants| - 1] == p;
      var _ := store.SaveRoom(code, room);
      r := JoinOk(room);
    }

    /** `leaveRoom`: `None` (`null`) for an unknown code; otherwise the id
        is filtered out, and a room left empty is deleted. State and layout
        are never touched. */
    method LeaveRoom(code: string, socketId: string) returns (r: Option<LeaveResult>)
      requires Valid()
      modifies store
      ensures Valid()
      ensures code !in old(store.rooms) ==> r.None? && store.rooms == old(store.rooms)
      ensures code in old(store.rooms) ==>
                var room := old(store.rooms)[code];
                var rest := RemoveMember(room.participants, socketId);
                && (rest == [] ==> r == Some(Deleted) && store.rooms == old(store.rooms) - {code})
                && (rest != [] ==> r == Some(Remaining(room.(participants := rest)))
                                   && store.rooms == old(store.rooms)[code := room.(participants := rest)])
    {
      var found := store.GetRoom(code);
      if found.None? {
        return None;
      }
      var room := found.value;
      RemoveKeepsDistinct(room.participants, socketId);
      room := room.(participants := RemoveMember(room.participants, socketId));
      if |room.participants| == 0 {
        var _ := store.DeleteRoom(code);
        return Some(Deleted);
      }
      var _ := store.SaveRoom(code, room);
      r := Some(Remaining(room));
    }

    /** `startSession`: `None` (`null`) for an unknown room; otherwise it
        starts only from `IDLE`. The layout argument is not stored. */
    method StartSession(code: string, layout: Json) returns (r: Option<StartResult>)
      requires Valid()
      modifies store
      ensures Valid()
      ensures code !in old(store.rooms) ==> r.None? && store.rooms == old(store.rooms)
      ensures code in old(store.rooms) && old(store.rooms)[code].state != Idle ==>
                r == Some(AlreadyActive(ActiveMessage)) && store.rooms == old(store.rooms)
      ensures code in old(store.rooms) && old(store.rooms)[code].state == Idle ==>
                r == Some(Started)
                && store.rooms == old(store.rooms)[code := old(store.rooms)[code].(state := Session)]
    {
      var found := store.GetRoom(code);
      if found.None? {
        return None;
      }
      var room := found.value;
      if room.state != Idle {
        return Some(AlreadyActive(ActiveMessage));
      }
      room := room.(state := Session);
      var _ := store.SaveRoom(code, room);
      r := Some(Started);
    }

    /** `updateLayout`: only an existing idle room takes the layout. */
    method UpdateLayout(code: string, layout: Json) returns (ok: bool)
      requires Valid()
      modifies store
      ensures Valid()
      ensures ok <==> code in old(store.rooms) && old(store.rooms)[code].state == Idle
      ensures ok ==> store.rooms == old(store.rooms)[code := old(store.rooms)[code].(layout := layout)]
      ensures !ok ==> store.rooms == old(store.rooms)
    {
      var found := store.GetRoom(code);
      if found.None? || found.value.state != Idle {
        return false;
      }
      var _ := store.SaveRoom(code, found.value.(layout := layout));
      ok := true;
    }

    /** `resetSession`: an existing room goes back to idle without a
        layout; `false` for an unknown room. */
    method ResetSession(code: string) returns (ok: bool)
      requires Valid()
      modifies store
      ensures Valid()
      ensures ok <==> code in old(store.rooms)
      ensures ok ==> store.rooms == old(store.rooms)[code := old(store.rooms)[code].(state := Idle, layout := JNull)]
      ensures !ok ==> store.rooms == old(store.rooms)
    {
      var found := store.GetRoom(code);
      if found.None? {
        return false;
      }
      var _ := store.SaveRoom(code, found.value.(state := Idle, layout := JNull));
      ok := true;
    }
  }

  /** The join scenario of the service's tests: a fresh code, then a second
      participant, then a third who is refused while the room keeps two. */
  method ThirdIsRefused(code: string, a: Member, b: Member, c: Member)
    returns (r1: JoinResult, r2: JoinResult, r3: JoinResult, s: RoomService)
    requires a.id != b.id && c.id != a.id && c.id != b.id
    ensures r1.JoinOk? && r2.JoinOk? && r3 == JoinErr(FullMessage)
    ensures s.Valid() && code in s.store.rooms && s.store.rooms[code].participants == [a, b]
  {
    s := new RoomService();
    r1 := s.JoinRoom(code, a);
    r2 := s.JoinRoom(code, b);
    assert !HasMember([a], b.id);
    assert !HasMember([a, b], c.id);
    r3 := s.JoinRoom(code, c);
  }

  /** Starting twice: the second call is refused. */
  method StartTwiceRefused(code: string, a: Member, l: Json)
    returns (r1: Option<StartResult>, r2: Option<StartResult>, s: RoomService)
    ensures r1 == Some(Started) && r2 == Some(AlreadyActive(ActiveMessage))
  {
    s := new RoomService();
    var _ := s.JoinRoom(code, a);
    r1 := s.StartSession(code, l);
    r2 := s.StartSession(code, l);
  }

  /** The last participant's leave deletes the room. */
  method LastLeaveDeletes(code: string, a: Member)
    returns (r: Option<LeaveResult>, s: RoomService)
    ensures r == Some(Deleted) && s.store.GetRoom(code).None?
  {
    s := new RoomService();
    var _ := s.JoinRoom(code, a);
    assert HasMember([a], a.id);
    r := s.LeaveRoom(code, a.id);
  }
}
