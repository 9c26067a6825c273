/** The listener registry both browser socket adapters keep: a `Map` from
    event name to an array of handlers. Handlers are foreign functions; the
    model knows them by identity only. */
module Listeners {
  import opened Common

  /** A handler function, by identity (`indexOf` compares with `===`). */
  datatype HandlerId = HandlerId(n: nat)

  /** One call of `_emit`: the event, its data and the handlers it ran. */
  datatype LocalEvent = LocalEvent(event: string, data: Json, handlers: seq<HandlerId>)

  /** `handlers.indexOf(h)`, `None` standing for `-1`. */
  function IndexOf(s: seq<HandlerId>, h: HandlerId): (r: Option<nat>)
    ensures r.None? <==> h !in s
    ensures r.Some? ==> r.value < |s| && s[r.value] == h && h !in s[..r.value]
  {
    if s == [] then None
    else if s[0] == h then Some(0)
    else
      var t := IndexOf(s[1..], h);
      if t.None? then None
      else
        assert s[..t.value + 1] == [s[0]] + s[1..][..t.value];
        Some(t.value + 1)
  }

  /** `off(event, h)` on one array: `splice(indexOf(h), 1)` when found. */
  function RemoveFirst(s: seq<HandlerId>, h: HandlerId): (r: seq<HandlerId>)
    ensures h !in s ==> r == s
    ensures h in s ==> |r| == |s| - 1
    ensures h in s ==> r == s[..IndexOf(s, h).value] + s[IndexOf(s, h).value + 1..]
  {
    match IndexOf(s, h)
    case None => s
    case Some(i) => s[..i] + s[i + 1..]
  }

  /** Only one copy goes: a handler registered twice is still there once. */
  lemma RemoveFirstMultiset(s: seq<HandlerId>, h: HandlerId)
    requires h in s
    ensures multiset(RemoveFirst(s, h)) == multiset(s) - multiset{h}
  {
    var i := IndexOf(s, h).value;
    assert s == s[..i] + [s[i]] + s[i + 1..];
    assert multiset(s) == multiset(s[..i]) + multiset{h} + multiset(s[i + 1..]);
  }

  /** `on` then `off` of a handler that was not registered restores the
      array exactly. */
  lemma OnThenOff(s: seq<HandlerId>, h: HandlerId)
    requires h !in s
    ensures RemoveFirst(s + [h], h) == s
  {
    var t := s + [h];
    var i := IndexOf(t, h).value;
    assert forall j :: 0 <= j < |s| ==> t[j] == s[j];
    assert i == |s|;
    assert t[..|s|] == s;
  }

  /** When the handler was registered already, the new copy stays and the
      first goes: the array is rotated, not restored. */
  lemma OnThenOffRegistered(s: seq<HandlerId>, h: HandlerId)
    requires h in s
    ensures RemoveFirst(s + [h], h) == RemoveFirst(s, h) + [h]
  {
    var i := IndexOf(s, h).value;
    assert IndexOf(s + [h], h) == Some(i) by {
      assert (s + [h])[..i] == s[..i];
      assert (s + [h])[i] == h;
    }
    assert (s + [h])[..i] == s[..i];
    assert (s + [h])[i + 1..] == s[i + 1..] + [h];
  }

  class Registry {
    /** The `listeners` Map. */
    var handlers: map<string, seq<HandlerId>>

    constructor ()
      ensures handlers == map[]
    {
      handlers := map[];
    }

    /** `this.listeners.get(event) || []`. */
    function Handlers(event: string): (r: seq<HandlerId>)
      reads this
      ensures event in handlers ==> r == handlers[event]
      ensures event !in handlers ==> r == []
    {
      if event in handlers then handlers[event] else []
    }

    /** `on`: the handler goes last, creating the array if needed. */
    method On(event: string, h: HandlerId)
      modifies this
      ensures handlers == old(handlers)[event := old(Handlers(event)) + [h]]
      ensures Handlers(event) == old(Handlers(event)) + [h]
      ensures forall e :: e != event ==> Handlers(e) == old(Handlers(e))
    {
      if event !in handlers {
        handlers := handlers[event := []];
      }
      handlers := handlers[event := handlers[event] + [h]];
    }

    /** `off`: without a handler the whole entry goes; with one, the first
        occurrence of it goes, and an unknown event or handler changes
        nothing. */
    method Off(event: string, h: Option<HandlerId>)
      modifies this
      ensures h.None? ==> handlers == old(handlers) - {event} && Handlers(event) == []
      ensures h.Some? && event in old(handlers) ==>
                handlers == old(handlers)[event := RemoveFirst(old(handlers)[event], h.value)]
      ensures h.Some? && event !in old(handlers) ==> handlers == old(handlers)
      ensures h.Some? ==> Handlers(event) == RemoveFirst(old(Handlers(event)), h.value)
      ensures forall e :: e != event ==> Handlers(e) == old(Handlers(e))
    {
      if h.None? {
        handlers := handlers - {event};
      } else if event in handlers {
        var list := handlers[event];
        var idx := IndexOf(list, h.value);
        if idx.Some? {
          handlers := handlers[event := list[..idx.value] + list[idx.value + 1..]];
        }
      }
    }

    /** `_emit`: every handler registered for the event, in registration
        order, is called with the data; a handler in `throwing` throws,
        the error is caught and the loop goes on. `called` lists the calls
        made, `failed` those that threw. */
    method Dispatch(event: string, throwing: set<HandlerId>) returns (called: seq<HandlerId>, failed: seq<HandlerId>)
      ensures called == Handlers(event)
      ensures |failed| <= |called|
      ensures forall h :: h in failed <==> h in called && h in throwing
    {
      var list := Handlers(event);
      called := [];
      failed := [];
      for i := 0 to |list|
        invariant called == list[..i]
        invariant |failed| <= i
        invariant forall h :: h in failed <==> h in called && h in throwing
      {
        called := called + [list[i]];
        if list[i] in throwing {
          failed := failed + [list[i]];
        }
      }
      assert list[..|list|] == list;
    }
  }
}
