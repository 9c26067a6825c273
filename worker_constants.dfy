/** The worker's shared vocabulary: the room capacity, the two room states
    and the event names that travel in the `type` field of every envelope. */
module WorkerConstants {
  import opened Common

  /** A room holds at most two named participants. */
  const MAX_PARTICIPANTS: nat := 2

  /** `ROOM_STATES`: exactly two states. */
  datatype RoomState = Idle | Session

  function StateName(s: RoomState): string {
    match s
    case Idle => "IDLE"
    case Session => "SESSION"
  }

  /** `EVENTS`, one constructor per entry. */
  datatype Event =
    | RoomJoin | RoomJoined | RoomReady | RoomError | RoomLeave
    | SessionStart | SessionLayout | SessionReset
    | WebrtcOffer | WebrtcAnswer | WebrtcCandidate
    | PhotoSend | PhotoReceive | PhotoMeta | PhotoTransferComplete | PhotoTransferred
    | LocationUpdate

  /** The string each event is sent under. */
  function Name(e: Event): string {
    match e
    case RoomJoin => "room:join"
    case RoomJoined => "room:joined"
    case RoomReady => "room:ready"
    case RoomError => "room:error"
    case RoomLeave => "room:leave"
    case SessionStart => "session:start"
    case SessionLayout => "session:layout"
    case SessionReset => "session:reset"
    case WebrtcOffer => "webrtc:offer"
    case WebrtcAnswer => "webrtc:answer"
    case WebrtcCandidate => "webrtc:candidate"
    case PhotoSend => "photo:send"
    case PhotoReceive => "photo:receive"
    case PhotoMeta => "photo:meta"
    case PhotoTransferComplete => "photo:transfer-complete"
    case PhotoTransferred => "photo:transferred"
    case LocationUpdate => "location:update"
  }

  /** The event a `type` string names, if any: the `switch (type)` of the
      message dispatcher compares against the entries in this order. */
  function Lookup(s: string): (r: Option<Event>)
    ensures r.Some? ==> Name(r.value) == s
    ensures r.None? ==> forall e: Event :: Name(e) != s
  {
    if s == "room:join" then Some(RoomJoin)
    else if s == "room:joined" then Some(RoomJoined)
    else if s == "room:ready" then Some(RoomReady)
    else if s == "room:error" then Some(RoomError)
    else if s == "room:leave" then Some(RoomLeave)
    else if s == "session:start" then Some(SessionStart)
    else if s == "session:layout" then Some(SessionLayout)
    else if s == "session:reset" then Some(SessionReset)
    else if s == "webrtc:offer" then Some(WebrtcOffer)
    else if s == "webrtc:answer" then Some(WebrtcAnswer)
    else if s == "webrtc:candidate" then Some(WebrtcCandidate)
    else if s == "photo:send" then Some(PhotoSend)
    else if s == "photo:receive" then Some(PhotoReceive)
    else if s == "photo:meta" then Some(PhotoMeta)
    else if s == "photo:transfer-complete" then Some(PhotoTransferComplete)
    else if s == "photo:transferred" then Some(PhotoTransferred)
    else if s == "location:update" then Some(LocationUpdate)
    else None
  }

  /** Every event name is recognised as that very event. */
  lemma LookupName(e: Event)
    ensures Lookup(Name(e)) == Some(e)
  {
  }

  /** The event names are pairwise distinct, so a `switch` over them is
      unambiguous. */
  lemma NamesDistinct(a: Event, b: Event)
    ensures Name(a) == Name(b) ==> a == b
  {
    LookupName(a);
    LookupName(b);
  }

  /** The inbound `photo:transfer-complete` is relayed under a different
      outbound name. */
  lemma TransferNamesDiffer()
    ensures Name(PhotoTransferComplete) != Name(PhotoTransferred)
    ensures Name(RoomLeave) == "room:leave"
  {
  }
}
