/** The Socket.IO server's registration table: which controller handler
    each event is wired to, and under which name a relay goes out. */
module SocketRoutes {
  import opened Common
  import opened ServerConstants

  datatype Route =
    | ToJoin
    | ToDisconnect
    | ToSessionStart
    | ToSessionLayout
    | ToSessionReset
    /** `handleWebRTC(socket, tag, data)`. */
    | ToWebRtc(tag: string)
    | ToPhotoSend
    /** `handleGenericRelay(socket, relayAs, data)`. */
    | ToGenericRelay(relayAs: Event)
    | ToLocation
    /** No per-socket handler is registered. */
    | Unregistered

  /** The `socket.on(...)` registrations. */
  function RouteOf(e: Event): Route {
    match e
    case RoomJoin => ToJoin
    case Disconnect => ToDisconnect
    case SessionStart => ToSessionStart
    case SessionLayout => ToSessionLayout
    case SessionReset => ToSessionReset
    case WebrtcOffer => ToWebRtc("offer")
    case WebrtcAnswer => ToWebRtc("answer")
    case WebrtcCandidate => ToWebRtc("candidate")
    case PhotoSend => ToPhotoSend
    case PhotoMeta => ToGenericRelay(PhotoMeta)
    case PhotoTransferComplete => ToGenericRelay(PhotoTransferred)
    case LocationUpdate => ToLocation
    case _ => Unregistered
  }

  /** The event name `handleWebRTC` relays under: `webrtc:${type}`. */
  function SignalName(tag: string): string {
    "webrtc:" + tag
  }

  /** Each signalling event is relayed under its own inbound name. */
  lemma SignalsKeepTheirNames(e: Event)
    ensures RouteOf(e).ToWebRtc? ==> SignalName(RouteOf(e).tag) == Name(e)
    ensures RouteOf(e).ToWebRtc? <==> e in {WebrtcOffer, WebrtcAnswer, WebrtcCandidate}
  {
  }

  /** `photo:meta` is relayed under its own name and
      `photo:transfer-complete` as `photo:transferred`; every inbound event
      other than the connection event has a handler. */
  lemma RelayNames(e: Event)
    ensures RouteOf(e).ToGenericRelay? ==>
              (e == PhotoMeta && RouteOf(e).relayAs == PhotoMeta)
              || (e == PhotoTransferComplete && RouteOf(e).relayAs == PhotoTransferred)
    ensures RouteOf(e) == Unregistered <==>
              e in {Connection, RoomJoined, RoomReady, RoomError, PhotoReceive, PhotoTransferred}
  {
  }
}
