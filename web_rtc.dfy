/** The browser side of the peer link: the photo framing over the data
    channel (`meta`, binary chunks, `done`) and its reassembly, and the
    decisions of the perfect-negotiation handshake. The RTCPeerConnection
    itself is foreign: a connection is a value naming its remote peer, and
    what the code reads from it (`signalingState`, `readyState`) arrives as
    a parameter. */
module WebRtc {
  import opened Common
  import opened JsString

  newtype byte = x: int | 0 <= x < 256

  /** A `Blob`: its bytes and its MIME type. */
  datatype Blob = Blob(bytes: seq<byte>, mime: string)

  /** The fields of the `meta` message. */
  datatype MetaInfo = MetaInfo(id: string, size: nat, mime: string, index: Json)

  /** A data-channel message as the receiver sees it after `JSON.parse`:
      `meta`, `done`, a string of another `type`, or a binary chunk. */
  datatype DcMessage =
    | MetaMsg(info: MetaInfo)
    | DoneMsg(id: string)
    | OtherText
    | Binary(bytes: seq<byte>)

  /** What `onDataChannelMessage` is called with. */
  datatype Delivery = Delivery(index: Json, blob: Blob)

  /** `meta.index || 0`. */
  function IndexOrZero(index: Json): (r: Json)
    ensures Truthy(index) ==> r == index
    ensures !Truthy(index) ==> r == JNum(0)
  {
    if Truthy(index) then index else JNum(0)
  }

  // ---------------------------------------------------------------------
  // Sending: `buffer.slice(offset, offset + chunkSize)` until the end.

  function Min(a: int, b: int): int {
    if a < b then a else b
  }

  /** The chunks the send loop cuts `b` into. */
  function Chunks(b: seq<byte>, k: nat): (r: seq<seq<byte>>)
    requires k > 0
    ensures |r| <= |b| && (r == [] <==> b == [])
    decreases |b|
  {
    if |b| == 0 then [] else [b[..Min(k, |b|)]] + Chunks(b[Min(k, |b|)..], k)
  }

  /** The chunks put back together are the bytes they were cut from. */
  lemma {:induction false} ChunksConcat(b: seq<byte>, k: nat)
    requires k > 0
    ensures Concat(Chunks(b, k)) == b
    decreases |b|
  {
    if |b| > 0 {
      var m := Min(k, |b|);
      ChunksConcat(b[m..], k);
      assert Chunks(b, k)[1..] == Chunks(b[m..], k);
      assert b[..m] + b[m..] == b;
    }
  }

  /** Every chunk is non-empty and at most `k` bytes long. */
  lemma {:induction false} ChunksBounded(b: seq<byte>, k: nat)
    requires k > 0
    ensures forall i :: 0 <= i < |Chunks(b, k)| ==> 0 < |Chunks(b, k)[i]| <= k
    decreases |b|
  {
    if |b| > 0 {
      var m := Min(k, |b|);
      ChunksBounded(b[m..], k);
      var c := Chunks(b, k);
      assert c == [b[..m]] + Chunks(b[m..], k);
      forall i | 0 <= i < |c| ensures 0 < |c[i]| <= k {
        if i > 0 { assert c[i] == Chunks(b[m..], k)[i - 1]; }
      }
    }
  }

  /** One turn of the send loop at `offset`: the next chunk runs from
      `offset` to `offset + k` or to the end, and the rest follows. */
  lemma ChunksStep(b: seq<byte>, offset: nat, k: nat)
    requires k > 0 && offset < |b|
    ensures Chunks(b[offset..], k)
            == [b[offset..Min(offset + k, |b|)]] + Chunks(b[Min(offset + k, |b|)..], k)
  {
    var t := b[offset..];
    var m := Min(k, |t|);
    assert t[..m] == b[offset..Min(offset + k, |b|)];
    assert t[m..] == b[Min(offset + k, |b|)..];
  }

  /** One turn of the sending loop: the next slice is the next chunk, it
      is not empty, and it goes out as one more binary message. */
  lemma ChunkLoopStep(b: seq<byte>, k: nat, offset: nat, done: seq<seq<byte>>)
    requires k > 0 && offset < |b|
    requires done + Chunks(b[offset..], k) == Chunks(b, k)
    ensures var next := Min(offset + k, |b|);
            && offset < next <= |b|
            && (done + [b[offset..next]]) + Chunks(b[next..], k) == Chunks(b, k)
            && AsBinary(done + [b[offset..next]]) == AsBinary(done) + [Binary(b[offset..next])]
  {
    var next := Min(offset + k, |b|);
    ChunksStep(b, offset, k);
    assert done + Chunks(b[offset..], k) == (done + [b[offset..next]]) + Chunks(b[next..], k);
  }

  function AsBinary(cs: seq<seq<byte>>): (r: seq<DcMessage>)
    ensures |r| == |cs| && forall i :: 0 <= i < |cs| ==> r[i] == Binary(cs[i])
  {
    seq(|cs|, i requires 0 <= i < |cs| => Binary(cs[i]))
  }

  /** `sendPhotoToPeer`'s messages on the data channel, in order. */
  function Framing(fileId: string, blob: Blob, index: Json, k: nat): (r: seq<DcMessage>)
    requires k > 0
    ensures |r| >= 2 && r[0].MetaMsg? && r[0].info.size == |blob.bytes| && r[|r| - 1] == DoneMsg(fileId)
    ensures forall i :: 0 < i < |r| - 1 ==> r[i].Binary?
  {
    [MetaMsg(MetaInfo(fileId, |blob.bytes|, blob.mime, index))]
      + AsBinary(Chunks(blob.bytes, k)) + [DoneMsg(fileId)]
  }

  // ---------------------------------------------------------------------
  // Receiving: `incomingFileRef` and `handleDataChannelMessage`.

  /** `incomingFileRef.current`: the chunks so far and the last `meta`. */
  datatype Incoming = Incoming(chunks: seq<seq<byte>>, meta: Option<MetaInfo>)

  /** The initial `{ id: null, chunks: [], receivedSize: 0, meta: null }`. */
  const Initial: Incoming := Incoming([], None)

  /** One message: `meta` starts over, a chunk is kept, `done` delivers
      what was kept (it keeps the buffer; without any `meta`, reading
      `meta.mime` throws and nothing is delivered); other strings do
      nothing. */
  function Step(s: Incoming, m: DcMessage): (r: (Incoming, Option<Delivery>))
    ensures m.MetaMsg? ==> r == (Incoming([], Some(m.info)), None)
    ensures m.Binary? ==> r == (s.(chunks := s.chunks + [m.bytes]), None)
    ensures m.DoneMsg? && s.meta.Some? ==>
              r == (s, Some(Delivery(IndexOrZero(s.meta.value.index), Blob(Concat(s.chunks), s.meta.value.mime))))
    ensures (m.DoneMsg? && s.meta.None?) || m.OtherText? ==> r == (s, None)
  {
    match m
    case MetaMsg(info) => (Incoming([], Some(info)), None)
    case Binary(c) => (s.(chunks := s.chunks + [c]), None)
    case DoneMsg(_) =>
      if s.meta.None? then (s, None)
      else (s, Some(Delivery(IndexOrZero(s.meta.value.index), Blob(Concat(s.chunks), s.meta.value.mime))))
    case OtherText => (s, None)
  }

  /** A run of messages: the final buffer and every delivery, in order. */
  function Run(s: Incoming, ms: seq<DcMessage>): (r: (Incoming, seq<Delivery>))
    ensures |r.1| <= |ms|
    decreases |ms|
  {
    if ms == [] then (s, [])
    else
      var first := Step(s, ms[0]);
      var rest := Run(first.0, ms[1..]);
      (rest.0, (if first.1.Some? then [first.1.value] else []) + rest.1)
  }

  lemma {:induction false} RunBinaries(s: Incoming, cs: seq<seq<byte>>)
    ensures Run(s, AsBinary(cs)).0 == s.(chunks := s.chunks + cs)
    ensures Run(s, AsBinary(cs)).1 == []
    decreases |cs|
  {
    if cs == [] {
      assert AsBinary(cs) == [];
      assert s.chunks + cs == s.chunks;
    } else {
      var ms := AsBinary(cs);
      assert ms[1..] == AsBinary(cs[1..]);
      var s1 := s.(chunks := s.chunks + [cs[0]]);
      assert Step(s, ms[0]).0 == s1 && Step(s, ms[0]).1 == None;
      RunBinaries(s1, cs[1..]);
      assert s.chunks + [cs[0]] + cs[1..] == s.chunks + cs;
    }
  }

  lemma {:induction false} RunAppend(s: Incoming, a: seq<DcMessage>, b: seq<DcMessage>)
    ensures Run(s, a + b).0 == Run(Run(s, a).0, b).0
    ensures Run(s, a + b).1 == Run(s, a).1 + Run(Run(s, a).0, b).1
    decreases |a|
  {
    if a == [] {
      assert a + b == b;
    } else {
      assert (a + b)[0] == a[0] && (a + b)[1..] == a[1..] + b;
      RunAppend(Step(s, a[0]).0, a[1..], b);
    }
  }

  /** The round trip: whatever the receiver held before, the framing of a
      photo delivers exactly that photo, byte for byte, with its MIME type
      and `index || 0`, and nothing else. */
  lemma PhotoRoundTrip(s: Incoming, fileId: string, blob: Blob, index: Json, k: nat)
    requires k > 0
    ensures Run(s, Framing(fileId, blob, index, k)).1 == [Delivery(IndexOrZero(index), blob)]
  {
    var info := MetaInfo(fileId, |blob.bytes|, blob.mime, index);
    var cs := Chunks(blob.bytes, k);
    var s1 := Incoming([], Some(info));
    var head := [MetaMsg(info)];
    RunAppend(s, head, AsBinary(cs));
    assert head[1..] == [];
    assert Run(s, head).0 == s1 && Run(s, head).1 == [];
    RunBinaries(s1, cs);
    assert [] + cs == cs;
    var s2 := s1.(chunks := cs);
    RunAppend(s, head + AsBinary(cs), [DoneMsg(fileId)]);
    ChunksConcat(blob.bytes, k);
    assert Run(s2, [DoneMsg(fileId)]).1 == [Delivery(IndexOrZero(index), blob)];
  }

  /** The receiver's buffer, as the object the data channel's `onmessage`
      updates; `delivered` records the `onDataChannelMessage` calls, which
      happen only when the hook was given that callback. */
  class ChannelReceiver {
    const hasCallback: bool
    var incoming: Incoming
    var delivered: seq<Delivery>

    constructor (hasCallback: bool)
      ensures this.hasCallback == hasCallback && incoming == Initial && delivered == []
    {
      this.hasCallback := hasCallback;
      incoming := Initial;
      delivered := [];
    }

    /** `handleDataChannelMessage`, one message at a time. */
    method Feed(m: DcMessage)
      modifies this`incoming, this`delivered
      ensures incoming == Step(old(incoming), m).0
      ensures delivered == old(delivered)
                + (if hasCallback && Step(old(incoming), m).1.Some? then [Step(old(incoming), m).1.value] else [])
    {
      match m {
        case MetaMsg(info) =>
          incoming := Incoming([], Some(info));
        case Binary(c) =>
          incoming := incoming.(chunks := incoming.chunks + [c]);
        case DoneMsg(_) =>
          if incoming.meta.Some? && hasCallback {
            var meta := incoming.meta.value;
            delivered := delivered + [Delivery(IndexOrZero(meta.index), Blob(Concat(incoming.chunks), meta.mime))];
          }
        case OtherText =>
      }
    }
  }

  // ---------------------------------------------------------------------
  // The negotiation.

  /** `socketRef.current.id > from`: the local side yields. */
  predicate IsPolite(selfId: string, from: string) {
    Less(from, selfId)
  }

  /** Of two peers with different ids exactly one is polite, so a
      collision is always resolved by one side ignoring the other's offer;
      with equal ids neither is. */
  lemma ExactlyOnePolite(a: string, b: string)
    ensures a != b ==> IsPolite(a, b) != IsPolite(b, a)
    ensures a == b ==> !IsPolite(a, b)
  {
    LessTotal(a, b);
    LessAsymmetric(a, b);
    LessIrreflexive(a);
  }

  /** `participants.find(p => p.id !== self)`'s id. */
  function PickPeer(ids: seq<string>, self: string): (r: Option<string>)
    ensures r.Some? ==> r.value != self && r.value in ids
    ensures r.Some? ==> exists i :: 0 <= i < |ids| && ids[i] == r.value && forall j :: 0 <= j < i ==> ids[j] == self
    ensures r.None? <==> forall i :: 0 <= i < |ids| ==> ids[i] == self
  {
    if ids == [] then None
    else if ids[0] != self then Some(ids[0])
    else
      var r := PickPeer(ids[1..], self);
      if r.Some? then
        var i :| 0 <= i < |ids[1..]| && ids[1..][i] == r.value && forall j :: 0 <= j < i ==> ids[1..][j] == self;
        assert ids[i + 1] == r.value;
        assert forall j :: 0 <= j < i + 1 ==> ids[j] == self by {
          forall j | 0 <= j < i + 1 ensures ids[j] == self {
            if j > 0 { assert ids[j] == ids[1..][j - 1]; }
          }
        }
        r
      else
        assert forall i :: 1 <= i < |ids| ==> ids[i] == ids[1..][i - 1];
        r
  }

  /** An `RTCPeerConnection`: the remote id its ICE candidates go to, and
      which creation it was. */
  datatype PeerConnection = PeerConnection(remoteId: string, serial: nat)

  /** A data channel, by its label. */
  datatype Channel = Channel(name: string)

  /** A `socket.emit('webrtc:…', { to, … })` of the hook. */
  datatype Signal = Signal(event: string, to: string)

  datatype SendOutcome = ViaChannel | ViaSocket | NotSent

  /** The refs of `useWebRTC` and what it hands to the outside. */
  class PeerLink {
    /** `socketRef.current.id`. */
    const selfId: string
    /** Whether `onSocketPhotoReceive` and `onEnableSocketFallback` are
        functions. */
    const hasSocketSender: bool
    const hasFallbackListener: bool
    var pc: Option<PeerConnection>
    var dc: Option<Channel>
    var makingOffer: bool
    var ignoreOffer: bool
    var socketOnly: bool
    /** The offer `connectPeers` is still preparing, by peer id; the
        `await`s between `makingOfferRef = true` and the emit. */
    var pendingOffer: Option<string>
    /** Connections created so far. */
    var created: nat
    var signals: seq<Signal>
    var sent: seq<DcMessage>
    var socketPhotos: seq<(Blob, Json)>
    var fallbacks: seq<string>

    ghost predicate Valid()
      reads this
    {
      && (pc.Some? ==> pc.value.serial < created)
      && (pendingOffer.Some? <==> makingOffer)
    }

    constructor (selfId: string, hasSocketSender: bool, hasFallbackListener: bool)
      ensures Valid() && this.selfId == selfId
      ensures this.hasSocketSender == hasSocketSender && this.hasFallbackListener == hasFallbackListener
      ensures pc.None? && dc.None? && !makingOffer && !ignoreOffer && !socketOnly && pendingOffer.None?
      ensures created == 0 && signals == [] && sent == [] && socketPhotos == [] && fallbacks == []
    {
      this.selfId := selfId;
      this.hasSocketSender := hasSocketSender;
      this.hasFallbackListener := hasFallbackListener;
      pc := None;
      dc := None;
      makingOffer := false;
      ignoreOffer := false;
      socketOnly := false;
      pendingOffer := None;
      created := 0;
      signals := [];
      sent := [];
      socketPhotos := [];
      fallbacks := [];
    }

    /** `getOrCreatePC`: the existing connection while there is one, else
        a new one for `remoteId`. */
    method GetOrCreatePC(remoteId: string) returns (p: PeerConnection)
      requires Valid()
      modifies this`pc, this`created
      ensures Valid() && pc == Some(p)
      ensures old(pc).Some? ==> p == old(pc).value && created == old(created)
      ensures old(pc).None? ==> p == PeerConnection(remoteId, old(created)) && created == old(created) + 1
    {
      if pc.Some? {
        return pc.value;
      }
      p := PeerConnection(remoteId, created);
      created := created + 1;
      pc := Some(p);
    }

    /** `enableSocketFallback`: from now on photos go over the socket, and
        both refs are cleared. */
    method EnableSocketFallback(reason: string)
      requires Valid()
      modifies this`socketOnly, this`pc, this`dc, this`fallbacks
      ensures Valid() && socketOnly && pc.None? && dc.None?
      ensures fallbacks == old(fallbacks) + if hasFallbackListener then [reason] else []
    {
      socketOnly := true;
      pc := None;
      dc := None;
      if hasFallbackListener {
        fallbacks := fallbacks + [reason];
      }
    }

    /** `pc.ondatachannel`: the remote side's channel becomes `dcRef`. */
    method OnDataChannel(c: Channel)
      modifies this`dc
      ensures dc == Some(c)
    {
      dc := Some(c);
    }

    /** `pc.onicecandidate` of connection `p`, with a candidate. */
    method OnIceCandidate(p: PeerConnection)
      modifies this`signals
      ensures signals == old(signals) + [Signal("webrtc:candidate", p.remoteId)]
    {
      signals := signals + [Signal("webrtc:candidate", p.remoteId)];
    }

    /** `pc.onconnectionstatechange`: a failed, disconnected or closed
        connection falls back to the socket. */
    method OnConnectionState(state: string)
      requires Valid()
      modifies this`socketOnly, this`pc, this`dc, this`fallbacks
      ensures Valid()
      ensures state in {"failed", "disconnected", "closed"} ==>
                socketOnly && pc.None? && dc.None?
                && fallbacks == old(fallbacks) + if hasFallbackListener then [state] else []
      ensures state !in {"failed", "disconnected", "closed"} ==>
                socketOnly == old(socketOnly) && pc == old(pc) && dc == old(dc) && fallbacks == old(fallbacks)
    {
      if state in {"failed", "disconnected", "closed"} {
        EnableSocketFallback(state);
      }
    }

    /** `sendPhotoToPeer`: over an open data channel unless in socket-only
        mode, as `meta`, the chunks and `done`; otherwise through the
        socket callback when there is one. `dcOpen` is the channel's
        `readyState === 'open'` and `fileId` the fresh UUID. */
    method SendPhoto(blob: Blob, index: Json, chunkSize: nat, fileId: string, dcOpen: bool)
      returns (outcome: SendOutcome)
      requires chunkSize > 0
      modifies this`sent, this`socketPhotos
      ensures outcome == ViaChannel <==> !socketOnly && dc.Some? && dcOpen
      ensures outcome == ViaChannel ==> sent == old(sent) + Framing(fileId, blob, index, chunkSize)
      ensures outcome != ViaChannel ==> sent == old(sent)
      ensures outcome == ViaSocket <==> !(!socketOnly && dc.Some? && dcOpen) && hasSocketSender
      ensures socketPhotos == old(socketPhotos) + if outcome == ViaSocket then [(blob, index)] else []
    {
      if !socketOnly && dc.Some? && dcOpen {
        sent := sent + [MetaMsg(MetaInfo(fileId, |blob.bytes|, blob.mime, index))];
        SendChunks(blob.bytes, chunkSize);
        sent := sent + [DoneMsg(fileId)];
        return ViaChannel;
      }
      if hasSocketSender {
        socketPhotos := socketPhotos + [(blob, index)];
        return ViaSocket;
      }
      return NotSent;
    }

    /** The `while (offset < buffer.byteLength)` loop of
        `sendPhotoToPeer`: slice, send, advance by the slice's length. */
    method SendChunks(b: seq<byte>, chunkSize: nat)
      requires chunkSize > 0
      modifies this`sent
      ensures sent == old(sent) + AsBinary(Chunks(b, chunkSize))
    {
      var offset := 0;
      ghost var done: seq<seq<byte>> := [];
      while offset < |b|
        invariant 0 <= offset <= |b|
        invariant done + Chunks(b[offset..], chunkSize) == Chunks(b, chunkSize)
        invariant sent == old(sent) + AsBinary(done)
        decreases |b| - offset
      {
        var chunk := b[offset..Min(offset + chunkSize, |b|)];
        ChunkLoopStep(b, chunkSize, offset, done);
        sent := sent + [Binary(chunk)];
        done := done + [chunk];
        offset := offset + |chunk|;
      }
      assert b[offset..] == [];
      assert done == Chunks(b, chunkSize);
    }

    /** `handleOffer`: the connection is fetched or made first; the offer
        is ignored exactly when this side is impolite and there is a
        collision (the connection is not `stable`, or an offer is being
        made); otherwise an answer goes back to the sender. `fails` is
        `setRemoteDescription`, `createAnswer` or `setLocalDescription`
        rejecting: the `catch` only logs, so no answer is sent. */
    method HandleOffer(from: string, stable: bool, fails: bool)
      requires Valid()
      modifies this`pc, this`created, this`ignoreOffer, this`signals
      ensures Valid()
      ensures pc.Some? && (old(pc).Some? ==> pc == old(pc) && created == old(created))
      ensures old(pc).None? ==> pc == Some(PeerConnection(from, old(created))) && created == old(created) + 1
      ensures ignoreOffer <==> !IsPolite(selfId, from) && (!stable || makingOffer)
      ensures signals == old(signals) + if ignoreOffer || fails then [] else [Signal("webrtc:answer", from)]
    {
      var _ := GetOrCreatePC(from);
      var polite := IsPolite(selfId, from);
      var collision := !stable || makingOffer;
      ignoreOffer := !polite && collision;
      if ignoreOffer || fails {
        return;
      }
      signals := signals + [Signal("webrtc:answer", from)];
    }

    /** `handleAnswer`: the answer is applied only to an existing
        connection whose last offer was not ignored and which is not
        `stable`. `fails` is `setRemoteDescription` rejecting, which falls
        back to the socket with reason `answer-error`. */
    method HandleAnswer(stable: bool, fails: bool) returns (applied: bool)
      requires Valid()
      modifies this`socketOnly, this`pc, this`dc, this`fallbacks
      ensures Valid()
      ensures applied <==> old(pc).Some? && !ignoreOffer && !stable && !fails
      ensures old(pc).Some? && !ignoreOffer && !stable && fails ==>
                socketOnly && pc.None? && dc.None?
                && fallbacks == old(fallbacks) + if hasFallbackListener then ["answer-error"] else []
      ensures !(old(pc).Some? && !ignoreOffer && !stable && fails) ==>
                socketOnly == old(socketOnly) && pc == old(pc) && dc == old(dc) && fallbacks == old(fallbacks)
    {
      applied := false;
      if pc.Some? && !ignoreOffer {
        if stable {
          return;
        }
        if fails {
          EnableSocketFallback("answer-error");
          return;
        }
        applied := true;
      }
    }

    /** `handleCandidate`: a candidate is added only to an existing
        connection. `fails` is `addIceCandidate` rejecting, which falls
        back to the socket with reason `candidate-error`. */
    method HandleCandidate(fails: bool) returns (added: bool)
      requires Valid()
      modifies this`socketOnly, this`pc, this`dc, this`fallbacks
      ensures Valid()
      ensures added <==> old(pc).Some? && !fails
      ensures old(pc).Some? && fails ==>
                socketOnly && pc.None? && dc.None?
                && fallbacks == old(fallbacks) + if hasFallbackListener then ["candidate-error"] else []
      ensures !(old(pc).Some? && fails) ==>
                socketOnly == old(socketOnly) && pc == old(pc) && dc == old(dc) && fallbacks == old(fallbacks)
    {
      added := false;
      if pc.Some? {
        if fails {
          EnableSocketFallback("candidate-error");
          return;
        }
        added := true;
      }
    }

    /** `connectPeers` up to its first `await`: in socket-only mode it
        falls back; without another participant it does nothing;
        otherwise it fetches or makes the connection for the first other
        participant, opens `ldr-channel` and starts making an offer. */
    method ConnectPeers(ids: seq<string>, socketOnlyMode: bool)
      requires Valid()
      modifies this`socketOnly, this`pc, this`dc, this`fallbacks, this`created, this`makingOffer, this`pendingOffer
      ensures Valid()
      ensures socketOnlyMode ==>
                && socketOnly && pc.None? && dc.None? && created == old(created)
                && makingOffer == old(makingOffer) && pendingOffer == old(pendingOffer)
                && fallbacks == old(fallbacks) + if hasFallbackListener then ["socket-only-mode"] else []
      ensures !socketOnlyMode ==> socketOnly == old(socketOnly) && fallbacks == old(fallbacks)
      ensures !socketOnlyMode && PickPeer(ids, selfId).None? ==>
                && pc == old(pc) && dc == old(dc) && created == old(created)
                && makingOffer == old(makingOffer) && pendingOffer == old(pendingOffer)
      ensures !socketOnlyMode && PickPeer(ids, selfId).Some? ==>
                && pc.Some? && (old(pc).Some? ==> pc == old(pc) && created == old(created))
                && (old(pc).None? ==>
                      pc == Some(PeerConnection(PickPeer(ids, selfId).value, old(created))) && created == old(created) + 1)
                && dc == Some(Channel("ldr-channel"))
                && makingOffer && pendingOffer == PickPeer(ids, selfId)
      ensures ignoreOffer == old(ignoreOffer) && signals == old(signals) && sent == old(sent)
    {
      if socketOnlyMode {
        EnableSocketFallback("socket-only-mode");
        return;
      }
      var peer := PickPeer(ids, selfId);
      if peer.None? {
        return;
      }
      var _ := GetOrCreatePC(peer.value);
      dc := Some(Channel("ldr-channel"));
      makingOffer := true;
      pendingOffer := peer;
    }

    /** The rest of `connectPeers` once the offer is ready: the flag drops
        and the offer goes to the chosen peer. */
    method OfferReady()
      requires Valid() && makingOffer
      modifies this`makingOffer, this`pendingOffer, this`signals
      ensures Valid() && !makingOffer
      ensures signals == old(signals) + [Signal("webrtc:offer", old(pendingOffer).value)]
    {
      signals := signals + [Signal("webrtc:offer", pendingOffer.value)];
      makingOffer := false;
      pendingOffer := None;
    }

    /** The `catch` of `connectPeers`: `createOffer` or
        `setLocalDescription` rejected, so the flag drops and no offer is
        sent. */
    method OfferFailed()
      requires Valid()
      modifies this`makingOffer, this`pendingOffer
      ensures Valid() && !makingOffer && pendingOffer.None?
    {
      makingOffer := false;
      pendingOffer := None;
    }
  }

  /** An offer that could not be made does not leave this side in a
      collision: on the impolite side, the peer's next offer on a `stable`
      connection is taken and answered, and nothing but that answer is
      signalled. */
  method FailedOfferThenAnswer(link: PeerLink, ids: seq<string>, from: string)
    requires link.Valid() && !IsPolite(link.selfId, from) && PickPeer(ids, link.selfId).Some?
    modifies link
    ensures !link.makingOffer && !link.ignoreOffer
    ensures link.signals == old(link.signals) + [Signal("webrtc:answer", from)]
  {
    link.ConnectPeers(ids, false);
    link.OfferFailed();
    link.HandleOffer(from, true, false);
  }

  /** Perfect negotiation, impolite side: once an offer is ignored, the
      answer that follows is neither applied nor able to trigger a
      fallback, whatever its outcome would have been. */
  method IgnoredOfferBlocksAnswer(link: PeerLink, from: string, offerStable: bool, offerFails: bool,
                                  answerStable: bool, fails: bool)
    returns (applied: bool)
    requires link.Valid() && !IsPolite(link.selfId, from) && (!offerStable || link.makingOffer)
    modifies link
    ensures link.ignoreOffer && !applied
    ensures link.pc.Some? && link.socketOnly == old(link.socketOnly) && link.fallbacks == old(link.fallbacks)
    ensures link.signals == old(link.signals)
  {
    link.HandleOffer(from, offerStable, offerFails);
    applied := link.HandleAnswer(answerStable, fails);
  }

  /** Once an offer is taken (this side is polite, or there is no
      collision), an answer is applied exactly when the connection is not
      `stable` and applying it succeeds. */
  method AcceptedOfferTakesAnswer(link: PeerLink, from: string, offerStable: bool, offerFails: bool,
                                  answerStable: bool, fails: bool)
    returns (applied: bool)
    requires link.Valid() && (IsPolite(link.selfId, from) || (offerStable && !link.makingOffer))
    modifies link
    ensures !link.ignoreOffer
    ensures link.signals == old(link.signals) + if offerFails then [] else [Signal("webrtc:answer", from)]
    ensures applied <==> !answerStable && !fails
    ensures !answerStable && fails ==> link.socketOnly && link.pc.None?
  {
    link.HandleOffer(from, offerStable, offerFails);
    applied := link.HandleAnswer(answerStable, fails);
  }

  /** A fallback is for good: after it, a photo never goes over the data
      channel, whatever the channel's state. */
  method FallbackIsFinal(link: PeerLink, reason: string, blob: Blob, index: Json, fileId: string, dcOpen: bool)
    returns (outcome: SendOutcome)
    requires link.Valid()
    modifies link
    ensures outcome != ViaChannel && link.sent == old(link.sent)
    ensures link.pc.None? && link.dc.None?
  {
    link.EnableSocketFallback(reason);
    outcome := link.SendPhoto(blob, index, 65536, fileId, dcOpen);
  }
}
