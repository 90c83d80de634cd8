/** Peer bookkeeping and signalling of the video hook
    (apps/web/hooks/useVideoWebRTC.ts). Peer connections, media streams and
    session descriptions are opaque: the model keeps which remote ids have a
    peer connection, which ids were contacted, the stream flags, and the
    signalling envelopes handed to `send`. */
module VideoPeers {
  import opened Base
  import opened Wire

  /** The hook's parameters. */
  datatype Me = Me(roomId: string, userId: string)

  datatype Peers = Peers(
    peers: set<string>,
    contacted: set<string>,
    hasStream: bool,
    isStreaming: bool,
    isMuted: bool,
    videoOff: bool)

  const Initial: Peers := Peers({}, {}, false, false, false, false)

  /** `sendSignal(to, data)`. Its `type` is `WsDataType.SIGNAL`, which the
      enum does not define, so the field is `undefined` and absent on the wire. */
  function SignalEnvelope(me: Me, to: string, data: SignalData): (e: Envelope)
    ensures e.roomId == Value(me.roomId) && e.userId == Value(to)
    ensures e.payload == Value(SignalPayload(Some(me.userId), Some(data)))
    ensures !IsWebSocketMessage(e)
  {
    Empty.(
      roomId := Value(me.roomId),
      userId := Value(to),
      payload := Value(SignalPayload(Some(me.userId), Some(data))))
  }

  function Offer(sdp: string): SignalData { SignalData(Some("offer"), Some(sdp), None) }
  function Answer(sdp: string): SignalData { SignalData(Some("answer"), Some(sdp), None) }

  /** `startOwnStream`, given whether the camera/microphone request succeeds. */
  function StartOwnStream(st: Peers, mediaGranted: bool): (r: Peers)
    ensures st.hasStream || !mediaGranted ==> r == st
    ensures !st.hasStream && mediaGranted ==> r == st.(hasStream := true, isStreaming := true)
  {
    if st.hasStream then st
    else if mediaGranted then st.(hasStream := true, isStreaming := true)
    else st
  }

  /** `stopOwnStream`: drops the stream; the mute and camera flags stay. */
  function StopOwnStream(st: Peers): (r: Peers)
    ensures !r.hasStream && !r.isStreaming
    ensures r.isMuted == st.isMuted && r.videoOff == st.videoOff && r.peers == st.peers && r.contacted == st.contacted
  {
    st.(hasStream := false, isStreaming := false)
  }

  function ToggleMute(st: Peers): (r: Peers)
    ensures !st.hasStream ==> r == st
    ensures st.hasStream ==> r == st.(isMuted := !st.isMuted)
  {
    if !st.hasStream then st else st.(isMuted := !st.isMuted)
  }

  function ToggleVideo(st: Peers): (r: Peers)
    ensures !st.hasStream ==> r == st
    ensures st.hasStream ==> r == st.(videoOff := !st.videoOff)
  {
    if !st.hasStream then st else st.(videoOff := !st.videoOff)
  }

  /** `createPeerConnection`: returns the existing connection if there is one. */
  function CreatePeerConnection(st: Peers, remoteId: string): (r: Peers)
    ensures r.peers == st.peers + {remoteId}
    ensures r.(peers := st.peers) == st
  {
    if remoteId in st.peers then st else st.(peers := st.peers + {remoteId})
  }

  datatype Step = Step(state: Peers, sent: seq<Envelope>)

  /** `connectToUser(other)`: nothing for the own id or an id already
      contacted; otherwise record it, open a peer connection and send one
      offer addressed to it. `offerSdp` is the description the peer
      connection creates. */
  function ConnectToUser(me: Me, st: Peers, other: string, offerSdp: string): (r: Step)
    ensures other == me.userId || other in st.contacted ==> r == Step(st, [])
    ensures other != me.userId && other !in st.contacted ==>
              && r.state == CreatePeerConnection(st.(contacted := st.contacted + {other}), other)
              && r.state.contacted == st.contacted + {other}
              && other in r.state.peers
              && r.sent == [SignalEnvelope(me, other, Offer(offerSdp))]
    ensures st.contacted <= r.state.contacted
  {
    if other == me.userId || other in st.contacted then Step(st, [])
    else
      var st' := CreatePeerConnection(st.(contacted := st.contacted + {other}), other);
      Step(st', [SignalEnvelope(me, other, Offer(offerSdp))])
  }

  /** `pc.onicecandidate`: forward a gathered candidate to the remote peer. */
  function OnIceCandidate(me: Me, remoteId: string, candidate: Option<string>): (r: seq<Envelope>)
    ensures candidate.None? ==> r == []
    ensures candidate.Some? ==> r == [SignalEnvelope(me, remoteId, SignalData(None, None, candidate))]
  {
    if candidate.Some? then [SignalEnvelope(me, remoteId, SignalData(None, None, candidate))] else []
  }

  /** A message `onSignal` acts on: its payload has a truthy `from` and a `data`. */
  predicate Actionable(msg: Envelope) {
    && msg.payload.Value? && msg.payload.value.SignalPayload?
    && Truthy(msg.payload.value.from) && msg.payload.value.data.Some?
  }

  /** `onSignal(msg)`: a message without a truthy `from` or without `data`
      is ignored (a missing `payload` makes the destructuring throw, with the
      same effect). Otherwise a peer connection for `from` exists afterwards;
      an offer is answered once, to `from`; an answer or candidate sends
      nothing. `answerSdp` is the description the peer connection creates. */
  function OnSignal(me: Me, st: Peers, msg: Envelope, answerSdp: string): (r: Step)
    ensures !Actionable(msg) ==> r == Step(st, [])
    ensures Actionable(msg) ==>
              var from := msg.payload.value.from.value;
              var data := msg.payload.value.data.value;
              && r.state == CreatePeerConnection(st, from)
              && (data.sdpType == Some("offer") ==> r.sent == [SignalEnvelope(me, from, Answer(answerSdp))])
              && (data.sdpType != Some("offer") ==> r.sent == [])
  {
    match msg.payload
    case Value(SignalPayload(from, data)) =>
      if !Truthy(from) || data.None? then Step(st, [])
      else
        var st' := CreatePeerConnection(st, from.value);
        if data.value.sdpType == Some("offer") then Step(st', [SignalEnvelope(me, from.value, Answer(answerSdp))])
        else if data.value.sdpType == Some("answer") then Step(st', [])
        else if data.value.candidate.Some? then Step(st', [])
        else Step(st', [])
    case _ => Step(st, [])
  }

  /** The hook holds a stream exactly while it reports streaming. */
  predicate StreamInv(st: Peers) {
    st.hasStream <==> st.isStreaming
  }

  /** Every event of the hook keeps the stream and the streaming flag in step. */
  lemma EventsKeepStreamInv(me: Me, st: Peers, granted: bool, other: string, sdp: string, msg: Envelope)
    requires StreamInv(st)
    ensures StreamInv(StartOwnStream(st, granted)) && StreamInv(StopOwnStream(st))
    ensures StreamInv(ToggleMute(st)) && StreamInv(ToggleVideo(st))
    ensures StreamInv(ConnectToUser(me, st, other, sdp).state) && StreamInv(OnSignal(me, st, msg, sdp).state)
  {
  }

  /** Starting is idempotent, and a granted start followed by a stop gives
      back the state before the start, mute and camera flags included. */
  lemma StartThenStopRestores(st: Peers, granted: bool, again: bool)
    requires StreamInv(st) && !st.hasStream
    ensures StartOwnStream(StartOwnStream(st, true), again) == StartOwnStream(st, true)
    ensures StopOwnStream(StartOwnStream(st, granted)) == st
    ensures StartOwnStream(st, granted).isStreaming <==> granted
  {
  }

  /** A candidate A gathers for its peer B, delivered to B, makes B hold a
      peer connection for A and makes B send nothing back; no candidate
      means nothing reaches B. */
  lemma IceCandidateReachesPeer(a: Me, b: Me, stB: Peers, candidate: string, answerSdp: string)
    requires a.userId != ""
    ensures var sent := OnIceCandidate(a, b.userId, Some(candidate));
            && |sent| == 1
            && OnSignal(b, stB, sent[0], answerSdp) == Step(CreatePeerConnection(stB, a.userId), [])
    ensures OnIceCandidate(a, b.userId, None) == []
  {
  }

  /** Each toggle undoes itself, and touches only its own flag. */
  lemma TogglesAreInvolutions(st: Peers)
    ensures ToggleMute(ToggleMute(st)) == st && ToggleVideo(ToggleVideo(st)) == st
    ensures ToggleMute(st).videoOff == st.videoOff && ToggleVideo(st).isMuted == st.isMuted
  {
  }

  /** Creating a peer connection twice is the same as once. */
  lemma CreatePeerConnectionIdempotent(st: Peers, remoteId: string)
    ensures CreatePeerConnection(CreatePeerConnection(st, remoteId), remoteId) == CreatePeerConnection(st, remoteId)
  {
  }

  /** `onSignal` never reads the envelope's recipient: the same payload
      addressed to anyone has the same effect. */
  lemma OnSignalIgnoresRecipient(me: Me, st: Peers, msg: Envelope, recipient: Field<string>, answerSdp: string)
    ensures OnSignal(me, st, msg.(userId := recipient), answerSdp) == OnSignal(me, st, msg, answerSdp)
  {
  }

  /** An offer from A, answered by B, goes back to A: the answer's recipient
      is the offer's sender and its `from` is B. */
  lemma OfferAnsweredToSender(a: Me, b: Me, stA: Peers, stB: Peers, offerSdp: string, answerSdp: string)
    requires a.userId != b.userId && b.userId !in stA.contacted
    ensures var offer := ConnectToUser(a, stA, b.userId, offerSdp).sent;
            |offer| == 1
            && var reply := OnSignal(b, stB, offer[0], answerSdp).sent;
               && a.userId != "" ==> reply == [SignalEnvelope(b, a.userId, Answer(answerSdp))]
  {
  }

  /** The contacted set only grows, over every event of the hook. */
  lemma ContactedOnlyGrows(me: Me, st: Peers, other: string, sdp: string, msg: Envelope, granted: bool)
    ensures st.contacted <= ConnectToUser(me, st, other, sdp).state.contacted
    ensures st.contacted == OnSignal(me, st, msg, sdp).state.contacted
    ensures st.contacted == StartOwnStream(st, granted).contacted
    ensures st.contacted == StopOwnStream(st).contacted
    ensures st.contacted == ToggleMute(st).contacted && st.contacted == ToggleVideo(st).contacted
  {
  }
}
