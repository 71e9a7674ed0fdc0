/** One peer connection's bookkeeping (`WebRTCClient`).

    The WebRTC objects themselves are opaque: a connection, audio track,
    sender or receiver is represented by the handle the library gave it.
    Installing a frame key on a sender or receiver is recorded in a key log,
    and delegate callbacks are recorded in an event list, so that every
    observable effect of an operation is part of the returned state. */
module PeerSession {
  import opened Common

  type UserId = string

  /** Frame encryption key bytes (`Data`). */
  type Key = seq<Byte>

  /** A remote participant's stream: the `(userId, sessionId)` pair. */
  datatype StreamId = StreamId(userId: UserId, sessionId: string)

  /** `StreamId(rawValue:)` (a partial parse) and `.rawValue` (the string key
      receivers are registered under). Their definitions are not part of this
      model, so both are parameters. */
  datatype StreamIdCodec = StreamIdCodec(parse: string -> Option<StreamId>, raw: StreamId -> string)

  datatype IceServer = IceServer(url: string, username: string, credential: string)

  datatype IceConnectionState = IceNew | IceChecking | IceConnected | IceCompleted | IceFailed | IceDisconnected | IceClosed

  datatype PeerConnectionState = PeerNew | PeerConnecting | PeerConnected | PeerDisconnected | PeerFailed | PeerClosed

  datatype Candidate = Candidate(sdp: string, sdpMLineIndex: int, sdpMid: Option<string>)

  datatype PeerConnection = PeerConnection(
    handle: nat,
    iceServers: seq<IceServer>,
    iceState: IceConnectionState,
    remoteCandidates: seq<Candidate>,
    localDescription: Option<string>,
    remoteDescription: Option<string>)

  /** The local audio track; its id is always `AudioTrackId`. */
  datatype AudioTrack = AudioTrack(handle: nat, trackId: string, isEnabled: bool)

  datatype Receiver = Receiver(handle: nat, trackId: Option<string>)

  datatype KeyInstall = EncryptorKey(senderHandle: nat, key: Key) | DecryptorKey(receiverHandle: nat, key: Key)

  /** The delegate callbacks, in the order they were dispatched. */
  datatype Event =
    | DidConnect
    | DidDisconnect
    | IceStateChanged(state: IceConnectionState)
    | ReceiverAdded(userId: UserId)
    | LocalCandidate(candidate: Candidate)

  datatype Client = Client(
    connection: Option<PeerConnection>,
    isClosed: bool,
    audioTrack: Option<AudioTrack>,
    senderHandle: Option<nat>,
    receivers: map<string, Receiver>,
    tracksUserId: map<string, UserId>,
    keyLog: seq<KeyInstall>,
    events: seq<Event>)

  datatype TransportError = TransportError(description: string)

  datatype CallError = OfferConstruction(cause: Option<TransportError>) | AnswerConstruction(cause: Option<TransportError>)

  const AudioTrackId := "audio0"
  const SenderStatPrefix := "RTCMediaStreamTrack_sender_"
  const ReceiverStatPrefix := "RTCMediaStreamTrack_receiver_"

  function NewClient(): (c: Client)
    ensures !c.isClosed && c.connection.None? && !CanAddRemoteCandidate(c)
    ensures c.receivers == map[] && c.tracksUserId == map[] && c.keyLog == [] && c.events == []
  {
    Client(None, false, None, None, map[], map[], [], [])
  }

  /** The bookkeeping invariant: a connection, its audio track and its sender
      exist together, and a closed client holds none of them. */
  predicate Coupled(c: Client) {
    && (c.connection.Some? <==> c.audioTrack.Some?)
    && (c.connection.Some? <==> c.senderHandle.Some?)
    && (c.isClosed ==> c.connection.None?)
  }

  // ---------------------------------------------------------------------
  // Connection queries and candidates

  /** `canAddRemoteCandidate`: a connection exists. */
  predicate CanAddRemoteCandidate(c: Client) {
    c.connection.Some?
  }

  /** `iceConnectionState`: the connection's state, or closed without one. */
  function IceState(c: Client): (s: IceConnectionState)
    ensures !CanAddRemoteCandidate(c) ==> s == IceClosed
    ensures CanAddRemoteCandidate(c) ==> s == c.connection.value.iceState
  {
    match c.connection
    case Some(pc) => pc.iceState
    case None => IceClosed
  }

  /** `add(remoteCandidate:)`: forwarded to the connection; without one it is
      silently dropped. */
  function AddRemoteCandidate(c: Client, candidate: Candidate): (d: Client)
    ensures !CanAddRemoteCandidate(c) ==> d == c
    ensures CanAddRemoteCandidate(c) ==> CanAddRemoteCandidate(d)
    ensures CanAddRemoteCandidate(c) ==>
      d.connection.value.remoteCandidates == c.connection.value.remoteCandidates + [candidate]
    ensures d == c.(connection := d.connection)
  {
    match c.connection
    case Some(pc) => c.(connection := Some(pc.(remoteCandidates := pc.remoteCandidates + [candidate])))
    case None => c
  }

  // ---------------------------------------------------------------------
  // Frame keys

  /** `setFrameEncryptorKey`: installs the key on the sender; nothing happens
      without a key or without a sender. */
  function SetFrameEncryptorKey(c: Client, key: Option<Key>): (d: Client)
    ensures key.None? || c.senderHandle.None? ==> d == c
    ensures key.Some? && c.senderHandle.Some? ==>
      d == c.(keyLog := c.keyLog + [EncryptorKey(c.senderHandle.value, key.value)])
  {
    match (key, c.senderHandle)
    case (Some(k), Some(h)) => c.(keyLog := c.keyLog + [EncryptorKey(h, k)])
    case _ => c
  }

  /** `setFrameDecryptorKey`: installs the key on the receiver registered for
      the `(userId, sessionId)` stream; an unknown stream or a missing key is
      a silent no-op. */
  function SetFrameDecryptorKey(c: Client, key: Option<Key>, userId: UserId, sessionId: string, codec: StreamIdCodec): (d: Client)
    ensures var k := codec.raw(StreamId(userId, sessionId));
      if key.Some? && k in c.receivers
      then d == c.(keyLog := c.keyLog + [DecryptorKey(c.receivers[k].handle, key.value)])
      else d == c
  {
    var k := codec.raw(StreamId(userId, sessionId));
    if k in c.receivers && key.Some? then
      c.(keyLog := c.keyLog + [DecryptorKey(c.receivers[k].handle, key.value)])
    else c
  }

  // ---------------------------------------------------------------------
  // Closing

  /** `close()`: latches `isClosed` and releases the connection, audio track,
      sender and receivers. The track-to-user map is kept. */
  function Close(c: Client): (d: Client)
    ensures d.isClosed && !CanAddRemoteCandidate(d) && IceState(d) == IceClosed
    ensures d.audioTrack.None? && d.senderHandle.None? && d.receivers == map[]
    ensures d.tracksUserId == c.tracksUserId && d.keyLog == c.keyLog && d.events == c.events
    ensures Coupled(d)
  {
    c.(isClosed := true, connection := None, audioTrack := None, senderHandle := None, receivers := map[])
  }

  /** Closing twice is closing once. */
  lemma CloseIdempotent(c: Client)
    ensures Close(Close(c)) == Close(c)
  {
  }

  /** After `close()` no key can be installed any more: there is neither a
      sender nor a registered receiver. */
  lemma ClosedClientIgnoresKeys(c: Client, key: Option<Key>, userId: UserId, sessionId: string, codec: StreamIdCodec)
    ensures SetFrameEncryptorKey(Close(c), key) == Close(c)
    ensures SetFrameDecryptorKey(Close(c), key, userId, sessionId, codec) == Close(c)
  {
  }

  // ---------------------------------------------------------------------
  // ICE server fetch with retry

  datatype TurnReply = TurnFailed | TurnSucceeded(servers: seq<IceServer>)

  /** What the network and the owner do during one fetch: the replies to the
      successive TURN requests, and the first continuation (one per reply,
      counted from 0) that runs after `close()` was called, if any. */
  datatype FetchEnv = FetchEnv(replies: seq<TurnReply>, closedAt: Option<nat>)

  datatype FetchStatus = Delivered(servers: seq<IceServer>) | Dropped | Waiting

  /** The outcome of `loadIceServers` and the number of TURN requests it made. */
  datatype FetchRun = FetchRun(status: FetchStatus, requests: nat)

  /** Whether the continuation of reply `k` sees `isClosed`. */
  predicate ClosedBy(wasClosed: bool, env: FetchEnv, k: nat) {
    wasClosed || (env.closedAt.Some? && env.closedAt.value <= k)
  }

  /** The first successful reply at or after `k`. */
  function FirstSuccessFrom(replies: seq<TurnReply>, k: nat): (r: Option<nat>)
    requires k <= |replies|
    ensures r.Some? ==> k <= r.value < |replies| && replies[r.value].TurnSucceeded?
    ensures r.Some? ==> forall j :: k <= j < r.value ==> replies[j] == TurnFailed
    ensures r.None? ==> forall j :: k <= j < |replies| ==> replies[j] == TurnFailed
    decreases |replies| - k
  {
    if k == |replies| then None
    else if replies[k].TurnSucceeded? then Some(k)
    else FirstSuccessFrom(replies, k + 1)
  }

  /** `loadIceServers` from request `k` on: a success is delivered at once; a
      failure is retried two seconds later unless the client is closed by
      then, with no limit on the number of attempts. When the replies run out
      the latest request is still outstanding. */
  function LoadIceServersFrom(wasClosed: bool, env: FetchEnv, k: nat): (run: FetchRun)
    requires k <= |env.replies|
    ensures run.requests >= 1
    ensures run.status.Delivered? ==>
      && k + run.requests - 1 < |env.replies|
      && env.replies[k + run.requests - 1] == TurnSucceeded(run.status.servers)
      && FirstSuccessFrom(env.replies, k) == Some(k + run.requests - 1)
      && forall j :: k <= j < k + run.requests - 1 ==> !ClosedBy(wasClosed, env, j)
    ensures run.status.Dropped? ==>
      && k + run.requests - 1 < |env.replies|
      && ClosedBy(wasClosed, env, k + run.requests - 1)
      && forall j :: k <= j < k + run.requests ==> env.replies[j] == TurnFailed
    ensures run.status.Waiting? ==>
      && k + run.requests - 1 == |env.replies|
      && forall j :: k <= j < |env.replies| ==> env.replies[j] == TurnFailed && !ClosedBy(wasClosed, env, j)
    decreases |env.replies| - k
  {
    if k == |env.replies| then FetchRun(Waiting, 1)
    else match env.replies[k]
      case TurnSucceeded(servers) => FetchRun(Delivered(servers), 1)
      case TurnFailed =>
        if ClosedBy(wasClosed, env, k) then FetchRun(Dropped, 1)
        else
          var rest := LoadIceServersFrom(wasClosed, env, k + 1);
          FetchRun(rest.status, rest.requests + 1)
  }

  /** `loadIceServers` from the first request: what is delivered is the
      first successful reply; while the replies last and nothing succeeds,
      one request follows another. */
  function LoadIceServers(wasClosed: bool, env: FetchEnv): (run: FetchRun)
    ensures run.status.Delivered? ==>
      && FirstSuccessFrom(env.replies, 0) == Some(run.requests - 1)
      && env.replies[run.requests - 1] == TurnSucceeded(run.status.servers)
    ensures run.status.Waiting? ==> FirstSuccessFrom(env.replies, 0).None? && run.requests == |env.replies| + 1
    ensures FirstSuccessFrom(env.replies, 0).None? ==> !run.status.Delivered?
  {
    LoadIceServersFrom(wasClosed, env, 0)
  }

  /** A run of failures followed by a success, with the client left open,
      delivers that success exactly once, after one request per reply. */
  lemma {:induction false} FailuresThenSuccessDeliverOnce(env: FetchEnv, failures: nat, servers: seq<IceServer>, k: nat)
    requires |env.replies| == failures + 1 && k <= failures
    requires forall j :: 0 <= j < failures ==> env.replies[j] == TurnFailed
    requires env.replies[failures] == TurnSucceeded(servers)
    requires env.closedAt.None?
    ensures LoadIceServersFrom(false, env, k) == FetchRun(Delivered(servers), failures + 1 - k)
    decreases failures - k
  {
    if k < failures {
      FailuresThenSuccessDeliverOnce(env, failures, servers, k + 1);
    }
  }

  /** Once the client is closed, the pending retry is dropped: no servers are
      delivered, and no request follows the one whose continuation saw it. */
  lemma {:induction false} CloseStopsRetries(env: FetchEnv, c: nat, k: nat)
    requires env.closedAt == Some(c) && k <= c < |env.replies|
    requires forall j :: k <= j <= c ==> env.replies[j] == TurnFailed
    ensures LoadIceServersFrom(false, env, k) == FetchRun(Dropped, c + 1 - k)
    decreases c - k
  {
    if k < c {
      CloseStopsRetries(env, c, k + 1);
    }
  }

  // ---------------------------------------------------------------------
  // Lazy construction

  /** Handles the library assigns to a newly built connection and its parts. */
  datatype Handles = Handles(connection: nat, track: nat, sender: nat)

  /** The client after the call, the connection handed to the caller's
      completion (absent when the completion never runs), and the number of
      TURN requests made. */
  datatype Construction = Construction(client: Client, completion: Option<PeerConnection>, requests: nat)

  /** Builds the connection from fetched servers: a fresh audio track is
      attached, its sender recorded, and the caller's key installed on it. */
  function Build(c: Client, servers: seq<IceServer>, key: Option<Key>, h: Handles): (d: Client)
    ensures d.connection == Some(PeerConnection(h.connection, servers, IceNew, [], None, None))
    ensures d.audioTrack == Some(AudioTrack(h.track, AudioTrackId, true)) && d.senderHandle == Some(h.sender)
    ensures d.keyLog == c.keyLog + (if key.Some? then [EncryptorKey(h.sender, key.value)] else [])
    ensures d.isClosed == c.isClosed && d.receivers == c.receivers && d.tracksUserId == c.tracksUserId
    ensures d.events == c.events
  {
    var withSender := c.(senderHandle := Some(h.sender));
    var keyed := SetFrameEncryptorKey(withSender, key);
    keyed.(connection := Some(PeerConnection(h.connection, servers, IceNew, [], None, None)),
           audioTrack := Some(AudioTrack(h.track, AudioTrackId, true)))
  }

  /** The client after a fetch that observed `close()`: a client that was
      open has been closed meanwhile; one already closed is left as it was,
      since the guard in the fetch callback only returns. */
  function ClosedMeanwhile(c: Client): (d: Client)
    ensures d.isClosed
    ensures c.isClosed ==> d == c
    ensures !c.isClosed ==> d == Close(c)
  {
    if c.isClosed then c else Close(c)
  }

  /** `makePeerConnectionIfNeeded`: an existing connection is reused without
      fetching servers. Otherwise servers are fetched; if the client is found
      closed when they arrive (or a retry is dropped by `close()`), nothing is
      built and the completion never runs; else one connection is built and
      handed to the completion. */
  function MakePeerConnectionIfNeeded(c: Client, env: FetchEnv, key: Option<Key>, h: Handles): (r: Construction)
    ensures c.connection.Some? ==> r == Construction(c, c.connection, 0)
    ensures c.connection.None? ==> r.requests >= 1
    ensures Coupled(c) ==> Coupled(r.client)
    ensures r.completion.Some? ==> r.client.connection == r.completion
    ensures c.connection.None? && r.completion.Some? ==>
      && r.completion.value.handle == h.connection
      && r.client.senderHandle == Some(h.sender)
      && r.client.audioTrack == Some(AudioTrack(h.track, AudioTrackId, true))
      && !r.client.isClosed
      && exists s :: 0 <= s < |env.replies| && env.replies[s] == TurnSucceeded(r.completion.value.iceServers)
    ensures c.isClosed ==> r.client.isClosed
    ensures c.isClosed && c.connection.None? ==> r.completion.None? && r.client.connection.None?
    ensures c.connection.None? ==>
      var run := LoadIceServers(c.isClosed, env);
      && r.requests == run.requests
      && (r.completion.Some? <==> run.status.Delivered? && !ClosedBy(c.isClosed, env, run.requests - 1))
      && (run.status.Waiting? ==> r.client == c)
    ensures c.connection.None? && r.completion.Some? ==>
      && FirstSuccessFrom(env.replies, 0) == Some(r.requests - 1)
      && env.replies[r.requests - 1] == TurnSucceeded(r.completion.value.iceServers)
      && r.client.keyLog == c.keyLog + (if key.Some? then [EncryptorKey(h.sender, key.value)] else [])
    ensures r.completion.None? ==> r.client.connection.None? && r.client.keyLog == c.keyLog
    ensures c.isClosed && c.connection.None? ==> r.client == c
  {
    if c.connection.Some? then Construction(c, c.connection, 0)
    else
      var run := LoadIceServers(c.isClosed, env);
      match run.status
      case Delivered(servers) =>
        if ClosedBy(c.isClosed, env, run.requests - 1) then Construction(ClosedMeanwhile(c), None, run.requests)
        else
          var d := Build(c, servers, key, h);
          Construction(d, d.connection, run.requests)
      case Dropped => Construction(ClosedMeanwhile(c), None, run.requests)
      case Waiting => Construction(c, None, run.requests)
  }

  /** Outcome of the library's SDP generation: the description (with its JSON
      form when that serialises) or the library's error. */
  datatype SdpReply = SdpReply(sdp: Option<Option<string>>, error: Option<TransportError>)

  /** The shared tail of `offer` and `answer`: a generated description that
      serialises is set as the local description and returned as JSON;
      otherwise the operation's construction error is returned. */
  function Describe(d: Client, reply: SdpReply, isOffer: bool): (r: (Client, Result<string, CallError>))
    requires d.connection.Some?
    ensures r.1.Success? <==> reply.sdp.Some? && reply.sdp.value.Some?
    ensures r.1.Success? ==> r.1.value == reply.sdp.value.value
    ensures r.1.Success? ==> r.0.connection.Some? && r.0.connection.value.localDescription == Some(r.1.value)
    ensures r.1.Failure? ==> r.0 == d
    ensures r.1.Failure? ==>
      r.1.error == (if isOffer then OfferConstruction(reply.error) else AnswerConstruction(reply.error))
  {
    match reply.sdp
    case Some(Some(json)) =>
      (d.(connection := Some(d.connection.value.(localDescription := Some(json)))), Success(json))
    case _ =>
      (d, Failure(if isOffer then OfferConstruction(reply.error) else AnswerConstruction(reply.error)))
  }

  /** `offer`: ensures a connection (installing the caller's key when one is
      built), then generates an offer. The completion runs only if the
      connection was obtained. */
  function Offer(c: Client, env: FetchEnv, key: Option<Key>, h: Handles, reply: SdpReply): (r: (Client, Option<Result<string, CallError>>))
    ensures r.1.Some? <==> MakePeerConnectionIfNeeded(c, env, key, h).completion.Some?
    ensures r.1.Some? ==> (r.1.value.Success? <==> reply.sdp.Some? && reply.sdp.value.Some?)
    ensures r.1.Some? && r.1.value.Success? ==> r.1.value.value == reply.sdp.value.value
    ensures r.1.Some? && r.1.value.Failure? ==> r.1.value.error == OfferConstruction(reply.error)
    ensures r.1.Some? && r.1.value.Success? ==> CanAddRemoteCandidate(r.0) && r.0.connection.value.localDescription == Some(r.1.value.value)
    ensures r.1.Some? && c.connection.None? ==>
      r.0.keyLog == c.keyLog + (if key.Some? then [EncryptorKey(h.sender, key.value)] else [])
    ensures c.connection.Some? ==> r.0.keyLog == c.keyLog
  {
    var built := MakePeerConnectionIfNeeded(c, env, key, h);
    if built.completion.None? then (built.client, None)
    else
      var (d, result) := Describe(built.client, reply, true);
      (d, Some(result))
  }

  /** `answer`: as `offer`, without a key and with the answer error. */
  function Answer(c: Client, env: FetchEnv, h: Handles, reply: SdpReply): (r: (Client, Option<Result<string, CallError>>))
    ensures r.1.Some? <==> MakePeerConnectionIfNeeded(c, env, None, h).completion.Some?
    ensures r.1.Some? ==> (r.1.value.Success? <==> reply.sdp.Some? && reply.sdp.value.Some?)
    ensures r.1.Some? && r.1.value.Success? ==> r.1.value.value == reply.sdp.value.value
    ensures r.1.Some? && r.1.value.Failure? ==> r.1.value.error == AnswerConstruction(reply.error)
    ensures r.1.Some? && r.1.value.Success? ==> r.0.connection.Some? && r.0.connection.value.localDescription == Some(r.1.value.value)
    ensures r.0.keyLog == c.keyLog
  {
    var built := MakePeerConnectionIfNeeded(c, env, None, h);
    if built.completion.None? then (built.client, None)
    else
      var (d, result) := Describe(built.client, reply, false);
      (d, Some(result))
  }

  /** `set(remoteSdp:)`: ensures a connection, applies the remote description
      and reports the library's error unchanged. */
  function SetRemoteDescription(c: Client, env: FetchEnv, h: Handles, sdp: string, error: Option<TransportError>): (r: (Client, Option<Option<TransportError>>))
    ensures r.1.Some? <==> MakePeerConnectionIfNeeded(c, env, None, h).completion.Some?
    ensures r.1.Some? ==> r.1.value == error
    ensures r.1.Some? && error.None? ==> r.0.connection.Some? && r.0.connection.value.remoteDescription == Some(sdp)
  {
    var built := MakePeerConnectionIfNeeded(c, env, None, h);
    if built.completion.None? then (built.client, None)
    else
      var pc := built.client.connection.value;
      var d := if error.None? then built.client.(connection := Some(pc.(remoteDescription := Some(sdp)))) else built.client;
      (d, Some(error))
  }

  /** A connection, once obtained, is what every later operation reuses: a
      second `offer` makes no TURN request and keeps the same handle. */
  lemma SecondOfferReusesConnection(c: Client, env1: FetchEnv, env2: FetchEnv, key: Option<Key>, h1: Handles, h2: Handles, reply1: SdpReply, reply2: SdpReply)
    requires Coupled(c)
    requires Offer(c, env1, key, h1, reply1).1.Some?
    ensures var c1 := Offer(c, env1, key, h1, reply1).0;
      && MakePeerConnectionIfNeeded(c1, env2, key, h2).requests == 0
      && MakePeerConnectionIfNeeded(c1, env2, key, h2).completion.value.handle == c1.connection.value.handle
  {
  }

  // ---------------------------------------------------------------------
  // Delegate callbacks

  /** Peer-connection state: connected and disconnected are reported, the
      other states are not. */
  function PeerStateChanged(c: Client, state: PeerConnectionState): (d: Client)
    ensures state == PeerConnected ==> d.events == c.events + [DidConnect]
    ensures state == PeerDisconnected ==> d.events == c.events + [DidDisconnect]
    ensures state != PeerConnected && state != PeerDisconnected ==> d == c
    ensures d == c.(events := d.events)
  {
    match state
    case PeerConnected => c.(events := c.events + [DidConnect])
    case PeerDisconnected => c.(events := c.events + [DidDisconnect])
    case _ => c
  }

  /** ICE state changes are forwarded verbatim (and are what the
      `iceConnectionState` query then reads). */
  function IceStateDidChange(c: Client, state: IceConnectionState): (d: Client)
    ensures d.events == c.events + [IceStateChanged(state)]
    ensures CanAddRemoteCandidate(d) == CanAddRemoteCandidate(c)
    ensures CanAddRemoteCandidate(d) ==> IceState(d) == state
  {
    match c.connection
    case Some(pc) => c.(connection := Some(pc.(iceState := state)), events := c.events + [IceStateChanged(state)])
    case None => c.(events := c.events + [IceStateChanged(state)])
  }

  function LocalCandidateGenerated(c: Client, candidate: Candidate): (d: Client)
    ensures d == c.(events := c.events + [LocalCandidate(candidate)])
  {
    c.(events := c.events + [LocalCandidate(candidate)])
  }

  /** Streams of a new receiver that are handled: those whose id parses and
      whose owner is not the local user, in order. */
  function AcceptedStreams(streamIds: seq<string>, codec: StreamIdCodec, me: UserId): seq<StreamId> {
    Filter(CompactMap(streamIds, codec.parse), (s: StreamId) => s.userId != me)
  }

  /** Raw keys under which `RegisterStreams` files the receiver. */
  function KeyedRaws(ids: seq<StreamId>, codec: StreamIdCodec, keyFor: StreamId -> Option<Key>): set<string> {
    set i | 0 <= i < |ids| && keyFor(ids[i]).Some? :: codec.raw(ids[i])
  }

  /** One stream of `didAdd rtpReceiver`: with a key from the delegate the
      receiver is registered under the stream's key and the key installed on
      it; the track's owner is recorded regardless; one receiver-added event
      is emitted. */
  function RegisterStream(c: Client, receiver: Receiver, id: StreamId, codec: StreamIdCodec, keyFor: StreamId -> Option<Key>): (d: Client)
    ensures d.events == c.events + [ReceiverAdded(id.userId)]
    ensures keyFor(id).Some? ==> d.receivers == c.receivers[codec.raw(id) := receiver]
    ensures keyFor(id).Some? ==> d.keyLog == c.keyLog + [DecryptorKey(receiver.handle, keyFor(id).value)]
    ensures keyFor(id).None? ==> d.receivers == c.receivers && d.keyLog == c.keyLog
    ensures receiver.trackId.Some? ==> d.tracksUserId == c.tracksUserId[receiver.trackId.value := id.userId]
    ensures receiver.trackId.None? ==> d.tracksUserId == c.tracksUserId
    ensures d.connection == c.connection && d.isClosed == c.isClosed
    ensures d.audioTrack == c.audioTrack && d.senderHandle == c.senderHandle
  {
    var withKey := match keyFor(id)
      case Some(k) => c.(receivers := c.receivers[codec.raw(id) := receiver],
                         keyLog := c.keyLog + [DecryptorKey(receiver.handle, k)])
      case None => c;
    var withTrack := match receiver.trackId
      case Some(t) => withKey.(tracksUserId := withKey.tracksUserId[t := id.userId])
      case None => withKey;
    withTrack.(events := withTrack.events + [ReceiverAdded(id.userId)])
  }

  /** The per-stream loop, in stream order. */
  function RegisterStreams(c: Client, receiver: Receiver, ids: seq<StreamId>, codec: StreamIdCodec, keyFor: StreamId -> Option<Key>): (d: Client)
    ensures |d.events| == |c.events| + |ids| && d.events[..|c.events|] == c.events
    ensures forall i :: 0 <= i < |ids| ==> d.events[|c.events| + i] == ReceiverAdded(ids[i].userId)
    ensures d.connection == c.connection && d.isClosed == c.isClosed
    ensures d.audioTrack == c.audioTrack && d.senderHandle == c.senderHandle
    decreases |ids|
  {
    if ids == [] then c
    else
      var next := RegisterStream(c, receiver, ids[0], codec, keyFor);
      var d := RegisterStreams(next, receiver, ids[1..], codec, keyFor);
      assert forall i :: 0 <= i < |ids| - 1 ==> d.events[|next.events| + i] == ReceiverAdded(ids[1..][i].userId);
      d
  }

  lemma KeyedRawsCons(ids: seq<StreamId>, codec: StreamIdCodec, keyFor: StreamId -> Option<Key>)
    requires ids != []
    ensures KeyedRaws(ids, codec, keyFor)
      == (if keyFor(ids[0]).Some? then {codec.raw(ids[0])} else {}) + KeyedRaws(ids[1..], codec, keyFor)
  {
    var head: set<string> := if keyFor(ids[0]).Some? then {codec.raw(ids[0])} else {};
    forall x | x in KeyedRaws(ids, codec, keyFor)
      ensures x in head + KeyedRaws(ids[1..], codec, keyFor)
    {
      var i :| 0 <= i < |ids| && keyFor(ids[i]).Some? && codec.raw(ids[i]) == x;
      if i > 0 {
        assert ids[1..][i - 1] == ids[i];
      }
    }
    forall x | x in KeyedRaws(ids[1..], codec, keyFor)
      ensures x in KeyedRaws(ids, codec, keyFor)
    {
      var i :| 0 <= i < |ids[1..]| && keyFor(ids[1..][i]).Some? && codec.raw(ids[1..][i]) == x;
      assert ids[i + 1] == ids[1..][i];
    }
  }

  /** The receiver ends up registered under exactly the keyed streams' raw
      ids, in addition to the receivers already known. */
  lemma {:induction false} RegisterStreamsReceivers(c: Client, receiver: Receiver, ids: seq<StreamId>, codec: StreamIdCodec, keyFor: StreamId -> Option<Key>)
    ensures var d := RegisterStreams(c, receiver, ids, codec, keyFor);
      && d.receivers.Keys == c.receivers.Keys + KeyedRaws(ids, codec, keyFor)
      && (forall k :: k in KeyedRaws(ids, codec, keyFor) ==> d.receivers[k] == receiver)
      && (forall k :: k in c.receivers && k !in KeyedRaws(ids, codec, keyFor) ==> d.receivers[k] == c.receivers[k])
    decreases |ids|
  {
    if ids != [] {
      KeyedRawsCons(ids, codec, keyFor);
      RegisterStreamsReceivers(RegisterStream(c, receiver, ids[0], codec, keyFor), receiver, ids[1..], codec, keyFor);
    }
  }

  /** The track's owner is the user of the last stream. */
  lemma {:induction false} RegisterStreamsTracks(c: Client, receiver: Receiver, ids: seq<StreamId>, codec: StreamIdCodec, keyFor: StreamId -> Option<Key>)
    ensures var d := RegisterStreams(c, receiver, ids, codec, keyFor);
      if receiver.trackId.Some? && ids != []
      then d.tracksUserId == c.tracksUserId[receiver.trackId.value := ids[|ids| - 1].userId]
      else d.tracksUserId == c.tracksUserId
    decreases |ids|
  {
    if ids != [] {
      RegisterStreamsTracks(RegisterStream(c, receiver, ids[0], codec, keyFor), receiver, ids[1..], codec, keyFor);
      if |ids| > 1 {
        assert ids[1..][|ids[1..]| - 1] == ids[|ids| - 1];
      }
    }
  }

  /** Registration only appends to the key log, and every key it appends is
      a decryptor key on the new receiver. */
  lemma {:induction false} RegisterStreamsKeyLog(c: Client, receiver: Receiver, ids: seq<StreamId>, codec: StreamIdCodec, keyFor: StreamId -> Option<Key>)
    ensures var d := RegisterStreams(c, receiver, ids, codec, keyFor);
      && |d.keyLog| >= |c.keyLog| && d.keyLog[..|c.keyLog|] == c.keyLog
      && (forall i :: |c.keyLog| <= i < |d.keyLog| ==> d.keyLog[i] == DecryptorKey(receiver.handle, d.keyLog[i].key))
    decreases |ids|
  {
    if ids != [] {
      var next := RegisterStream(c, receiver, ids[0], codec, keyFor);
      RegisterStreamsKeyLog(next, receiver, ids[1..], codec, keyFor);
      var d := RegisterStreams(c, receiver, ids, codec, keyFor);
      assert d.keyLog[..|next.keyLog|] == next.keyLog;
      assert d.keyLog[..|c.keyLog|] == d.keyLog[..|next.keyLog|][..|c.keyLog|];
    }
  }

  /** `peerConnection(_:didAdd:streams:)`. */
  function DidAddReceiver(c: Client, receiver: Receiver, streamIds: seq<string>, codec: StreamIdCodec, me: UserId, keyFor: StreamId -> Option<Key>): Client {
    RegisterStreams(c, receiver, AcceptedStreams(streamIds, codec, me), codec, keyFor)
  }

  /** Streams that do not parse, or that belong to the local user, leave no
      trace; each other stream yields one receiver-added event for its owner. */
  lemma DidAddReceiverSkipsUnparsableAndLocal(c: Client, receiver: Receiver, streamIds: seq<string>, codec: StreamIdCodec, me: UserId, keyFor: StreamId -> Option<Key>)
    requires forall s :: s in streamIds ==> codec.parse(s).None? || codec.parse(s).value.userId == me
    ensures DidAddReceiver(c, receiver, streamIds, codec, me, keyFor) == c
  {
    var parsed := CompactMap(streamIds, codec.parse);
    CompactMapOwners(streamIds, codec, me);
    assert forall i :: 0 <= i < |parsed| ==> parsed[i] in parsed;
    FilterNoneKept(parsed, (s: StreamId) => s.userId != me);
  }

  lemma {:induction false} CompactMapOwners(streamIds: seq<string>, codec: StreamIdCodec, me: UserId)
    requires forall s :: s in streamIds ==> codec.parse(s).None? || codec.parse(s).value.userId == me
    ensures forall x :: x in CompactMap(streamIds, codec.parse) ==> x.userId == me
  {
    if streamIds != [] {
      CompactMapOwners(streamIds[1..], codec, me);
    }
  }

  /** The local user is never recorded as a track owner: `didAdd` filters out
      the local user's streams, so audio levels of remote tracks are never
      attributed to it. */
  lemma DidAddReceiverNeverTracksLocalUser(c: Client, receiver: Receiver, streamIds: seq<string>, codec: StreamIdCodec, me: UserId, keyFor: StreamId -> Option<Key>)
    requires me !in c.tracksUserId.Values
    ensures me !in DidAddReceiver(c, receiver, streamIds, codec, me, keyFor).tracksUserId.Values
  {
    var ids := AcceptedStreams(streamIds, codec, me);
    var d := DidAddReceiver(c, receiver, streamIds, codec, me, keyFor);
    RegisterStreamsTracks(c, receiver, ids, codec, keyFor);
    if receiver.trackId.Some? && ids != [] {
      var parsed := CompactMap(streamIds, codec.parse);
      FilterMembership(parsed, (s: StreamId) => s.userId != me, ids[|ids| - 1]);
      assert ids[|ids| - 1] in ids;
      var t := receiver.trackId.value;
      forall v | v in d.tracksUserId.Values ensures v != me {
        var k :| k in d.tracksUserId && d.tracksUserId[k] == v;
        if k != t {
          assert c.tracksUserId[k] == v;
        }
      }
    }
  }

  // ---------------------------------------------------------------------
  // Audio levels

  datatype StatValue = Text(text: string) | Number(number: real) | OtherValue

  datatype Stat = Stat(values: map<string, StatValue>)

  /** A statistics report; `order` is the order in which the dictionary is
      enumerated, which the library does not specify. */
  datatype StatsReport = StatsReport(statistics: map<string, Stat>, order: seq<string>)

  /** A dictionary enumeration visits every key exactly once. */
  predicate WellFormedReport(report: StatsReport) {
    && (forall i, j :: 0 <= i < j < |report.order| ==> report.order[i] != report.order[j])
    && report.statistics.Keys == set k | k in report.order
  }

  function NumberAt(values: map<string, StatValue>, name: string): Option<real> {
    if name in values && values[name].Number? then Some(values[name].number) else None
  }

  function TextAt(values: map<string, StatValue>, name: string): Option<string> {
    if name in values && values[name].Text? then Some(values[name].text) else None
  }

  /** The `audioLevel` of the statistic a sender statistic names as its
      media source, if that source is in the report and holds a number. */
  function SourceLevel(stat: Stat, report: StatsReport): Option<real> {
    match TextAt(stat.values, "mediaSourceId")
    case Some(sourceId) =>
      if sourceId in report.statistics then NumberAt(report.statistics[sourceId].values, "audioLevel") else None
    case None => None
  }

  /** The user a receiver statistic's `trackIdentifier` belongs to, if known. */
  function TrackOwner(stat: Stat, tracksUserId: map<string, UserId>): Option<UserId> {
    match TextAt(stat.values, "trackIdentifier")
    case Some(trackId) => if trackId in tracksUserId then Some(tracksUserId[trackId]) else None
    case None => None
  }

  /** What one statistic reports, if anything: a sender statistic reports the
      local user, at 0 while the local track is disabled and otherwise at its
      media source's level; a receiver statistic reports its track's owner at
      its own level. Everything else, and a statistic missing one of these
      values, reports nothing. */
  function Reading(key: string, stat: Stat, report: StatsReport, trackEnabled: bool, me: UserId,
                   tracksUserId: map<string, UserId>): Option<(UserId, real)>
  {
    if HasPrefix(key, SenderStatPrefix) then
      if !trackEnabled then Some((me, 0.0))
      else if SourceLevel(stat, report).Some? then Some((me, SourceLevel(stat, report).value))
      else None
    else if HasPrefix(key, ReceiverStatPrefix) && TrackOwner(stat, tracksUserId).Some?
         && NumberAt(stat.values, "audioLevel").Some?
    then Some((TrackOwner(stat, tracksUserId).value, NumberAt(stat.values, "audioLevel").value))
    else None
  }

  /** One step of the fold: a sender statistic gives the local level (0 when
      the local track is disabled or absent); a receiver statistic gives the
      level of the track's owner, if the owner and level are known. */
  function LevelStep(acc: map<UserId, real>, key: string, stat: Stat, report: StatsReport,
                     trackEnabled: bool, me: UserId, tracksUserId: map<string, UserId>): (r: map<UserId, real>)
    ensures acc.Keys <= r.Keys <= acc.Keys + {me} + tracksUserId.Values
    ensures forall u :: u in acc && u != me && u !in tracksUserId.Values ==> r[u] == acc[u]
    ensures HasPrefix(key, SenderStatPrefix) && !trackEnabled ==> r == acc[me := 0.0]
    ensures HasPrefix(key, SenderStatPrefix) && trackEnabled ==>
      r == (if SourceLevel(stat, report).Some? then acc[me := SourceLevel(stat, report).value] else acc)
    ensures !HasPrefix(key, SenderStatPrefix) && HasPrefix(key, ReceiverStatPrefix) ==>
      r == (if TrackOwner(stat, tracksUserId).Some? && NumberAt(stat.values, "audioLevel").Some?
            then acc[TrackOwner(stat, tracksUserId).value := NumberAt(stat.values, "audioLevel").value]
            else acc)
    ensures !HasPrefix(key, SenderStatPrefix) && !HasPrefix(key, ReceiverStatPrefix) ==> r == acc
    ensures var rd := Reading(key, stat, report, trackEnabled, me, tracksUserId);
      r == if rd.Some? then acc[rd.value.0 := rd.value.1] else acc
  {
    if HasPrefix(key, SenderStatPrefix) then
      if trackEnabled then
        match TextAt(stat.values, "mediaSourceId")
        case Some(sourceId) =>
          if sourceId in report.statistics && NumberAt(report.statistics[sourceId].values, "audioLevel").Some?
          then acc[me := NumberAt(report.statistics[sourceId].values, "audioLevel").value]
          else acc
        case None => acc
      else acc[me := 0.0]
    else if HasPrefix(key, ReceiverStatPrefix) then
      match TextAt(stat.values, "trackIdentifier")
      case Some(trackId) =>
        if trackId in tracksUserId && NumberAt(stat.values, "audioLevel").Some?
        then acc[tracksUserId[trackId] := NumberAt(stat.values, "audioLevel").value]
        else acc
      case None => acc
    else acc
  }

  /** The `reduce(into:)` over the report, in enumeration order. */
  function FoldLevels(keys: seq<string>, report: StatsReport, trackEnabled: bool, me: UserId,
                      tracksUserId: map<string, UserId>, acc: map<UserId, real>): (r: map<UserId, real>)
    ensures r.Keys <= acc.Keys + {me} + tracksUserId.Values
    ensures !trackEnabled && me !in tracksUserId.Values && (me in acc ==> acc[me] == 0.0) ==>
      (me in r ==> r[me] == 0.0)
    ensures !trackEnabled && me in acc && acc[me] == 0.0 && me !in tracksUserId.Values ==> me in r
    decreases |keys|
  {
    if keys == [] then acc
    else
      var next := if keys[0] in report.statistics
        then LevelStep(acc, keys[0], report.statistics[keys[0]], report, trackEnabled, me, tracksUserId)
        else acc;
      FoldLevels(keys[1..], report, trackEnabled, me, tracksUserId, next)
  }

  /** `audioLevels(completion:)`: without a connection no statistics are
      requested and the completion never runs. */
  function AudioLevels(c: Client, report: StatsReport, me: UserId): (r: Option<map<UserId, real>>)
    ensures r.Some? <==> CanAddRemoteCandidate(c)
    ensures r.Some? ==> r.value.Keys <= {me} + c.tracksUserId.Values
  {
    if c.connection.None? then None
    else
      var enabled := c.audioTrack.Some? && c.audioTrack.value.isEnabled;
      Some(FoldLevels(report.order, report, enabled, me, c.tracksUserId, map[]))
  }

  /** While the local track is muted (disabled) or absent, the local user's
      level is reported as exactly 0 whatever the statistics say, and it is
      reported as soon as the report holds a sender statistic. */
  lemma {:induction false} MutedLocalLevelIsZero(keys: seq<string>, report: StatsReport, me: UserId,
                                                 tracksUserId: map<string, UserId>, acc: map<UserId, real>)
    requires me !in tracksUserId.Values
    requires me in acc ==> acc[me] == 0.0
    ensures var r := FoldLevels(keys, report, false, me, tracksUserId, acc);
      && (me in r ==> r[me] == 0.0)
      && ((exists i :: 0 <= i < |keys| && keys[i] in report.statistics && HasPrefix(keys[i], SenderStatPrefix)) ==> me in r)
    decreases |keys|
  {
    if keys != [] {
      var next := if keys[0] in report.statistics
        then LevelStep(acc, keys[0], report.statistics[keys[0]], report, false, me, tracksUserId)
        else acc;
      MutedLocalLevelIsZero(keys[1..], report, me, tracksUserId, next);
      var r := FoldLevels(keys, report, false, me, tracksUserId, acc);
      if exists i :: 0 <= i < |keys| && keys[i] in report.statistics && HasPrefix(keys[i], SenderStatPrefix) {
        var i :| 0 <= i < |keys| && keys[i] in report.statistics && HasPrefix(keys[i], SenderStatPrefix);
        if i == 0 {
          assert me in next && next[me] == 0.0;
        } else {
          assert keys[1..][i - 1] == keys[i];
        }
      }
    }
  }

  /** With the local track muted or absent, `audioLevels` on a well-formed
      report gives the local user exactly 0, and does so whenever the report
      holds a sender statistic. */
  lemma MutedLocalAudioLevel(c: Client, report: StatsReport, me: UserId)
    requires WellFormedReport(report)
    requires c.connection.Some? && !(c.audioTrack.Some? && c.audioTrack.value.isEnabled)
    requires me !in c.tracksUserId.Values
    ensures var r := AudioLevels(c, report, me).value;
      && (me in r ==> r[me] == 0.0)
      && ((exists k :: k in report.statistics && HasPrefix(k, SenderStatPrefix)) ==> me in r)
  {
    MutedLocalLevelIsZero(report.order, report, me, c.tracksUserId, map[]);
    if exists k :: k in report.statistics && HasPrefix(k, SenderStatPrefix) {
      var k :| k in report.statistics && HasPrefix(k, SenderStatPrefix);
      var i :| 0 <= i < |report.order| && report.order[i] == k;
      assert report.order[i] in report.statistics && HasPrefix(report.order[i], SenderStatPrefix);
    }
  }

  /** The reading for `u` of the last statistic in `keys` that reports `u`:
      an independent, right-to-left description of what the fold keeps. */
  function LastReading(keys: seq<string>, report: StatsReport, trackEnabled: bool, me: UserId,
                       tracksUserId: map<string, UserId>, u: UserId): Option<real>
    decreases |keys|
  {
    if keys == [] then None
    else
      var k := keys[|keys| - 1];
      var rd := if k in report.statistics then Reading(k, report.statistics[k], report, trackEnabled, me, tracksUserId) else None;
      if rd.Some? && rd.value.0 == u then Some(rd.value.1)
      else LastReading(keys[..|keys| - 1], report, trackEnabled, me, tracksUserId, u)
  }

  /** Folding one more key is one more step on the fold so far. */
  lemma {:induction false} FoldLevelsSnoc(keys: seq<string>, k: string, report: StatsReport, trackEnabled: bool,
                                          me: UserId, tracksUserId: map<string, UserId>, acc: map<UserId, real>)
    ensures var before := FoldLevels(keys, report, trackEnabled, me, tracksUserId, acc);
      FoldLevels(keys + [k], report, trackEnabled, me, tracksUserId, acc)
        == if k in report.statistics
           then LevelStep(before, k, report.statistics[k], report, trackEnabled, me, tracksUserId)
           else before
    decreases |keys|
  {
    if keys == [] {
      assert [] + [k] == [k];
      assert [k][1..] == [];
    } else {
      var next := if keys[0] in report.statistics
        then LevelStep(acc, keys[0], report.statistics[keys[0]], report, trackEnabled, me, tracksUserId)
        else acc;
      assert (keys + [k])[0] == keys[0];
      assert (keys + [k])[1..] == keys[1..] + [k];
      FoldLevelsSnoc(keys[1..], k, report, trackEnabled, me, tracksUserId, next);
    }
  }

  /** The fold reports for `u` the reading of the last statistic, in
      enumeration order, that reports `u`; with none, `u`'s entry is the
      starting one. For a remote user that is the last receiver statistic
      whose track `u` owns and that carries an `audioLevel`. */
  lemma {:induction false} FoldLevelsLastWins(keys: seq<string>, report: StatsReport, trackEnabled: bool, me: UserId,
                                              tracksUserId: map<string, UserId>, acc: map<UserId, real>, u: UserId)
    ensures var r := FoldLevels(keys, report, trackEnabled, me, tracksUserId, acc);
      var last := LastReading(keys, report, trackEnabled, me, tracksUserId, u);
      && (u in r <==> last.Some? || u in acc)
      && (last.Some? ==> r[u] == last.value)
      && (last.None? && u in acc ==> r[u] == acc[u])
    decreases |keys|
  {
    if keys != [] {
      var init := keys[..|keys| - 1];
      var k := keys[|keys| - 1];
      assert init + [k] == keys;
      FoldLevelsSnoc(init, k, report, trackEnabled, me, tracksUserId, acc);
      FoldLevelsLastWins(init, report, trackEnabled, me, tracksUserId, acc, u);
    }
  }

  /** `audioLevels` reports a user exactly when some statistic reports that
      user, and at the level of the last such statistic. */
  lemma AudioLevelsLastWins(c: Client, report: StatsReport, me: UserId, u: UserId)
    requires c.connection.Some?
    ensures var enabled := c.audioTrack.Some? && c.audioTrack.value.isEnabled;
      var last := LastReading(report.order, report, enabled, me, c.tracksUserId, u);
      var r := AudioLevels(c, report, me).value;
      && (u in r <==> last.Some?)
      && (last.Some? ==> r[u] == last.value)
  {
    var enabled := c.audioTrack.Some? && c.audioTrack.value.isEnabled;
    FoldLevelsLastWins(report.order, report, enabled, me, c.tracksUserId, map[], u);
  }

  /** A concrete report: the local user's enabled track reads its media
      source's level, a receiver with a known track reads its own level, and
      a receiver with an unknown track is dropped. */
  lemma AudioLevelsScenario(c: Client, me: UserId, alice: UserId)
    requires c.connection.Some? && c.audioTrack.Some? && c.audioTrack.value.isEnabled
    requires c.tracksUserId == map["t1" := alice] && alice != me
    ensures var src := Stat(map["audioLevel" := Number(0.5)]);
      var snd := Stat(map["mediaSourceId" := Text("src")]);
      var rcv := Stat(map["trackIdentifier" := Text("t1"), "audioLevel" := Number(0.25)]);
      var lost := Stat(map["trackIdentifier" := Text("t9"), "audioLevel" := Number(0.75)]);
      var sk := SenderStatPrefix + "1";
      var rk := ReceiverStatPrefix + "1";
      var lk := ReceiverStatPrefix + "2";
      var report := StatsReport(map["src" := src, sk := snd, rk := rcv, lk := lost], ["src", sk, rk, lk]);
      AudioLevels(c, report, me) == Some(map[me := 0.5, alice := 0.25])
  {
    var src := Stat(map["audioLevel" := Number(0.5)]);
    var snd := Stat(map["mediaSourceId" := Text("src")]);
    var rcv := Stat(map["trackIdentifier" := Text("t1"), "audioLevel" := Number(0.25)]);
    var lost := Stat(map["trackIdentifier" := Text("t9"), "audioLevel" := Number(0.75)]);
    var sk := SenderStatPrefix + "1";
    var rk := ReceiverStatPrefix + "1";
    var lk := ReceiverStatPrefix + "2";
    assert HasPrefix(sk, SenderStatPrefix) && !HasPrefix("src", SenderStatPrefix) && !HasPrefix("src", ReceiverStatPrefix);
    assert rk[..|SenderStatPrefix|][20] == 'r' != SenderStatPrefix[20];
    assert lk[..|SenderStatPrefix|][20] == 'r' != SenderStatPrefix[20];
    assert rk[..|ReceiverStatPrefix|] == ReceiverStatPrefix && lk[..|ReceiverStatPrefix|] == ReceiverStatPrefix;
    var report := StatsReport(map["src" := src, sk := snd, rk := rcv, lk := lost], ["src", sk, rk, lk]);
    var order := ["src", sk, rk, lk];
    assert sk != "src" && rk != "src" && lk != "src" && rk != sk && lk != sk && lk != rk by {
      assert |sk| == 28 && |rk| == 30 && |lk| == 30 && rk[29] != lk[29];
    }
    assert report.statistics["src"] == src && report.statistics[sk] == snd;
    assert report.statistics[rk] == rcv && report.statistics[lk] == lost;
    assert order[1..] == [sk, rk, lk] && order[1..][1..] == [rk, lk] && order[1..][1..][1..] == [lk];
    var m0 := LevelStep(map[], "src", src, report, true, me, c.tracksUserId);
    assert m0 == map[];
    var m1 := LevelStep(m0, sk, snd, report, true, me, c.tracksUserId);
    assert m1 == map[me := 0.5];
    var m2 := LevelStep(m1, rk, rcv, report, true, me, c.tracksUserId);
    assert m2 == map[me := 0.5, alice := 0.25];
    var m3 := LevelStep(m2, lk, lost, report, true, me, c.tracksUserId);
    assert m3 == m2;
    calc {
      AudioLevels(c, report, me).value;
      FoldLevels(order, report, true, me, c.tracksUserId, map[]);
      FoldLevels([sk, rk, lk], report, true, me, c.tracksUserId, m0);
      FoldLevels([rk, lk], report, true, me, c.tracksUserId, m1);
      FoldLevels([lk], report, true, me, c.tracksUserId, m2);
      FoldLevels([], report, true, me, c.tracksUserId, m3);
    }
  }

  // ---------------------------------------------------------------------
  // Muting and the lifetime invariant

  /** The owner mutes or unmutes by toggling the local track's `isEnabled`;
      without a track there is nothing to toggle. */
  function SetAudioEnabled(c: Client, enabled: bool): (d: Client)
    ensures c.audioTrack.None? ==> d == c
    ensures c.audioTrack.Some? ==> d.audioTrack == Some(c.audioTrack.value.(isEnabled := enabled))
    ensures d == c.(audioTrack := d.audioTrack)
  {
    match c.audioTrack
    case Some(t) => c.(audioTrack := Some(t.(isEnabled := enabled)))
    case None => c
  }

  /** Everything that can happen to a client: the owner's calls and the
      connection's delegate callbacks. */
  datatype Action =
    | DoOffer(env: FetchEnv, key: Option<Key>, h: Handles, reply: SdpReply)
    | DoAnswer(env: FetchEnv, h: Handles, reply: SdpReply)
    | DoSetRemote(env: FetchEnv, h: Handles, sdp: string, error: Option<TransportError>)
    | DoAddCandidate(candidate: Candidate)
    | DoSetEncryptorKey(key: Option<Key>)
    | DoSetDecryptorKey(key: Option<Key>, userId: UserId, sessionId: string)
    | DoSetAudioEnabled(enabled: bool)
    | DoClose
    | OnPeerState(peerState: PeerConnectionState)
    | OnIceState(iceState: IceConnectionState)
    | OnReceiver(receiver: Receiver, streamIds: seq<string>)
    | OnLocalCandidate(candidate: Candidate)

  function Apply(c: Client, a: Action, codec: StreamIdCodec, me: UserId, keyFor: StreamId -> Option<Key>): Client {
    match a
    case DoOffer(env, key, h, reply) => Offer(c, env, key, h, reply).0
    case DoAnswer(env, h, reply) => Answer(c, env, h, reply).0
    case DoSetRemote(env, h, sdp, error) => SetRemoteDescription(c, env, h, sdp, error).0
    case DoAddCandidate(candidate) => AddRemoteCandidate(c, candidate)
    case DoSetEncryptorKey(key) => SetFrameEncryptorKey(c, key)
    case DoSetDecryptorKey(key, userId, sessionId) => SetFrameDecryptorKey(c, key, userId, sessionId, codec)
    case DoSetAudioEnabled(enabled) => SetAudioEnabled(c, enabled)
    case DoClose => Close(c)
    case OnPeerState(state) => PeerStateChanged(c, state)
    case OnIceState(state) => IceStateDidChange(c, state)
    case OnReceiver(receiver, streamIds) => DidAddReceiver(c, receiver, streamIds, codec, me, keyFor)
    case OnLocalCandidate(candidate) => LocalCandidateGenerated(c, candidate)
  }

  function Run(c: Client, actions: seq<Action>, codec: StreamIdCodec, me: UserId, keyFor: StreamId -> Option<Key>): Client
    decreases |actions|
  {
    if actions == [] then c else Run(Apply(c, actions[0], codec, me, keyFor), actions[1..], codec, me, keyFor)
  }

  /** The lifetime invariant: connection, track and sender come and go
      together; `close()` is permanent and no connection is ever built after
      it; and the local user never owns a remote track. */
  predicate Healthy(c: Client, me: UserId) {
    Coupled(c) && me !in c.tracksUserId.Values
  }

  lemma ApplyKeepsHealthy(c: Client, a: Action, codec: StreamIdCodec, me: UserId, keyFor: StreamId -> Option<Key>)
    requires Healthy(c, me)
    ensures Healthy(Apply(c, a, codec, me, keyFor), me)
    ensures c.isClosed ==> Apply(c, a, codec, me, keyFor).isClosed
  {
    match a
    case OnReceiver(receiver, streamIds) =>
      DidAddReceiverNeverTracksLocalUser(c, receiver, streamIds, codec, me, keyFor);
    case DoOffer(env, key, h, reply) =>
      var built := MakePeerConnectionIfNeeded(c, env, key, h);
      assert Coupled(built.client);
    case DoAnswer(env, h, reply) =>
      var built := MakePeerConnectionIfNeeded(c, env, None, h);
      assert Coupled(built.client);
    case DoSetRemote(env, h, sdp, error) =>
      var built := MakePeerConnectionIfNeeded(c, env, None, h);
      assert Coupled(built.client);
    case _ =>
  }

  /** From a fresh client, whatever happens, the invariant holds; once
      closed, a client stays closed and connection-less. */
  lemma {:induction false} RunKeepsHealthy(c: Client, actions: seq<Action>, codec: StreamIdCodec, me: UserId, keyFor: StreamId -> Option<Key>)
    requires Healthy(c, me)
    ensures Healthy(Run(c, actions, codec, me, keyFor), me)
    ensures c.isClosed ==> Run(c, actions, codec, me, keyFor).isClosed && !CanAddRemoteCandidate(Run(c, actions, codec, me, keyFor))
    decreases |actions|
  {
    if actions != [] {
      ApplyKeepsHealthy(c, actions[0], codec, me, keyFor);
      RunKeepsHealthy(Apply(c, actions[0], codec, me, keyFor), actions[1..], codec, me, keyFor);
    }
  }

  lemma NewClientIsHealthy(me: UserId)
    ensures Healthy(NewClient(), me)
  {
  }
}
