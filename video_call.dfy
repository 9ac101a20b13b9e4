/**
 * The client's call session (frontend/src/hooks/useVideoCall.js): the React state and refs of
 * the `useVideoCall` hook become the fields of `CallSession`, each callback one of its methods.
 *
 * Foreign objects are opaque handles. An RTCPeerConnection is a `ConnHandle`, a WebSocket a
 * `Socket` value carrying its ready state, the local capture stream a `MediaStream` value with
 * the `enabled` flags of its tracks. Every call the hook makes into such an object that changes
 * it (opening or closing a socket, creating or closing a connection, setting descriptions,
 * stopping tracks, ...) is appended to `effects`; every frame sent on the socket to `outbox`.
 * Results of asynchronous browser calls (fetch, getUserMedia, the offer/answer steps) are
 * parameters.
 */
module VideoCall {
  import opened Wrappers
  import opened Json
  import Lists
  import EnvConfig

  type Sdp = string
  type Candidate = string

  /** An RTCPeerConnection object */
  type ConnHandle = nat

  /** A WebSocket object */
  type SocketId = nat

  /** A remote MediaStream object (`event.streams[0]`) */
  type RemoteMedia = nat

  /** The local capture stream: the `enabled` flags of its audio tracks and of its video tracks */
  datatype MediaStream = MediaStream(id: nat, audio: seq<bool>, video: seq<bool>)

  /** An entry of `remoteStreams` */
  datatype RemoteStream = RemoteStream(participantId: string, stream: RemoteMedia)

  datatype ReadyState = Connecting | Open | Closing | Closed

  datatype Socket = Socket(id: SocketId, url: string, readyState: ReadyState)

  /** `currentRoom`: the creation response `{room_id, room_key}` or the joined `{id, key}` */
  datatype CurrentRoom = CreatedRoom(roomId: string, roomKey: string) | JoinedRoom(id: string, key: string)

  /** A signaling message as the dispatcher receives it, by its `type` */
  datatype Message =
    | RoomJoined(participants: Option<seq<Object>>)
    | ParticipantJoined(participant: Object)
    | ParticipantLeft(participantId: string)
    | Offer(offer: Sdp, from: string)
    | Answer(answer: Sdp, from: string)
    | IceCandidate(candidate: Candidate, from: string)
    | ParticipantUpdated(participant: Object)
    | Unknown(messageType: string)

  /** A frame the client sends */
  datatype Frame =
    | AnswerFrame(answer: Sdp, to: string)
    | IceCandidateFrame(candidate: Candidate, to: string)
    | MuteUpdate(isMuted: bool)           // {type: 'participant_update', data: {isMuted}}
    | VideoUpdate(isVideoOff: bool)       // {type: 'participant_update', data: {isVideoOff}}

  /** A call into a browser object */
  datatype Effect =
    | FetchRoom(url: string)
    | RequestMedia
    | OpenSocket(socket: SocketId, url: string)
    | CloseSocket(socket: SocketId)
    | CreatePeer(h: ConnHandle, participantId: string)
    | AttachTracks(h: ConnHandle, stream: nat)
    | SetRemoteDescription(h: ConnHandle, sdp: Sdp)
    | SetLocalDescription(h: ConnHandle, sdp: Sdp)
    | AddIceCandidate(h: ConnHandle, candidate: Candidate)
    | RestartIce(h: ConnHandle)
    | ClosePeer(h: ConnHandle)
    | StopTracks(stream: nat)

  /** How the awaited steps of `handleOffer` end: which step threw, or the answer */
  datatype OfferOutcome =
    | RemoteRejected            // setRemoteDescription threw
    | AnswerFailed              // createAnswer threw
    | LocalRejected(answer: Sdp) // setLocalDescription threw
    | Answered(answer: Sdp)

  /** The body of the room-creation response, `None` for a missing field */
  datatype RoomBody = RoomBody(roomId: Option<string>, roomKey: Option<string>)

  /** What `fetch` yields: a network failure, or a response whose body may not be JSON */
  datatype FetchOutcome = NetworkError | Response(ok: bool, body: Option<RoomBody>)

  datatype CallError = RequestFailed | NotOk | BodyNotJson | InvalidRoomResponse | MediaUnavailable

  /** The whole state of the hook, as one value */
  datatype Session = Session(
    currentRoom: Option<CurrentRoom>,
    isConnected: bool,
    participants: seq<Object>,
    localStream: Option<MediaStream>,
    remoteStreams: seq<RemoteStream>,
    isMuted: bool,
    isVideoOff: bool,
    isLoading: bool,
    ws: Option<Socket>,
    peers: map<string, ConnHandle>,
    outbox: seq<Frame>,
    effects: seq<Effect>,
    nextHandle: nat,
    nextSocket: nat)

  // ---------------------------------------------------------------------------
  // List transforms passed to setParticipants / setRemoteStreams

  /** `prev.filter(p => p.id !== id)` */
  function WithoutParticipant(ps: seq<Object>, id: string): (r: seq<Object>)
    ensures forall i :: 0 <= i < |r| ==> r[i] in ps && !HasId(r[i], id)
    ensures forall i :: 0 <= i < |ps| && !HasId(ps[i], id) ==> ps[i] in r
  {
    Lists.Filter(ps, NotParticipant(id))
  }

  function NotParticipant(id: string): Object -> bool {
    (p: Object) => !HasId(p, id)
  }

  /**
   * `WithoutParticipant` is the order-preserving removal: nothing from nothing, and a list
   * grown by one entry loses exactly that entry when it carries the id.
   */
  lemma WithoutParticipantSnoc(ps: seq<Object>, p: Object, id: string)
    ensures WithoutParticipant([], id) == []
    ensures WithoutParticipant(ps + [p], id) == WithoutParticipant(ps, id) + (if HasId(p, id) then [] else [p])
  {
    Lists.FilterAppend(ps, [p], NotParticipant(id));
    assert [p][1..] == [];
  }

  /** A list with no entry for `id` is left as it is */
  lemma WithoutAbsentParticipant(ps: seq<Object>, id: string)
    requires forall i :: 0 <= i < |ps| ==> !HasId(ps[i], id)
    ensures WithoutParticipant(ps, id) == ps
  {
    Lists.FilterKeepsAll(ps, NotParticipant(id));
  }

  /** `prev.filter(s => s.participantId !== id)` */
  function WithoutStreams(rs: seq<RemoteStream>, id: string): (r: seq<RemoteStream>)
    ensures forall i :: 0 <= i < |r| ==> r[i] in rs && r[i].participantId != id
    ensures forall i :: 0 <= i < |rs| && rs[i].participantId != id ==> rs[i] in r
  {
    Lists.Filter(rs, NotStreamOf(id))
  }

  function NotStreamOf(id: string): RemoteStream -> bool {
    (s: RemoteStream) => s.participantId != id
  }

  /** `WithoutStreams` is the order-preserving removal of the streams of `id` */
  lemma WithoutStreamsSnoc(rs: seq<RemoteStream>, r: RemoteStream, id: string)
    ensures WithoutStreams([], id) == []
    ensures WithoutStreams(rs + [r], id) == WithoutStreams(rs, id) + (if r.participantId == id then [] else [r])
  {
    Lists.FilterAppend(rs, [r], NotStreamOf(id));
    assert [r][1..] == [];
  }

  /** A list with no stream of `id` is left as it is */
  lemma WithoutAbsentStreams(rs: seq<RemoteStream>, id: string)
    requires !HasStream(rs, id)
    ensures WithoutStreams(rs, id) == rs
  {
    Lists.FilterKeepsAll(rs, NotStreamOf(id));
  }

  /** `p.id === u.id`, where both ids may be undefined */
  predicate SameId(p: Object, u: Object) {
    Get(p, "id") == Get(u, "id")
  }

  /** `prev.map(p => p.id === u.id ? {...p, ...u} : p)` */
  function MergeUpdate(ps: seq<Object>, u: Object): (r: seq<Object>)
    ensures |r| == |ps|
    ensures forall i :: 0 <= i < |ps| ==> SameId(r[i], ps[i])
    ensures forall i :: 0 <= i < |ps| && !SameId(ps[i], u) ==> r[i] == ps[i]
    ensures forall i :: 0 <= i < |ps| && SameId(ps[i], u) ==> r[i] == Spread(ps[i], u)
  {
    seq(|ps|, i requires 0 <= i < |ps| => if SameId(ps[i], u) then Spread(ps[i], u) else ps[i])
  }

  function StreamKey(s: RemoteStream): string {
    s.participantId
  }

  predicate HasStream(rs: seq<RemoteStream>, id: string) {
    exists i :: 0 <= i < |rs| && rs[i].participantId == id
  }

  /** `prev.map(s => s.participantId === id ? {...s, stream} : s)` */
  function ReplaceStream(rs: seq<RemoteStream>, id: string, stream: RemoteMedia): (r: seq<RemoteStream>)
    ensures |r| == |rs|
    ensures forall i :: 0 <= i < |rs| ==> r[i].participantId == rs[i].participantId
    ensures forall i :: 0 <= i < |rs| ==> r[i].stream == if rs[i].participantId == id then stream else rs[i].stream
  {
    if rs == [] then []
    else [if rs[0].participantId == id then rs[0].(stream := stream) else rs[0]] + ReplaceStream(rs[1..], id, stream)
  }

  /** The `ontrack` update: replace the entry of `id` in place, or append one */
  function UpsertStream(rs: seq<RemoteStream>, id: string, stream: RemoteMedia): (r: seq<RemoteStream>)
    ensures HasStream(r, id)
    ensures HasStream(rs, id) ==> r == ReplaceStream(rs, id, stream)
    ensures !HasStream(rs, id) ==> r == rs + [RemoteStream(id, stream)]
  {
    if HasStream(rs, id) then ReplaceStream(rs, id, stream)
    else
      var r := rs + [RemoteStream(id, stream)];
      assert r[|rs|].participantId == id;
      r
  }

  /** The upsert never creates a second entry for a participant: unique ids stay unique */
  lemma UpsertKeepsIdsUnique(rs: seq<RemoteStream>, id: string, stream: RemoteMedia)
    requires Lists.UniqueBy(rs, StreamKey)
    ensures Lists.UniqueBy(UpsertStream(rs, id, stream), StreamKey)
    ensures var r := UpsertStream(rs, id, stream);
      forall i, j :: 0 <= i < |r| && 0 <= j < |r| && r[i].participantId == id && r[j].participantId == id ==> i == j
  {
    var r := UpsertStream(rs, id, stream);
    if !HasStream(rs, id) {
      forall i, j | 0 <= i < j < |r| ensures StreamKey(r[i]) != StreamKey(r[j]) {
        if j == |rs| {
          assert r[i] == rs[i];
        } else {
          assert r[i] == rs[i] && r[j] == rs[j];
        }
      }
    }
  }

  /** Removing a participant's streams keeps ids unique */
  lemma WithoutStreamsKeepsIdsUnique(rs: seq<RemoteStream>, id: string)
    requires Lists.UniqueBy(rs, StreamKey)
    ensures Lists.UniqueBy(WithoutStreams(rs, id), StreamKey)
  {
    Lists.FilterUniqueBy(rs, NotStreamOf(id), StreamKey);
  }

  // ---------------------------------------------------------------------------
  // The session state and its invariant

  predicate SocketOpen(ws: Option<Socket>) {
    ws.Some? && ws.value.readyState == Open
  }

  predicate IsOpen(s: Session) {
    SocketOpen(s.ws)
  }

  /** The state `leaveRoom` leaves behind */
  predicate TornDown(s: Session) {
    && s.currentRoom.None? && !s.isConnected && s.participants == [] && s.localStream.None?
    && s.remoteStreams == [] && !s.isMuted && !s.isVideoOff && s.ws.None? && s.peers == map[]
  }

  /** No connection is closed twice */
  predicate ClosedAtMostOnce(effects: seq<Effect>) {
    forall i, j :: 0 <= i < j < |effects| && effects[i].ClosePeer? && effects[j].ClosePeer? ==>
      effects[i].h != effects[j].h
  }

  /** Every connection that was closed had been allocated */
  predicate ClosesAllocated(effects: seq<Effect>, next: nat) {
    forall i :: 0 <= i < |effects| && effects[i].ClosePeer? ==> effects[i].h < next
  }

  /** The map holds connections that were allocated and not closed, one per participant */
  predicate PeersLive(peers: map<string, ConnHandle>, effects: seq<Effect>, next: nat) {
    && (forall id :: id in peers ==> peers[id] < next)
    && (forall a, b :: a in peers && b in peers && a != b ==> peers[a] != peers[b])
    && (forall id :: id in peers ==> ClosePeer(peers[id]) !in effects)
  }

  /** Calls that close no connection */
  predicate NoCloses(e: seq<Effect>) {
    forall i :: 0 <= i < |e| ==> !e[i].ClosePeer?
  }

  /**
   * Handles are allocated fresh; the connection map holds distinct, open connections; no
   * connection is closed twice; at most one remote stream per participant.
   */
  predicate Consistent(s: Session) {
    && PeersLive(s.peers, s.effects, s.nextHandle)
    && ClosesAllocated(s.effects, s.nextHandle)
    && ClosedAtMostOnce(s.effects)
    && (s.ws.Some? ==> s.ws.value.id < s.nextSocket)
    && Lists.UniqueBy(s.remoteStreams, StreamKey)
  }

  /** Calls that close nothing keep the connection bookkeeping */
  lemma AppendNoCloses(peers: map<string, ConnHandle>, effects: seq<Effect>, e: seq<Effect>, next: nat)
    requires PeersLive(peers, effects, next) && ClosesAllocated(effects, next) && ClosedAtMostOnce(effects)
    requires NoCloses(e)
    ensures PeersLive(peers, effects + e, next) && ClosesAllocated(effects + e, next) && ClosedAtMostOnce(effects + e)
  {
    var r := effects + e;
    assert forall j :: |effects| <= j < |r| ==> r[j] == e[j - |effects|];
  }

  /** Closing a connection of the map and dropping it keeps the connection bookkeeping */
  lemma CloseAndForget(peers: map<string, ConnHandle>, effects: seq<Effect>, id: string, next: nat)
    requires PeersLive(peers, effects, next) && ClosesAllocated(effects, next) && ClosedAtMostOnce(effects)
    requires id in peers
    ensures var r := effects + [ClosePeer(peers[id])];
      PeersLive(peers - {id}, r, next) && ClosesAllocated(r, next) && ClosedAtMostOnce(r)
  {
    var c := ClosePeer(peers[id]);
    var r := effects + [c];
    forall i, j | 0 <= i < j < |r| && r[i].ClosePeer? && r[j].ClosePeer? ensures r[i].h != r[j].h {
      if j == |effects| {
        assert r[i] == effects[i] && effects[i] != c;
      }
    }
    forall k | k in peers - {id} ensures ClosePeer(peers[k]) !in r {
      assert peers[k] != peers[id];
    }
  }

  /** Installing a fresh handle keeps the connection bookkeeping */
  lemma InstallFresh(peers: map<string, ConnHandle>, effects: seq<Effect>, id: string, next: nat)
    requires PeersLive(peers, effects, next) && ClosesAllocated(effects, next) && ClosedAtMostOnce(effects)
    ensures PeersLive(peers[id := next], effects, next + 1) && ClosesAllocated(effects, next + 1)
  {
    assert ClosePeer(next) !in effects;
  }

  /** The frames `if (wsRef.current?.readyState === WebSocket.OPEN) wsRef.current.send(f)` sends */
  function Sent(ws: Option<Socket>, f: Frame): seq<Frame> {
    if SocketOpen(ws) then [f] else []
  }

  /** What `createPeerConnection` does to the connection: create it, attach the local tracks */
  function PeerSetup(h: ConnHandle, participantId: string, local: Option<MediaStream>): seq<Effect> {
    [CreatePeer(h, participantId)] + (if local.Some? then [AttachTracks(h, local.value.id)] else [])
  }

  /** The description calls `handleOffer` makes, up to the step that threw */
  function OfferCalls(h: ConnHandle, offer: Sdp, outcome: OfferOutcome): seq<Effect> {
    [SetRemoteDescription(h, offer)] +
    match outcome
    case RemoteRejected => []
    case AnswerFailed => []
    case LocalRejected(a) => [SetLocalDescription(h, a)]
    case Answered(a) => [SetLocalDescription(h, a)]
  }

  /** The answer `handleOffer` sends, when it got that far */
  function OfferReply(ws: Option<Socket>, from: string, outcome: OfferOutcome): seq<Frame> {
    if outcome.Answered? then Sent(ws, AnswerFrame(outcome.answer, from)) else []
  }

  /** `handleOffer(offer, from)` */
  function AfterOffer(s: Session, offer: Sdp, from: string, outcome: OfferOutcome): Session {
    var h := s.nextHandle;
    s.(peers := s.peers[from := h],
       nextHandle := h + 1,
       effects := s.effects + (PeerSetup(h, from, s.localStream) + OfferCalls(h, offer, outcome)),
       outbox := s.outbox + OfferReply(s.ws, from, outcome))
  }

  /** `handleAnswer(answer, from)` */
  function AfterAnswer(s: Session, answer: Sdp, from: string): Session {
    if from in s.peers then s.(effects := s.effects + [SetRemoteDescription(s.peers[from], answer)]) else s
  }

  /** `handleIceCandidate(candidate, from)` */
  function AfterIceCandidate(s: Session, candidate: Candidate, from: string): Session {
    if from in s.peers then s.(effects := s.effects + [AddIceCandidate(s.peers[from], candidate)]) else s
  }

  /** The `participant_left` case */
  function AfterParticipantLeft(s: Session, id: string): Session {
    s.(
      participants := WithoutParticipant(s.participants, id),
      peers := s.peers - {id},
      effects := s.effects + (if id in s.peers then [ClosePeer(s.peers[id])] else []),
      remoteStreams := WithoutStreams(s.remoteStreams, id))
  }

  /** `handleWebSocketMessage(data)`; `outcome` is used by an offer only */
  function AfterMessage(s: Session, m: Message, outcome: OfferOutcome): Session {
    match m
    case RoomJoined(ps) => s.(participants := if ps.Some? then ps.value else [])
    case ParticipantJoined(p) => s.(participants := s.participants + [p])
    case ParticipantLeft(id) => AfterParticipantLeft(s, id)
    case Offer(offer, from) => AfterOffer(s, offer, from, outcome)
    case Answer(answer, from) => AfterAnswer(s, answer, from)
    case IceCandidate(candidate, from) => AfterIceCandidate(s, candidate, from)
    case ParticipantUpdated(u) => s.(participants := MergeUpdate(s.participants, u))
    case Unknown(_) => s
  }

  /** `toggleMute()` */
  function AfterToggleMute(s: Session): Session {
    if s.localStream.Some? && |s.localStream.value.audio| > 0 then
      var st := s.localStream.value;
      var enabled := !st.audio[0];
      s.(localStream := Some(st.(audio := st.audio[0 := enabled])), isMuted := !enabled,
         outbox := s.outbox + Sent(s.ws, MuteUpdate(!enabled)))
    else s
  }

  /** `toggleVideo()` */
  function AfterToggleVideo(s: Session): Session {
    if s.localStream.Some? && |s.localStream.value.video| > 0 then
      var st := s.localStream.value;
      var enabled := !st.video[0];
      s.(localStream := Some(st.(video := st.video[0 := enabled])), isVideoOff := !enabled,
         outbox := s.outbox + Sent(s.ws, VideoUpdate(!enabled)))
    else s
  }

  /** The `close()` calls of `peerConnectionsRef.current.forEach(pc => pc.close())`, in `order` */
  function ClosesFor(m: map<string, ConnHandle>, order: seq<string>): (r: seq<Effect>)
    requires forall i :: 0 <= i < |order| ==> order[i] in m
    ensures |r| == |order|
    ensures forall i :: 0 <= i < |order| ==> r[i] == ClosePeer(m[order[i]])
  {
    if order == [] then [] else ClosesFor(m, order[..|order| - 1]) + [ClosePeer(m[order[|order| - 1]])]
  }

  /** One more key in the order closes one more connection, at the end */
  lemma ClosesForSnoc(m: map<string, ConnHandle>, order: seq<string>, k: string)
    requires forall i :: 0 <= i < |order| ==> order[i] in m
    requires k in m
    ensures ClosesFor(m, order + [k]) == ClosesFor(m, order) + [ClosePeer(m[k])]
  {
    assert (order + [k])[..|order|] == order;
  }

  /** The URL `connectWebSocket` opens */
  function SocketUrl(c: EnvConfig.Config, roomId: string, roomKey: string): (url: string)
    ensures url == EnvConfig.GetWsUrl(c, "/ws/" + roomId + "?key=" + roomKey)
    ensures url[..|c.wsBase|] == c.wsBase
    ensures url[|c.wsBase|..|c.wsBase| + 4] == "/ws/" && url[|url| - |roomKey|..] == roomKey
  {
    c.wsBase + "/ws/" + roomId + "?key=" + roomKey
  }

  // ---------------------------------------------------------------------------
  // Properties of the message handlers

  /** An offer keeps the invariant, and does not close a connection it replaces */
  lemma OfferConsistent(s: Session, offer: Sdp, from: string, outcome: OfferOutcome)
    requires Consistent(s)
    ensures Consistent(AfterOffer(s, offer, from, outcome))
    ensures from in s.peers ==> ClosePeer(s.peers[from]) !in AfterOffer(s, offer, from, outcome).effects
  {
    var h := s.nextHandle;
    var e := PeerSetup(h, from, s.localStream) + OfferCalls(h, offer, outcome);
    assert NoCloses(e);
    InstallFresh(s.peers, s.effects, from, h);
    AppendNoCloses(s.peers[from := h], s.effects, e, h + 1);
    AppendNoCloses(s.peers, s.effects, e, h);
  }

  /** `participant_left` keeps the invariant */
  lemma ParticipantLeftConsistent(s: Session, id: string)
    requires Consistent(s)
    ensures Consistent(AfterParticipantLeft(s, id))
  {
    WithoutStreamsKeepsIdsUnique(s.remoteStreams, id);
    if id in s.peers {
      CloseAndForget(s.peers, s.effects, id, s.nextHandle);
    } else {
      assert s.peers - {id} == s.peers;
      assert s.effects + [] == s.effects;
    }
  }

  /** Every handler keeps the session's invariant */
  lemma AfterMessageConsistent(s: Session, m: Message, outcome: OfferOutcome)
    requires Consistent(s)
    ensures Consistent(AfterMessage(s, m, outcome))
  {
    match m {
      case ParticipantLeft(id) =>
        ParticipantLeftConsistent(s, id);
      case Offer(offer, from) =>
        OfferConsistent(s, offer, from, outcome);
      case Answer(answer, from) =>
        if from in s.peers {
          AppendNoCloses(s.peers, s.effects, [SetRemoteDescription(s.peers[from], answer)], s.nextHandle);
        }
      case IceCandidate(candidate, from) =>
        if from in s.peers {
          AppendNoCloses(s.peers, s.effects, [AddIceCandidate(s.peers[from], candidate)], s.nextHandle);
        }
      case _ =>
    }
  }

  /**
   * `participant_left` for `id` removes every participant with that id and every remote stream
   * of it, closes and deletes its connection when there is one, and changes nothing else.
   */
  lemma ParticipantLeftRemovesEverything(s: Session, id: string)
    ensures var r := AfterParticipantLeft(s, id);
      && (forall i :: 0 <= i < |r.participants| ==> !HasId(r.participants[i], id))
      && (forall i :: 0 <= i < |s.participants| && !HasId(s.participants[i], id) ==> s.participants[i] in r.participants)
      && !HasStream(r.remoteStreams, id)
      && (forall i :: 0 <= i < |s.remoteStreams| && s.remoteStreams[i].participantId != id ==>
            s.remoteStreams[i] in r.remoteStreams)
      && r.participants == WithoutParticipant(s.participants, id)
      && r.remoteStreams == WithoutStreams(s.remoteStreams, id)
      && id !in r.peers && (forall k :: k in s.peers && k != id ==> k in r.peers && r.peers[k] == s.peers[k])
      && (id in s.peers ==> r.effects == s.effects + [ClosePeer(s.peers[id])])
      && (id !in s.peers ==> r.effects == s.effects)
      && ((forall i :: 0 <= i < |s.participants| ==> !HasId(s.participants[i], id)) ==> r.participants == s.participants)
      && (!HasStream(s.remoteStreams, id) ==> r.remoteStreams == s.remoteStreams)
      && r == s.(participants := r.participants, remoteStreams := r.remoteStreams, peers := r.peers, effects := r.effects)
  {
    if forall i :: 0 <= i < |s.participants| ==> !HasId(s.participants[i], id) {
      WithoutAbsentParticipant(s.participants, id);
    }
    if !HasStream(s.remoteStreams, id) {
      WithoutAbsentStreams(s.remoteStreams, id);
    }
  }

  /**
   * An offer installs a fresh connection for its sender, replacing an earlier one (which is
   * not closed), keeps every other entry, and sends an answer to the sender only when the
   * socket is open and the answer was produced.
   */
  lemma OfferInstallsFreshEntry(s: Session, offer: Sdp, from: string, outcome: OfferOutcome)
    requires Consistent(s)
    ensures var r := AfterOffer(s, offer, from, outcome);
      && r.peers.Keys == s.peers.Keys + {from}
      && r.peers[from] !in s.peers.Values
      && (forall k :: k in s.peers && k != from ==> r.peers[k] == s.peers[k])
      && (from in s.peers ==> s.peers[from] !in r.peers.Values && ClosePeer(s.peers[from]) !in r.effects)
      && r.outbox == s.outbox + (if outcome.Answered? && IsOpen(s) then [AnswerFrame(outcome.answer, from)] else [])
  {
    var r := AfterOffer(s, offer, from, outcome);
    var h := s.nextHandle;
    OfferConsistent(s, offer, from, outcome);
    assert r.peers == s.peers[from := h];
    assert r.outbox == s.outbox + (if outcome.Answered? && IsOpen(s) then [AnswerFrame(outcome.answer, from)] else []);
    assert h !in s.peers.Values by {
      forall v | v in s.peers.Values ensures v != h {
        var k :| k in s.peers && s.peers[k] == v;
      }
    }
    if from in s.peers {
      forall v | v in r.peers.Values ensures v != s.peers[from] {
        var k :| k in r.peers && r.peers[k] == v;
        if k != from {
          assert s.peers[k] != s.peers[from];
        }
      }
    }
  }

  /** An answer or candidate from a participant without a connection changes nothing */
  lemma StaleMessagesIgnored(s: Session, sdp: Sdp, candidate: Candidate, from: string, outcome: OfferOutcome)
    requires from !in s.peers
    ensures AfterMessage(s, Answer(sdp, from), outcome) == s
    ensures AfterMessage(s, IceCandidate(candidate, from), outcome) == s
  {
  }

  /** Directory updates: snapshot, append, and a merge that keeps length, order and ids */
  lemma DirectoryUpdates(s: Session, ps: Option<seq<Object>>, p: Object, u: Object, t: string, outcome: OfferOutcome)
    ensures AfterMessage(s, RoomJoined(ps), outcome).participants == if ps.Some? then ps.value else []
    ensures var r := AfterMessage(s, ParticipantJoined(p), outcome).participants;
      |r| == |s.participants| + 1 && r[..|s.participants|] == s.participants && r[|s.participants|] == p
    ensures var r := AfterMessage(s, ParticipantUpdated(u), outcome);
      |r.participants| == |s.participants| && r == s.(participants := r.participants)
    ensures AfterMessage(s, Unknown(t), outcome) == s
  {
  }

  /** Toggling mute twice restores the track flags; after a toggle `isMuted` is the negated flag */
  lemma ToggleMuteProperties(s: Session)
    ensures AfterToggleMute(AfterToggleMute(s)).localStream == s.localStream
    ensures var r := AfterToggleMute(s);
      s.localStream.Some? && |s.localStream.value.audio| > 0 ==>
        && r.localStream.Some? && |r.localStream.value.audio| > 0
        && r.isMuted == !r.localStream.value.audio[0]
        && r.outbox == s.outbox + (if IsOpen(s) then [MuteUpdate(r.isMuted)] else [])
    ensures s.localStream.None? || |s.localStream.value.audio| == 0 ==> AfterToggleMute(s) == s
  {
    if s.localStream.Some? && |s.localStream.value.audio| > 0 {
      var st := s.localStream.value;
      assert st.audio[0 := !st.audio[0]][0 := st.audio[0]] == st.audio;
    }
  }

  /** Toggling video twice restores the track flags; after a toggle `isVideoOff` is the negated flag */
  lemma ToggleVideoProperties(s: Session)
    ensures AfterToggleVideo(AfterToggleVideo(s)).localStream == s.localStream
    ensures var r := AfterToggleVideo(s);
      s.localStream.Some? && |s.localStream.value.video| > 0 ==>
        && r.localStream.Some? && |r.localStream.value.video| > 0
        && r.isVideoOff == !r.localStream.value.video[0]
        && r.outbox == s.outbox + (if IsOpen(s) then [VideoUpdate(r.isVideoOff)] else [])
    ensures s.localStream.None? || |s.localStream.value.video| == 0 ==> AfterToggleVideo(s) == s
  {
    if s.localStream.Some? && |s.localStream.value.video| > 0 {
      var st := s.localStream.value;
      assert st.video[0 := !st.video[0]][0 := st.video[0]] == st.video;
    }
  }

  /** `leaveRoom` closes every connection that was in the map */
  lemma {:induction false} ClosesForCoversMap(m: map<string, ConnHandle>, order: seq<string>)
    requires forall k :: k in order <==> k in m
    ensures forall k :: k in m ==> ClosePeer(m[k]) in ClosesFor(m, order)
  {
    var r := ClosesFor(m, order);
    forall k | k in m ensures ClosePeer(m[k]) in r {
      var i :| 0 <= i < |order| && order[i] == k;
      assert r[i] == ClosePeer(m[k]);
    }
  }

  /** A step that leaves connections and streams alone and appends calls that close nothing */
  lemma QuietStep(s: Session, r: Session)
    requires Consistent(s)
    requires r.peers == s.peers && r.nextHandle == s.nextHandle && r.remoteStreams == s.remoteStreams
    requires s.effects <= r.effects && forall i :: |s.effects| <= i < |r.effects| ==> !r.effects[i].ClosePeer?
    requires r.ws.Some? ==> r.ws.value.id < r.nextSocket
    ensures Consistent(r)
  {
    var e := r.effects[|s.effects|..];
    assert r.effects == s.effects + e;
    AppendNoCloses(s.peers, s.effects, e, s.nextHandle);
  }

  /** Closing distinct open connections, one after another, closes none of them twice */
  lemma {:induction false} ClosesForConsistent(m: map<string, ConnHandle>, effects: seq<Effect>, order: seq<string>, next: nat)
    requires PeersLive(m, effects, next) && ClosesAllocated(effects, next) && ClosedAtMostOnce(effects)
    requires Lists.Distinct(order) && forall i :: 0 <= i < |order| ==> order[i] in m
    ensures ClosesAllocated(effects + ClosesFor(m, order), next) && ClosedAtMostOnce(effects + ClosesFor(m, order))
    decreases |order|
  {
    if order != [] {
      var n := |order| - 1;
      var pre := order[..n];
      ClosesForConsistent(m, effects, pre, next);
      var r0 := effects + ClosesFor(m, pre);
      var c := ClosePeer(m[order[n]]);
      assert effects + ClosesFor(m, order) == r0 + [c];
      assert c !in ClosesFor(m, pre) by {
        forall i | 0 <= i < n ensures ClosesFor(m, pre)[i] != c {
          assert pre[i] != order[n];
        }
      }
      forall i | 0 <= i < |r0| && r0[i].ClosePeer? ensures r0[i].h != c.h {
        assert r0[i] != c;
      }
    }
  }

  /** The calls `leaveRoom` makes on the socket and on the local stream */
  function SocketClose(ws: Option<Socket>): seq<Effect> {
    if ws.Some? then [CloseSocket(ws.value.id)] else []
  }

  function TrackStops(local: Option<MediaStream>): seq<Effect> {
    if local.Some? then [StopTracks(local.value.id)] else []
  }

  /** `leaveRoom()`, its connections closed in `order` */
  function AfterLeave(s: Session, order: seq<string>): Session
    requires forall i :: 0 <= i < |order| ==> order[i] in s.peers
  {
    s.(currentRoom := None, isConnected := false, participants := [], localStream := None,
       remoteStreams := [], isMuted := false, isVideoOff := false, ws := None, peers := map[],
       effects := s.effects + SocketClose(s.ws) + ClosesFor(s.peers, order) + TrackStops(s.localStream))
  }

  /**
   * After `leaveRoom` nothing is open; every connection of the map was closed, none twice; and
   * leaving again, or leaving a session that was never joined, changes nothing.
   */
  lemma LeaveTearsDown(s: Session, order: seq<string>)
    requires Consistent(s)
    requires Lists.Distinct(order) && forall k :: k in order <==> k in s.peers
    ensures Consistent(AfterLeave(s, order)) && TornDown(AfterLeave(s, order))
    ensures forall k :: k in s.peers ==> ClosePeer(s.peers[k]) in AfterLeave(s, order).effects
    ensures TornDown(s) ==> AfterLeave(s, order) == s
  {
    var sock := SocketClose(s.ws);
    var closes := ClosesFor(s.peers, order);
    AppendNoCloses(s.peers, s.effects, sock, s.nextHandle);
    ClosesForConsistent(s.peers, s.effects + sock, order, s.nextHandle);
    AppendNoCloses(map[], s.effects + sock + closes, TrackStops(s.localStream), s.nextHandle);
    ClosesForCoversMap(s.peers, order);
  }

  /**
   * The checks `createRoom` makes on the response, in order: the request went through, the
   * status is ok, the body is JSON, and it carries a non-empty `room_id` and `room_key`.
   */
  function CheckRoomResponse(response: FetchOutcome): Result<CurrentRoom, CallError> {
    match response
    case NetworkError => Failure(RequestFailed)
    case Response(ok, body) =>
      if !ok then Failure(NotOk)
      else if body.None? then Failure(BodyNotJson)
      else match (body.value.roomId, body.value.roomKey)
        case (Some(id), Some(key)) =>
          if id != "" && key != "" then Success(CreatedRoom(id, key)) else Failure(InvalidRoomResponse)
        case _ => Failure(InvalidRoomResponse)
  }

  /**
   * A room is accepted exactly when the response is ok, parsed, and carries both credentials
   * non-empty, and then it is that room; otherwise the first failed check is reported.
   */
  lemma CheckRoomResponseCases(response: FetchOutcome)
    ensures CheckRoomResponse(response).Success? <==>
      && response.Response? && response.ok && response.body.Some?
      && response.body.value.roomId.Some? && response.body.value.roomId.value != ""
      && response.body.value.roomKey.Some? && response.body.value.roomKey.value != ""
    ensures CheckRoomResponse(response).Success? ==>
      CheckRoomResponse(response).value == CreatedRoom(response.body.value.roomId.value, response.body.value.roomKey.value)
    ensures response.NetworkError? ==> CheckRoomResponse(response) == Failure(RequestFailed)
    ensures response.Response? && !response.ok ==> CheckRoomResponse(response) == Failure(NotOk)
    ensures response.Response? && response.ok && response.body.None? ==> CheckRoomResponse(response) == Failure(BodyNotJson)
    ensures
      var credentials := response.Response? && response.body.Some? &&
        response.body.value.roomId.Some? && response.body.value.roomId.value != "" &&
        response.body.value.roomKey.Some? && response.body.value.roomKey.value != "";
      (response.Response? && response.ok && response.body.Some? && !credentials ==>
        CheckRoomResponse(response) == Failure(InvalidRoomResponse))
    ensures CheckRoomResponse(response).Success? ==>
      var room := CheckRoomResponse(response).value;
      room.CreatedRoom? && room.roomId != "" && room.roomKey != ""
  {
  }

  // ---------------------------------------------------------------------------
  // The hook

  /**
   * The hook's state and callbacks. The public operations keep `Valid()`; the handlers the
   * dispatcher calls (`HandleOffer`, ...) and the steps `createRoom`/`joinRoom` are made of
   * (`GetUserMedia`, `ConnectWebSocket`) state their exact effect, from which the caller's
   * invariant follows.
   */
  class CallSession {
    const config: EnvConfig.Config

    var currentRoom: Option<CurrentRoom>
    var isConnected: bool
    var participants: seq<Object>
    var localStream: Option<MediaStream>     // localStream state and localStreamRef together
    var remoteStreams: seq<RemoteStream>
    var isMuted: bool
    var isVideoOff: bool
    var isLoading: bool
    var ws: Option<Socket>                   // wsRef
    var peers: map<string, ConnHandle>       // peerConnectionsRef
    var outbox: seq<Frame>
    var effects: seq<Effect>
    var nextHandle: nat
    var nextSocket: nat

    function State(): Session
      reads this
    {
      Session(currentRoom, isConnected, participants, localStream, remoteStreams, isMuted, isVideoOff,
              isLoading, ws, peers, outbox, effects, nextHandle, nextSocket)
    }

    ghost predicate Valid()
      reads this
    {
      Consistent(State())
    }

    constructor (config: EnvConfig.Config)
      ensures this.config == config
      ensures Valid() && TornDown(State()) && !isLoading && outbox == [] && effects == []
    {
      this.config := config;
      currentRoom, isConnected, participants, localStream := None, false, [], None;
      remoteStreams, isMuted, isVideoOff, isLoading := [], false, false, false;
      ws, peers, outbox, effects := None, map[], [], [];
      nextHandle, nextSocket := 0, 0;
    }

    method SendIfOpen(f: Frame)
      modifies this`outbox
      ensures outbox == old(outbox) + Sent(ws, f)
    {
      if ws.Some? && ws.value.readyState == Open {
        outbox := outbox + [f];
      }
    }

    /** `createPeerConnection(participantId)`: a fresh connection, stored under `participantId` */
    method CreatePeerConnection(participantId: string) returns (h: ConnHandle)
      modifies this`nextHandle, this`effects, this`peers
      ensures h == old(nextHandle) && nextHandle == h + 1
      ensures peers == old(peers)[participantId := h]
      ensures effects == old(effects) + PeerSetup(h, participantId, localStream)
    {
      h := nextHandle;
      nextHandle := nextHandle + 1;
      effects := effects + [CreatePeer(h, participantId)];
      if localStream.Some? {
        effects := effects + [AttachTracks(h, localStream.value.id)];
      }
      peers := peers[participantId := h];
    }

    /** `peerConnection.ontrack` of the connection `h` created for `participantId` */
    method OnTrack(h: ConnHandle, participantId: string, stream: RemoteMedia)
      requires Valid() && CreatePeer(h, participantId) in effects
      modifies this
      ensures Valid()
      ensures State() == old(State()).(remoteStreams := UpsertStream(old(remoteStreams), participantId, stream))
    {
      UpsertKeepsIdsUnique(remoteStreams, participantId, stream);
      remoteStreams := UpsertStream(remoteStreams, participantId, stream);
    }

    /** `peerConnection.onicecandidate`; `candidate` is `None` at the end of gathering */
    method OnIceCandidate(h: ConnHandle, participantId: string, candidate: Option<Candidate>)
      requires Valid() && CreatePeer(h, participantId) in effects
      modifies this
      ensures Valid()
      ensures State() == if candidate.Some? then old(State()).(outbox := old(outbox) + Sent(ws, IceCandidateFrame(candidate.value, participantId)))
                         else old(State())
    {
      if candidate.Some? {
        SendIfOpen(IceCandidateFrame(candidate.value, participantId));
      }
    }

    /** `peerConnection.onconnectionstatechange`: a failed connection restarts ICE */
    method OnConnectionStateChange(h: ConnHandle, participantId: string, failed: bool)
      requires Valid() && CreatePeer(h, participantId) in effects
      modifies this
      ensures Valid()
      ensures State() == if failed then old(State()).(effects := old(effects) + [RestartIce(h)]) else old(State())
    {
      if failed {
        effects := effects + [RestartIce(h)];
      }
      QuietStep(old(State()), State());
    }

    /** `handleOffer(offer, from)` */
    method HandleOffer(offer: Sdp, from: string, outcome: OfferOutcome)
      modifies this`nextHandle, this`effects, this`peers, this`outbox
      ensures State() == AfterOffer(old(State()), offer, from, outcome)
    {
      var h := CreatePeerConnection(from);
      effects := effects + OfferCalls(h, offer, outcome);
      if outcome.Answered? {
        SendIfOpen(AnswerFrame(outcome.answer, from));
      }
    }

    /** `handleAnswer(answer, from)` */
    method HandleAnswer(answer: Sdp, from: string)
      modifies this`effects
      ensures State() == AfterAnswer(old(State()), answer, from)
    {
      if from in peers {
        effects := effects + [SetRemoteDescription(peers[from], answer)];
      }
    }

    /** `handleIceCandidate(candidate, from)` */
    method HandleIceCandidate(candidate: Candidate, from: string)
      modifies this`effects
      ensures State() == AfterIceCandidate(old(State()), candidate, from)
    {
      if from in peers {
        effects := effects + [AddIceCandidate(peers[from], candidate)];
      }
    }

    /** The `participant_left` case of the dispatcher */
    method HandleParticipantLeft(id: string)
      modifies this`participants, this`effects, this`peers, this`remoteStreams
      ensures State() == AfterParticipantLeft(old(State()), id)
    {
      var closes := if id in peers then [ClosePeer(peers[id])] else [];
      participants, effects, peers, remoteStreams :=
        WithoutParticipant(participants, id), effects + closes, peers - {id}, WithoutStreams(remoteStreams, id);
    }

    /** The cases of the dispatcher that only rewrite the participant list */
    method SetParticipants(ps: seq<Object>)
      modifies this`participants
      ensures State() == old(State()).(participants := ps)
    {
      participants := ps;
    }

    /** `handleWebSocketMessage(data)` */
    method HandleMessage(m: Message, outcome: OfferOutcome)
      modifies this`participants, this`effects, this`peers, this`remoteStreams, this`nextHandle, this`outbox
      ensures State() == AfterMessage(old(State()), m, outcome)
    {
      match m {
        case RoomJoined(ps) =>
          SetParticipants(if ps.Some? then ps.value else []);
        case ParticipantJoined(p) =>
          SetParticipants(participants + [p]);
        case ParticipantLeft(id) =>
          HandleParticipantLeft(id);
        case Offer(offer, from) =>
          HandleOffer(offer, from, outcome);
        case Answer(answer, from) =>
          HandleAnswer(answer, from);
        case IceCandidate(candidate, from) =>
          HandleIceCandidate(candidate, from);
        case ParticipantUpdated(u) =>
          SetParticipants(MergeUpdate(participants, u));
        case Unknown(_) =>
      }
    }

    /** `ws.onmessage`: a frame that is not JSON (`None`) is dropped */
    method OnSocketMessage(frame: Option<Message>, outcome: OfferOutcome)
      requires Valid()
      modifies this
      ensures Valid()
      ensures State() == if frame.Some? then AfterMessage(old(State()), frame.value, outcome) else old(State())
    {
      if frame.Some? {
        AfterMessageConsistent(State(), frame.value, outcome);
        HandleMessage(frame.value, outcome);
      }
    }

    /** `ws.onopen` of socket `id`; the handler sets `isConnected` whichever socket is current */
    method OnSocketOpen(id: SocketId)
      requires Valid()
      modifies this
      ensures Valid()
      ensures State() == old(State()).(
        isConnected := true,
        ws := if old(ws).Some? && old(ws).value.id == id then Some(old(ws).value.(readyState := Open)) else old(ws))
    {
      isConnected := true;
      if ws.Some? && ws.value.id == id {
        ws := Some(ws.value.(readyState := Open));
      }
    }

    /** `ws.onclose` of socket `id` */
    method OnSocketClose(id: SocketId)
      requires Valid()
      modifies this
      ensures Valid()
      ensures State() == old(State()).(
        isConnected := false,
        ws := if old(ws).Some? && old(ws).value.id == id then Some(old(ws).value.(readyState := Closed)) else old(ws))
    {
      isConnected := false;
      if ws.Some? && ws.value.id == id {
        ws := Some(ws.value.(readyState := Closed));
      }
    }

    /** `ws.onerror` */
    method OnSocketError(id: SocketId)
      requires Valid()
      modifies this
      ensures Valid()
      ensures State() == old(State()).(isConnected := false)
    {
      isConnected := false;
    }

    /** `connectWebSocket(roomId, roomKey)`: opens nothing when either is empty */
    method ConnectWebSocket(roomId: string, roomKey: string)
      modifies this`ws, this`effects, this`nextSocket
      ensures roomId == "" || roomKey == "" ==>
        ws == old(ws) && effects == old(effects) && nextSocket == old(nextSocket)
      ensures roomId != "" && roomKey != "" ==>
        var url := SocketUrl(config, roomId, roomKey);
        && ws == Some(Socket(old(nextSocket), url, Connecting))
        && nextSocket == old(nextSocket) + 1
        && effects == old(effects) + [OpenSocket(old(nextSocket), url)]
    {
      if roomId == "" || roomKey == "" {
        return;
      }
      var url := SocketUrl(config, roomId, roomKey);
      ws := Some(Socket(nextSocket, url, Connecting));
      effects := effects + [OpenSocket(nextSocket, url)];
      nextSocket := nextSocket + 1;
    }

    /** `getUserMedia()`; `media` is the stream the browser grants, `None` when it refuses */
    method GetUserMedia(media: Option<MediaStream>) returns (ok: bool)
      modifies this`localStream, this`effects
      ensures ok == media.Some?
      ensures localStream == if media.Some? then media else old(localStream)
      ensures effects == old(effects) + [RequestMedia]
    {
      effects := effects + [RequestMedia];
      if media.Some? {
        localStream := media;
      }
      ok := media.Some?;
    }

    /** The part of `createRoom()` after a valid response: acquire media, record the room, connect */
    method EnterCreatedRoom(roomId: string, roomKey: string, media: Option<MediaStream>) returns (r: Result<CurrentRoom, CallError>)
      modifies this`effects, this`localStream, this`currentRoom, this`ws, this`nextSocket
      ensures media.None? ==>
        && r == Failure(MediaUnavailable) && effects == old(effects) + [RequestMedia]
        && localStream == old(localStream) && currentRoom == old(currentRoom) && ws == old(ws) && nextSocket == old(nextSocket)
      ensures media.Some? ==>
        var url := SocketUrl(config, roomId, roomKey);
        && r == Success(CreatedRoom(roomId, roomKey)) && localStream == media && currentRoom == Some(CreatedRoom(roomId, roomKey))
        && (roomId == "" || roomKey == "" ==> ws == old(ws) && nextSocket == old(nextSocket) && effects == old(effects) + [RequestMedia])
        && (roomId != "" && roomKey != "" ==>
              ws == Some(Socket(old(nextSocket), url, Connecting)) && nextSocket == old(nextSocket) + 1
              && effects == old(effects) + [RequestMedia, OpenSocket(old(nextSocket), url)])
    {
      var ok := GetUserMedia(media);
      if !ok {
        r := Failure(MediaUnavailable);
      } else {
        currentRoom := Some(CreatedRoom(roomId, roomKey));
        ConnectWebSocket(roomId, roomKey);
        r := Success(CreatedRoom(roomId, roomKey));
      }
    }

    /**
     * `createRoom()`: request a room, check the response, then acquire media, record the room
     * and open the socket, in that order; any failure stops the sequence where it happened.
     */
    method CreateRoom(response: FetchOutcome, media: Option<MediaStream>) returns (r: Result<CurrentRoom, CallError>)
      requires Valid()
      modifies this`isLoading, this`effects, this`localStream, this`currentRoom, this`ws, this`nextSocket
      ensures Valid() && !isLoading
      ensures var checked := CheckRoomResponse(response);
        var fetched := old(effects) + [FetchRoom(EnvConfig.GetApiUrl(config, config.apiRooms))];
        checked.Failure? ==>
          && r == checked && effects == fetched
          && localStream == old(localStream) && currentRoom == old(currentRoom) && ws == old(ws) && nextSocket == old(nextSocket)
      ensures var checked := CheckRoomResponse(response);
        var fetched := old(effects) + [FetchRoom(EnvConfig.GetApiUrl(config, config.apiRooms))];
        checked.Success? && media.None? ==>
          && r == Failure(MediaUnavailable) && effects == fetched + [RequestMedia]
          && localStream == old(localStream) && currentRoom == old(currentRoom) && ws == old(ws) && nextSocket == old(nextSocket)
      ensures var checked := CheckRoomResponse(response);
        var fetched := old(effects) + [FetchRoom(EnvConfig.GetApiUrl(config, config.apiRooms))];
        checked.Success? && media.Some? ==>
          var room := checked.value;
          var url := SocketUrl(config, room.roomId, room.roomKey);
          && r == Success(room) && localStream == media && currentRoom == Some(room)
          && ws == Some(Socket(old(nextSocket), url, Connecting)) && nextSocket == old(nextSocket) + 1
          && effects == fetched + [RequestMedia, OpenSocket(old(nextSocket), url)]
    {
      CheckRoomResponseCases(response);
      isLoading := true;
      effects := effects + [FetchRoom(EnvConfig.GetApiUrl(config, config.apiRooms))];
      var checked := CheckRoomResponse(response);
      if checked.Failure? {
        r := Failure(checked.error);
      } else {
        r := EnterCreatedRoom(checked.value.roomId, checked.value.roomKey, media);
      }
      isLoading := false;
      QuietStep(old(State()), State());
    }

    /**
     * `joinRoom(roomId, roomKey)`: acquire media, then open the socket and record the room;
     * the room is recorded even when empty credentials make `connectWebSocket` open nothing.
     */
    method JoinRoom(roomId: string, roomKey: string, media: Option<MediaStream>) returns (r: Result<(), CallError>)
      requires Valid()
      modifies this`isLoading, this`effects, this`localStream, this`currentRoom, this`ws, this`nextSocket
      ensures Valid() && !isLoading
      ensures media.None? ==>
        && r == Failure(MediaUnavailable) && effects == old(effects) + [RequestMedia]
        && localStream == old(localStream) && currentRoom == old(currentRoom) && ws == old(ws) && nextSocket == old(nextSocket)
      ensures media.Some? ==> r == Success(()) && localStream == media && currentRoom == Some(JoinedRoom(roomId, roomKey))
      ensures media.Some? && (roomId == "" || roomKey == "") ==>
        effects == old(effects) + [RequestMedia] && ws == old(ws) && nextSocket == old(nextSocket)
      ensures media.Some? && roomId != "" && roomKey != "" ==>
        var url := SocketUrl(config, roomId, roomKey);
        && ws == Some(Socket(old(nextSocket), url, Connecting)) && nextSocket == old(nextSocket) + 1
        && effects == old(effects) + [RequestMedia, OpenSocket(old(nextSocket), url)]
    {
      isLoading := true;
      var ok := GetUserMedia(media);
      if !ok {
        r := Failure(MediaUnavailable);
      } else {
        ConnectWebSocket(roomId, roomKey);
        currentRoom := Some(JoinedRoom(roomId, roomKey));
        r := Success(());
      }
      isLoading := false;
      QuietStep(old(State()), State());
    }

    /** `peerConnectionsRef.current.forEach(pc => pc.close())`: every connection, each once */
    method CloseAllPeers() returns (ghost order: seq<string>)
      modifies this`effects
      ensures Lists.Distinct(order) && forall k :: k in order <==> k in peers
      ensures effects == old(effects) + ClosesFor(peers, order)
      ensures peers == map[] ==> effects == old(effects)
    {
      var pending := peers.Keys;
      order := [];
      while pending != {}
        invariant pending <= peers.Keys
        invariant forall k :: k in order <==> k in peers && k !in pending
        invariant Lists.Distinct(order)
        invariant effects == old(effects) + ClosesFor(peers, order)
        decreases pending
      {
        var k :| k in pending;
        ClosesForSnoc(peers, order, k);
        Lists.DistinctSnoc(order, k);
        effects, pending, order := effects + [ClosePeer(peers[k])], pending - {k}, order + [k];
      }
    }

    /** `if (wsRef.current) { wsRef.current.close(); wsRef.current = null }` */
    method DropSocket()
      modifies this`ws, this`effects
      ensures ws.None? && effects == old(effects) + SocketClose(old(ws))
    {
      if ws.Some? {
        effects := effects + [CloseSocket(ws.value.id)];
        ws := None;
      }
    }

    /** Stop the local tracks and drop the stream */
    method DropLocalStream()
      modifies this`localStream, this`effects
      ensures localStream.None? && effects == old(effects) + TrackStops(old(localStream))
    {
      if localStream.Some? {
        effects := effects + [StopTracks(localStream.value.id)];
        localStream := None;
      }
    }

    /** The state resets at the end of `leaveRoom` */
    method ResetView()
      modifies this`currentRoom, this`isConnected, this`participants, this`remoteStreams, this`isMuted, this`isVideoOff
      ensures currentRoom.None? && !isConnected && participants == [] && remoteStreams == [] && !isMuted && !isVideoOff
    {
      currentRoom := None;
      isConnected := false;
      participants := [];
      remoteStreams := [];
      isMuted := false;
      isVideoOff := false;
    }

    /**
     * `leaveRoom()`: close the socket, close every connection (in some order of the map's keys)
     * and then clear the map, stop the local tracks, and reset the state.
     */
    method LeaveRoom() returns (ghost order: seq<string>)
      requires Valid()
      modifies this
      ensures Valid()
      ensures Lists.Distinct(order) && forall k :: k in order <==> k in old(peers)
      ensures State() == AfterLeave(old(State()), order)
    {
      ghost var s0 := State();
      DropSocket();
      order := CloseAllPeers();
      peers := map[];
      DropLocalStream();
      ResetView();
      assert State() == AfterLeave(s0, order);
      LeaveTearsDown(s0, order);
    }

    /** The cleanup of the hook's effect on unmount: `leaveRoom()` once more */
    method Unmount() returns (ghost order: seq<string>)
      requires Valid()
      modifies this
      ensures Valid() && TornDown(State())
      ensures TornDown(old(State())) ==> State() == old(State())
    {
      ghost var s0 := State();
      order := LeaveRoom();
      LeaveTearsDown(s0, order);
    }

    /** `toggleMute()` */
    method ToggleMute()
      requires Valid()
      modifies this
      ensures Valid()
      ensures State() == AfterToggleMute(old(State()))
    {
      if localStream.Some? && |localStream.value.audio| > 0 {
        var st := localStream.value;
        var enabled := !st.audio[0];
        localStream := Some(st.(audio := st.audio[0 := enabled]));
        isMuted := !enabled;
        SendIfOpen(MuteUpdate(!enabled));
      }
    }

    /** `toggleVideo()` */
    method ToggleVideo()
      requires Valid()
      modifies this
      ensures Valid()
      ensures State() == AfterToggleVideo(old(State()))
    {
      if localStream.Some? && |localStream.value.video| > 0 {
        var st := localStream.value;
        var enabled := !st.video[0];
        localStream := Some(st.(video := st.video[0 := enabled]));
        isVideoOff := !enabled;
        SendIfOpen(VideoUpdate(!enabled));
      }
    }
  }
}
