/**
 * The browser client (static/webrtc-client.js): its session globals, the
 * dispatch of server messages, and the registry of peer connections.
 *
 * A peer connection is an opaque record: a serial number (its creation
 * order), whether a local offer or answer has been set, and the remote
 * descriptions and candidates applied to it.  A local description the engine
 * produces is referred to by the serial of its connection.  Video tiles are the
 * set of ids shown in the grid.  Every `sendMessage` call is recorded in
 * `sent`.  A handler whose promise rejects reports `ok == false`.
 */
module WebRtcClient {
  import opened Wrappers
  import opened Protocol

  /** An `RTCPeerConnection` as the client uses it. */
  datatype PeerConnection = PeerConnection(
    serial: nat,
    offered: bool,
    answered: bool,
    remoteDescriptions: seq<Json>,
    candidates: seq<Json>)

  /** A connection straight after `new RTCPeerConnection(...)`. */
  function FreshConnection(serial: nat): PeerConnection {
    PeerConnection(serial, false, false, [], [])
  }

  /** The `payload` of an outgoing signal: a local description, or a candidate's `toJSON()`. */
  datatype SignalData = LocalDescriptionOf(serial: nat) | CandidateOf(candidate: Json)

  /** A message the client sends. */
  datatype ClientMessage =
    | CreateRoomOut(displayName: string, ttlHours: int, maxParticipants: int)
    | JoinRoomOut(roomCode: string, displayName: string)
    | SignalOut(to: string, signalType: string, payload: SignalData)
    | LeaveRoomOut

  /** The module globals and what the page shows. */
  datatype Session = Session(
    socketOpen: bool,
    hasLocalStream: bool,
    mySocketId: Option<string>,
    currentRoomCode: Option<string>,
    peerConnections: map<string, PeerConnection>,
    tiles: set<string>,
    sent: seq<ClientMessage>,
    closed: set<nat>,
    created: nat)

  /** A session state together with whether the handler completed or threw. */
  datatype Step = Step(session: Session, ok: bool)

  /** The page as it loads: no socket open yet, nothing shown. */
  function Initial(): Session {
    Session(false, false, None, None, map[], {}, [], {}, 0)
  }

  /** The characters JavaScript's `String.prototype.trim` removes (white space and line terminators). */
  predicate IsJsWhitespace(c: char) {
    var n := c as int;
    n == 0x09 || n == 0x0A || n == 0x0B || n == 0x0C || n == 0x0D || n == 0x20 || n == 0xA0 ||
    n == 0x1680 || (0x2000 <= n <= 0x200A) || n == 0x2028 || n == 0x2029 || n == 0x202F ||
    n == 0x205F || n == 0x3000 || n == 0xFEFF
  }

  /** The first index at or after `i` whose character is not white space, or `|s|`. */
  function SkipWhitespace(s: string, i: nat): (j: nat)
    requires i <= |s|
    ensures i <= j <= |s|
    ensures forall k :: i <= k < j ==> IsJsWhitespace(s[k])
    ensures j < |s| ==> !IsJsWhitespace(s[j])
    decreases |s| - i
  {
    if i < |s| && IsJsWhitespace(s[i]) then SkipWhitespace(s, i + 1) else i
  }

  /** The index just after the last character before `j` that is not white space, or 0. */
  function BackWhitespace(s: string, j: nat): (i: nat)
    requires j <= |s|
    ensures i <= j
    ensures forall k :: i <= k < j ==> IsJsWhitespace(s[k])
    ensures i > 0 ==> !IsJsWhitespace(s[i - 1])
  {
    if j > 0 && IsJsWhitespace(s[j - 1]) then BackWhitespace(s, j - 1) else j
  }

  /** Leading white space removed. */
  function TrimStart(s: string): (r: string)
    ensures |r| <= |s| && r == s[|s| - |r|..]
    ensures forall k :: 0 <= k < |s| - |r| ==> IsJsWhitespace(s[k])
    ensures r != [] ==> !IsJsWhitespace(r[0])
  {
    s[SkipWhitespace(s, 0)..]
  }

  /** Trailing white space removed. */
  function TrimEnd(s: string): (r: string)
    ensures |r| <= |s| && r == s[..|r|]
    ensures forall k :: |r| <= k < |s| ==> IsJsWhitespace(s[k])
    ensures r != [] ==> !IsJsWhitespace(r[|r| - 1])
  {
    s[..BackWhitespace(s, |s|)]
  }

  /** `s.trim()`. */
  function Trim(s: string): string {
    TrimEnd(TrimStart(s))
  }

  /**
   * A prefix `r` of a suffix `t` of `s` is a slice of `s`; white space cut
   * before `t` or after `r` is white space of `s`.
   */
  lemma CutInside(s: string, t: string, r: string)
    requires |t| <= |s| && t == s[|s| - |t|..] && |r| <= |t| && r == t[..|r|]
    requires forall k :: 0 <= k < |s| - |t| ==> IsJsWhitespace(s[k])
    requires forall k :: |r| <= k < |t| ==> IsJsWhitespace(t[k])
    ensures var i := |s| - |t|;
      && i + |r| <= |s| && r == s[i..i + |r|]
      && (forall k :: 0 <= k < i ==> IsJsWhitespace(s[k]))
      && (forall k :: i + |r| <= k < |s| ==> IsJsWhitespace(s[k]))
  {
    var i := |s| - |t|;
    forall k | i + |r| <= k < |s|
      ensures IsJsWhitespace(s[k])
    {
      assert s[k] == t[k - i];
    }
  }

  /** `trim` keeps a contiguous middle part of its input, cut only at white space. */
  lemma TrimSpec(s: string)
    ensures var i := |s| - |TrimStart(s)|;
      && i + |Trim(s)| <= |s| && Trim(s) == s[i..i + |Trim(s)|]
      && (forall k :: 0 <= k < i ==> IsJsWhitespace(s[k]))
      && (forall k :: i + |Trim(s)| <= k < |s| ==> IsJsWhitespace(s[k]))
  {
    CutInside(s, TrimStart(s), TrimEnd(TrimStart(s)));
  }

  /** Trimming twice trims nothing more. */
  lemma TrimIdempotent(s: string)
    ensures Trim(Trim(s)) == Trim(s)
  {
    var r := Trim(s);
    TrimSpec(s);
    if r != [] {
      assert TrimStart(r) == r;
      assert TrimEnd(r) == r;
    }
  }

  /** JavaScript's `length`: characters outside the basic plane count as two UTF-16 units. */
  function Utf16Length(s: string): (n: nat)
    ensures |s| <= n <= 2 * |s|
  {
    if s == [] then 0 else Utf16Length(s[..|s| - 1]) + (if s[|s| - 1] as int > 0xFFFF then 2 else 1)
  }

  /** `input.trim() || 'Anonymous'`. */
  function DisplayName(input: string): string {
    if Trim(input) == "" then "Anonymous" else Trim(input)
  }

  /** The id `addVideoElement(mySocketId, ...)` uses: JavaScript renders `null` as "null". */
  function TileOf(id: Option<string>): string {
    if id.None? then "null" else id.value
  }

  /** `sendMessage`: dropped unless the socket is open. */
  function Send(s: Session, m: ClientMessage): Session {
    if s.socketOpen then s.(sent := s.sent + [m]) else s
  }

  /** `startLocalStream`: `granted` is whether `getUserMedia` resolves; a refusal rethrows. */
  function StreamStarted(s: Session, granted: bool): Step {
    if granted then Step(s.(hasLocalStream := true, tiles := s.tiles + {TileOf(s.mySocketId)}), true)
    else Step(s, false)
  }

  /** `createRoom`: a refusal of the camera is caught, and then nothing is sent. */
  function RoomRequested(s: Session, nameInput: string, granted: bool): Session {
    var r := StreamStarted(s, granted);
    if !r.ok then r.session else Send(r.session, CreateRoomOut(DisplayName(nameInput), 24, 50))
  }

  /** Whether `joinRoom` accepts the code it reads: present and six UTF-16 units long after trimming. */
  predicate AcceptableCode(codeInput: string) {
    Trim(codeInput) != "" && Utf16Length(Trim(codeInput)) == 6
  }

  /** `joinRoom`: the room code is recorded before the camera is asked for; a refusal rejects the call. */
  function JoinRequested(s: Session, codeInput: string, nameInput: string, granted: bool): Step {
    var code := Trim(codeInput);
    if !AcceptableCode(codeInput) then Step(s, true)
    else
      var r := StreamStarted(s.(currentRoomCode := Some(code)), granted);
      if !r.ok then r else Step(Send(r.session, JoinRoomOut(code, DisplayName(nameInput))), true)
  }

  /**
   * `createPeerConnection(peerId, createOffer)`: a new connection replaces any
   * registered one for the peer (the old one is not closed).  Without a local
   * stream, adding its tracks throws after the registration.
   */
  function NewConnection(s: Session, peerId: string, createOffer: bool): (r: Step)
    ensures r.session.peerConnections.Keys == s.peerConnections.Keys + {peerId}
    ensures r.session.peerConnections[peerId].serial == s.created
    ensures r.session.peerConnections[peerId].offered == (createOffer && r.ok)
    ensures forall k :: k in s.peerConnections && k != peerId ==> r.session.peerConnections[k] == s.peerConnections[k]
    ensures r.session.created == s.created + 1
    ensures r.ok == s.hasLocalStream
  {
    var serial := s.created;
    var registered := s.(peerConnections := s.peerConnections[peerId := FreshConnection(serial)], created := s.created + 1);
    if !s.hasLocalStream then Step(registered, false)
    else if !createOffer then Step(registered, true)
    else
      var offering := registered.(peerConnections := registered.peerConnections[peerId := FreshConnection(serial).(offered := true)]);
      Step(Send(offering, SignalOut(peerId, "offer", LocalDescriptionOf(serial))), true)
  }

  /** The loop of `handleJoined`: an offering connection per listed peer, stopping at the first failure. */
  function OfferToAll(s: Session, peers: seq<PeerInfo>): Step
    decreases |peers|
  {
    if peers == [] then Step(s, true)
    else
      var r := NewConnection(s, peers[0].socketId, true);
      if !r.ok then r else OfferToAll(r.session, peers[1..])
  }

  /** The offers `handleJoined` sends, one per listed peer, numbered from `serial`. */
  function Offers(peers: seq<PeerInfo>, serial: nat): seq<ClientMessage>
    decreases |peers|
  {
    if peers == [] then [] else [SignalOut(peers[0].socketId, "offer", LocalDescriptionOf(serial))] + Offers(peers[1..], serial + 1)
  }

  function PeerIds(peers: seq<PeerInfo>): set<string> {
    set i | 0 <= i < |peers| :: peers[i].socketId
  }

  /** `handlePeerLeft`: closes and forgets the peer's connection when there is one, and drops its tile. */
  function PeerGone(s: Session, peerId: string): Session {
    var s1 := if peerId in s.peerConnections
      then s.(closed := s.closed + {s.peerConnections[peerId].serial}, peerConnections := s.peerConnections - {peerId})
      else s;
    s1.(tiles := s1.tiles - {peerId})
  }

  /**
   * `handleSignal`: a sender without a connection gets a non-offering one
   * first; an offer is answered, an answer is applied, a candidate is added
   * at once.  The connection's engine is assumed to accept what it is given.
   */
  function OnSignal(s: Session, from: string, signalType: string, data: Json): Step {
    var r := if from in s.peerConnections then Step(s, true) else NewConnection(s, from, false);
    if !r.ok then r
    else
      var s1 := r.session;
      var pc := s1.peerConnections[from];
      if signalType == "offer" then
        var answering := pc.(remoteDescriptions := pc.remoteDescriptions + [data], answered := true);
        Step(Send(s1.(peerConnections := s1.peerConnections[from := answering]), SignalOut(from, "answer", LocalDescriptionOf(pc.serial))), true)
      else if signalType == "answer" then
        Step(s1.(peerConnections := s1.peerConnections[from := pc.(remoteDescriptions := pc.remoteDescriptions + [data])]), true)
      else if signalType == "candidate" then
        Step(s1.(peerConnections := s1.peerConnections[from := pc.(candidates := pc.candidates + [data])]), true)
      else Step(s1, true)
  }

  /** The serials of the registered connections. */
  function Serials(m: map<string, PeerConnection>): set<nat> {
    set k | k in m :: m[k].serial
  }

  /** `leaveRoom`: always sends `leave_room`, then closes everything and resets the room state. */
  function LeftRoom(s: Session): Session {
    var s1 := Send(s, LeaveRoomOut);
    s1.(closed := s1.closed + Serials(s1.peerConnections), peerConnections := map[], hasLocalStream := false,
        tiles := {}, currentRoomCode := None)
  }

  /** The error codes after which the client leaves the room. */
  predicate IsFatal(code: ErrorCode) {
    code == RoomNotFound || code == RoomExpired || code == RoomClosed
  }

  /** `handleError`. */
  function ErrorHandled(s: Session, code: ErrorCode): Session {
    if IsFatal(code) then LeftRoom(s) else s
  }

  /** `handleMessage`: one server message. */
  function Dispatch(s: Session, m: ServerMessage): Step {
    match m
    case Connected(id) => Step(s.(mySocketId := Some(id)), true)
    case RoomCreated(code, _, _, _) => Step(s.(currentRoomCode := Some(code)), true)
    case Joined(code, _, peers) => OfferToAll(s.(currentRoomCode := Some(code)), peers)
    case PeerJoined(_, _) => Step(s, true)
    case PeerLeft(id) => Step(PeerGone(s, id), true)
    case Signal(from, t, data) => OnSignal(s, from, t, data)
    case Error(code) => Step(ErrorHandled(s, code), true)
    case Pong => Step(s, true)
  }

  /** `pc.ontrack` of the peer's connection: its tile is shown. */
  function TrackShown(s: Session, peerId: string): Session {
    s.(tiles := s.tiles + {peerId})
  }

  /** `pc.onicecandidate` of the peer's connection: a candidate is sent on; the final null event sends nothing. */
  function CandidateRelayed(s: Session, peerId: string, candidate: Option<Json>): Session {
    if candidate.Some? then Send(s, SignalOut(peerId, "candidate", CandidateOf(candidate.value))) else s
  }

  /**
   * The registry holds distinct, open connections: every serial was issued,
   * no two registered connections share one, and none of them is closed.
   */
  predicate Consistent(s: Session) {
    && (forall k :: k in s.peerConnections ==> s.peerConnections[k].serial < s.created && s.peerConnections[k].serial !in s.closed)
    && (forall j, k :: j in s.peerConnections && k in s.peerConnections && j != k ==>
          s.peerConnections[j].serial != s.peerConnections[k].serial)
    && (forall c :: c in s.closed ==> c < s.created)
  }

  lemma InitialConsistent()
    ensures Consistent(Initial())
  {
  }

  lemma NewConnectionConsistent(s: Session, peerId: string, createOffer: bool)
    requires Consistent(s)
    ensures Consistent(NewConnection(s, peerId, createOffer).session)
  {
  }

  lemma {:induction false} OfferToAllConsistent(s: Session, peers: seq<PeerInfo>)
    requires Consistent(s)
    ensures Consistent(OfferToAll(s, peers).session)
    decreases |peers|
  {
    if peers != [] {
      NewConnectionConsistent(s, peers[0].socketId, true);
      OfferToAllConsistent(NewConnection(s, peers[0].socketId, true).session, peers[1..]);
    }
  }

  lemma LeaveRoomConsistent(s: Session)
    requires Consistent(s)
    ensures Consistent(LeftRoom(s))
  {
    forall c | c in Serials(s.peerConnections)
      ensures c < s.created
    {
      var k :| k in s.peerConnections && s.peerConnections[k].serial == c;
    }
  }

  /** Updating a registered connection in place, under the same serial, keeps the registry consistent. */
  lemma UpdateConsistent(s: Session, k: string, pc: PeerConnection)
    requires Consistent(s) && k in s.peerConnections && pc.serial == s.peerConnections[k].serial
    ensures Consistent(s.(peerConnections := s.peerConnections[k := pc]))
  {
  }

  lemma OnSignalConsistent(s: Session, from: string, signalType: string, data: Json)
    requires Consistent(s)
    ensures Consistent(OnSignal(s, from, signalType, data).session)
  {
    var r := if from in s.peerConnections then Step(s, true) else NewConnection(s, from, false);
    if from !in s.peerConnections {
      NewConnectionConsistent(s, from, false);
    }
    if r.ok {
      var s1 := r.session;
      var pc := s1.peerConnections[from];
      if signalType == "offer" {
        UpdateConsistent(s1, from, pc.(remoteDescriptions := pc.remoteDescriptions + [data], answered := true));
      } else if signalType == "answer" {
        UpdateConsistent(s1, from, pc.(remoteDescriptions := pc.remoteDescriptions + [data]));
      } else if signalType == "candidate" {
        UpdateConsistent(s1, from, pc.(candidates := pc.candidates + [data]));
      }
    }
  }

  /** Every message the client handles keeps the registry consistent. */
  lemma DispatchConsistent(s: Session, m: ServerMessage)
    requires Consistent(s)
    ensures Consistent(Dispatch(s, m).session)
  {
    match m
    case Joined(code, _, peers) => OfferToAllConsistent(s.(currentRoomCode := Some(code)), peers);
    case Signal(from, t, data) => OnSignalConsistent(s, from, t, data);
    case Error(code) => if IsFatal(code) { LeaveRoomConsistent(s); }
    case _ =>
  }

  lemma PeerIdsSplit(peers: seq<PeerInfo>)
    requires peers != []
    ensures PeerIds(peers) == {peers[0].socketId} + PeerIds(peers[1..])
  {
    var rest := peers[1..];
    forall x | x in PeerIds(peers)
      ensures x in {peers[0].socketId} + PeerIds(rest)
    {
      var i :| 0 <= i < |peers| && peers[i].socketId == x;
      if i > 0 {
        assert rest[i - 1] == peers[i];
      }
    }
    forall x | x in PeerIds(rest)
      ensures x in PeerIds(peers)
    {
      var i :| 0 <= i < |rest| && rest[i].socketId == x;
      assert peers[i + 1] == rest[i];
    }
  }

  /** The two sessions agree on everything but the registry, the log and the serial counter. */
  predicate SameOutsideRegistry(a: Session, b: Session) {
    && a.socketOpen == b.socketOpen && a.hasLocalStream == b.hasLocalStream
    && a.mySocketId == b.mySocketId && a.currentRoomCode == b.currentRoomCode
    && a.tiles == b.tiles && a.closed == b.closed
  }

  /** One offering connection, with a stream: one serial used, at most one offer sent, nothing else touched. */
  lemma OfferStep(s: Session, peerId: string)
    requires s.hasLocalStream
    ensures var r := NewConnection(s, peerId, true);
      && r.ok
      && r.session.created == s.created + 1
      && r.session.sent == s.sent + (if s.socketOpen then [SignalOut(peerId, "offer", LocalDescriptionOf(s.created))] else [])
      && SameOutsideRegistry(r.session, s)
  {
  }

  /** With a stream the loop runs to the end, using one serial per peer and touching nothing outside the registry and the log. */
  lemma {:induction false} OfferToAllRuns(s: Session, peers: seq<PeerInfo>)
    requires s.hasLocalStream
    ensures OfferToAll(s, peers).ok
    ensures OfferToAll(s, peers).session.created == s.created + |peers|
    ensures SameOutsideRegistry(OfferToAll(s, peers).session, s)
    decreases |peers|
  {
    if peers != [] {
      OfferStep(s, peers[0].socketId);
      OfferToAllRuns(NewConnection(s, peers[0].socketId, true).session, peers[1..]);
    }
  }

  /** With a stream and an open socket the loop sends exactly one offer per listed peer, in list order. */
  lemma {:induction false} OfferToAllSendsOpen(s: Session, peers: seq<PeerInfo>)
    requires s.hasLocalStream && s.socketOpen
    ensures OfferToAll(s, peers).session.sent == s.sent + Offers(peers, s.created)
    decreases |peers|
  {
    if peers != [] {
      var head := NewConnection(s, peers[0].socketId, true);
      var offer := SignalOut(peers[0].socketId, "offer", LocalDescriptionOf(s.created));
      OfferStep(s, peers[0].socketId);
      OfferToAllSendsOpen(head.session, peers[1..]);
      var later := Offers(peers[1..], s.created + 1);
      assert Offers(peers, s.created) == [offer] + later;
      assert s.sent + [offer] + later == s.sent + ([offer] + later);
    }
  }

  /** With the socket not open the loop sends nothing. */
  lemma {:induction false} OfferToAllSendsClosed(s: Session, peers: seq<PeerInfo>)
    requires !s.socketOpen
    ensures OfferToAll(s, peers).session.sent == s.sent
    decreases |peers|
  {
    if peers != [] {
      var head := NewConnection(s, peers[0].socketId, true);
      if head.ok {
        OfferToAllSendsClosed(head.session, peers[1..]);
      }
    }
  }

  /** With a stream the registry gains exactly the listed peers and keeps every other entry. */
  lemma {:induction false} OfferToAllRegisters(s: Session, peers: seq<PeerInfo>)
    requires s.hasLocalStream
    ensures var r := OfferToAll(s, peers);
      && r.session.peerConnections.Keys == s.peerConnections.Keys + PeerIds(peers)
      && (forall k :: k in s.peerConnections && k !in PeerIds(peers) ==> r.session.peerConnections[k] == s.peerConnections[k])
    decreases |peers|
  {
    if peers != [] {
      OfferToAllRegisters(NewConnection(s, peers[0].socketId, true).session, peers[1..]);
      PeerIdsSplit(peers);
    }
  }

  /** With a stream every listed peer ends with an offering connection. */
  lemma {:induction false} OfferToAllOffers(s: Session, peers: seq<PeerInfo>)
    requires s.hasLocalStream
    ensures forall i :: 0 <= i < |peers| ==>
      peers[i].socketId in OfferToAll(s, peers).session.peerConnections &&
      OfferToAll(s, peers).session.peerConnections[peers[i].socketId].offered
    decreases |peers|
  {
    if peers != [] {
      var head := NewConnection(s, peers[0].socketId, true).session;
      var rest := peers[1..];
      OfferToAllOffers(head, rest);
      OfferToAllRegisters(head, rest);
      PeerIdsSplit(peers);
      var r := OfferToAll(head, rest);
      forall i | 0 <= i < |peers|
        ensures peers[i].socketId in r.session.peerConnections && r.session.peerConnections[peers[i].socketId].offered
      {
        if i > 0 {
          assert peers[i] == rest[i - 1];
        } else if peers[0].socketId in PeerIds(rest) {
          var j :| 0 <= j < |rest| && rest[j].socketId == peers[0].socketId;
        }
      }
    }
  }

  /**
   * On `joined` with a local stream, the late joiner creates one offering
   * connection per listed peer and sends each of them exactly one offer.
   */
  lemma OfferToAllSpec(s: Session, peers: seq<PeerInfo>)
    requires s.hasLocalStream
    ensures var r := OfferToAll(s, peers);
      && r.ok
      && r.session.created == s.created + |peers|
      && r.session.sent == s.sent + (if s.socketOpen then Offers(peers, s.created) else [])
      && r.session.peerConnections.Keys == s.peerConnections.Keys + PeerIds(peers)
      && (forall i :: 0 <= i < |peers| ==> r.session.peerConnections[peers[i].socketId].offered)
      && (forall k :: k in s.peerConnections && k !in PeerIds(peers) ==> r.session.peerConnections[k] == s.peerConnections[k])
      && SameOutsideRegistry(r.session, s)
  {
    OfferToAllRuns(s, peers);
    if s.socketOpen {
      OfferToAllSendsOpen(s, peers);
    } else {
      OfferToAllSendsClosed(s, peers);
    }
    OfferToAllRegisters(s, peers);
    OfferToAllOffers(s, peers);
  }

  /** Without a local stream the first connection registers and throws: nothing is sent and the loop stops. */
  lemma OfferToAllWithoutStream(s: Session, peers: seq<PeerInfo>)
    requires !s.hasLocalStream && peers != []
    ensures OfferToAll(s, peers) == Step(s.(peerConnections := s.peerConnections[peers[0].socketId := FreshConnection(s.created)],
                                            created := s.created + 1), false)
  {
  }

  /** `handleJoined` sends exactly as many messages as there are listed peers. */
  lemma OffersLength(peers: seq<PeerInfo>, serial: nat)
    ensures |Offers(peers, serial)| == |peers|
    ensures forall i :: 0 <= i < |peers| ==>
      Offers(peers, serial)[i] == SignalOut(peers[i].socketId, "offer", LocalDescriptionOf(serial + i))
    decreases |peers|
  {
    if peers != [] {
      OffersLength(peers[1..], serial + 1);
    }
  }

  /** `room_created` and `peer_joined` create no connection and send nothing. */
  lemma PassiveMessages(s: Session, m: ServerMessage)
    requires m.RoomCreated? || m.PeerJoined?
    ensures Dispatch(s, m).ok
    ensures Dispatch(s, m).session.peerConnections == s.peerConnections
    ensures Dispatch(s, m).session.sent == s.sent
    ensures Dispatch(s, m).session.created == s.created
  {
  }

  /** An existing member answers: a signal from an unknown sender creates a non-offering connection for it. */
  lemma SignalFromUnknownCreatesAnswerer(s: Session, from: string, signalType: string, data: Json)
    requires from !in s.peerConnections && s.hasLocalStream
    ensures var r := OnSignal(s, from, signalType, data);
      && r.ok
      && from in r.session.peerConnections
      && !r.session.peerConnections[from].offered
      && r.session.peerConnections[from].serial == s.created
      && r.session.created == s.created + 1
  {
  }

  /**
   * An offer from a peer that has, or can be given, a connection is answered
   * with exactly one message, to its sender.
   */
  lemma SignalReplies(s: Session, from: string, signalType: string, data: Json)
    requires s.hasLocalStream || from in s.peerConnections
    ensures var r := OnSignal(s, from, signalType, data);
      signalType == "offer" && s.socketOpen ==>
        r.session.sent == s.sent + [SignalOut(from, "answer", LocalDescriptionOf(r.session.peerConnections[from].serial))]
  {
  }

  /** An answer, a candidate or any other signal sends nothing, whatever the session. */
  lemma SignalOtherSilent(s: Session, from: string, signalType: string, data: Json)
    requires signalType != "offer"
    ensures OnSignal(s, from, signalType, data).session.sent == s.sent
  {
  }

  /** A candidate is applied at once, with or without a remote description: nothing is queued. */
  lemma CandidateAppliedImmediately(s: Session, from: string, data: Json)
    requires from in s.peerConnections
    ensures var r := OnSignal(s, from, "candidate", data);
      && r.ok
      && r.session.peerConnections[from].candidates == s.peerConnections[from].candidates + [data]
      && r.session.peerConnections[from].remoteDescriptions == s.peerConnections[from].remoteDescriptions
  {
  }

  /** The latest creation wins: the registry keeps one connection per peer, the newest. */
  lemma LatestCreationWins(s: Session, peerId: string, first: bool, second: bool)
    ensures var once := NewConnection(s, peerId, first).session;
      var twice := NewConnection(once, peerId, second).session;
      && twice.peerConnections.Keys == s.peerConnections.Keys + {peerId}
      && twice.peerConnections[peerId].serial == s.created + 1
      && twice.closed == s.closed
  {
  }

  /** `peer_left` forgets the peer and its tile; a repeated `peer_left` changes nothing more. */
  lemma PeerLeftIdempotent(s: Session, peerId: string)
    ensures peerId !in PeerGone(s, peerId).peerConnections
    ensures peerId !in PeerGone(s, peerId).tiles
    ensures PeerGone(PeerGone(s, peerId), peerId) == PeerGone(s, peerId)
    ensures forall k :: k in s.peerConnections && k != peerId ==> PeerGone(s, peerId).peerConnections[k] == s.peerConnections[k]
    ensures peerId in s.peerConnections ==> s.peerConnections[peerId].serial in PeerGone(s, peerId).closed
  {
  }

  /** `leaveRoom` always tries to send `leave_room` and ends with no connections, no tiles and no room. */
  lemma LeaveRoomResets(s: Session)
    ensures LeftRoom(s).peerConnections == map[]
    ensures LeftRoom(s).tiles == {}
    ensures LeftRoom(s).currentRoomCode.None?
    ensures LeftRoom(s).sent == s.sent + (if s.socketOpen then [LeaveRoomOut] else [])
    ensures forall k :: k in s.peerConnections ==> s.peerConnections[k].serial in LeftRoom(s).closed
  {
  }

  /** The client leaves the room exactly on `ROOM_NOT_FOUND`, `ROOM_EXPIRED` and `ROOM_CLOSED`. */
  lemma HandleErrorLeaves(s: Session, code: ErrorCode)
    requires s.currentRoomCode.Some?
    ensures ErrorHandled(s, code).currentRoomCode.None? <==> IsFatal(code)
    ensures !IsFatal(code) ==> ErrorHandled(s, code) == s
  {
  }

  /** An invalid code sends nothing and leaves the room code as it was. */
  lemma JoinRoomRejectsBadCode(s: Session, codeInput: string, nameInput: string, granted: bool)
    requires Trim(codeInput) == "" || Utf16Length(Trim(codeInput)) != 6
    ensures JoinRequested(s, codeInput, nameInput, granted) == Step(s, true)
  {
  }

  /**
   * A valid code is recorded whatever the camera does; a `join_room` is sent
   * only when the stream starts, and then exactly one, carrying the trimmed code.
   */
  lemma JoinRoomValid(s: Session, codeInput: string, nameInput: string, granted: bool)
    requires AcceptableCode(codeInput)
    ensures JoinRequested(s, codeInput, nameInput, granted).session.currentRoomCode == Some(Trim(codeInput))
    ensures JoinRequested(s, codeInput, nameInput, granted).ok == granted
    ensures !granted ==> JoinRequested(s, codeInput, nameInput, granted).session.sent == s.sent
    ensures granted && s.socketOpen ==>
      JoinRequested(s, codeInput, nameInput, granted).session.sent == s.sent + [JoinRoomOut(Trim(codeInput), DisplayName(nameInput))]
    ensures |Trim(codeInput)| <= 6
  {
  }

  /** A closed socket sends nothing. */
  lemma SendDropsWhenClosed(s: Session, m: ClientMessage)
    requires !s.socketOpen
    ensures Send(s, m) == s
  {
  }

  /** The browser side: the module globals of the page. */
  class Client {
    var socketOpen: bool
    var hasLocalStream: bool
    var mySocketId: Option<string>
    var currentRoomCode: Option<string>
    var peerConnections: map<string, PeerConnection>
    var tiles: set<string>
    var sent: seq<ClientMessage>
    var closed: set<nat>
    var created: nat

    function State(): Session
      reads this
    {
      Session(socketOpen, hasLocalStream, mySocketId, currentRoomCode, peerConnections, tiles, sent, closed, created)
    }

    constructor ()
      ensures State() == Initial()
    {
      socketOpen, hasLocalStream, mySocketId, currentRoomCode := false, false, None, None;
      peerConnections, tiles, sent, closed, created := map[], {}, [], {}, 0;
    }

    /** `ws.onopen`. */
    method OnOpen()
      modifies this
      ensures State() == old(State()).(socketOpen := true)
    {
      socketOpen := true;
    }

    /** `ws.onclose`. */
    method OnClose()
      modifies this
      ensures State() == old(State()).(socketOpen := false)
    {
      socketOpen := false;
    }

    method SendMessage(m: ClientMessage)
      modifies this
      ensures State() == Send(old(State()), m)
    {
      if socketOpen {
        sent := sent + [m];
      }
    }

    method StartLocalStream(granted: bool) returns (ok: bool)
      modifies this
      ensures Step(State(), ok) == StreamStarted(old(State()), granted)
    {
      if !granted {
        return false;
      }
      hasLocalStream := true;
      tiles := tiles + {TileOf(mySocketId)};
      ok := true;
    }

    method CreateRoom(nameInput: string, granted: bool)
      modifies this
      ensures State() == RoomRequested(old(State()), nameInput, granted)
    {
      var name := DisplayName(nameInput);
      var ok := StartLocalStream(granted);
      if ok {
        SendMessage(CreateRoomOut(name, 24, 50));
      }
    }

    method JoinRoom(codeInput: string, nameInput: string, granted: bool) returns (ok: bool)
      modifies this
      ensures Step(State(), ok) == JoinRequested(old(State()), codeInput, nameInput, granted)
    {
      var code := Trim(codeInput);
      var name := DisplayName(nameInput);
      if code == "" || Utf16Length(code) != 6 {
        return true;
      }
      currentRoomCode := Some(code);
      ok := StartLocalStream(granted);
      if !ok {
        return;
      }
      SendMessage(JoinRoomOut(code, name));
    }

    method CreatePeerConnection(peerId: string, createOffer: bool) returns (ok: bool)
      modifies this
      ensures Step(State(), ok) == NewConnection(old(State()), peerId, createOffer)
    {
      var serial := created;
      peerConnections := peerConnections[peerId := FreshConnection(serial)];
      created := created + 1;
      if !hasLocalStream {
        return false;
      }
      if createOffer {
        peerConnections := peerConnections[peerId := FreshConnection(serial).(offered := true)];
        SendMessage(SignalOut(peerId, "offer", LocalDescriptionOf(serial)));
      }
      ok := true;
    }

    method HandleJoined(code: string, peers: seq<PeerInfo>) returns (ok: bool)
      modifies this
      ensures Step(State(), ok) == OfferToAll(old(State()).(currentRoomCode := Some(code)), peers)
    {
      currentRoomCode := Some(code);
      ghost var start := State();
      for i := 0 to |peers|
        invariant OfferToAll(start, peers) == OfferToAll(State(), peers[i..])
      {
        assert peers[i..][1..] == peers[i + 1..];
        ok := CreatePeerConnection(peers[i].socketId, true);
        if !ok {
          return;
        }
      }
      ok := true;
    }

    method HandlePeerLeft(peerId: string)
      modifies this
      ensures State() == PeerGone(old(State()), peerId)
    {
      if peerId in peerConnections {
        closed := closed + {peerConnections[peerId].serial};
        peerConnections := peerConnections - {peerId};
      }
      tiles := tiles - {peerId};
    }

    method HandleSignal(from: string, signalType: string, data: Json) returns (ok: bool)
      modifies this
      ensures Step(State(), ok) == OnSignal(old(State()), from, signalType, data)
    {
      if from !in peerConnections {
        ok := CreatePeerConnection(from, false);
        if !ok {
          return;
        }
      }
      var pc := peerConnections[from];
      if signalType == "offer" {
        peerConnections := peerConnections[from := pc.(remoteDescriptions := pc.remoteDescriptions + [data], answered := true)];
        SendMessage(SignalOut(from, "answer", LocalDescriptionOf(pc.serial)));
      } else if signalType == "answer" {
        peerConnections := peerConnections[from := pc.(remoteDescriptions := pc.remoteDescriptions + [data])];
      } else if signalType == "candidate" {
        peerConnections := peerConnections[from := pc.(candidates := pc.candidates + [data])];
      }
      ok := true;
    }

    /** The loop of `leaveRoom` that closes every registered connection. */
    method CloseAll()
      modifies `closed
      ensures closed == old(closed) + Serials(peerConnections)
    {
      var pending := peerConnections.Keys;
      while pending != {}
        invariant pending <= peerConnections.Keys
        invariant closed == old(closed) + (set k | k in peerConnections && k !in pending :: peerConnections[k].serial)
        decreases pending
      {
        var k :| k in pending;
        closed := closed + {peerConnections[k].serial};
        pending := pending - {k};
      }
    }

    method LeaveRoom()
      modifies this
      ensures State() == LeftRoom(old(State()))
    {
      SendMessage(LeaveRoomOut);
      CloseAll();
      peerConnections := map[];
      hasLocalStream := false;
      tiles := {};
      currentRoomCode := None;
    }

    method HandleError(code: ErrorCode)
      modifies this
      ensures State() == ErrorHandled(old(State()), code)
    {
      if code == RoomNotFound || code == RoomExpired || code == RoomClosed {
        LeaveRoom();
      }
    }

    /** `handleMessage`. */
    method HandleMessage(m: ServerMessage) returns (ok: bool)
      modifies this
      ensures Step(State(), ok) == Dispatch(old(State()), m)
    {
      ok := true;
      match m
      case Connected(id) =>
        mySocketId := Some(id);
      case RoomCreated(code, _, _, _) =>
        currentRoomCode := Some(code);
      case Joined(code, _, peers) =>
        ok := HandleJoined(code, peers);
      case PeerJoined(_, _) =>
      case PeerLeft(id) =>
        HandlePeerLeft(id);
      case Signal(from, t, data) =>
        ok := HandleSignal(from, t, data);
      case Error(code) =>
        HandleError(code);
      case Pong =>
    }

    method OnTrack(peerId: string)
      modifies this
      ensures State() == TrackShown(old(State()), peerId)
    {
      tiles := tiles + {peerId};
    }

    method OnIceCandidate(peerId: string, candidate: Option<Json>)
      modifies this
      ensures State() == CandidateRelayed(old(State()), peerId, candidate)
    {
      if candidate.Some? {
        SendMessage(SignalOut(peerId, "candidate", CandidateOf(candidate.value)));
      }
    }
  }
}
