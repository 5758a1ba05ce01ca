/**
 * The signaling router (websocket_manager.py).  The connection manager keeps
 * the set of open sockets and the socket-to-room map; every message it sends
 * is appended to `outbox` as a (recipient, message) pair.  Each handler runs
 * as one atomic step at time `now`.  A handler that raises is reported by a
 * `raised` result; `handle_message` turns it into a `SERVER_ERROR` reply.
 */
module Signaling {
  import opened Wrappers
  import opened Protocol
  import opened Models
  import opened Storage
  import opened RoomManagement

  /** A field of an incoming JSON object: missing, `null`, or a value. */
  datatype Field<T> = Absent | Null | Given(value: T)

  /** `data.get(key, default)`: the default for a missing key, None for `null`. */
  function GetOrDefault<T>(f: Field<T>, default: T): Option<T> {
    match f
    case Absent => Some(default)
    case Null => None
    case Given(v) => Some(v)
  }

  /** Python truthiness of an optional string: present and not empty. */
  predicate Truthy(s: Option<string>) {
    s.Some? && s.value != ""
  }

  /**
   * A decoded client message, by its `type`, with the payload fields the
   * handler reads (`data.get(...)` of a missing or `null` key is None).
   */
  datatype Request =
    | CreateRoomReq(displayName: Field<string>, maxParticipants: Field<int>, ttlHours: Field<int>)
    | JoinRoomReq(roomCode: Option<string>, displayName: Field<string>)
    | LeaveRoomReq
    | SignalReq(to: Option<string>, signalType: Option<string>, payload: Field<Json>)
    | ChatMessageReq
    | HeartbeatReq
    | UnknownReq(msgType: Option<string>)

  /**
   * An incoming text frame: not JSON at all, JSON on which reading the fields
   * raises (not an object, or a payload the handler cannot read), or a request.
   */
  datatype Frame = InvalidJsonFrame | MalformedFrame | RequestFrame(request: Request)

  /** One `send_json` call. */
  datatype Sent = Sent(to: string, msg: ServerMessage)

  /** What `send_message(to, msg)` appends: nothing when the socket is not connected. */
  function SentTo(active: set<string>, to: string, msg: ServerMessage): seq<Sent> {
    if to in active then [Sent(to, msg)] else []
  }

  /** `delta` delivers `msg` once to each member of `audience`, in some order, and to nobody else. */
  ghost predicate FansOut(delta: seq<Sent>, msg: ServerMessage, audience: set<string>) {
    && (forall i :: 0 <= i < |delta| ==> delta[i].msg == msg && delta[i].to in audience)
    && (forall i, j :: 0 <= i < j < |delta| ==> delta[i].to != delta[j].to)
    && (forall r :: r in audience ==> exists i :: 0 <= i < |delta| && delta[i].to == r)
  }

  predicate Extends(longer: seq<Sent>, shorter: seq<Sent>) {
    |longer| >= |shorter| && longer[..|shorter|] == shorter
  }

  /** A broadcast sends exactly one message per recipient. */
  lemma {:induction false} FansOutLength(delta: seq<Sent>, msg: ServerMessage, audience: set<string>)
    requires FansOut(delta, msg, audience)
    ensures |delta| == |audience|
    decreases |delta|
  {
    if delta == [] {
      assert audience == {};
    } else {
      var n := |delta| - 1;
      var prefix := delta[..n];
      var rest := audience - {delta[n].to};
      forall r | r in rest
        ensures exists i :: 0 <= i < |prefix| && prefix[i].to == r
      {
        var i :| 0 <= i < |delta| && delta[i].to == r;
        assert prefix[i] == delta[i];
      }
      forall i | 0 <= i < |prefix|
        ensures prefix[i].to in rest
      {
        assert prefix[i] == delta[i];
      }
      FansOutLength(prefix, msg, rest);
    }
  }

  lemma FansOutExtend(delta: seq<Sent>, msg: ServerMessage, audience: set<string>, r: string)
    requires FansOut(delta, msg, audience) && r !in audience
    ensures FansOut(delta + [Sent(r, msg)], msg, audience + {r})
  {
    var longer := delta + [Sent(r, msg)];
    forall x | x in audience + {r}
      ensures exists i :: 0 <= i < |longer| && longer[i].to == x
    {
      if x == r {
        assert longer[|delta|].to == r;
      } else {
        var i :| 0 <= i < |delta| && delta[i].to == x;
        assert longer[i] == delta[i];
      }
    }
  }

  /** The sockets `broadcast_to_room(code, _, exclude)` reaches: the connected participants not excluded. */
  function Audience(rooms: map<string, Entry>, code: string, exclude: set<string>, active: set<string>): set<string> {
    match Fetched(rooms, code)
    case Found(d) => (d.participants.Keys - exclude) * active
    case _ => {}
  }

  /** The outcome of the checks of `handle_join_room`, in the order the handler makes them. */
  datatype JoinVerdict = JoinRejected(error: ErrorCode) | JoinCrashed | JoinAdmitted(data: RoomData)

  function JoinCheck(rooms: map<string, Entry>, roomCode: Option<string>, socketId: string, now: int): JoinVerdict {
    if !Truthy(roomCode) then JoinRejected(MissingRoomCode)
    else match Fetched(rooms, roomCode.value)
      case Broken => JoinCrashed
      case Missing => JoinRejected(RoomNotFound)
      case Found(d) =>
        var room := Refreshed(d, now);
        if room.state != Open then JoinRejected(RoomClosed)
        else if IsExpiredAt(room, now) then JoinRejected(RoomExpired)
        else if !HasRoomFor(room.participants, room.maxParticipants, socketId) then JoinRejected(RoomFull)
        else JoinAdmitted(d)
  }

  /** The file after the lookups of a join that does not succeed. */
  function JoinLookup(rooms: map<string, Entry>, roomCode: Option<string>, now: int): map<string, Entry> {
    if Truthy(roomCode) then AfterLookup(rooms, roomCode.value, now) else rooms
  }

  /** An expired room is reported as closed: `get_room` has already marked it expired. */
  lemma ExpiredRoomReportedClosed(rooms: map<string, Entry>, code: string, socketId: string, now: int)
    requires code != "" && Fetched(rooms, code).Found? && IsExpiredAt(Fetched(rooms, code).data, now)
    ensures JoinCheck(rooms, Some(code), socketId, now) == JoinRejected(RoomClosed)
  {
  }

  /** With the clock fixed during the call, `ROOM_EXPIRED` is never sent. */
  lemma JoinNeverReportsExpired(rooms: map<string, Entry>, roomCode: Option<string>, socketId: string, now: int)
    ensures JoinCheck(rooms, roomCode, socketId, now) != JoinRejected(RoomExpired)
  {
  }

  /** A join is admitted exactly when a code is given and `add_participant` would accept the socket. */
  lemma JoinAdmittedIff(rooms: map<string, Entry>, roomCode: Option<string>, socketId: string, now: int)
    ensures JoinCheck(rooms, roomCode, socketId, now).JoinAdmitted? <==>
      Truthy(roomCode) && Fetched(rooms, roomCode.value).Found? &&
      AcceptsJoin(Fetched(rooms, roomCode.value).data, socketId, now)
    ensures JoinCheck(rooms, roomCode, socketId, now).JoinAdmitted? ==>
      JoinCheck(rooms, roomCode, socketId, now).data == Fetched(rooms, roomCode.value).data
  {
    if Truthy(roomCode) && Fetched(rooms, roomCode.value).Found? {
      RefreshedAcceptsSame(Fetched(rooms, roomCode.value).data, socketId, now);
    }
  }

  /** A full open room, and equally an open room the socket is already in, is reported as full. */
  lemma FullOrDuplicateReportedFull(rooms: map<string, Entry>, code: string, socketId: string, now: int)
    requires code != "" && Fetched(rooms, code).Found?
    requires var d := Fetched(rooms, code).data;
      d.state == Open && !IsExpiredAt(d, now) && (|d.participants| >= d.maxParticipants || socketId in d.participants)
    ensures JoinCheck(rooms, Some(code), socketId, now) == JoinRejected(RoomFull)
  {
  }

  /** `payload is not None`: present and not JSON `null`, however the null arrives. */
  predicate HasPayload(payload: Field<Json>) {
    payload.Given? && payload.value != JNull
  }

  /** The outcome of the checks of `handle_signal`. */
  datatype SignalVerdict = SignalRejected(error: ErrorCode) | SignalCrashed | Forward(target: string, signalType: string, payload: Json)

  function SignalCheck(rooms: map<string, Entry>, socketToRoom: map<string, string>, socketId: string,
                       to: Option<string>, signalType: Option<string>, payload: Field<Json>): SignalVerdict {
    if !Truthy(to) || !Truthy(signalType) || !HasPayload(payload) then SignalRejected(InvalidSignal)
    else if socketId !in socketToRoom then SignalRejected(NotInRoom)
    else match Fetched(rooms, socketToRoom[socketId])
      case Broken => SignalCrashed
      case Missing => SignalRejected(PeerNotFound)
      case Found(d) => if to.value in d.participants then Forward(to.value, signalType.value, payload.value) else SignalRejected(PeerNotFound)
  }

  /** A signal is forwarded, unchanged, exactly when it is complete and its target is in the sender's room. */
  lemma SignalForwardIff(rooms: map<string, Entry>, socketToRoom: map<string, string>, socketId: string,
                         to: Option<string>, signalType: Option<string>, payload: Field<Json>)
    ensures SignalCheck(rooms, socketToRoom, socketId, to, signalType, payload).Forward? <==>
      && Truthy(to) && Truthy(signalType) && HasPayload(payload)
      && socketId in socketToRoom
      && Fetched(rooms, socketToRoom[socketId]).Found?
      && to.value in Fetched(rooms, socketToRoom[socketId]).data.participants
    ensures SignalCheck(rooms, socketToRoom, socketId, to, signalType, payload).Forward? ==>
      SignalCheck(rooms, socketToRoom, socketId, to, signalType, payload) == Forward(to.value, signalType.value, payload.value)
  {
  }

  /** An incomplete signal is refused before the sender's room is looked at. */
  lemma IncompleteSignalRefused(rooms: map<string, Entry>, socketToRoom: map<string, string>, socketId: string,
                                to: Option<string>, signalType: Option<string>, payload: Field<Json>)
    requires !Truthy(to) || !Truthy(signalType) || !HasPayload(payload)
    ensures SignalCheck(rooms, socketToRoom, socketId, to, signalType, payload) == SignalRejected(InvalidSignal)
  {
  }

  /** A leaver is never told about their own departure. */
  lemma LeaverNotNotified(rooms: map<string, Entry>, code: string, socketId: string, active: set<string>, now: int)
    ensures socketId !in Audience(AfterRemoval(rooms, code, socketId, now), code, {}, active)
  {
    if Fetched(rooms, code).Found? && socketId !in Fetched(rooms, code).data.participants {
      RemovalAbsentKeepsParticipants(rooms, code, socketId, now);
    }
  }

  /** `leave_room` raises exactly when the sender is mapped to a room whose entry cannot be loaded. */
  predicate LeaveCrashes(rooms: map<string, Entry>, socketToRoom: map<string, string>, socketId: string) {
    socketId in socketToRoom && Fetched(rooms, socketToRoom[socketId]).Broken?
  }

  /** The entry under some room code cannot be loaded, so drawing that code makes `get_room` raise. */
  ghost predicate SomeBroken(rooms: map<string, Entry>) {
    exists k :: IsRoomCode(k) && Fetched(rooms, k).Broken?
  }

  /** A created room stays stored even when its creator cannot join it. */
  lemma CreatedRoomStaysStored(rooms: map<string, Entry>, d: RoomData, socketId: string,
                               displayName: Option<string>, now: int)
    ensures var after := AfterJoin(rooms[d.roomCode := Loadable(d)], d.roomCode, socketId, displayName, None, now);
      Fetched(after, d.roomCode).Found? && Fetched(after, d.roomCode).data.roomCode == d.roomCode
  {
  }

  /** The server-visible state: sockets, the socket-to-room map, the sent messages and the file. */
  datatype Snapshot = Snapshot(
    active: set<string>,
    socketToRoom: map<string, string>,
    outbox: seq<Sent>,
    rooms: map<string, Entry>,
    order: seq<string>)

  /** The state after one more `send_message`. */
  function Emit(b: Snapshot, to: string, msg: ServerMessage): Snapshot {
    b.(outbox := b.outbox + SentTo(b.active, to, msg))
  }

  /** One entry of the `peers` list of `joined`. */
  function PeerView(p: Participant): PeerInfo {
    PeerInfo(p.socketId, p.displayName)
  }

  /** What `handle_join_room` does when it does not raise. */
  ghost predicate JoinRoomStep(b: Snapshot, a: Snapshot, socketId: string, roomCode: Option<string>,
                               displayName: Option<string>, now: int) {
    match JoinCheck(b.rooms, roomCode, socketId, now)
    case JoinCrashed => a == b
    case JoinRejected(e) => a == Emit(b.(rooms := JoinLookup(b.rooms, roomCode, now)), socketId, Error(e))
    case JoinAdmitted(d) =>
      var code := roomCode.value;
      && a.active == b.active
      && a.socketToRoom == b.socketToRoom[socketId := code]
      && a.rooms == AfterJoin(b.rooms, code, socketId, displayName, None, now)
      && a.order == b.order
      && exists peers: seq<PeerInfo> ::
        && ListsAll(peers, d.participants, PeerView)
        && Extends(a.outbox, b.outbox + SentTo(b.active, socketId, Joined(code, socketId, peers)))
        && FansOut(a.outbox[|b.outbox + SentTo(b.active, socketId, Joined(code, socketId, peers))|..],
                   PeerJoined(socketId, displayName), d.participants.Keys * b.active)
  }

  /**
   * After an admitted join the broadcast's lookup rewrites nothing, and its
   * audience, without the joiner, is the connected earlier participants.
   */
  lemma AdmittedJoinAudience(rooms: map<string, Entry>, code: string, socketId: string, name: Option<string>,
                             d: RoomData, active: set<string>, now: int)
    requires code != "" && JoinCheck(rooms, Some(code), socketId, now) == JoinAdmitted(d)
    requires Fetched(rooms, code) == Found(d)
    ensures var joined := AfterJoin(rooms, code, socketId, name, None, now);
      && AfterLookup(joined, code, now) == joined
      && Audience(joined, code, {socketId}, active) == d.participants.Keys * active
  {
    JoinAdmittedIff(rooms, Some(code), socketId, now);
    var e := WithArrival(d, socketId, name, None, now);
    assert AfterJoin(rooms, code, socketId, name, None, now) == rooms[code := Loadable(e)];
    assert Fetched(rooms[code := Loadable(e)], code) == Found(e);
    assert e.participants.Keys - {socketId} == d.participants.Keys;
  }

  /** An admitted join whose `joined` list and `peer_joined` broadcast are given is a `JoinRoomStep`. */
  lemma AnnouncedJoin(b: Snapshot, a: Snapshot, socketId: string, code: string, name: Option<string>,
                      d: RoomData, peers: seq<PeerInfo>, now: int)
    requires code != "" && JoinCheck(b.rooms, Some(code), socketId, now) == JoinAdmitted(d)
    requires a.active == b.active && a.socketToRoom == b.socketToRoom[socketId := code]
    requires a.rooms == AfterJoin(b.rooms, code, socketId, name, None, now) && a.order == b.order
    requires ListsAll(peers, d.participants, PeerView)
    requires Extends(a.outbox, b.outbox + SentTo(b.active, socketId, Joined(code, socketId, peers)))
    requires FansOut(a.outbox[|b.outbox + SentTo(b.active, socketId, Joined(code, socketId, peers))|..],
                     PeerJoined(socketId, name), d.participants.Keys * b.active)
    ensures JoinRoomStep(b, a, socketId, Some(code), name, now)
  {
  }

  /** What `handle_leave_room` does when it does not raise. */
  ghost predicate LeaveRoomStep(b: Snapshot, a: Snapshot, socketId: string, now: int) {
    if socketId !in b.socketToRoom then a == b
    else
      var code := b.socketToRoom[socketId];
      var rooms := AfterRemoval(b.rooms, code, socketId, now);
      && a.active == b.active
      && a.socketToRoom == b.socketToRoom - {socketId}
      && a.rooms == rooms
      && a.order == b.order
      && Extends(a.outbox, b.outbox)
      && FansOut(a.outbox[|b.outbox|..], PeerLeft(socketId), Audience(rooms, code, {}, b.active))
  }

  /** What `handle_signal` does when it does not raise. */
  ghost predicate SignalStep(b: Snapshot, a: Snapshot, socketId: string,
                             to: Option<string>, signalType: Option<string>, payload: Field<Json>, now: int) {
    match SignalCheck(b.rooms, b.socketToRoom, socketId, to, signalType, payload)
    case SignalCrashed => a == b
    case SignalRejected(e) =>
      if e == PeerNotFound
      then a == Emit(b.(rooms := AfterLookup(b.rooms, b.socketToRoom[socketId], now)), socketId, Error(e))
      else a == Emit(b, socketId, Error(e))
    case Forward(target, t, p) =>
      a == Emit(b.(rooms := AfterLookup(b.rooms, b.socketToRoom[socketId], now)), target, Signal(socketId, t, p))
  }

  /** What `handle_create_room` does when the room it creates gets the code `code`. */
  ghost predicate CreatedUnder(b: Snapshot, a: Snapshot, code: string, socketId: string, displayName: Option<string>,
                               maxParticipants: Option<int>, ttlHours: Option<int>, now: int) {
    var d := NewRoom(code, Some(socketId), ttlHours, maxParticipants, now);
    && IsRoomCode(code)
    && (Fetched(b.rooms, code).Missing? || HasTimestampSuffix(code, now))
    && a.active == b.active
    && a.order == Put(b.order, code)
    && a.rooms == AfterJoin(b.rooms[code := Loadable(d)], code, socketId, displayName, None, now)
    && if AcceptsJoin(d, socketId, now)
       then a.socketToRoom == b.socketToRoom[socketId := code] &&
            a.outbox == b.outbox + SentTo(b.active, socketId, RoomCreated(code, now, d.expiresAt, socketId))
       else a.socketToRoom == b.socketToRoom &&
            a.outbox == b.outbox + SentTo(b.active, socketId, Error(RoomCreationFailed))
  }

  /** What `handle_create_room` does when it does not raise. */
  ghost predicate CreateRoomStep(b: Snapshot, a: Snapshot, socketId: string, displayName: Option<string>,
                                 maxParticipants: Option<int>, ttlHours: Option<int>, now: int) {
    exists code :: CreatedUnder(b, a, code, socketId, displayName, maxParticipants, ttlHours, now)
  }

  /** What `handle_message` does with a decoded request. */
  ghost predicate Handled(b: Snapshot, a: Snapshot, socketId: string, req: Request, now: int) {
    match req
    case CreateRoomReq(n, m, t) =>
      || CreateRoomStep(b, a, socketId, GetOrDefault(n, "Anonymous"), GetOrDefault(m, 50), GetOrDefault(t, 24), now)
      || (SomeBroken(b.rooms) && a == Emit(b, socketId, Error(ServerError)))
    case JoinRoomReq(c, n) =>
      if JoinCheck(b.rooms, c, socketId, now).JoinCrashed? then a == Emit(b, socketId, Error(ServerError))
      else JoinRoomStep(b, a, socketId, c, GetOrDefault(n, "Anonymous"), now)
    case LeaveRoomReq =>
      if LeaveCrashes(b.rooms, b.socketToRoom, socketId) then a == Emit(b, socketId, Error(ServerError))
      else LeaveRoomStep(b, a, socketId, now)
    case SignalReq(to, t, p) =>
      if SignalCheck(b.rooms, b.socketToRoom, socketId, to, t, p).SignalCrashed? then a == Emit(b, socketId, Error(ServerError))
      else SignalStep(b, a, socketId, to, t, p, now)
    case ChatMessageReq => a == Emit(b, socketId, Error(ServerError))
    case HeartbeatReq => a == Emit(b, socketId, Pong)
    case UnknownReq(_) => a == Emit(b, socketId, Error(UnknownMessageType))
  }

  /** `ConnectionManager`. */
  class ConnectionManager {
    const manager: RoomManager
    /** The keys of `active_connections`. */
    var activeConnections: set<string>
    var socketToRoom: map<string, string>
    /** Every message sent so far, in order. */
    var outbox: seq<Sent>

    ghost predicate Valid()
      reads this, manager.storage
    {
      manager.storage.Valid()
    }

    function Snap(): Snapshot
      reads this, manager.storage
    {
      Snapshot(activeConnections, socketToRoom, outbox, manager.storage.rooms, manager.storage.order)
    }

    constructor (roomManager: RoomManager)
      ensures manager == roomManager
      ensures activeConnections == {} && socketToRoom == map[] && outbox == []
    {
      manager := roomManager;
      activeConnections := {};
      socketToRoom := map[];
      outbox := [];
    }

    /** `connect`: the socket becomes reachable. */
    method Connect(socketId: string)
      modifies this
      ensures activeConnections == old(activeConnections) + {socketId}
      ensures socketToRoom == old(socketToRoom) && outbox == old(outbox)
    {
      activeConnections := activeConnections + {socketId};
    }

    /**
     * `disconnect`: forgets the socket and takes it out of its room.  Nobody is
     * told.  When removing it from its room raises, the mapping stays.
     */
    method Disconnect(socketId: string, now: int) returns (raised: bool)
      requires Valid()
      modifies this, manager.storage
      ensures Valid()
      ensures activeConnections == old(activeConnections) - {socketId}
      ensures outbox == old(outbox)
      ensures raised == LeaveCrashes(old(manager.storage.rooms), old(socketToRoom), socketId)
      ensures socketId !in old(socketToRoom) || raised ==>
        socketToRoom == old(socketToRoom) && manager.storage.rooms == old(manager.storage.rooms)
      ensures socketId in old(socketToRoom) && !raised ==>
        && socketToRoom == old(socketToRoom) - {socketId}
        && manager.storage.rooms == AfterRemoval(old(manager.storage.rooms), old(socketToRoom)[socketId], socketId, now)
      ensures manager.storage.order == old(manager.storage.order)
    {
      activeConnections := activeConnections - {socketId};
      raised := false;
      if socketId in socketToRoom {
        var code := socketToRoom[socketId];
        var left;
        left, raised := manager.RemoveParticipant(code, socketId, now);
        if raised {
          return;
        }
        socketToRoom := socketToRoom - {socketId};
      }
    }

    /** `send_message`: delivered only to a connected socket. */
    method SendMessage(to: string, msg: ServerMessage)
      modifies this
      ensures activeConnections == old(activeConnections) && socketToRoom == old(socketToRoom)
      ensures outbox == old(outbox) + SentTo(activeConnections, to, msg)
    {
      if to in activeConnections {
        outbox := outbox + [Sent(to, msg)];
      }
    }

    /** The loop of `broadcast_to_room`: one send per participant not excluded. */
    method SendEach(targets: set<string>, exclude: set<string>, msg: ServerMessage)
      modifies this
      ensures activeConnections == old(activeConnections) && socketToRoom == old(socketToRoom)
      ensures Extends(outbox, old(outbox))
      ensures FansOut(outbox[|old(outbox)|..], msg, (targets - exclude) * activeConnections)
    {
      var pending := targets;
      ghost var done: set<string> := {};
      assert outbox[|old(outbox)|..] == [];
      while pending != {}
        invariant pending !! done && pending + done == targets
        invariant activeConnections == old(activeConnections) && socketToRoom == old(socketToRoom)
        invariant Extends(outbox, old(outbox))
        invariant FansOut(outbox[|old(outbox)|..], msg, (done - exclude) * activeConnections)
        decreases pending
      {
        var socketId :| socketId in pending;
        ghost var sentBefore := outbox[|old(outbox)|..];
        if socketId !in exclude {
          SendMessage(socketId, msg);
          if socketId in activeConnections {
            assert outbox[|old(outbox)|..] == sentBefore + [Sent(socketId, msg)];
            FansOutExtend(sentBefore, msg, (done - exclude) * activeConnections, socketId);
          } else {
            assert outbox[|old(outbox)|..] == sentBefore;
          }
        }
        assert (done + {socketId} - exclude) * activeConnections ==
          (done - exclude) * activeConnections + (if socketId !in exclude && socketId in activeConnections then {socketId} else {});
        pending := pending - {socketId};
        done := done + {socketId};
      }
    }

    /** `broadcast_to_room`: `msg` to every connected participant of the room not in `exclude`. */
    method Broadcast(code: string, msg: ServerMessage, exclude: set<string>, now: int) returns (raised: bool)
      requires Valid()
      modifies this, manager.storage
      ensures Valid()
      ensures raised == Fetched(old(manager.storage.rooms), code).Broken?
      ensures activeConnections == old(activeConnections) && socketToRoom == old(socketToRoom)
      ensures manager.storage.rooms == AfterLookup(old(manager.storage.rooms), code, now)
      ensures manager.storage.order == old(manager.storage.order)
      ensures Extends(outbox, old(outbox))
      ensures FansOut(outbox[|old(outbox)|..], msg, Audience(old(manager.storage.rooms), code, exclude, activeConnections))
    {
      var room;
      room, raised := manager.GetRoom(code, now);
      if room == null {
        assert outbox[|old(outbox)|..] == [];
        return;
      }
      SendEach(room.participants.Keys, exclude, msg);
    }

    /** `handle_join_room`. */
    method HandleJoinRoom(socketId: string, roomCode: Option<string>, displayName: Field<string>, now: int)
      returns (raised: bool)
      requires Valid()
      modifies this, manager.storage
      ensures Valid()
      ensures raised == JoinCheck(old(manager.storage.rooms), roomCode, socketId, now).JoinCrashed?
      ensures raised ==> Snap() == old(Snap())
      ensures !raised ==> JoinRoomStep(old(Snap()), Snap(), socketId, roomCode, GetOrDefault(displayName, "Anonymous"), now)
    {
      var name := GetOrDefault(displayName, "Anonymous");
      if !Truthy(roomCode) {
        SendMessage(socketId, Error(MissingRoomCode));
        return false;
      }
      var code := roomCode.value;
      var room;
      room, raised := manager.GetRoom(code, now);
      if raised {
        return;
      }
      if room == null {
        SendMessage(socketId, Error(RoomNotFound));
        return;
      }
      if room.state != Open {
        SendMessage(socketId, Error(RoomClosed));
        return;
      }
      if room.IsExpired(now) {
        // The handler answers `ROOM_EXPIRED` here; with one clock reading per
        // call `get_room` has already marked such a room expired, so the
        // `ROOM_CLOSED` branch above has taken it (`JoinNeverReportsExpired`).
        assert false;
      }
      ghost var d := Fetched(old(manager.storage.rooms), code).data;
      JoinAdmittedIff(old(manager.storage.rooms), roomCode, socketId, now);
      var joined, again := manager.AddParticipant(code, socketId, name, None, now);
      assert !again;
      if joined == null {
        SendMessage(socketId, Error(RoomFull));
        return;
      }
      AnnounceJoin(socketId, code, name, joined, old(Snap()), d, now);
    }

    /** The end of a successful `handle_join_room`: the mapping, `joined` to the joiner, `peer_joined` to the others. */
    method AnnounceJoin(socketId: string, code: string, name: Option<string>, joined: Room,
                        ghost b: Snapshot, ghost d: RoomData, now: int)
      requires Valid()
      requires code != "" && JoinCheck(b.rooms, Some(code), socketId, now) == JoinAdmitted(d)
      requires Fetched(b.rooms, code) == Found(d)
      requires Snap() == b.(rooms := AfterJoin(b.rooms, code, socketId, name, None, now))
      requires joined.Data() == WithArrival(d, socketId, name, None, now)
      modifies this, manager.storage
      ensures Valid()
      ensures JoinRoomStep(b, Snap(), socketId, Some(code), name, now)
    {
      socketToRoom := socketToRoom[socketId := code];
      assert joined.participants - {socketId} == d.participants;
      var peers := ListValues(joined.participants - {socketId}, PeerView);
      assert ListsAll(peers, d.participants, PeerView);
      SendMessage(socketId, Joined(code, socketId, peers));
      ghost var head := outbox;
      var _ := Broadcast(code, PeerJoined(socketId, name), {socketId}, now);
      AdmittedJoinAudience(b.rooms, code, socketId, name, d, b.active, now);
      assert head == b.outbox + SentTo(b.active, socketId, Joined(code, socketId, peers));
      ghost var a := Snap();
      AnnouncedJoin(b, a, socketId, code, name, d, peers, now);
    }

    /** `handle_leave_room`. */
    method HandleLeaveRoom(socketId: string, now: int) returns (raised: bool)
      requires Valid()
      modifies this, manager.storage
      ensures Valid()
      ensures raised == LeaveCrashes(old(manager.storage.rooms), old(socketToRoom), socketId)
      ensures raised ==> Snap() == old(Snap())
      ensures !raised ==> LeaveRoomStep(old(Snap()), Snap(), socketId, now)
    {
      if socketId !in socketToRoom {
        return false;
      }
      var code := socketToRoom[socketId];
      var left;
      left, raised := manager.RemoveParticipant(code, socketId, now);
      if raised {
        return;
      }
      socketToRoom := socketToRoom - {socketId};
      ghost var removed := manager.storage.rooms;
      var again := Broadcast(code, PeerLeft(socketId), {}, now);
      assert !again;
      RemovalThenLookup(old(manager.storage.rooms), code, socketId, now);
    }

    /** `handle_signal`. */
    method HandleSignal(socketId: string, to: Option<string>, signalType: Option<string>, payload: Field<Json>, now: int)
      returns (raised: bool)
      requires Valid()
      modifies this, manager.storage
      ensures Valid()
      ensures raised == SignalCheck(old(manager.storage.rooms), old(socketToRoom), socketId, to, signalType, payload).SignalCrashed?
      ensures raised ==> Snap() == old(Snap())
      ensures !raised ==> SignalStep(old(Snap()), Snap(), socketId, to, signalType, payload, now)
    {
      if !Truthy(to) || !Truthy(signalType) || !HasPayload(payload) {
        SendMessage(socketId, Error(InvalidSignal));
        return false;
      }
      if socketId !in socketToRoom {
        SendMessage(socketId, Error(NotInRoom));
        return false;
      }
      var code := socketToRoom[socketId];
      var room;
      room, raised := manager.GetRoom(code, now);
      if raised {
        return;
      }
      if room == null || to.value !in room.participants {
        SendMessage(socketId, Error(PeerNotFound));
        return;
      }
      SendMessage(to.value, Signal(socketId, signalType.value, payload.value));
    }

    /** `handle_chat_message` reads an attribute the class never sets, so it always raises. */
    method HandleChatMessage() returns (raised: bool)
      ensures raised
    {
      raised := true;
    }

    /** `handle_create_room`: creates a room owned by the sender and joins the sender to it. */
    method HandleCreateRoom(socketId: string, displayName: Field<string>, maxParticipants: Field<int>,
                            ttlHours: Field<int>, now: int) returns (raised: bool)
      requires Valid()
      modifies this, manager.storage
      ensures Valid()
      ensures raised ==> Snap() == old(Snap()) && SomeBroken(old(manager.storage.rooms))
      ensures !raised ==> CreateRoomStep(old(Snap()), Snap(), socketId, GetOrDefault(displayName, "Anonymous"),
                                         GetOrDefault(maxParticipants, 50), GetOrDefault(ttlHours, 24), now)
    {
      var name := GetOrDefault(displayName, "Anonymous");
      var capacity := GetOrDefault(maxParticipants, 50);
      var ttl := GetOrDefault(ttlHours, 24);
      ghost var b := old(Snap());
      var room;
      room, raised := manager.CreateRoom(Some(socketId), ttl, capacity, now);
      if raised {
        return;
      }
      var code := room.roomCode;
      ghost var d := NewRoom(code, Some(socketId), ttl, capacity, now);
      var joined, again := manager.AddParticipant(code, socketId, name, None, now);
      assert !again;
      if joined != null {
        socketToRoom := socketToRoom[socketId := joined.roomCode];
        SendMessage(socketId, RoomCreated(joined.roomCode, joined.createdAt, joined.expiresAt, socketId));
      } else {
        SendMessage(socketId, Error(RoomCreationFailed));
      }
      assert CreatedUnder(b, Snap(), code, socketId, name, capacity, ttl, now);
    }

    /** `handle_message`: routes a frame by its type; an exception in a handler becomes `SERVER_ERROR`. */
    method HandleMessage(socketId: string, frame: Frame, now: int)
      requires Valid()
      modifies this, manager.storage
      ensures Valid()
      ensures frame.InvalidJsonFrame? ==> Snap() == Emit(old(Snap()), socketId, Error(InvalidJson))
      ensures frame.MalformedFrame? ==> Snap() == Emit(old(Snap()), socketId, Error(ServerError))
      ensures frame.RequestFrame? ==> Handled(old(Snap()), Snap(), socketId, frame.request, now)
    {
      var raised := false;
      match frame
      case InvalidJsonFrame =>
        SendMessage(socketId, Error(InvalidJson));
      case MalformedFrame =>
        SendMessage(socketId, Error(ServerError));
      case RequestFrame(req) =>
        match req {
          case CreateRoomReq(n, m, t) =>
            raised := HandleCreateRoom(socketId, n, m, t, now);
          case JoinRoomReq(c, n) =>
            raised := HandleJoinRoom(socketId, c, n, now);
          case LeaveRoomReq =>
            raised := HandleLeaveRoom(socketId, now);
          case SignalReq(to, t, p) =>
            raised := HandleSignal(socketId, to, t, p, now);
          case ChatMessageReq =>
            raised := HandleChatMessage();
          case HeartbeatReq =>
            SendMessage(socketId, Pong);
          case UnknownReq(_) =>
            SendMessage(socketId, Error(UnknownMessageType));
        }
        if raised {
          SendMessage(socketId, Error(ServerError));
        }
    }
  }
}
