/**
 * Rooms and participants (models.py).  A room's participant table is a map
 * from socket id to participant; times are whole seconds.
 */
module Models {
  import opened Wrappers

  /** A participant of a room, as created by `add_participant`. */
  datatype Participant = Participant(
    socketId: string,
    displayName: Option<string>,
    joinedAt: int,
    userId: Option<string>,
    lastSeen: int)

  /** The three values the `state` string of a room takes. */
  datatype RoomState = Open | Closed | Expired

  /** The contents of a room: what `model_dump` writes to the store. */
  datatype RoomData = RoomData(
    roomCode: string,
    createdAt: int,
    expiresAt: int,
    ownerSocketId: Option<string>,
    state: RoomState,
    maxParticipants: int,
    participants: map<string, Participant>)

  /** One row of `get_participant_list`. */
  datatype ParticipantSummary = ParticipantSummary(socketId: string, displayName: Option<string>, joinedAt: int)

  function Summary(p: Participant): ParticipantSummary {
    ParticipantSummary(p.socketId, p.displayName, p.joinedAt)
  }

  /** The participant `add_participant` creates at time `now`. */
  function Arrival(socketId: string, displayName: Option<string>, userId: Option<string>, now: int): Participant {
    Participant(socketId, displayName, now, userId, now)
  }

  /** The two checks of `add_participant`, capacity first, then duplicates. */
  predicate HasRoomFor(ps: map<string, Participant>, capacity: int, socketId: string) {
    |ps| < capacity && socketId !in ps
  }

  /** The participant table after `add_participant` of `p`. */
  function Admitted(ps: map<string, Participant>, capacity: int, p: Participant): map<string, Participant> {
    if HasRoomFor(ps, capacity, p.socketId) then ps[p.socketId := p] else ps
  }

  /** The participant table after a sequence of `add_participant` calls. */
  function AdmitAll(ps: map<string, Participant>, capacity: int, arrivals: seq<Participant>): map<string, Participant>
    decreases |arrivals|
  {
    if arrivals == [] then ps else AdmitAll(Admitted(ps, capacity, arrivals[0]), capacity, arrivals[1..])
  }

  /** `is_expired` at time `now`: the deadline is reached (inclusive) or the room is marked expired. */
  predicate IsExpiredAt(d: RoomData, now: int) {
    now >= d.expiresAt || d.state == Expired
  }

  /** A full table, or one that already holds the socket, is left as it is. */
  lemma AdmittedRefusal(ps: map<string, Participant>, capacity: int, p: Participant)
    requires |ps| >= capacity || p.socketId in ps
    ensures Admitted(ps, capacity, p) == ps
  {
  }

  /** An admission inserts exactly the new key and grows the table by one. */
  lemma AdmittedInsertion(ps: map<string, Participant>, capacity: int, p: Participant)
    requires HasRoomFor(ps, capacity, p.socketId)
    ensures Admitted(ps, capacity, p).Keys == ps.Keys + {p.socketId}
    ensures |Admitted(ps, capacity, p)| == |ps| + 1
    ensures Admitted(ps, capacity, p)[p.socketId] == p
    ensures forall k :: k in ps ==> Admitted(ps, capacity, p)[k] == ps[k]
  {
  }

  /** No sequence of admissions takes a table within its capacity past it. */
  lemma {:induction false} AdmitAllWithinCapacity(ps: map<string, Participant>, capacity: int, arrivals: seq<Participant>)
    requires |ps| <= capacity
    ensures |AdmitAll(ps, capacity, arrivals)| <= capacity
    decreases |arrivals|
  {
    if arrivals != [] {
      var next := Admitted(ps, capacity, arrivals[0]);
      if HasRoomFor(ps, capacity, arrivals[0].socketId) {
        AdmittedInsertion(ps, capacity, arrivals[0]);
      }
      assert |next| <= capacity;
      AdmitAllWithinCapacity(next, capacity, arrivals[1..]);
    }
  }

  /** Admissions never drop anybody: every earlier participant is still there, unchanged. */
  lemma {:induction false} AdmitAllKeepsMembers(ps: map<string, Participant>, capacity: int, arrivals: seq<Participant>)
    ensures forall k :: k in ps ==> k in AdmitAll(ps, capacity, arrivals) && AdmitAll(ps, capacity, arrivals)[k] == ps[k]
    decreases |arrivals|
  {
    if arrivals != [] {
      AdmitAllKeepsMembers(Admitted(ps, capacity, arrivals[0]), capacity, arrivals[1..]);
    }
  }

  /** Once a room is expired it stays expired as time goes on. */
  lemma ExpiryIsPermanent(d: RoomData, now: int, later: int)
    requires IsExpiredAt(d, now) && now <= later
    ensures IsExpiredAt(d, later)
  {
  }

  /** `keys` lists every key of `m` exactly once. */
  ghost predicate Enumerates(keys: seq<string>, m: map<string, Participant>) {
    && |keys| == |m|
    && (forall k :: k in m <==> k in keys)
    && (forall i, j :: 0 <= i < j < |keys| ==> keys[i] != keys[j])
  }

  /** `list` holds, position by position, the views of the participants under `keys`. */
  ghost predicate ListedBy<T>(list: seq<T>, keys: seq<string>, m: map<string, Participant>, view: Participant -> T) {
    && |list| == |keys|
    && (forall i :: 0 <= i < |keys| ==> keys[i] in m && list[i] == view(m[keys[i]]))
  }

  /** The values of `m` seen through `view`, one per key, in some order of the keys. */
  ghost predicate ListsAll<T>(list: seq<T>, m: map<string, Participant>, view: Participant -> T) {
    exists keys: seq<string> :: Enumerates(keys, m) && ListedBy(list, keys, m, view)
  }

  /** Each entry of a listing by an enumeration is some participant's view, and every participant's view is in it. */
  lemma ListedByMembers<T>(list: seq<T>, keys: seq<string>, m: map<string, Participant>, view: Participant -> T)
    requires Enumerates(keys, m) && ListedBy(list, keys, m, view)
    ensures |list| == |m|
    ensures forall i :: 0 <= i < |list| ==> exists k :: k in m && list[i] == view(m[k])
    ensures forall k :: k in m ==> view(m[k]) in list
  {
    forall i | 0 <= i < |list|
      ensures exists k :: k in m && list[i] == view(m[k])
    {
      assert keys[i] in m && list[i] == view(m[keys[i]]);
    }
    forall k | k in m
      ensures view(m[k]) in list
    {
      var i :| 0 <= i < |keys| && keys[i] == k;
      assert list[i] == view(m[k]);
    }
  }

  /** Such a list has one entry per participant, each entry the view of a participant, and every participant's view in it. */
  lemma ListsAllMembers<T>(list: seq<T>, m: map<string, Participant>, view: Participant -> T)
    requires ListsAll(list, m, view)
    ensures |list| == |m|
    ensures forall i :: 0 <= i < |list| ==> exists k :: k in m && list[i] == view(m[k])
    ensures forall k :: k in m ==> view(m[k]) in list
  {
    var keys: seq<string> :| Enumerates(keys, m) && ListedBy(list, keys, m, view);
    ListedByMembers(list, keys, m, view);
  }

  /**
   * A list comprehension over the values of a participant table
   * (`[... for p in participants.values()]`); the map's iteration order is
   * left open.
   */
  method ListValues<T>(m: map<string, Participant>, view: Participant -> T) returns (list: seq<T>)
    ensures ListsAll(list, m, view)
  {
    list := [];
    var pending := m.Keys;
    ghost var keys: seq<string> := [];
    while pending != {}
      invariant pending <= m.Keys
      invariant |list| == |keys| && |list| + |pending| == |m|
      invariant forall i :: 0 <= i < |keys| ==> keys[i] in m && keys[i] !in pending && list[i] == view(m[keys[i]])
      invariant forall k :: k in m && k !in pending ==> k in keys
      invariant forall i, j :: 0 <= i < j < |keys| ==> keys[i] != keys[j]
      decreases pending
    {
      var k :| k in pending;
      list := list + [view(m[k])];
      keys := keys + [k];
      pending := pending - {k};
    }
    assert Enumerates(keys, m) && ListedBy(list, keys, m, view);
  }

  /** A room object; its methods change its fields in place. */
  class Room {
    var roomCode: string
    var createdAt: int
    var expiresAt: int
    var ownerSocketId: Option<string>
    var state: RoomState
    var maxParticipants: int
    var participants: map<string, Participant>

    /** The room's current contents. */
    function Data(): RoomData
      reads this
    {
      RoomData(roomCode, createdAt, expiresAt, ownerSocketId, state, maxParticipants, participants)
    }

    /** `Room(**fields)`: a room object holding `d`. */
    constructor (d: RoomData)
      ensures Data() == d
    {
      roomCode := d.roomCode;
      createdAt := d.createdAt;
      expiresAt := d.expiresAt;
      ownerSocketId := d.ownerSocketId;
      state := d.state;
      maxParticipants := d.maxParticipants;
      participants := d.participants;
    }

    /** `add_participant`: refuses a full room first, then a socket already present. */
    method AddParticipant(socketId: string, displayName: Option<string>, userId: Option<string>, now: int)
      returns (added: bool)
      modifies this
      ensures added == HasRoomFor(old(participants), old(maxParticipants), socketId)
      ensures Data() == old(Data()).(participants :=
        Admitted(old(participants), old(maxParticipants), Arrival(socketId, displayName, userId, now)))
    {
      if |participants| >= maxParticipants {
        return false;
      }
      if socketId !in participants {
        participants := participants[socketId := Arrival(socketId, displayName, userId, now)];
        return true;
      }
      return false;
    }

    /** `remove_participant`: true exactly when the socket was present. */
    method RemoveParticipant(socketId: string) returns (removed: bool)
      modifies this
      ensures removed == (socketId in old(participants))
      ensures Data() == old(Data()).(participants := old(participants) - {socketId})
    {
      if socketId in participants {
        participants := participants - {socketId};
        return true;
      }
      return false;
    }

    /** `get_participant_list`: one summary per participant. */
    method ParticipantList() returns (list: seq<ParticipantSummary>)
      ensures ListsAll(list, participants, Summary)
    {
      list := ListValues(participants, Summary);
    }

    /** `is_expired` at time `now`. */
    predicate IsExpired(now: int)
      reads this
    {
      IsExpiredAt(Data(), now)
    }

    /** `close`: the state becomes closed and nothing else changes. */
    method Close()
      modifies this
      ensures Data() == old(Data()).(state := Closed)
    {
      state := Closed;
    }
  }
}
