/**
 * Room management (room_manager.py): code generation, creation, lookup with
 * expiry marking, and joining and leaving through the store.  The clock is the
 * parameter `now` (whole seconds); `secrets.choice` is a nondeterministic
 * choice of a charset index.
 */
module RoomManagement {
  import opened Wrappers
  import opened Config
  import opened Models
  import opened Storage

  /** A well-formed room code: `ROOM_CODE_LENGTH` characters of the charset. */
  predicate IsRoomCode(code: string) {
    |code| == ROOM_CODE_LENGTH && forall i :: 0 <= i < |code| ==> code[i] in ROOM_CODE_CHARSET
  }

  function DigitChar(d: nat): char
    requires d < 10
  {
    DIGITS[d]
  }

  /** Python's `str(n)` of a natural number. */
  function DecimalString(n: nat): (s: string)
    ensures |s| >= 1
    ensures forall i :: 0 <= i < |s| ==> s[i] in DIGITS
  {
    if n < 10 then [DigitChar(n)] else DecimalString(n / 10) + [DigitChar(n % 10)]
  }

  /** The fallback code: five drawn characters, then `str(now % 62)`, cut to the code length. */
  function FallbackCode(prefix: string, now: int): string
    requires |prefix| == 5
  {
    (prefix + DecimalString(now % 62))[..ROOM_CODE_LENGTH]
  }

  /** The last character of the code is the leading digit of `now % 62`. */
  predicate HasTimestampSuffix(code: string, now: int) {
    |code| == ROOM_CODE_LENGTH && code[ROOM_CODE_LENGTH - 1] == DecimalString(now % 62)[0]
  }

  /** The fallback path also yields a well-formed code, whose last character comes from the clock. */
  lemma FallbackCodeIsRoomCode(prefix: string, now: int)
    requires |prefix| == 5 && forall i :: 0 <= i < 5 ==> prefix[i] in ROOM_CODE_CHARSET
    ensures IsRoomCode(FallbackCode(prefix, now))
    ensures FallbackCode(prefix, now)[..5] == prefix
    ensures HasTimestampSuffix(FallbackCode(prefix, now), now)
  {
    var digits := DecimalString(now % 62);
    var code := FallbackCode(prefix, now);
    assert code == prefix + [digits[0]];
    assert digits[0] in DIGITS;
  }

  /** `Room.is_expired()` as `get_room` sees it, and the state `get_room` stores in that case. */
  function Refreshed(d: RoomData, now: int): (r: RoomData)
    ensures IsExpiredAt(r, now) == IsExpiredAt(d, now)
    ensures IsExpiredAt(d, now) ==> r.state == Expired
    ensures r.(state := d.state) == d
  {
    if IsExpiredAt(d, now) then d.(state := Expired) else d
  }

  /** The file after `get_room(code)`: an expired room is written back marked expired. */
  function AfterLookup(rooms: map<string, Entry>, code: string, now: int): map<string, Entry> {
    match Fetched(rooms, code)
    case Found(d) => if IsExpiredAt(d, now) then rooms[code := Loadable(Refreshed(d, now))] else rooms
    case _ => rooms
  }

  /** The number of file writes `get_room(code)` makes. */
  function LookupWrites(rooms: map<string, Entry>, code: string, now: int): nat {
    if Fetched(rooms, code).Found? && IsExpiredAt(Fetched(rooms, code).data, now) then 1 else 0
  }

  /** `add_participant`'s conditions on the room it got back from `get_room`. */
  predicate AcceptsJoin(d: RoomData, socketId: string, now: int) {
    !IsExpiredAt(d, now) && d.state == Open && HasRoomFor(d.participants, d.maxParticipants, socketId)
  }

  /** The room `add_participant` stores when it succeeds. */
  function WithArrival(d: RoomData, socketId: string, displayName: Option<string>, userId: Option<string>, now: int): RoomData {
    d.(participants := d.participants[socketId := Arrival(socketId, displayName, userId, now)])
  }

  /** The file after `add_participant(code, socketId, ...)`. */
  function AfterJoin(rooms: map<string, Entry>, code: string, socketId: string,
                     displayName: Option<string>, userId: Option<string>, now: int): map<string, Entry> {
    match Fetched(rooms, code)
    case Found(d) =>
      if AcceptsJoin(d, socketId, now) then rooms[code := Loadable(WithArrival(d, socketId, displayName, userId, now))]
      else AfterLookup(rooms, code, now)
    case _ => rooms
  }

  /** The file after `remove_participant(code, socketId)`: the room is kept even when it becomes empty. */
  function AfterRemoval(rooms: map<string, Entry>, code: string, socketId: string, now: int): map<string, Entry> {
    match Fetched(rooms, code)
    case Found(d) =>
      if socketId in d.participants
      then rooms[code := Loadable(Refreshed(d, now).(participants := d.participants - {socketId}))]
      else AfterLookup(rooms, code, now)
    case _ => rooms
  }

  /** The room `create_room` builds, with the configured defaults for absent settings. */
  function NewRoom(code: string, ownerId: Option<string>, ttlHours: Option<int>, maxParticipants: Option<int>, now: int): RoomData {
    RoomData(code, now, now + ttlHours.GetOr(ROOM_TTL_HOURS) * SECONDS_PER_HOUR, ownerId, Open,
             maxParticipants.GetOr(MAX_PARTICIPANTS_PER_ROOM), map[])
  }

  /** The first room of `ds` that holds the socket, as the loop of `get_participant_room` finds it. */
  function FirstHolder(ds: seq<RoomData>, socketId: string): Option<RoomData> {
    if ds == [] then None
    else if socketId in ds[0].participants then Some(ds[0])
    else FirstHolder(ds[1..], socketId)
  }

  /** A lookup marks an expired room and leaves every other code alone. */
  lemma LookupMarksExpired(rooms: map<string, Entry>, code: string, other: string, now: int)
    ensures Fetched(rooms, code).Found? ==>
      Fetched(AfterLookup(rooms, code, now), code) == Found(Refreshed(Fetched(rooms, code).data, now))
    ensures !Fetched(rooms, code).Found? ==> AfterLookup(rooms, code, now) == rooms
    ensures other != code ==> Fetched(AfterLookup(rooms, code, now), other) == Fetched(rooms, other)
  {
  }

  /** Looking a room up twice writes the same file as looking it up once. */
  lemma LookupIdempotent(rooms: map<string, Entry>, code: string, now: int)
    ensures AfterLookup(AfterLookup(rooms, code, now), code, now) == AfterLookup(rooms, code, now)
  {
    if Fetched(rooms, code).Found? {
      LookupMarksExpired(rooms, code, code, now);
    }
  }

  /** Marking a room expired does not change whether it accepts a join. */
  lemma RefreshedAcceptsSame(d: RoomData, socketId: string, now: int)
    ensures AcceptsJoin(Refreshed(d, now), socketId, now) == AcceptsJoin(d, socketId, now)
  {
  }

  /** A refused join never changes any room's participants. */
  lemma JoinRefusalKeepsParticipants(rooms: map<string, Entry>, code: string, socketId: string,
                                     displayName: Option<string>, userId: Option<string>, now: int)
    requires Fetched(rooms, code).Found? ==> !AcceptsJoin(Fetched(rooms, code).data, socketId, now)
    ensures Fetched(rooms, code).Found? ==>
      Fetched(AfterJoin(rooms, code, socketId, displayName, userId, now), code).Found? &&
      Fetched(AfterJoin(rooms, code, socketId, displayName, userId, now), code).data.participants
        == Fetched(rooms, code).data.participants
    ensures !Fetched(rooms, code).Found? ==> AfterJoin(rooms, code, socketId, displayName, userId, now) == rooms
  {
    if Fetched(rooms, code).Found? {
      LookupMarksExpired(rooms, code, code, now);
    }
  }

  /** An accepted join adds exactly the new participant and keeps the room within its capacity. */
  lemma JoinAddsOne(rooms: map<string, Entry>, code: string, socketId: string,
                    displayName: Option<string>, userId: Option<string>, now: int)
    requires Fetched(rooms, code).Found? && AcceptsJoin(Fetched(rooms, code).data, socketId, now)
    ensures var d := Fetched(rooms, code).data;
      var after := Fetched(AfterJoin(rooms, code, socketId, displayName, userId, now), code);
      && after.Found?
      && after.data.participants.Keys == d.participants.Keys + {socketId}
      && |after.data.participants| == |d.participants| + 1 <= d.maxParticipants
      && after.data.(participants := d.participants) == d
  {
    var d := Fetched(rooms, code).data;
    AdmittedInsertion(d.participants, d.maxParticipants, Arrival(socketId, displayName, userId, now));
  }

  /** A join touches no other code of the file. */
  lemma JoinKeepsOtherRooms(rooms: map<string, Entry>, code: string, other: string, socketId: string,
                            displayName: Option<string>, userId: Option<string>, now: int)
    requires other != code
    ensures Fetched(AfterJoin(rooms, code, socketId, displayName, userId, now), other) == Fetched(rooms, other)
  {
    LookupMarksExpired(rooms, code, other, now);
  }

  /** A removal drops exactly the socket and keeps the room stored, even once it is empty. */
  lemma RemovalKeepsRoom(rooms: map<string, Entry>, code: string, socketId: string, now: int)
    requires Fetched(rooms, code).Found? && socketId in Fetched(rooms, code).data.participants
    ensures var d := Fetched(rooms, code).data;
      var after := Fetched(AfterRemoval(rooms, code, socketId, now), code);
      && after.Found?
      && after.data.participants == d.participants - {socketId}
      && |after.data.participants| == |d.participants| - 1
      && code in AfterRemoval(rooms, code, socketId, now)
  {
  }

  /** A removal of a socket that is not present changes no participant table. */
  lemma RemovalAbsentKeepsParticipants(rooms: map<string, Entry>, code: string, socketId: string, now: int)
    requires Fetched(rooms, code).Found? && socketId !in Fetched(rooms, code).data.participants
    ensures Fetched(AfterRemoval(rooms, code, socketId, now), code).Found?
    ensures Fetched(AfterRemoval(rooms, code, socketId, now), code).data.participants
      == Fetched(rooms, code).data.participants
  {
    LookupMarksExpired(rooms, code, code, now);
  }

  /** Looking the room up again after a removal writes nothing new. */
  lemma RemovalThenLookup(rooms: map<string, Entry>, code: string, socketId: string, now: int)
    ensures AfterLookup(AfterRemoval(rooms, code, socketId, now), code, now) == AfterRemoval(rooms, code, socketId, now)
  {
    LookupIdempotent(rooms, code, now);
  }

  /** Absent settings fall back to the configured lifetime and capacity; the new room is open and empty. */
  lemma NewRoomDefaults(code: string, ownerId: Option<string>, now: int)
    ensures NewRoom(code, ownerId, None, None, now).expiresAt == now + 24 * 3600
    ensures NewRoom(code, ownerId, None, None, now).maxParticipants == 50
    ensures NewRoom(code, ownerId, None, None, now).state == Open
    ensures NewRoom(code, ownerId, None, None, now).participants == map[]
  {
  }

  /** The creator can join the new room exactly when its lifetime and its capacity are positive. */
  lemma NewRoomAcceptsCreator(code: string, ownerId: Option<string>, ttlHours: Option<int>,
                              maxParticipants: Option<int>, socketId: string, now: int)
    ensures AcceptsJoin(NewRoom(code, ownerId, ttlHours, maxParticipants, now), socketId, now)
      <==> ttlHours.GetOr(ROOM_TTL_HOURS) > 0 && maxParticipants.GetOr(MAX_PARTICIPANTS_PER_ROOM) > 0
  {
    var t := ttlHours.GetOr(ROOM_TTL_HOURS);
    if t <= 0 {
      assert t * SECONDS_PER_HOUR <= 0;
    } else {
      assert t * SECONDS_PER_HOUR > 0;
    }
  }

  /** `FirstHolder` finds a room that holds the socket, and no earlier room does. */
  lemma {:induction false} FirstHolderSound(ds: seq<RoomData>, socketId: string)
    ensures FirstHolder(ds, socketId).Some? ==>
      exists i :: 0 <= i < |ds| && ds[i] == FirstHolder(ds, socketId).value && socketId in ds[i].participants &&
        forall j :: 0 <= j < i ==> socketId !in ds[j].participants
  {
    if ds != [] && socketId !in ds[0].participants {
      FirstHolderSound(ds[1..], socketId);
      if FirstHolder(ds, socketId).Some? {
        var i :| 0 <= i < |ds[1..]| && ds[1..][i] == FirstHolder(ds[1..], socketId).value &&
          socketId in ds[1..][i].participants && forall j :: 0 <= j < i ==> socketId !in ds[1..][j].participants;
        assert ds[i + 1] == ds[1..][i];
        forall j | 0 <= j < i + 1
          ensures socketId !in ds[j].participants
        {
          if j > 0 {
            assert ds[j] == ds[1..][j - 1];
          }
        }
      }
    }
  }

  /** `FirstHolder` finds nothing exactly when no room holds the socket. */
  lemma {:induction false} FirstHolderComplete(ds: seq<RoomData>, socketId: string)
    ensures FirstHolder(ds, socketId).None? <==> forall i :: 0 <= i < |ds| ==> socketId !in ds[i].participants
  {
    if ds != [] {
      FirstHolderComplete(ds[1..], socketId);
      if socketId !in ds[0].participants {
        forall i | 0 < i < |ds|
          ensures ds[i] == ds[1..][i - 1]
        {
        }
      }
    }
  }

  /** Skipping a first room that does not hold the socket does not change the answer. */
  lemma FirstHolderSkip(ds: seq<RoomData>, i: nat, socketId: string)
    requires i < |ds| && socketId !in ds[i].participants
    ensures FirstHolder(ds[i..], socketId) == FirstHolder(ds[i + 1..], socketId)
  {
    assert ds[i..][1..] == ds[i + 1..];
  }

  /** A `secrets.choice(charset)` string of length `n`. */
  method DrawCode(n: nat) returns (code: string)
    ensures |code| == n && forall i :: 0 <= i < n ==> code[i] in ROOM_CODE_CHARSET
  {
    code := [];
    while |code| < n
      invariant |code| <= n && forall i :: 0 <= i < |code| ==> code[i] in ROOM_CODE_CHARSET
    {
      var k :| 0 <= k < |ROOM_CODE_CHARSET|;
      code := code + [ROOM_CODE_CHARSET[k]];
    }
  }

  /** `RoomManager`: rooms through the shared store. */
  class RoomManager {
    const storage: JsonStorage

    constructor (store: JsonStorage)
      ensures storage == store
    {
      storage := store;
    }

    /**
     * `generate_room_code`: up to 100 drawn codes, the first one `get_room`
     * finds nothing for; then the fallback.  An unloadable entry under a drawn
     * code makes `get_room` raise, which ends the search.
     */
    method GenerateRoomCode(now: int) returns (code: string, raised: bool, ghost collisions: seq<string>)
      ensures !raised ==> IsRoomCode(code)
      ensures !raised ==> Fetched(storage.rooms, code).Missing? || HasTimestampSuffix(code, now)
      ensures raised ==> IsRoomCode(code) && Fetched(storage.rooms, code).Broken?
      ensures |collisions| <= 100
      ensures forall c :: c in collisions ==> IsRoomCode(c) && Fetched(storage.rooms, c).Found?
      ensures !raised && |collisions| < 100 ==> Fetched(storage.rooms, code).Missing?
      ensures !raised && |collisions| == 100 ==> HasTimestampSuffix(code, now)
    {
      var attempt := 0;
      collisions := [];
      while attempt < 100
        invariant 0 <= attempt <= 100
        invariant |collisions| == attempt
        invariant forall c :: c in collisions ==> IsRoomCode(c) && Fetched(storage.rooms, c).Found?
      {
        code := DrawCode(ROOM_CODE_LENGTH);
        var room;
        room, raised := storage.GetRoom(code);
        if raised || room == null {
          return;
        }
        collisions := collisions + [code];
        attempt := attempt + 1;
      }
      var prefix := DrawCode(5);
      code, raised := FallbackCode(prefix, now), false;
      FallbackCodeIsRoomCode(prefix, now);
    }

    /** `create_room`: stores an open room under a new code. */
    method CreateRoom(ownerId: Option<string>, ttlHours: Option<int>, maxParticipants: Option<int>, now: int)
      returns (room: Room?, raised: bool)
      requires storage.Valid()
      modifies storage
      ensures storage.Valid()
      ensures raised <==> room == null
      ensures raised ==> unchanged(storage) && exists k :: IsRoomCode(k) && Fetched(storage.rooms, k).Broken?
      ensures room != null ==> fresh(room) && IsRoomCode(room.roomCode)
      ensures room != null ==> Fetched(old(storage.rooms), room.roomCode).Missing? || HasTimestampSuffix(room.roomCode, now)
      ensures room != null ==> room.Data() == NewRoom(room.roomCode, ownerId, ttlHours, maxParticipants, now)
      ensures room != null ==> storage.rooms == old(storage.rooms)[room.roomCode := Loadable(room.Data())]
      ensures room != null ==> storage.order == Put(old(storage.order), room.roomCode)
      ensures room != null ==> storage.writes == old(storage.writes) + 1
    {
      var code;
      ghost var collisions;
      code, raised, collisions := GenerateRoomCode(now);
      if raised {
        return null, true;
      }
      room := new Room(NewRoom(code, ownerId, ttlHours, maxParticipants, now));
      var _ := storage.SaveRoom(room);
    }

    /** `get_room`: the stored room, marked and saved as expired when it is. */
    method GetRoom(code: string, now: int) returns (room: Room?, raised: bool)
      requires storage.Valid()
      modifies storage
      ensures storage.Valid()
      ensures raised == Fetched(old(storage.rooms), code).Broken?
      ensures (room != null) == Fetched(old(storage.rooms), code).Found?
      ensures room != null ==> fresh(room) && room.Data() == Refreshed(Fetched(old(storage.rooms), code).data, now)
      ensures storage.rooms == AfterLookup(old(storage.rooms), code, now)
      ensures storage.order == old(storage.order)
      ensures storage.writes == old(storage.writes) + LookupWrites(old(storage.rooms), code, now)
    {
      room, raised := storage.GetRoom(code);
      if room != null && room.IsExpired(now) {
        room.state := Expired;
        var _ := storage.SaveRoom(room);
      }
    }

    /** `add_participant`: joins an open, unexpired room with space for a new socket. */
    method AddParticipant(code: string, socketId: string, displayName: Option<string>, userId: Option<string>, now: int)
      returns (room: Room?, raised: bool)
      requires storage.Valid()
      modifies storage
      ensures storage.Valid()
      ensures raised == Fetched(old(storage.rooms), code).Broken?
      ensures (room != null) ==
        (Fetched(old(storage.rooms), code).Found? && AcceptsJoin(Fetched(old(storage.rooms), code).data, socketId, now))
      ensures room != null ==> fresh(room)
      ensures room != null ==>
        room.Data() == WithArrival(Fetched(old(storage.rooms), code).data, socketId, displayName, userId, now)
      ensures storage.rooms == AfterJoin(old(storage.rooms), code, socketId, displayName, userId, now)
      ensures storage.order == old(storage.order)
      ensures storage.writes == old(storage.writes) + LookupWrites(old(storage.rooms), code, now) + (if room != null then 1 else 0)
    {
      room, raised := GetRoom(code, now);
      if room == null {
        return;
      }
      ghost var d := Fetched(old(storage.rooms), code).data;
      RefreshedAcceptsSame(d, socketId, now);
      if room.IsExpired(now) || room.state != Open {
        return null, false;
      }
      var added := room.AddParticipant(socketId, displayName, userId, now);
      if !added {
        return null, false;
      }
      var _ := storage.SaveRoom(room);
    }

    /** `remove_participant`: drops the socket from its room and keeps the room stored. */
    method RemoveParticipant(code: string, socketId: string, now: int) returns (room: Room?, raised: bool)
      requires storage.Valid()
      modifies storage
      ensures storage.Valid()
      ensures raised == Fetched(old(storage.rooms), code).Broken?
      ensures (room != null) ==
        (Fetched(old(storage.rooms), code).Found? && socketId in Fetched(old(storage.rooms), code).data.participants)
      ensures room != null ==> fresh(room)
      ensures room != null ==>
        var d := Fetched(old(storage.rooms), code).data;
        room.Data() == Refreshed(d, now).(participants := d.participants - {socketId})
      ensures storage.rooms == AfterRemoval(old(storage.rooms), code, socketId, now)
      ensures storage.order == old(storage.order)
      ensures storage.writes == old(storage.writes) + LookupWrites(old(storage.rooms), code, now) + (if room != null then 1 else 0)
    {
      room, raised := GetRoom(code, now);
      if room == null {
        return;
      }
      var removed := room.RemoveParticipant(socketId);
      if !removed {
        return null, false;
      }
      var _ := storage.SaveRoom(room);
    }

    /** `get_participant_room`: the first loadable room, in file order, that holds the socket. */
    method GetParticipantRoom(socketId: string) returns (result: Option<(string, Room)>)
      requires storage.Valid()
      ensures result.None? <==> FirstHolder(LoadedRooms(storage.order, storage.rooms), socketId).None?
      ensures result.Some? ==>
        result.value.1.Data() == FirstHolder(LoadedRooms(storage.order, storage.rooms), socketId).value &&
        result.value.0 == result.value.1.roomCode
    {
      var all := storage.GetAllRooms();
      ghost var ds := LoadedRooms(storage.order, storage.rooms);
      for i := 0 to |all|
        invariant |all| == |ds| && forall j :: 0 <= j < |all| ==> all[j].Data() == ds[j]
        invariant FirstHolder(ds, socketId) == FirstHolder(ds[i..], socketId)
      {
        if socketId in all[i].participants {
          assert all[i].Data() == ds[i];
          return Some((all[i].roomCode, all[i]));
        }
        FirstHolderSkip(ds, i, socketId);
      }
      assert ds[|all|..] == [];
      result := None;
    }
  }
}
