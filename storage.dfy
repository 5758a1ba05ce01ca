/**
 * The JSON file store of rooms (storage.py).  The file's `rooms` object is a
 * map from room code to entry together with its key order (a Python dict, and
 * the JSON it is read from and written to, keep insertion order).  Reading and
 * writing the file are not modelled; `writes` counts how often it is rewritten.
 */
module Storage {
  import opened Wrappers
  import opened Models

  /**
   * A stored room.  `Loadable` entries deserialize into a `Room`; an
   * `Unloadable` entry has a field that does not (a date that does not parse,
   * a missing field), and `expiresAt` is its `expires_at` when that one parses.
   * `Blank` is an empty object, which `get_room` treats as no room at all.
   */
  datatype Entry = Loadable(data: RoomData) | Unloadable(expiresAt: Option<int>) | Blank

  /** What `get_room` makes of a code: no room, a room, or an exception. */
  datatype Fetch = Missing | Found(data: RoomData) | Broken

  /** The outcome of `get_room(code)` on the file's `rooms` object. */
  function Fetched(rooms: map<string, Entry>, code: string): (f: Fetch)
    ensures f.Found? ==> code in rooms && rooms[code] == Loadable(f.data)
    ensures f.Missing? <==> code !in rooms || rooms[code].Blank?
  {
    if code !in rooms then Missing
    else match rooms[code]
      case Loadable(d) => Found(d)
      case Unloadable(_) => Broken
      case Blank => Missing
  }

  /** Round trip: `get_room` after `save_room(r)` yields `r`, and every other code reads as before. */
  lemma SaveThenFetch(rooms: map<string, Entry>, d: RoomData, code: string)
    ensures Fetched(rooms[d.roomCode := Loadable(d)], d.roomCode) == Found(d)
    ensures code != d.roomCode ==> Fetched(rooms[d.roomCode := Loadable(d)], code) == Fetched(rooms, code)
  {
  }

  /** After `delete_room(code)`, `get_room(code)` finds nothing. */
  lemma DeleteThenFetch(rooms: map<string, Entry>, code: string, other: string)
    ensures Fetched(rooms - {code}, code) == Missing
    ensures other != code ==> Fetched(rooms - {code}, other) == Fetched(rooms, other)
  {
  }

  /** The test of `cleanup_expired_rooms`: past its expiry date, or an expiry date that cannot be read. */
  predicate Stale(e: Entry, now: int) {
    match e
    case Loadable(d) => now >= d.expiresAt
    case Unloadable(t) => t.None? || now >= t.value
    case Blank => true
  }

  predicate Distinct(s: seq<string>) {
    forall i, j :: 0 <= i < j < |s| ==> s[i] != s[j]
  }

  /** Every loadable entry is stored under its own room code, as `save_room` writes it. */
  predicate KeysMatch(rooms: map<string, Entry>) {
    forall k :: k in rooms && rooms[k].Loadable? ==> rooms[k].data.roomCode == k
  }

  /** The key order after `rooms[code] = ...`: a new key goes last, an old one keeps its place. */
  function Put(order: seq<string>, code: string): seq<string> {
    if code in order then order else order + [code]
  }

  /** The key order after deleting the keys in `gone`. */
  function Without(order: seq<string>, gone: set<string>): seq<string> {
    if order == [] then []
    else
      var k := order[|order| - 1];
      Without(order[..|order| - 1], gone) + (if k in gone then [] else [k])
  }

  /** `rooms_to_delete`: the stale codes, in key order. */
  function StaleCodes(order: seq<string>, rooms: map<string, Entry>, now: int): seq<string> {
    if order == [] then []
    else
      var k := order[|order| - 1];
      StaleCodes(order[..|order| - 1], rooms, now) + (if k in rooms && Stale(rooms[k], now) then [k] else [])
  }

  /** The entries that survive `cleanup_expired_rooms`. */
  function Sweep(rooms: map<string, Entry>, now: int): map<string, Entry> {
    map k | k in rooms && !Stale(rooms[k], now) :: rooms[k]
  }

  /** What `get_all_rooms` returns: the loadable rooms, in key order. */
  function LoadedRooms(order: seq<string>, rooms: map<string, Entry>): seq<RoomData> {
    if order == [] then []
    else
      var k := order[|order| - 1];
      LoadedRooms(order[..|order| - 1], rooms) + (if k in rooms && rooms[k].Loadable? then [rooms[k].data] else [])
  }

  lemma {:induction false} WithoutMembers(order: seq<string>, gone: set<string>)
    ensures forall x :: x in Without(order, gone) <==> x in order && x !in gone
  {
    if order != [] {
      var prefix := order[..|order| - 1];
      WithoutMembers(prefix, gone);
      assert order == prefix + [order[|order| - 1]];
    }
  }

  lemma {:induction false} WithoutDistinct(order: seq<string>, gone: set<string>)
    requires Distinct(order)
    ensures Distinct(Without(order, gone))
  {
    if order != [] {
      var prefix := order[..|order| - 1];
      WithoutDistinct(prefix, gone);
      WithoutMembers(prefix, gone);
      assert order[|order| - 1] !in prefix;
    }
  }

  /** Deleting keys the order does not hold leaves it as it is. */
  lemma {:induction false} WithoutNothing(order: seq<string>, gone: set<string>)
    requires forall x :: x in order ==> x !in gone
    ensures Without(order, gone) == order
  {
    if order != [] {
      var prefix := order[..|order| - 1];
      WithoutNothing(prefix, gone);
      assert order == prefix + [order[|order| - 1]];
    }
  }

  /** `rooms_to_delete` holds exactly the stale codes of the order. */
  lemma {:induction false} StaleCodesMembers(order: seq<string>, rooms: map<string, Entry>, now: int)
    ensures forall x :: x in StaleCodes(order, rooms, now) <==> x in order && x in rooms && Stale(rooms[x], now)
  {
    if order != [] {
      var prefix := order[..|order| - 1];
      StaleCodesMembers(prefix, rooms, now);
      assert order == prefix + [order[|order| - 1]];
    }
  }

  lemma {:induction false} StaleCodesDistinct(order: seq<string>, rooms: map<string, Entry>, now: int)
    requires Distinct(order)
    ensures Distinct(StaleCodes(order, rooms, now))
  {
    if order != [] {
      var prefix := order[..|order| - 1];
      StaleCodesDistinct(prefix, rooms, now);
      StaleCodesMembers(prefix, rooms, now);
      assert order[|order| - 1] !in prefix;
    }
  }

  lemma {:induction false} DistinctCardinality(s: seq<string>)
    requires Distinct(s)
    ensures |Elements(s)| == |s|
  {
    if s != [] {
      var prefix := s[..|s| - 1];
      DistinctCardinality(prefix);
      assert s == prefix + [s[|s| - 1]];
      assert Elements(s) == Elements(prefix) + {s[|s| - 1]};
    }
  }

  /** The set of codes a key list holds. */
  function Elements(s: seq<string>): set<string> {
    set x | x in s
  }

  lemma SubsetCardinality(all: set<string>, part: set<string>)
    requires part <= all
    ensures |all| == |all - part| + |part|
  {
    assert all == (all - part) + part;
    assert (all - part) * part == {};
  }

  /** The count `cleanup_expired_rooms` returns is the number of entries it removed. */
  lemma CleanupCount(order: seq<string>, rooms: map<string, Entry>, now: int)
    requires Distinct(order) && forall k :: k in order <==> k in rooms
    ensures |StaleCodes(order, rooms, now)| == |rooms| - |Sweep(rooms, now)|
  {
    var doomed := StaleCodes(order, rooms, now);
    StaleCodesDistinct(order, rooms, now);
    StaleCodesMembers(order, rooms, now);
    DistinctCardinality(doomed);
    var kept := Sweep(rooms, now).Keys;
    assert Elements(doomed) == rooms.Keys - kept;
    SubsetCardinality(rooms.Keys, kept);
  }

  /** Everything `cleanup_expired_rooms` promises about the store it leaves behind. */
  lemma CleanupOutcome(order: seq<string>, rooms: map<string, Entry>, now: int)
    requires Distinct(order) && (forall k :: k in order <==> k in rooms) && KeysMatch(rooms)
    ensures rooms - Elements(StaleCodes(order, rooms, now)) == Sweep(rooms, now)
    ensures Distinct(Without(order, rooms.Keys - Sweep(rooms, now).Keys))
    ensures forall k :: k in Without(order, rooms.Keys - Sweep(rooms, now).Keys) <==> k in Sweep(rooms, now)
    ensures KeysMatch(Sweep(rooms, now))
    ensures |StaleCodes(order, rooms, now)| == |rooms| - |Sweep(rooms, now)|
    ensures |StaleCodes(order, rooms, now)| == 0 <==> forall k :: k in rooms ==> !Stale(rooms[k], now)
  {
    var doomed := StaleCodes(order, rooms, now);
    var gone := rooms.Keys - Sweep(rooms, now).Keys;
    StaleCodesMembers(order, rooms, now);
    CleanupCount(order, rooms, now);
    WithoutMembers(order, gone);
    WithoutDistinct(order, gone);
    if |doomed| > 0 {
      assert doomed[0] in doomed;
    }
  }

  /** `get_all_rooms` yields exactly the loadable entries of the order... */
  lemma {:induction false} LoadedRoomsMembers(order: seq<string>, rooms: map<string, Entry>)
    requires KeysMatch(rooms)
    ensures forall d :: d in LoadedRooms(order, rooms) <==>
      d.roomCode in order && d.roomCode in rooms && rooms[d.roomCode] == Loadable(d)
  {
    if order != [] {
      var prefix := order[..|order| - 1];
      LoadedRoomsMembers(prefix, rooms);
      assert order == prefix + [order[|order| - 1]];
    }
  }

  /** ... and each of them once. */
  lemma {:induction false} LoadedRoomsOnce(order: seq<string>, rooms: map<string, Entry>)
    requires Distinct(order) && KeysMatch(rooms)
    ensures forall i, j :: 0 <= i < j < |LoadedRooms(order, rooms)| ==>
      LoadedRooms(order, rooms)[i].roomCode != LoadedRooms(order, rooms)[j].roomCode
  {
    if order != [] {
      var prefix := order[..|order| - 1];
      LoadedRoomsOnce(prefix, rooms);
      LoadedRoomsMembers(prefix, rooms);
      var last := order[|order| - 1];
      assert last !in prefix;
      var before := LoadedRooms(prefix, rooms);
      forall i | 0 <= i < |before|
        ensures before[i].roomCode != last
      {
        assert before[i] in before;
      }
    }
  }

  /** The first loop of `cleanup_expired_rooms`: the stale codes, in key order. */
  method CollectStale(keys: seq<string>, entries: map<string, Entry>, now: int) returns (doomed: seq<string>)
    ensures doomed == StaleCodes(keys, entries, now)
  {
    doomed := [];
    for i := 0 to |keys|
      invariant doomed == StaleCodes(keys[..i], entries, now)
    {
      assert keys[..i + 1][..i] == keys[..i];
      var code := keys[i];
      if code in entries && Stale(entries[code], now) {
        doomed := doomed + [code];
      }
    }
    assert keys[..|keys|] == keys;
  }

  /** The second loop of `cleanup_expired_rooms`: `del` of each listed code. */
  method DeleteAll(entries: map<string, Entry>, doomed: seq<string>) returns (remaining: map<string, Entry>)
    ensures remaining == entries - Elements(doomed)
  {
    remaining := entries;
    for j := 0 to |doomed|
      invariant remaining == entries - Elements(doomed[..j])
    {
      assert doomed[..j + 1] == doomed[..j] + [doomed[j]];
      assert Elements(doomed[..j + 1]) == Elements(doomed[..j]) + {doomed[j]};
      remaining := remaining - {doomed[j]};
    }
    assert doomed[..|doomed|] == doomed;
  }

  /** `JSONStorage`: the rooms file. */
  class JsonStorage {
    /** The `rooms` object of the file. */
    var rooms: map<string, Entry>
    /** The key order of the `rooms` object. */
    var order: seq<string>
    /** How many times the file has been (re)written. */
    var writes: nat

    ghost predicate Valid()
      reads this
    {
      && Distinct(order)
      && (forall k :: k in order <==> k in rooms)
      && KeysMatch(rooms)
    }

    /** A store whose file did not exist: it is created holding no rooms. */
    constructor ()
      ensures Valid()
      ensures rooms == map[] && order == [] && writes == 1
    {
      rooms := map[];
      order := [];
      writes := 1;
    }

    /** A store over an existing file whose `rooms` object has the given keys, in the given order. */
    constructor Existing(contents: map<string, Entry>, keyOrder: seq<string>)
      requires Distinct(keyOrder) && (forall k :: k in keyOrder <==> k in contents) && KeysMatch(contents)
      ensures Valid()
      ensures rooms == contents && order == keyOrder && writes == 0
    {
      rooms := contents;
      order := keyOrder;
      writes := 0;
    }

    /** `save_room`: stores the room under its own code, replacing any earlier entry. */
    method SaveRoom(room: Room) returns (saved: bool)
      requires Valid()
      modifies this
      ensures Valid()
      ensures saved
      ensures rooms == old(rooms)[room.roomCode := Loadable(room.Data())]
      ensures order == Put(old(order), room.roomCode)
      ensures writes == old(writes) + 1
    {
      rooms := rooms[room.roomCode := Loadable(room.Data())];
      order := Put(order, room.roomCode);
      writes := writes + 1;
      saved := true;
    }

    /** `get_room`: a fresh room object for a loadable entry, None for an absent code or an empty entry; an unloadable entry raises. */
    method GetRoom(code: string) returns (room: Room?, raised: bool)
      ensures raised == Fetched(rooms, code).Broken?
      ensures (room != null) == Fetched(rooms, code).Found?
      ensures room != null ==> fresh(room) && room.Data() == Fetched(rooms, code).data
    {
      room, raised := null, false;
      if code in rooms {
        match rooms[code]
        case Unloadable(_) =>
          raised := true;
        case Loadable(d) =>
          room := new Room(d);
        case Blank =>
      }
    }

    /** `delete_room`: true exactly when the code was stored; the file is rewritten only then. */
    method DeleteRoom(code: string) returns (deleted: bool)
      requires Valid()
      modifies this
      ensures Valid()
      ensures deleted == (code in old(rooms))
      ensures rooms == old(rooms) - {code}
      ensures order == Without(old(order), {code})
      ensures deleted ==> writes == old(writes) + 1
      ensures !deleted ==> rooms == old(rooms) && order == old(order) && writes == old(writes)
    {
      WithoutMembers(order, {code});
      WithoutDistinct(order, {code});
      if code in rooms {
        rooms := rooms - {code};
        order := Without(order, {code});
        writes := writes + 1;
        return true;
      }
      WithoutNothing(order, {code});
      assert rooms - {code} == rooms;
      return false;
    }

    /** `get_all_rooms`: a fresh room object per loadable entry, in key order; unloadable entries are skipped. */
    method GetAllRooms() returns (list: seq<Room>)
      ensures |list| == |LoadedRooms(order, rooms)|
      ensures forall i :: 0 <= i < |list| ==> fresh(list[i]) && list[i].Data() == LoadedRooms(order, rooms)[i]
    {
      list := [];
      for i := 0 to |order|
        invariant |list| == |LoadedRooms(order[..i], rooms)|
        invariant forall j :: 0 <= j < |list| ==> fresh(list[j]) && list[j].Data() == LoadedRooms(order[..i], rooms)[j]
      {
        assert order[..i + 1][..i] == order[..i];
        var code := order[i];
        if code in rooms && rooms[code].Loadable? {
          var room := new Room(rooms[code].data);
          list := list + [room];
        }
      }
      assert order[..|order|] == order;
    }

    /**
     * `cleanup_expired_rooms`: removes exactly the stale entries and returns
     * how many; the file is rewritten only when there was one.
     */
    method CleanupExpiredRooms(now: int) returns (removed: nat)
      requires Valid()
      modifies this
      ensures Valid()
      ensures rooms == Sweep(old(rooms), now)
      ensures order == Without(old(order), old(rooms).Keys - rooms.Keys)
      ensures removed == |StaleCodes(old(order), old(rooms), now)| == |old(rooms)| - |rooms|
      ensures removed == 0 <==> forall k :: k in old(rooms) ==> !Stale(old(rooms)[k], now)
      ensures writes == old(writes) + (if removed > 0 then 1 else 0)
    {
      var entries, keys := rooms, order;
      var doomed := CollectStale(keys, entries, now);
      var remaining := DeleteAll(entries, doomed);
      CleanupOutcome(keys, entries, now);
      rooms := remaining;
      order := Without(keys, entries.Keys - remaining.Keys);
      if |doomed| > 0 {
        writes := writes + 1;
      }
      removed := |doomed|;
    }
  }
}
