/** The domain store of context/AppContext.tsx: the room list, the booking
    list and the admin-session flag, each written through to a key of the
    browser's key-value storage after every change, and read back from it,
    with a fallback to the seed, when the store is created. */
module Store {
  import opened Types
  import opened Seed

  /** What a storage key holds. `RoomList(rs)` and `BookingList(bs)` are the
      JSON texts of those lists, which parse back to the same lists; `Text(s)`
      is any other text: one that does not parse to the list the key is read
      as (the empty string included), or the flag text "true"/"false". */
  datatype Stored = RoomList(rooms: seq<Room>) | BookingList(bookings: seq<Booking>) | Text(text: string)

  /** The key-value storage; a key that is not in the map is absent. */
  type Storage = map<string, Stored>

  const RoomsKey: string := "rooms"
  const BookingsKey: string := "bookings"
  const AuthKey: string := "adminAuth"

  /** The room list a fresh store starts with: the stored list when the
      `rooms` entry is present and parses, the seed otherwise. */
  function LoadRooms(st: Storage): (rs: seq<Room>)
    ensures RoomsKey in st && st[RoomsKey].RoomList? ==> rs == st[RoomsKey].rooms
    ensures RoomsKey !in st ==> rs == InitialRooms
    ensures RoomsKey in st && st[RoomsKey].Text? ==> rs == InitialRooms
  {
    if RoomsKey in st && st[RoomsKey].RoomList? then st[RoomsKey].rooms else InitialRooms
  }

  /** The booking list a fresh store starts with: the stored list when the
      `bookings` entry is present and parses, empty otherwise. */
  function LoadBookings(st: Storage): (bs: seq<Booking>)
    ensures BookingsKey in st && st[BookingsKey].BookingList? ==> bs == st[BookingsKey].bookings
    ensures BookingsKey !in st ==> bs == []
    ensures BookingsKey in st && st[BookingsKey].Text? ==> bs == []
  {
    if BookingsKey in st && st[BookingsKey].BookingList? then st[BookingsKey].bookings else []
  }

  /** The session flag a fresh store starts with: the stored text is exactly "true". */
  predicate LoadAuth(st: Storage): (on: bool)
    ensures AuthKey !in st ==> !on
    ensures on <==> AuthKey in st && st[AuthKey].Text? && st[AuthKey].text == "true"
  {
    AuthKey in st && st[AuthKey] == Text("true")
  }

  /** `String(flag)`, the text the flag is stored as. */
  function AuthText(b: bool): string {
    if b then "true" else "false"
  }

  /** The three fallbacks of the initialisers: an absent or unreadable entry
      yields the seed rooms, no bookings and a closed session. */
  lemma LoadFallbacks(st: Storage)
    ensures (RoomsKey !in st || !st[RoomsKey].RoomList?) ==> LoadRooms(st) == InitialRooms
    ensures (BookingsKey !in st || !st[BookingsKey].BookingList?) ==> LoadBookings(st) == []
    ensures LoadAuth(st) <==> AuthKey in st && st[AuthKey].Text? && st[AuthKey].text == "true"
  {
  }

  /** Reading back what was written: the entries written for a state load as
      that state, whatever else the storage holds. */
  lemma WriteThenLoad(st: Storage, rs: seq<Room>, bs: seq<Booking>, a: bool)
    ensures var st' := st[BookingsKey := BookingList(bs)][RoomsKey := RoomList(rs)][AuthKey := Text(AuthText(a))];
            LoadRooms(st') == rs && LoadBookings(st') == bs && LoadAuth(st') == a
  {
  }

  // ---------------------------------------------------------------------
  // The list transforms the store's setters apply.
  // ---------------------------------------------------------------------

  /** `prev.map(b => b.id === id ? { ...b, status } : b)`: same length and
      order; each booking with the id has the new status and keeps every
      other field; every other booking is unchanged. */
  function SetStatus(bs: seq<Booking>, id: string, s: BookingStatus): (r: seq<Booking>)
    ensures |r| == |bs|
    ensures forall i :: 0 <= i < |bs| && bs[i].id == id ==> r[i] == bs[i].(status := s)
    ensures forall i :: 0 <= i < |bs| && bs[i].id != id ==> r[i] == bs[i]
  {
    if bs == [] then []
    else [if bs[0].id == id then bs[0].(status := s) else bs[0]] + SetStatus(bs[1..], id, s)
  }

  /** `prev.map(r => r.id === room.id ? room : r)`: same length and order;
      each room with the id becomes `room`, every other room is unchanged. */
  function ReplaceRoom(rs: seq<Room>, room: Room): (r: seq<Room>)
    ensures |r| == |rs|
    ensures forall i :: 0 <= i < |rs| && rs[i].id == room.id ==> r[i] == room
    ensures forall i :: 0 <= i < |rs| && rs[i].id != room.id ==> r[i] == rs[i]
  {
    if rs == [] then []
    else [if rs[0].id == room.id then room else rs[0]] + ReplaceRoom(rs[1..], room)
  }

  /** `prev.filter(r => r.id !== id)`: no room with the id is left, every
      other room is kept, and nothing new appears. */
  function RemoveRoom(rs: seq<Room>, id: string): (r: seq<Room>)
    ensures |r| <= |rs|
    ensures forall x :: x in r <==> x in rs && x.id != id
    ensures |r| == |rs| <==> !HasRoom(rs, id)
  {
    if rs == [] then []
    else if rs[0].id == id then RemoveRoom(rs[1..], id)
    else [rs[0]] + RemoveRoom(rs[1..], id)
  }

  /** A status update for an id no booking has changes nothing. */
  lemma {:induction false} SetStatusAbsent(bs: seq<Booking>, id: string, s: BookingStatus)
    requires forall i :: 0 <= i < |bs| ==> bs[i].id != id
    ensures SetStatus(bs, id, s) == bs
  {
    if bs != [] {
      SetStatusAbsent(bs[1..], id, s);
    }
  }

  /** There is no guard on the current status: a second update overwrites the
      first, so a Confirmed or Cancelled booking is not terminal. */
  lemma {:induction false} SetStatusOverwrites(bs: seq<Booking>, id: string, s1: BookingStatus, s2: BookingStatus)
    ensures SetStatus(SetStatus(bs, id, s1), id, s2) == SetStatus(bs, id, s2)
  {
    if bs != [] {
      SetStatusOverwrites(bs[1..], id, s1, s2);
    }
  }

  /** A room update for an id no room has changes nothing. */
  lemma {:induction false} ReplaceRoomAbsent(rs: seq<Room>, room: Room)
    requires !HasRoom(rs, room.id)
    ensures ReplaceRoom(rs, room) == rs
  {
    if rs != [] {
      assert !HasRoom(rs[1..], room.id) by {
        forall i | 0 <= i < |rs[1..]| ensures rs[1..][i].id != room.id {
          assert rs[1..][i] == rs[i + 1];
        }
      }
      ReplaceRoomAbsent(rs[1..], room);
    }
  }

  /** Replacing keeps the ids in place, so a list with distinct ids keeps them. */
  lemma ReplaceRoomKeepsUnique(rs: seq<Room>, room: Room)
    requires UniqueIds(rs)
    ensures RoomIds(ReplaceRoom(rs, room)) == RoomIds(rs)
    ensures UniqueIds(ReplaceRoom(rs, room))
  {
    var r := ReplaceRoom(rs, room);
    assert forall i :: 0 <= i < |rs| ==> r[i].id == rs[i].id;
  }

  /** Filtering distributes over concatenation, so the kept rooms stay in
      their relative order. */
  lemma {:induction false} RemoveRoomConcat(a: seq<Room>, b: seq<Room>, id: string)
    ensures RemoveRoom(a + b, id) == RemoveRoom(a, id) + RemoveRoom(b, id)
  {
    if a == [] {
      assert a + b == b;
    } else {
      assert (a + b)[1..] == a[1..] + b;
      RemoveRoomConcat(a[1..], b, id);
    }
  }

  /** Deleting an id no room has changes nothing. */
  lemma {:induction false} RemoveRoomAbsent(rs: seq<Room>, id: string)
    requires !HasRoom(rs, id)
    ensures RemoveRoom(rs, id) == rs
  {
    if rs != [] {
      assert !HasRoom(rs[1..], id) by {
        forall i | 0 <= i < |rs[1..]| ensures rs[1..][i].id != id {
          assert rs[1..][i] == rs[i + 1];
        }
      }
      RemoveRoomAbsent(rs[1..], id);
      assert rs == [rs[0]] + rs[1..];
    }
  }

  /** Delete is idempotent: deleting twice leaves what deleting once leaves. */
  lemma RemoveRoomIdempotent(rs: seq<Room>, id: string)
    ensures RemoveRoom(RemoveRoom(rs, id), id) == RemoveRoom(rs, id)
  {
    var r := RemoveRoom(rs, id);
    assert !HasRoom(r, id) by {
      forall i | 0 <= i < |r| ensures r[i].id != id {
        assert r[i] in r;
      }
    }
    RemoveRoomAbsent(r, id);
  }

  /** Deleting keeps distinct ids distinct. */
  lemma {:induction false} RemoveRoomKeepsUnique(rs: seq<Room>, id: string)
    requires UniqueIds(rs)
    ensures UniqueIds(RemoveRoom(rs, id))
  {
    if rs != [] {
      var t := rs[1..];
      assert UniqueIds(t) by {
        forall i, j | 0 <= i < j < |t| ensures t[i].id != t[j].id {
          assert t[i] == rs[i + 1] && t[j] == rs[j + 1];
        }
      }
      RemoveRoomKeepsUnique(t, id);
      if rs[0].id != id {
        var rt := RemoveRoom(t, id);
        var r := [rs[0]] + rt;
        forall i, j | 0 <= i < j < |r| ensures r[i].id != r[j].id {
          if i == 0 {
            assert r[j] == rt[j - 1] && rt[j - 1] in rt;
            var k :| 0 <= k < |t| && t[k] == rt[j - 1];
            assert t[k] == rs[k + 1];
          } else {
            assert r[i] == rt[i - 1] && r[j] == rt[j - 1];
          }
        }
      }
    }
  }

  /** With distinct ids, deleting an id that is present removes exactly one
      room. Without them every room with the id goes, so the list can shrink
      by more than one. */
  lemma RemoveRoomRemovesOne(rs: seq<Room>, id: string)
    requires UniqueIds(rs) && HasRoom(rs, id)
    ensures |RemoveRoom(rs, id)| == |rs| - 1
  {
    var k :| 0 <= k < |rs| && rs[k].id == id;
    var pre, post := rs[..k], rs[k + 1..];
    assert rs == pre + ([rs[k]] + post);
    assert !HasRoom(pre, id) by {
      forall i | 0 <= i < |pre| ensures pre[i].id != id {
        assert pre[i] == rs[i];
      }
    }
    assert !HasRoom(post, id) by {
      forall i | 0 <= i < |post| ensures post[i].id != id {
        assert post[i] == rs[k + 1 + i];
      }
    }
    RemoveRoomConcat(pre, [rs[k]] + post, id);
    RemoveRoomConcat([rs[k]], post, id);
    RemoveRoomAbsent(pre, id);
    RemoveRoomAbsent(post, id);
    assert RemoveRoom([rs[k]], id) == [];
  }

  /** `addRoom` does not reject an id that is already present (unlike what a
      room collection with unique ids would need): appending such a room
      leaves two rooms with the same id. */
  lemma AddRoomAdmitsDuplicate(rs: seq<Room>, room: Room)
    requires HasRoom(rs, room.id)
    ensures |rs + [room]| == |rs| + 1
    ensures !UniqueIds(rs + [room])
  {
    var i :| 0 <= i < |rs| && rs[i].id == room.id;
    var r := rs + [room];
    assert r[i].id == r[|rs|].id;
  }

  /** Appending a room with a fresh id keeps the ids distinct. */
  lemma AddRoomKeepsUnique(rs: seq<Room>, room: Room)
    requires UniqueIds(rs) && !HasRoom(rs, room.id)
    ensures UniqueIds(rs + [room])
  {
    var r := rs + [room];
    forall i, j | 0 <= i < j < |r| ensures r[i].id != r[j].id {
      if j == |rs| {
        assert r[i] == rs[i];
      } else {
        assert r[i] == rs[i] && r[j] == rs[j];
      }
    }
  }

  // ---------------------------------------------------------------------
  // The store itself.
  // ---------------------------------------------------------------------

  /** The state the provider holds, with the storage it writes through to.
      `roomsIsSeed` records that the room state is the seed constant itself
      (loaded by fallback or set by a reset, and not changed since): setting
      it to the seed again is then no change that the write-through reacts to. */
  class DomainStore {
    var rooms: seq<Room>
    var bookings: seq<Booking>
    var auth: bool
    var storage: Storage
    var roomsIsSeed: bool

    /** The storage mirrors the state: each entry holds the serialised
        current value; the `rooms` entry may be missing only while the room
        state is the seed. Re-initialising from the storage reproduces the state. */
    ghost predicate Valid()
      reads this
      ensures Valid() ==> LoadRooms(storage) == rooms && LoadBookings(storage) == bookings
                          && LoadAuth(storage) == auth
    {
      && BookingsKey in storage && storage[BookingsKey] == BookingList(bookings)
      && AuthKey in storage && storage[AuthKey] == Text(AuthText(auth))
      && (if RoomsKey in storage then storage[RoomsKey] == RoomList(rooms) else roomsIsSeed)
      && (roomsIsSeed ==> rooms == InitialRooms)
    }

    /** The provider's initialisers, followed by the write-through effects
        that run once when it is mounted. */
    constructor (persisted: Storage)
      ensures rooms == LoadRooms(persisted) && bookings == LoadBookings(persisted)
      ensures auth == LoadAuth(persisted)
      ensures roomsIsSeed <==> !(RoomsKey in persisted && persisted[RoomsKey].RoomList?)
      ensures storage == persisted[BookingsKey := BookingList(bookings)][RoomsKey := RoomList(rooms)]
                                  [AuthKey := Text(AuthText(auth))]
      ensures Valid()
    {
      rooms := LoadRooms(persisted);
      bookings := LoadBookings(persisted);
      auth := LoadAuth(persisted);
      roomsIsSeed := !(RoomsKey in persisted && persisted[RoomsKey].RoomList?);
      var st := persisted[BookingsKey := BookingList(LoadBookings(persisted))];
      st := st[RoomsKey := RoomList(LoadRooms(persisted))];
      storage := st[AuthKey := Text(AuthText(LoadAuth(persisted)))];
    }

    /** `addBooking`: the new booking becomes the head of the list. */
    method AddBooking(b: Booking)
      requires Valid()
      modifies this
      ensures Valid()
      ensures bookings == [b] + old(bookings) && |bookings| == |old(bookings)| + 1
      ensures rooms == old(rooms) && auth == old(auth) && roomsIsSeed == old(roomsIsSeed)
      ensures storage == old(storage)[BookingsKey := BookingList(bookings)]
    {
      bookings := [b] + bookings;
      storage := storage[BookingsKey := BookingList(bookings)];
    }

    /** `updateBookingStatus`: every booking with the id gets the status. */
    method UpdateBookingStatus(id: string, s: BookingStatus)
      requires Valid()
      modifies this
      ensures Valid()
      ensures bookings == SetStatus(old(bookings), id, s)
      ensures rooms == old(rooms) && auth == old(auth) && roomsIsSeed == old(roomsIsSeed)
      ensures storage == old(storage)[BookingsKey := BookingList(bookings)]
    {
      bookings := SetStatus(bookings, id, s);
      storage := storage[BookingsKey := BookingList(bookings)];
    }

    /** `addRoom`: appends, with no check of the id. */
    method AddRoom(room: Room)
      requires Valid()
      modifies this
      ensures Valid()
      ensures rooms == old(rooms) + [room] && |rooms| == |old(rooms)| + 1
      ensures bookings == old(bookings) && auth == old(auth) && !roomsIsSeed
      ensures storage == old(storage)[RoomsKey := RoomList(rooms)]
    {
      rooms := rooms + [room];
      roomsIsSeed := false;
      storage := storage[RoomsKey := RoomList(rooms)];
    }

    /** `updateRoom`: every room with the id is replaced by `room`. */
    method UpdateRoom(room: Room)
      requires Valid()
      modifies this
      ensures Valid()
      ensures rooms == ReplaceRoom(old(rooms), room)
      ensures bookings == old(bookings) && auth == old(auth) && !roomsIsSeed
      ensures storage == old(storage)[RoomsKey := RoomList(rooms)]
    {
      rooms := ReplaceRoom(rooms, room);
      roomsIsSeed := false;
      storage := storage[RoomsKey := RoomList(rooms)];
    }

    /** `deleteRoom`: removes the rooms with the id; bookings that refer to
        it are left as they are. */
    method DeleteRoom(id: string)
      requires Valid()
      modifies this
      ensures Valid()
      ensures rooms == RemoveRoom(old(rooms), id)
      ensures bookings == old(bookings) && auth == old(auth) && !roomsIsSeed
      ensures storage == old(storage)[RoomsKey := RoomList(rooms)]
    {
      rooms := RemoveRoom(rooms, id);
      roomsIsSeed := false;
      storage := storage[RoomsKey := RoomList(rooms)];
    }

    /** `loginAdmin`. */
    method LoginAdmin()
      requires Valid()
      modifies this
      ensures Valid()
      ensures auth && rooms == old(rooms) && bookings == old(bookings) && roomsIsSeed == old(roomsIsSeed)
      ensures storage == old(storage)[AuthKey := Text("true")]
    {
      auth := true;
      storage := storage[AuthKey := Text(AuthText(auth))];
    }

    /** `logoutAdmin`. */
    method LogoutAdmin()
      requires Valid()
      modifies this
      ensures Valid()
      ensures !auth && rooms == old(rooms) && bookings == old(bookings) && roomsIsSeed == old(roomsIsSeed)
      ensures storage == old(storage)[AuthKey := Text("false")]
    {
      auth := false;
      storage := storage[AuthKey := Text(AuthText(auth))];
    }

    /** `resetDatabase`, confirmed: both list entries are removed, the state
        becomes the seed rooms and no bookings, and the write-through puts the
        new booking list back. The room list is written back only when it was
        not the seed constant already; otherwise the `rooms` entry stays
        removed, which reloads as the seed all the same. */
    method ResetDatabase()
      requires Valid()
      modifies this
      ensures Valid()
      ensures rooms == InitialRooms && bookings == [] && auth == old(auth) && roomsIsSeed
      ensures var cleared := old(storage) - {RoomsKey, BookingsKey};
              storage == if old(roomsIsSeed) then cleared[BookingsKey := BookingList([])]
                         else cleared[BookingsKey := BookingList([])][RoomsKey := RoomList(InitialRooms)]
    {
      storage := storage - {RoomsKey, BookingsKey};
      var wasSeed := roomsIsSeed;
      rooms := InitialRooms;
      bookings := [];
      roomsIsSeed := true;
      storage := storage[BookingsKey := BookingList(bookings)];
      if !wasSeed {
        storage := storage[RoomsKey := RoomList(rooms)];
      }
    }
  }

  /** Durability: a store opened on the storage another store left behind
      starts in the state the other one had, after any sequence of operations
      (each of which keeps `Valid`). */
  method Reopen(s: DomainStore) returns (t: DomainStore)
    requires s.Valid()
    ensures fresh(t) && t.Valid()
    ensures t.rooms == s.rooms && t.bookings == s.bookings && t.auth == s.auth
  {
    t := new DomainStore(s.storage);
  }
}
