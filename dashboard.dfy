/** The admin console of pages/Admin.tsx: the credential check, the
    dashboard figures, the room editor's draft and its save-as-upsert, and the
    Approve/Reject actions of the bookings table. */
module Dashboard {
  import opened Wrappers
  import opened Types
  import opened Store

  /** The hard-coded demo credentials. */
  predicate CredentialsMatch(username: string, password: string): (ok: bool)
    ensures ok <==> (username, password) == ("admin", "admin123")
  {
    username == "admin" && password == "admin123"
  }

  // ---------------------------------------------------------------------
  // Dashboard figures.
  // ---------------------------------------------------------------------

  /** `bookings.filter(b => b.status !== CANCELLED)`. */
  function NotCancelled(bs: seq<Booking>): (r: seq<Booking>)
    ensures |r| <= |bs|
    ensures forall b :: b in r <==> b in bs && b.status != Cancelled
    ensures (forall i :: 0 <= i < |bs| ==> bs[i].status != Cancelled) ==> r == bs
  {
    if bs == [] then []
    else if bs[0].status == Cancelled then NotCancelled(bs[1..])
    else [bs[0]] + NotCancelled(bs[1..])
  }

  /** `.reduce((sum, b) => sum + b.totalPrice, 0)`. */
  function SumPrices(bs: seq<Booking>): (s: int)
    ensures |bs| == 1 ==> s == bs[0].totalPrice
    ensures (forall i :: 0 <= i < |bs| ==> bs[i].totalPrice >= 0) ==> s >= 0
  {
    if bs == [] then 0 else bs[0].totalPrice + SumPrices(bs[1..])
  }

  /** `totalRevenue`: the prices of all bookings that are not cancelled. */
  function TotalRevenue(bs: seq<Booking>): (rev: int)
    ensures (forall i :: 0 <= i < |bs| ==> bs[i].status == Cancelled) ==> rev == 0
    ensures (forall i :: 0 <= i < |bs| ==> bs[i].status != Cancelled) ==> rev == SumPrices(bs)
  {
    var r := NotCancelled(bs);
    assert (forall i :: 0 <= i < |bs| ==> bs[i].status == Cancelled) ==> r == [] by {
      if r != [] {
        assert r[0] in r;
      }
    }
    SumPrices(r)
  }

  /** `bookings.filter(b => b.status === PENDING)`. */
  function PendingOnly(bs: seq<Booking>): (r: seq<Booking>)
    ensures |r| <= |bs|
    ensures forall b :: b in r <==> b in bs && b.status == Pending
    ensures (forall i :: 0 <= i < |bs| ==> bs[i].status == Pending) ==> r == bs
  {
    if bs == [] then []
    else if bs[0].status == Pending then [bs[0]] + PendingOnly(bs[1..])
    else PendingOnly(bs[1..])
  }

  /** `pendingBookings`: how many bookings are Pending. */
  function PendingCount(bs: seq<Booking>): (n: nat)
    ensures n <= |bs|
    ensures n == 0 <==> forall i :: 0 <= i < |bs| ==> bs[i].status != Pending
    ensures n == |set i | 0 <= i < |bs| && bs[i].status == Pending|
  {
    PendingPrefixCount(bs, |bs|);
    assert bs[..|bs|] == bs;
    var p := PendingOnly(bs);
    assert (exists i :: 0 <= i < |bs| && bs[i].status == Pending) ==> |p| > 0 by {
      if i :| 0 <= i < |bs| && bs[i].status == Pending {
        assert bs[i] in p;
      }
    }
    assert |p| > 0 ==> p[0] in p;
    |p|
  }

  /** Filtering out the cancelled bookings distributes over concatenation:
      the kept bookings keep their order and their multiplicity. */
  lemma {:induction false} NotCancelledConcat(a: seq<Booking>, b: seq<Booking>)
    ensures NotCancelled(a + b) == NotCancelled(a) + NotCancelled(b)
  {
    if a == [] {
      assert a + b == b;
    } else {
      assert (a + b)[1..] == a[1..] + b;
      NotCancelledConcat(a[1..], b);
    }
  }

  /** Keeping the Pending bookings distributes over concatenation. */
  lemma {:induction false} PendingOnlyConcat(a: seq<Booking>, b: seq<Booking>)
    ensures PendingOnly(a + b) == PendingOnly(a) + PendingOnly(b)
  {
    if a == [] {
      assert a + b == b;
    } else {
      assert (a + b)[1..] == a[1..] + b;
      PendingOnlyConcat(a[1..], b);
    }
  }

  /** The Pending bookings among the first `k` are as many as the positions
      below `k` that hold a Pending booking. */
  lemma {:induction false} PendingPrefixCount(bs: seq<Booking>, k: nat)
    requires k <= |bs|
    ensures |PendingOnly(bs[..k])| == |PendingPositions(bs, k)|
  {
    if k > 0 {
      PendingPrefixCount(bs, k - 1);
      PendingPrefixStep(bs, k);
      PendingPositionsStep(bs, k);
    }
  }

  /** The positions below `k` that hold a Pending booking. */
  ghost function PendingPositions(bs: seq<Booking>, k: nat): set<int>
    requires k <= |bs|
  {
    set i | 0 <= i < k && bs[i].status == Pending
  }

  /** One more position adds itself when it holds a Pending booking. */
  lemma PendingPositionsStep(bs: seq<Booking>, k: nat)
    requires 0 < k <= |bs|
    ensures |PendingPositions(bs, k)| == |PendingPositions(bs, k - 1)| + if bs[k - 1].status == Pending then 1 else 0
  {
    var below := PendingPositions(bs, k - 1);
    if bs[k - 1].status == Pending {
      assert PendingPositions(bs, k) == below + {k - 1};
    } else {
      assert PendingPositions(bs, k) == below;
    }
  }

  /** One more booking adds one Pending booking when it is Pending, none otherwise. */
  lemma PendingPrefixStep(bs: seq<Booking>, k: nat)
    requires 0 < k <= |bs|
    ensures |PendingOnly(bs[..k])| == |PendingOnly(bs[..k - 1])| + if bs[k - 1].status == Pending then 1 else 0
  {
    var x := bs[k - 1];
    assert bs[..k] == bs[..k - 1] + [x];
    PendingOnlyConcat(bs[..k - 1], [x]);
    assert [x][1..] == [];
  }

  /** The sum of two lists together is the sum of their sums. */
  lemma {:induction false} SumPricesConcat(a: seq<Booking>, b: seq<Booking>)
    ensures SumPrices(a + b) == SumPrices(a) + SumPrices(b)
  {
    if a == [] {
      assert a + b == b;
    } else {
      assert (a + b)[1..] == a[1..] + b;
      SumPricesConcat(a[1..], b);
    }
  }

  /** The revenue of two lists together is the sum of their revenues. */
  lemma {:induction false} RevenueConcat(a: seq<Booking>, b: seq<Booking>)
    ensures TotalRevenue(a + b) == TotalRevenue(a) + TotalRevenue(b)
  {
    if a == [] {
      assert a + b == b;
    } else {
      assert (a + b)[1..] == a[1..] + b;
      RevenueConcat(a[1..], b);
    }
  }

  /** Revenue is non-negative when no price is negative. */
  lemma {:induction false} RevenueNonNegative(bs: seq<Booking>)
    requires forall i :: 0 <= i < |bs| ==> bs[i].totalPrice >= 0
    ensures TotalRevenue(bs) >= 0
  {
    if bs != [] {
      RevenueNonNegative(bs[1..]);
    }
  }

  /** Cancelling the bookings with an id, when their prices are not
      negative, never raises the revenue. */
  lemma {:induction false} CancelNeverRaisesRevenue(bs: seq<Booking>, id: string)
    requires forall i :: 0 <= i < |bs| && bs[i].id == id ==> bs[i].totalPrice >= 0
    ensures TotalRevenue(SetStatus(bs, id, Cancelled)) <= TotalRevenue(bs)
  {
    if bs != [] {
      var r := SetStatus(bs, id, Cancelled);
      assert r[1..] == SetStatus(bs[1..], id, Cancelled);
      CancelNeverRaisesRevenue(bs[1..], id);
    }
  }

  /** A new booking that is Pending raises the pending count by one. */
  lemma PendingAfterAdd(b: Booking, bs: seq<Booking>)
    requires b.status == Pending
    ensures PendingCount([b] + bs) == PendingCount(bs) + 1
  {
    assert ([b] + bs)[1..] == bs;
  }

  /** Moving bookings to a status other than Pending never raises the
      pending count. */
  lemma {:induction false} DecidingNeverRaisesPending(bs: seq<Booking>, id: string, s: BookingStatus)
    requires s != Pending
    ensures PendingCount(SetStatus(bs, id, s)) <= PendingCount(bs)
  {
    if bs != [] {
      var r := SetStatus(bs, id, s);
      assert r[1..] == SetStatus(bs[1..], id, s);
      DecidingNeverRaisesPending(bs[1..], id, s);
    }
  }

  /** `getRoomName`: the English title of the first room with the id, or the
      id itself when there is no such room or that title is empty. */
  function RoomName(rs: seq<Room>, id: string): (name: string)
    ensures !HasRoom(rs, id) ==> name == id
    ensures forall k :: 0 <= k < |rs| && rs[k].id == id && (forall j :: 0 <= j < k ==> rs[j].id != id)
                        ==> name == (if rs[k].titleEn != "" then rs[k].titleEn else id)
  {
    match FindRoom(rs, id)
    case Some(room) => if room.titleEn != "" then room.titleEn else id
    case None => id
  }

  /** Nothing ties a booking to a live room: after the room of a booking is
      deleted, the booking stays and the table shows its bare room id. */
  lemma DeletedRoomShowsId(rs: seq<Room>, b: Booking)
    ensures !HasRoom(RemoveRoom(rs, b.roomId), b.roomId)
    ensures RoomName(RemoveRoom(rs, b.roomId), b.roomId) == b.roomId
  {
    var r := RemoveRoom(rs, b.roomId);
    forall i | 0 <= i < |r| ensures r[i].id != b.roomId {
      assert r[i] in r;
    }
  }

  // ---------------------------------------------------------------------
  // The room editor.
  // ---------------------------------------------------------------------

  /** The form's `Partial<Room>`: a field the form has not set is `None`. */
  datatype RoomDraft = RoomDraft(
    id: Option<string>,
    roomType: Option<RoomType>,
    titleEn: Option<string>,
    titleAr: Option<string>,
    descriptionEn: Option<string>,
    descriptionAr: Option<string>,
    price: Option<int>,
    capacity: Option<int>,
    amenities: Option<seq<string>>,
    imageUrl: Option<string>,
    available: Option<bool>)

  /** `{}`. */
  const EmptyDraft: RoomDraft := RoomDraft(None, None, None, None, None, None, None, None, None, None, None)

  /** The draft `handleAddRoom` opens, for the id the caller generated. */
  function NewRoomDraft(newId: string): (d: RoomDraft)
    ensures d.id == Some(newId) && d.roomType == Some(Deluxe)
    ensures d.amenities == Some(["wifi", "ac"]) && d.available == Some(true)
    ensures d.titleEn.None? && d.titleAr.None? && d.descriptionEn.None? && d.descriptionAr.None?
    ensures d.price.None? && d.capacity.None? && d.imageUrl.None?
    ensures !Saveable(d)
  {
    EmptyDraft.(id := Some(newId), roomType := Some(Deluxe), amenities := Some(["wifi", "ac"]),
                available := Some(true))
  }

  /** The draft `handleEditRoom` opens: the room with every field set. */
  function DraftOf(r: Room): RoomDraft {
    RoomDraft(Some(r.id), Some(r.roomType), Some(r.titleEn), Some(r.titleAr), Some(r.descriptionEn),
              Some(r.descriptionAr), Some(r.price), Some(r.capacity), Some(r.amenities), Some(r.imageUrl),
              Some(r.available))
  }

  /** `currentRoom as Room`: a field the form left unset is given the empty
      value of its type here. */
  function AsRoom(d: RoomDraft): (r: Room)
    ensures d.id.Some? ==> r.id == d.id.value
    ensures d.roomType.Some? ==> r.roomType == d.roomType.value
    ensures d.titleEn.Some? ==> r.titleEn == d.titleEn.value
    ensures d.titleAr.Some? ==> r.titleAr == d.titleAr.value
    ensures d.descriptionEn.Some? ==> r.descriptionEn == d.descriptionEn.value
    ensures d.descriptionAr.Some? ==> r.descriptionAr == d.descriptionAr.value
    ensures d.price.Some? ==> r.price == d.price.value
    ensures d.capacity.Some? ==> r.capacity == d.capacity.value
    ensures d.amenities.Some? ==> r.amenities == d.amenities.value
    ensures d.imageUrl.Some? ==> r.imageUrl == d.imageUrl.value
    ensures d.available.Some? ==> r.available == d.available.value
    ensures d.id.None? ==> r.id == ""
    ensures d.roomType.None? ==> r.roomType == Deluxe
    ensures d.titleEn.None? ==> r.titleEn == ""
    ensures d.titleAr.None? ==> r.titleAr == ""
    ensures d.descriptionEn.None? ==> r.descriptionEn == ""
    ensures d.descriptionAr.None? ==> r.descriptionAr == ""
    ensures d.price.None? ==> r.price == 0
    ensures d.capacity.None? ==> r.capacity == 0
    ensures d.amenities.None? ==> r.amenities == []
    ensures d.imageUrl.None? ==> r.imageUrl == ""
    ensures d.available.None? ==> r.available == false
  {
    Room(d.id.GetOr(""), d.roomType.GetOr(Deluxe), d.titleEn.GetOr(""), d.titleAr.GetOr(""),
         d.descriptionEn.GetOr(""), d.descriptionAr.GetOr(""), d.price.GetOr(0), d.capacity.GetOr(0),
         d.amenities.GetOr([]), d.imageUrl.GetOr(""), d.available.GetOr(false))
  }

  /** Editing a room and saving it unchanged saves the same room. */
  lemma DraftRoundTrip(r: Room)
    ensures AsRoom(DraftOf(r)) == r
    ensures Saveable(DraftOf(r)) <==> r.id != "" && r.titleEn != ""
  {
  }

  /** The save guard: both the id and the English title are set and non-empty. */
  predicate Saveable(d: RoomDraft): (ok: bool)
    ensures ok <==> d.id.Some? && d.titleEn.Some? && AsRoom(d).id != "" && AsRoom(d).titleEn != ""
  {
    d.id.Some? && d.id.value != "" && d.titleEn.Some? && d.titleEn.value != ""
  }

  /** What `handleSaveRoom` does to the room list: `updateRoom` when some
      room has the id, `addRoom` otherwise. */
  function SaveRoom(rs: seq<Room>, room: Room): (r: seq<Room>)
    ensures |r| == if HasRoom(rs, room.id) then |rs| else |rs| + 1
    ensures forall i :: 0 <= i < |rs| ==> r[i] == if rs[i].id == room.id then room else rs[i]
    ensures !HasRoom(rs, room.id) ==> r[|rs|] == room
    ensures HasRoom(r, room.id)
  {
    if HasRoom(rs, room.id) then ReplaceRoom(rs, room) else rs + [room]
  }

  /** The upsert keeps room ids distinct, and the saved id is then held by
      exactly one room, which is the saved room. */
  lemma SaveRoomKeepsUnique(rs: seq<Room>, room: Room)
    requires UniqueIds(rs)
    ensures UniqueIds(SaveRoom(rs, room))
    ensures forall i :: 0 <= i < |SaveRoom(rs, room)| && SaveRoom(rs, room)[i].id == room.id
                        ==> SaveRoom(rs, room)[i] == room
  {
    if HasRoom(rs, room.id) {
      ReplaceRoomKeepsUnique(rs, room);
    } else {
      AddRoomKeepsUnique(rs, room);
    }
  }

  /** The page state of the admin console that its handlers change, with the
      store it calls into. */
  class AdminPage {
    const store: DomainStore
    var isEditingRoom: bool
    var currentRoom: RoomDraft

    constructor (store: DomainStore)
      ensures this.store == store && !isEditingRoom && currentRoom == EmptyDraft
    {
      this.store := store;
      isEditingRoom := false;
      currentRoom := EmptyDraft;
    }

    /** `handleLogin`, which exists only while the session is closed: opens
        the session only for the demo credentials; any other input leaves
        the store as it was. */
    method HandleLogin(username: string, password: string)
      requires store.Valid() && !store.auth
      modifies store
      ensures store.Valid()
      ensures CredentialsMatch(username, password) ==>
                store.auth && store.storage == old(store.storage)[AuthKey := Text("true")]
      ensures !CredentialsMatch(username, password) ==> unchanged(store)
      ensures store.rooms == old(store.rooms) && store.bookings == old(store.bookings)
      ensures store.roomsIsSeed == old(store.roomsIsSeed)
    {
      if username == "admin" && password == "admin123" {
        store.LoginAdmin();
      }
    }

    /** `handleAddRoom`: opens the editor on a draft of a Deluxe room with
        wifi and air conditioning, available, with the given id. Like every
        dashboard handler below, it exists only while the session is open;
        its button is on the room list, which is shown while the editor is
        closed. */
    method HandleAddRoom(newId: string)
      requires store.auth && !isEditingRoom
      modifies this
      ensures isEditingRoom && currentRoom == NewRoomDraft(newId)
      ensures currentRoom.id == Some(newId) && currentRoom.roomType == Some(Deluxe)
      ensures currentRoom.amenities == Some(["wifi", "ac"]) && currentRoom.available == Some(true)
      ensures currentRoom.titleEn.None? && currentRoom.price.None?
    {
      currentRoom := NewRoomDraft(newId);
      isEditingRoom := true;
    }

    /** `handleEditRoom`: opens the editor on an existing room, from the
        room list shown while the editor is closed. */
    method HandleEditRoom(r: Room)
      requires store.auth && !isEditingRoom
      modifies this
      ensures isEditingRoom && currentRoom == DraftOf(r) && AsRoom(currentRoom) == r
    {
      currentRoom := DraftOf(r);
      isEditingRoom := true;
    }

    /** `handleSaveRoom`: ignored unless the draft has an id and an English
        title; otherwise an upsert into the store, and the editor closes. It
        is the editor form's submit, so the editor is open. */
    method HandleSaveRoom()
      requires store.Valid() && store.auth && isEditingRoom
      modifies this, store
      ensures store.Valid()
      ensures !Saveable(old(currentRoom)) ==>
                unchanged(store) && isEditingRoom == old(isEditingRoom) && currentRoom == old(currentRoom)
      ensures Saveable(old(currentRoom)) ==>
                && store.rooms == SaveRoom(old(store.rooms), AsRoom(old(currentRoom)))
                && store.storage == old(store.storage)[RoomsKey := RoomList(store.rooms)]
                && !store.roomsIsSeed
                && !isEditingRoom && currentRoom == EmptyDraft
      ensures store.bookings == old(store.bookings) && store.auth == old(store.auth)
    {
      if !Saveable(currentRoom) {
        return;
      }
      var room := AsRoom(currentRoom);
      if FindRoom(store.rooms, room.id).Some? {
        store.UpdateRoom(room);
      } else {
        store.AddRoom(room);
      }
      isEditingRoom := false;
      currentRoom := EmptyDraft;
    }

    /** The Approve button of row `i`, which is shown only while that
        booking is Pending; it confirms every booking with the row's id. */
    method Approve(i: nat)
      requires store.Valid() && store.auth && i < |store.bookings|
      modifies store
      ensures store.Valid()
      ensures old(store.bookings[i].status) == Pending ==>
                store.bookings == SetStatus(old(store.bookings), old(store.bookings[i].id), Confirmed)
                && store.storage == old(store.storage)[BookingsKey := BookingList(store.bookings)]
      ensures old(store.bookings[i].status) != Pending ==> unchanged(store)
      ensures store.rooms == old(store.rooms) && store.auth == old(store.auth)
      ensures store.roomsIsSeed == old(store.roomsIsSeed)
    {
      var b := store.bookings[i];
      if b.status == Pending {
        store.UpdateBookingStatus(b.id, Confirmed);
      }
    }

    /** The Reject button of row `i`, shown under the same condition; it
        cancels every booking with the row's id. */
    method Reject(i: nat)
      requires store.Valid() && store.auth && i < |store.bookings|
      modifies store
      ensures store.Valid()
      ensures old(store.bookings[i].status) == Pending ==>
                store.bookings == SetStatus(old(store.bookings), old(store.bookings[i].id), Cancelled)
                && store.storage == old(store.storage)[BookingsKey := BookingList(store.bookings)]
      ensures old(store.bookings[i].status) != Pending ==> unchanged(store)
      ensures store.rooms == old(store.rooms) && store.auth == old(store.auth)
      ensures store.roomsIsSeed == old(store.roomsIsSeed)
    {
      var b := store.bookings[i];
      if b.status == Pending {
        store.UpdateBookingStatus(b.id, Cancelled);
      }
    }
  }

  /** The gate is per row, the update per id: when two bookings share an id,
      rejecting the Pending one also cancels the other, whatever its status. */
  lemma GateIsPerRowUpdateIsPerId(bs: seq<Booking>, i: nat, j: nat)
    requires i < |bs| && j < |bs| && bs[i].status == Pending && bs[j].id == bs[i].id
    ensures SetStatus(bs, bs[i].id, Cancelled)[j].status == Cancelled
    ensures SetStatus(bs, bs[i].id, Confirmed)[j].status == Confirmed
  {
  }
}
