/** The booking page of pages/Booking.tsx: the initial room selection, the
    stay total, and the construction of a new booking handed to the store. */
module Reservation {
  import opened Wrappers
  import opened Types
  import opened Seed
  import opened Store
  import opened Dashboard

  /** `searchParams.get('roomId') || rooms[0].id`. `None` stands for the
      TypeError the page throws when there is no query parameter (or it is
      empty) and the room list is empty, so `rooms[0]` is undefined. */
  function InitialRoomId(param: Option<string>, rs: seq<Room>): (r: Option<string>)
    ensures param.Some? && param.value != "" ==> r == param
    ensures (param.None? || param.value == "") && |rs| > 0 ==> r == Some(rs[0].id)
    ensures r.None? <==> (param.None? || param.value == "") && |rs| == 0
  {
    if param.Some? && param.value != "" then param
    else if |rs| > 0 then Some(rs[0].id)
    else None
  }

  /** The whole days between two dates, in either order: the ceiling of
      `|end - start|` in days, which for day numbers is their distance. */
  function Nights(checkIn: int, checkOut: int): nat {
    if checkOut >= checkIn then checkOut - checkIn else checkIn - checkOut
  }

  /** `calculateTotal`: 0 while a date or the room is missing, and 0 for a
      stay of no nights; nights times the nightly price otherwise. */
  function CalculateTotal(checkIn: DateInput, checkOut: DateInput, room: Option<Room>): (total: int)
    ensures checkIn.None? || checkOut.None? || room.None? ==> total == 0
    ensures checkIn.Some? && checkOut.Some? && room.Some? ==>
              total == Nights(checkIn.value, checkOut.value) * room.value.price
  {
    if checkIn.None? || checkOut.None? || room.None? then 0
    else
      var nights := Nights(checkIn.value, checkOut.value);
      if nights > 0 then nights * room.value.price else 0
  }

  /** The total ignores which date comes first: swapped dates cost the same,
      so a check-out before the check-in still gives a positive total. */
  lemma TotalSymmetric(checkIn: DateInput, checkOut: DateInput, room: Option<Room>)
    ensures CalculateTotal(checkIn, checkOut, room) == CalculateTotal(checkOut, checkIn, room)
    ensures (checkIn.Some? && checkOut.Some? && room.Some? && checkOut.value < checkIn.value
             && room.value.price > 0) ==> CalculateTotal(checkIn, checkOut, room) > 0
  {
    if checkIn.Some? && checkOut.Some? && room.Some? && checkOut.value < checkIn.value && room.value.price > 0 {
      var n := Nights(checkIn.value, checkOut.value);
      assert n >= 1;
      assert n * room.value.price >= room.value.price;
    }
  }

  /** The booking `handleSubmit` builds: Pending, for the selected room, with
      the form's fields and the computed total. */
  function NewBooking(newId: string, room: Room, name: string, email: string, checkIn: DateInput,
                      checkOut: DateInput, guests: int, createdAt: string): (b: Booking)
    ensures b.id == newId && b.roomId == room.id && b.status == Pending
    ensures b.customerName == name && b.customerEmail == email && b.guests == guests
    ensures b.checkIn == checkIn && b.checkOut == checkOut && b.createdAt == createdAt
    ensures checkIn.None? || checkOut.None? ==> b.totalPrice == 0
    ensures checkIn.Some? && checkOut.Some? ==>
              b.totalPrice == Nights(checkIn.value, checkOut.value) * room.price
  {
    Booking(newId, room.id, name, email, checkIn, checkOut, guests,
            CalculateTotal(checkIn, checkOut, Some(room)), Pending, createdAt)
  }

  /** Room '1' at 120 a night from 2024-06-01 (day 19875 since 1970-01-01)
      to 2024-06-04 (day 19878) costs 360, and the booking made for it is a
      Pending booking of 360 for room '1'. */
  lemma TotalExample(name: string, email: string, createdAt: string)
    ensures CalculateTotal(Some(19875), Some(19878), FindRoom(InitialRooms, "1")) == 360
    ensures var b := NewBooking("b1", InitialRooms[0], name, email, Some(19875), Some(19878), 2, createdAt);
            b.totalPrice == 360 && b.status == Pending && b.roomId == "1"
  {
    assert FindRoom(InitialRooms, "1") == Some(InitialRooms[0]);
  }

  /** Approving a new booking whose id no older booking has confirms it and
      leaves every other field and every other booking as it was; the new
      booking counted as one more Pending booking beforehand. */
  lemma ConfirmNewBooking(b: Booking, bs: seq<Booking>)
    requires b.status == Pending
    requires forall i :: 0 <= i < |bs| ==> bs[i].id != b.id
    ensures SetStatus([b] + bs, b.id, Confirmed) == [b.(status := Confirmed)] + bs
    ensures PendingCount([b] + bs) == PendingCount(bs) + 1
  {
    var r := SetStatus([b] + bs, b.id, Confirmed);
    assert r[1..] == SetStatus(bs, b.id, Confirmed);
    SetStatusAbsent(bs, b.id, Confirmed);
    PendingAfterAdd(b, bs);
  }

  /** The form state of the booking page, with the store it calls into. */
  class BookingPage {
    const store: DomainStore
    var selectedRoomId: string
    var checkIn: DateInput
    var checkOut: DateInput
    var guests: int
    var name: string
    var email: string
    var success: bool

    /** The page opens on the room `InitialRoomId` picks from the `roomId`
        query parameter and the store's rooms, with empty dates, name and
        e-mail, one guest, and nothing submitted. When it picks none the
        original throws while rendering, so there is no page. */
    constructor (store: DomainStore, param: Option<string>)
      requires InitialRoomId(param, store.rooms).Some?
      ensures this.store == store && selectedRoomId == InitialRoomId(param, store.rooms).value
      ensures checkIn.None? && checkOut.None? && guests == 1 && name == "" && email == "" && !success
    {
      this.store := store;
      selectedRoomId := InitialRoomId(param, store.rooms).value;
      checkIn, checkOut := None, None;
      guests := 1;
      name, email := "", "";
      success := false;
    }

    /** `selectedRoom`. */
    function SelectedRoom(): Option<Room>
      reads this, store
    {
      FindRoom(store.rooms, selectedRoomId)
    }

    /** `total`, as the page shows it. */
    function Total(): int
      reads this, store
    {
      CalculateTotal(checkIn, checkOut, SelectedRoom())
    }

    /** `handleSubmit`: nothing happens when no room has the selected id;
        otherwise a Pending booking for that room, carrying the form's
        fields and the shown total, becomes the head of the store's bookings.
        The form is shown only until a submit succeeds, so a page submits at
        most once. */
    method HandleSubmit(newId: string, now: string)
      requires store.Valid() && !success
      modifies this`success, store
      ensures store.Valid()
      ensures !HasRoom(old(store.rooms), selectedRoomId) ==> unchanged(store) && success == old(success)
      ensures HasRoom(old(store.rooms), selectedRoomId) ==>
                && success
                && |store.bookings| == |old(store.bookings)| + 1
                && store.bookings[1..] == old(store.bookings)
                && store.bookings[0].id == newId && store.bookings[0].roomId == selectedRoomId
                && store.bookings[0].status == Pending
                && store.bookings[0].customerName == name && store.bookings[0].customerEmail == email
                && store.bookings[0].checkIn == checkIn && store.bookings[0].checkOut == checkOut
                && store.bookings[0].guests == guests && store.bookings[0].createdAt == now
                && store.bookings[0].totalPrice == old(Total())
                && store.storage == old(store.storage)[BookingsKey := BookingList(store.bookings)]
      ensures store.rooms == old(store.rooms) && store.auth == old(store.auth)
      ensures store.roomsIsSeed == old(store.roomsIsSeed)
    {
      var selected := FindRoom(store.rooms, selectedRoomId);
      if selected.None? {
        return;
      }
      var b := NewBooking(newId, selected.value, name, email, checkIn, checkOut, guests, now);
      store.AddBooking(b);
      success := true;
    }
  }

  /** A client of the store: a fresh store on empty storage, a booking made
      through the page opened without a query parameter (so on the first
      room), approved in the console, then a reset and a reload. */
  method Visit(newId: string, now: string) returns (booked: Booking, reopened: DomainStore)
    ensures booked.id == newId && booked.roomId == "1" && booked.totalPrice == 360
    ensures booked.status == Confirmed
    ensures reopened.rooms == InitialRooms && reopened.bookings == [] && reopened.auth
  {
    var store := new DomainStore(map[]);
    assert store.rooms == InitialRooms && store.bookings == [] && !store.auth;
    var page := new BookingPage(store, None);
    page.checkIn, page.checkOut := Some(19875), Some(19878);
    assert FindRoom(store.rooms, "1") == Some(InitialRooms[0]);
    page.HandleSubmit(newId, now);
    assert store.bookings[0].totalPrice == 360 && store.bookings[0].status == Pending;
    var admin := new AdminPage(store);
    admin.HandleLogin("admin", "admin123");
    assert store.auth;
    admin.Approve(0);
    booked := store.bookings[0];
    store.ResetDatabase();
    assert RoomsKey !in store.storage;
    reopened := Reopen(store);
  }
}
