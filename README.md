# Antalya Hotel Amman: the domain store, in Dafny

This project models the client-side domain store of the Antalya Hotel Amman
booking site and the page logic that feeds it. It also proves properties of
that model.

The store holds three things: the ordered room list, the ordered booking list
and the admin-session flag. Each is mirrored into browser storage under the
keys `rooms`, `bookings` and `adminAuth`. When the store is created it reads
them back, and it falls back to the three seed rooms, no bookings and a closed
session when an entry is absent or unreadable. Every operation is one list
transform, written through to storage right away: prepend a booking, set a
booking's status by id, append a room, replace a room by id, filter a room out
by id, or reset to the seed.

Modules, one per source file:

- `Types` (types.ts): the enums and records as datatypes, plus `FindRoom`, the
  `rooms.find` both pages use.
- `Seed` (constants.ts): `INITIAL_ROOMS` and the `TRANSLATIONS` table.
- `Store` (context/AppContext.tsx): the storage model, the pure list
  transforms, and the class `DomainStore`. Its methods change `rooms`,
  `bookings`, `auth` and `storage` exactly as the provider's setters and
  write-through effects do.
- `Dashboard` (pages/Admin.tsx): the credential check, the revenue and
  pending figures, the room-name lookup, the room draft and its
  save-as-upsert, and the class `AdminPage` with its handlers and the
  Pending-only Approve/Reject actions.
- `Reservation` (pages/Booking.tsx): the initial room selection, the stay
  total, the booking construction, and the class `BookingPage` with
  `HandleSubmit`.
- `Wrappers`: the `Option` type.

Storage is a map from key to `Stored`:

- `RoomList(rs)` and `BookingList(bs)` stand for the JSON text of those lists.
- `Text(s)` stands for any other text. That is either text that does not parse
  to the list the key is read as (the empty string included), or the flag
  text `"true"`/`"false"`.
- A missing key is an absent entry.
- A stored list is tagged by the key it is written under. The text `[]` is
  `RoomList([])` under `rooms` and `BookingList([])` under `bookings`; the
  store only ever writes each list under its own key, so a `BookingList`
  under `rooms` (or the reverse) stands for text written by something else
  and loads as unreadable.

The class invariant `DomainStore.Valid` says the storage mirrors the state.
Its postcondition says that loading the storage again gives back the same
rooms, bookings and flag. `Store.Reopen` uses this: a store opened on another
store's storage starts in the other store's state.

There is one React detail the model keeps. `resetDatabase` removes both list
entries and then sets the room state to the seed constant. If the room state
already is that very constant, React sees no change and does not rewrite
`rooms`, so the entry stays removed. The field `roomsIsSeed` tracks this case.
It is why the invariant allows a missing `rooms` entry only while the rooms
are the seed. Reloading then gives the seed, so the state survives either way.

Dates are integer day numbers. An empty date field is `None`. Prices,
capacities and guest counts are integers.

### Behaviour a reader might not expect (the model follows the code)

- A room list meant to hold unique ids would reject a duplicate, but
  `addRoom` does not. It just appends
  (context/AppContext.tsx:88-90), and `Store.AddRoomAdmitsDuplicate` shows
  the resulting duplicate. Only the admin page's save avoids duplicates, by
  making the save an upsert (`Dashboard.SaveRoomKeepsUnique`).
- `deleteRoom` removes every room with the id. With unique ids that is
  exactly one room (`Store.RemoveRoomRemovesOne`). With a duplicate that
  `addRoom` let in, one delete removes several rooms.
- One might expect a decided booking to stay decided, but
  `updateBookingStatus` has no terminal states: a later update overwrites an
  earlier one (`Store.SetStatusOverwrites`). Only the admin table limits its
  buttons to Pending rows. The update still matches by id, so another booking
  with the same id changes too, whatever its status
  (`Dashboard.GateIsPerRowUpdateIsPerId`).
- A reset might be expected to leave the storage empty, but
  `resetDatabase` does not. The write-through puts
  the new booking list back, and the seed rooms too unless the `rooms` entry
  stayed removed as described above.
- The booking page reads `rooms[0].id` when there is no `roomId` query
  parameter. With an empty room list this throws (`Reservation.InitialRoomId`
  returns `None`), so `BookingPage.constructor` requires a room to be picked.
- The form's date, name and e-mail inputs are `required`
  (pages/Booking.tsx:110-165), so the browser never submits with an empty
  date. `BookingPage.HandleSubmit` does not rely on that: it accepts an empty
  date, and the total is then 0.
- After a successful submit the booking page shows only its confirmation
  (pages/Booking.tsx:62-86), so one page submits at most once;
  `BookingPage.HandleSubmit` requires that nothing was submitted yet.
  Likewise the room editor and the room list are shown in turn
  (pages/Admin.tsx:291-408): saving needs the editor open, adding and
  editing need it closed.
- The room editor's price, English title and Arabic title inputs are
  `required` too (pages/Admin.tsx:316, 328, 339), so the browser never saves
  a room without them through the form. `AdminPage.HandleSaveRoom` checks
  only what `handleSaveRoom` itself checks (an id and an English title), so
  `AsRoom`'s price default of 0 is reachable in the model but not through
  the form.
- The admin console renders either the login form or the dashboard,
  depending on the session flag (pages/Admin.tsx:18-61). Its handlers exist
  only in the matching view, so `AdminPage.HandleLogin` requires a closed
  session and the dashboard handlers require an open one.

## Model

| member | source | states |
|---|---|---|
| Types.FindRoom | pages/Admin.tsx:103 | `rooms.find` by id gives the first room with that id, and none exactly when no room has it |
| Types.FirstIndex | pages/Booking.tsx:26 | the first position holding the id: every earlier room has another id, and it is the list length when no room has the id |
| Types.InLanguage | types.ts:46-49 | a ContentText has one string per language: en gives `en`, ar gives `ar` |
| Types.Code | types.ts:1-4 | EN is the code "en" and AR is "ar" |
| Types.TypeLabel | types.ts:6-11 | each room type is its enum string: "Deluxe Room", "Royal Suite", "Family Suite", "Executive Room" |
| Types.StatusLabel | types.ts:27-31 | each booking status is its enum string: "Pending", "Confirmed", "Cancelled" |
| Types.LabelsDistinct | types.ts:6-31 | the RoomType and BookingStatus values are pairwise distinct strings, as are the two language codes |
| Types.RoomIds | types.ts:13-25 | the id sequence of a room list, position by position |
| Seed.SeedRooms | constants.ts:11-51 | the seed has exactly three rooms, ids "1", "2", "3" in that order, pairwise distinct |
| Seed.SeedRoomFields | constants.ts:19-49 | seed prices are 120, 350, 220 and capacities 2, 4, 5, all positive, and every seed room is available |
| Seed.Translate | constants.ts:53-130 | a lookup gives a text exactly for the table's keys, and it is the entry's en or ar string |
| Seed.TranslationsTotal | pages/Booking.tsx:12 | every key has both texts, and the keys the booking page looks up are defined |
| Store.LoadRooms | context/AppContext.tsx:26-34 | a present, parsable `rooms` entry loads as its list; an absent or unparsable one loads as the seed |
| Store.LoadBookings | context/AppContext.tsx:37-45 | a present, parsable `bookings` entry loads as its list; an absent or unparsable one loads as no bookings |
| Store.LoadAuth | context/AppContext.tsx:47-49 | the session starts open exactly when the `adminAuth` entry is the text "true", so it is closed when the entry is absent |
| Store.LoadFallbacks | context/AppContext.tsx:27-50 | an absent or unparsable `rooms` entry loads as the seed, an absent or unparsable `bookings` entry loads as no bookings, and the flag is on exactly when the stored text is "true" |
| Store.WriteThenLoad | context/AppContext.tsx:53-65 | the three written entries load back as the state they were written from |
| Store.SetStatus | context/AppContext.tsx:84-86 | same length and order; every booking with the id gets the new status and keeps its other fields; every other booking is unchanged |
| Store.SetStatusAbsent | context/AppContext.tsx:84-86 | an update for an id no booking has changes nothing |
| Store.SetStatusOverwrites | context/AppContext.tsx:85 | applying a second status overwrites the first: Confirmed and Cancelled are not terminal |
| Store.ReplaceRoom | context/AppContext.tsx:92-94 | same length and positions; every room with the id becomes the new room; every other room is unchanged |
| Store.ReplaceRoomAbsent | context/AppContext.tsx:92-94 | an update for an id no room has changes nothing |
| Store.ReplaceRoomKeepsUnique | context/AppContext.tsx:92-94 | replacing keeps every id in place, so distinct ids stay distinct |
| Store.RemoveRoom | context/AppContext.tsx:96-98 | no room with the id is left; every other room is kept and nothing new appears; the length is unchanged exactly when no room had the id |
| Store.RemoveRoomConcat | context/AppContext.tsx:97 | the filter distributes over concatenation, so the kept rooms keep their relative order |
| Store.RemoveRoomAbsent | context/AppContext.tsx:96-98 | deleting an id no room has changes nothing |
| Store.RemoveRoomIdempotent | context/AppContext.tsx:96-98 | deleting twice leaves the same list as deleting once |
| Store.RemoveRoomKeepsUnique | context/AppContext.tsx:96-98 | deleting keeps distinct ids distinct |
| Store.RemoveRoomRemovesOne | context/AppContext.tsx:96-98 | with distinct ids, deleting a present id shortens the list by exactly one |
| Store.AddRoomAdmitsDuplicate | context/AppContext.tsx:88-90 | appending a room whose id is already present grows the list by one and leaves two rooms with that id |
| Store.AddRoomKeepsUnique | context/AppContext.tsx:88-90 | appending a room with a new id keeps ids distinct |
| Store.DomainStore.Valid | context/AppContext.tsx:53-65 | each entry holds the current value; `rooms` may be missing only while the rooms are the seed; loading the storage reproduces rooms, bookings and flag |
| Store.DomainStore.constructor | context/AppContext.tsx:27-65 | the state is what the storage loads as, seed fallback included, and the mount effects then write all three entries |
| Store.DomainStore.AddBooking | context/AppContext.tsx:80-82 | the booking becomes the head, the old list follows unchanged, and only the `bookings` entry is rewritten |
| Store.DomainStore.UpdateBookingStatus | context/AppContext.tsx:84-86 | the bookings become `SetStatus` of the old ones; rooms, flag and other entries are unchanged |
| Store.DomainStore.AddRoom | context/AppContext.tsx:88-90 | the room is appended without an id check; the length grows by one; only `rooms` is rewritten |
| Store.DomainStore.UpdateRoom | context/AppContext.tsx:92-94 | the rooms become `ReplaceRoom` of the old ones; only `rooms` is rewritten |
| Store.DomainStore.DeleteRoom | context/AppContext.tsx:96-98 | the rooms become `RemoveRoom` of the old ones; the bookings are left as they are |
| Store.DomainStore.LoginAdmin | context/AppContext.tsx:100 | the flag is on and stored as "true"; nothing else changes |
| Store.DomainStore.LogoutAdmin | context/AppContext.tsx:101 | the flag is off and stored as "false"; nothing else changes |
| Store.DomainStore.ResetDatabase | context/AppContext.tsx:103-111 | rooms are the seed and bookings empty; the flag is kept; both entries are removed, then `bookings` is written back, and `rooms` too unless the rooms already were the seed constant |
| Store.Reopen | context/AppContext.tsx:27-65 | a store opened on the storage of a valid store has that store's rooms, bookings and flag |
| Dashboard.CredentialsMatch | pages/Admin.tsx:21 | exactly the pair admin/admin123 is accepted |
| Dashboard.NotCancelled | pages/Admin.tsx:65 | the filter keeps exactly the bookings that are not Cancelled, and a list with none cancelled is kept whole; `NotCancelledConcat` fixes order and multiplicity |
| Dashboard.PendingOnly | pages/Admin.tsx:68 | the filter keeps exactly the Pending bookings, and an all-Pending list is kept whole; `PendingOnlyConcat` fixes order and multiplicity |
| Dashboard.NotCancelledConcat | pages/Admin.tsx:65 | dropping the cancelled bookings distributes over concatenation, so kept bookings keep their order and their number of copies |
| Dashboard.PendingOnlyConcat | pages/Admin.tsx:68 | keeping the Pending bookings distributes over concatenation |
| Dashboard.PendingPrefixCount | pages/Admin.tsx:68 | among the first k bookings, the Pending ones are as many as the positions below k holding a Pending booking |
| Dashboard.PendingCount | pages/Admin.tsx:68 | the pending count is the number of positions holding a Pending booking; it is at most the number of bookings, and zero exactly when no booking is Pending |
| Dashboard.SumPrices | pages/Admin.tsx:66 | the sum of one booking is its price, and a list with no negative price sums to at least zero |
| Dashboard.TotalRevenue | pages/Admin.tsx:64-66 | the revenue is zero when every booking is cancelled, and the plain sum of prices when none is |
| Dashboard.RevenueConcat | pages/Admin.tsx:64-66 | the revenue of two lists together is the sum of their revenues |
| Dashboard.SumPricesConcat | pages/Admin.tsx:66 | the sum of two lists together is the sum of their sums, so with the one-booking case the reduce is fully determined |
| Dashboard.RevenueNonNegative | pages/Admin.tsx:64-66 | with no negative price the revenue is not negative |
| Dashboard.CancelNeverRaisesRevenue | pages/Admin.tsx:64-66 | cancelling the bookings with an id, none priced below zero, never raises the revenue |
| Dashboard.PendingAfterAdd | pages/Admin.tsx:68 | a new Pending booking at the head adds exactly one to the pending count |
| Dashboard.DecidingNeverRaisesPending | pages/Admin.tsx:68 | moving bookings to Confirmed or Cancelled never raises the pending count |
| Dashboard.RoomName | pages/Admin.tsx:70 | the English title of the first room with the id, or the id itself when there is no such room or that title is empty |
| Dashboard.DeletedRoomShowsId | pages/Admin.tsx:242 | after a booking's room is deleted no room has its id, and the table shows the bare id |
| Dashboard.AsRoom | pages/Admin.tsx:105-107 | every field the draft has set reaches the saved room unchanged, and every unset field gets its default |
| Dashboard.NewRoomDraft | pages/Admin.tsx:88-94 | the new-room draft sets only the id, type Deluxe, amenities wifi and ac, and available; without a title it cannot be saved |
| Dashboard.Saveable | pages/Admin.tsx:100 | a draft can be saved exactly when its id and English title are set and reach the saved room non-empty |
| Dashboard.DraftRoundTrip | pages/Admin.tsx:83-86 | saving an edited room unchanged saves the same room; it can be saved exactly when its id and English title are non-empty |
| Dashboard.SaveRoom | pages/Admin.tsx:103-108 | an upsert: rooms with the id are replaced in place and the list keeps its length, otherwise the room is appended; either way a room with the id is present |
| Dashboard.SaveRoomKeepsUnique | pages/Admin.tsx:98-111 | saving into a list with distinct ids keeps them distinct, and the one room with the saved id is the saved room |
| Dashboard.GateIsPerRowUpdateIsPerId | pages/Admin.tsx:256-269 | rejecting or approving a Pending row sets that status on every booking sharing its id, whatever their status |
| Dashboard.AdminPage.constructor | pages/Admin.tsx:14-15 | the editor starts closed with an empty draft |
| Dashboard.AdminPage.HandleLogin | pages/Admin.tsx:18-26 | offered only while the session is closed; the session opens only for admin/admin123, and other input leaves the store entirely unchanged; rooms, bookings and the seed marker are kept either way |
| Dashboard.AdminPage.HandleAddRoom | pages/Admin.tsx:88-96 | offered only while the session is open and the editor is closed; the editor opens on a draft with the given id, type Deluxe, amenities wifi and ac, available, and no title or price |
| Dashboard.AdminPage.HandleEditRoom | pages/Admin.tsx:83-86 | offered only while the session is open and the editor is closed; the editor opens on the room, and saving it would save the room as it is |
| Dashboard.AdminPage.HandleSaveRoom | pages/Admin.tsx:98-111 | offered only while the session and the editor are open; nothing changes without an id and an English title; otherwise the rooms become the upsert, are no longer the seed constant, only `rooms` is rewritten, and the editor closes on an empty draft |
| Dashboard.AdminPage.Approve | pages/Admin.tsx:256-263 | offered only while the session is open; a Pending row confirms every booking with its id; a row in any other status offers no button and nothing changes; rooms, flag and seed marker are kept |
| Dashboard.AdminPage.Reject | pages/Admin.tsx:256-269 | offered only while the session is open; a Pending row cancels every booking with its id; a row in any other status offers no button and nothing changes; rooms, flag and seed marker are kept |
| Reservation.InitialRoomId | pages/Booking.tsx:16 | a non-empty query parameter wins, else the first room's id; with neither the page throws (`None`) |
| Reservation.CalculateTotal | pages/Booking.tsx:28-35 | 0 while a date or the room is missing; otherwise the number of nights between the dates times the nightly price (0 for no nights) |
| Reservation.TotalSymmetric | pages/Booking.tsx:32 | swapping the dates gives the same total, so a check-out before the check-in still costs a positive amount |
| Reservation.NewBooking | pages/Booking.tsx:43-54 | the new booking is Pending, for the selected room, with the form's fields copied and the stay total as its price: 0 without both dates, otherwise nights times the nightly price |
| Reservation.TotalExample | pages/Booking.tsx:28-56 | room "1" from 2024-06-01 to 2024-06-04 costs 360, and its booking is Pending for room "1" at 360 |
| Reservation.ConfirmNewBooking | pages/Booking.tsx:43-56 | approving a new booking with a fresh id sets it to Confirmed and keeps every other field and booking; it had added one Pending booking |
| Reservation.BookingPage.constructor | pages/Booking.tsx:16-24 | the page opens on the room `InitialRoomId` picks from the query parameter and the store's rooms, with empty dates, name and e-mail, one guest, and nothing submitted |
| Reservation.BookingPage.HandleSubmit | pages/Booking.tsx:39-60 | offered only until a submit has succeeded; with no room for the selected id nothing changes; otherwise a Pending booking for that room, with the form's fields and the shown total, becomes the head of the bookings, and the page shows the success state; rooms, flag and seed marker are kept |
| Reservation.Visit | pages/Booking.tsx:39-60 | a booking made on a fresh store for room "1" over three nights costs 360 and is Confirmed after approval; after a reset a reload gives the seed rooms, no bookings and the still-open session |

## Left out

- Language state and the document `dir`, `lang` and font-class toggling (context/AppContext.tsx:24, 67-78). They are presentation only.
- JSON encoding and the browser-storage internals. Storage is an abstract key-to-value map.
- Stored text that parses to JSON of the wrong shape (`null`, a number, an object) is adopted untyped by the original and breaks the pages later. The model reads it as unreadable and falls back.
- The `console.error` calls on a failed load (context/AppContext.tsx:32, 43) and the `console.log` standing in for the confirmation e-mail (pages/Booking.tsx:59). They are logging only.
- `window.confirm` and `alert`. `ResetDatabase` and the room delete are modelled as confirmed (the room delete is `DeleteRoom` itself), and a failed login only shows an alert.
- JavaScript `Date` parsing, milliseconds and daylight-saving offsets. Dates are day numbers, so `Math.ceil` of the day difference is the difference itself.
- `Date.now()` ids and `new Date().toISOString()` timestamps. They are inputs to `HandleAddRoom` and `HandleSubmit`.
- Numbers as `int`: no fractional prices. `Number('')` on an emptied price or capacity field (pages/Admin.tsx:315, 350) gives 0, which is an `int` here; `parseInt('')` on an emptied guests field (pages/Booking.tsx:140) gives `NaN`, which the model cannot hold.
- Dashboard.AsRoom: the cast `currentRoom as Room` leaves unset draft fields `undefined` in the original; here they become "", 0, false, the empty list or Deluxe.
- The form's `onChange` handlers. They only assign one field of page state, and the model's page fields are assigned directly.
- React effect scheduling. Write-through happens synchronously at the end of each operation, and the bail-out on an unchanged value is modelled only where it changes the storage (the reset case above).
- `HOTEL_INFO` (constants.ts:3-9). These are constant display strings and floating-point map coordinates, which no store operation reads.
- The charts, the random occupancy figures and the hard-coded `revenueData` (pages/Admin.tsx:72-80, 202). They are placeholder data.
- App.tsx routing and static pages, and services/geminiService.ts. The latter is a network call to a hosted model.
- Several browser tabs writing the same storage. The original has no policy for this.
- `useAppContext` throwing outside its provider (context/AppContext.tsx:134-138). It is a wiring error, not store behaviour.
