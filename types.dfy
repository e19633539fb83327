/** The vocabulary of the hotel site: languages, room types, booking
    statuses, rooms, bookings and bilingual content. */
module Types {
  import opened Wrappers

  /** The two display languages; `Code` is the enum's string value. */
  datatype Language = EN | AR

  function Code(l: Language): (c: string)
    ensures l == EN ==> c == "en"
    ensures l == AR ==> c == "ar"
  {
    match l
    case EN => "en"
    case AR => "ar"
  }

  /** The four kinds of room; `TypeLabel` is the enum's string value, which is
      what the room form's select offers and stores. */
  datatype RoomType = Deluxe | Suite | Family | Executive

  function TypeLabel(t: RoomType): (s: string)
    ensures t == Deluxe ==> s == "Deluxe Room"
    ensures t == Suite ==> s == "Royal Suite"
    ensures t == Family ==> s == "Family Suite"
    ensures t == Executive ==> s == "Executive Room"
  {
    match t
    case Deluxe => "Deluxe Room"
    case Suite => "Royal Suite"
    case Family => "Family Suite"
    case Executive => "Executive Room"
  }

  /** The lifecycle states of a booking; `StatusLabel` is the enum's string value. */
  datatype BookingStatus = Pending | Confirmed | Cancelled

  function StatusLabel(s: BookingStatus): (l: string)
    ensures s == Pending ==> l == "Pending"
    ensures s == Confirmed ==> l == "Confirmed"
    ensures s == Cancelled ==> l == "Cancelled"
  {
    match s
    case Pending => "Pending"
    case Confirmed => "Confirmed"
    case Cancelled => "Cancelled"
  }

  /** A bookable unit. Prices and capacities are JavaScript numbers in the
      original; here they are integers. */
  datatype Room = Room(
    id: string,
    roomType: RoomType,
    titleEn: string,
    titleAr: string,
    descriptionEn: string,
    descriptionAr: string,
    price: int,
    capacity: int,
    amenities: seq<string>,
    imageUrl: string,
    available: bool)

  /** A date field of the booking form: `None` is the empty string, `Some(d)`
      the date whose day number is `d`. */
  type DateInput = Option<int>

  /** A reservation request. `roomId` is a plain string: nothing ties it to a
      room of the room list, and `totalPrice` is stored, never recomputed.
      Check-in and check-out are copied from the form as they were. */
  datatype Booking = Booking(
    id: string,
    roomId: string,
    customerName: string,
    customerEmail: string,
    checkIn: DateInput,
    checkOut: DateInput,
    guests: int,
    totalPrice: int,
    status: BookingStatus,
    createdAt: string)

  /** One text in both languages. */
  datatype ContentText = ContentText(en: string, ar: string)

  /** `content[language]`: a `ContentText` has a string for every language. */
  function InLanguage(c: ContentText, l: Language): (s: string)
    ensures l == EN ==> s == c.en
    ensures l == AR ==> s == c.ar
  {
    match l
    case EN => c.en
    case AR => c.ar
  }

  /** The ids of a room list, in order. */
  function RoomIds(rs: seq<Room>): (ids: seq<string>)
    ensures |ids| == |rs|
    ensures forall i :: 0 <= i < |rs| ==> ids[i] == rs[i].id
  {
    if rs == [] then [] else [rs[0].id] + RoomIds(rs[1..])
  }

  /** No two rooms share an id; the store does not enforce it. */
  ghost predicate UniqueIds(rs: seq<Room>) {
    forall i, j :: 0 <= i < j < |rs| ==> rs[i].id != rs[j].id
  }

  /** Whether some room of the list has the id. */
  predicate HasRoom(rs: seq<Room>, id: string) {
    exists i :: 0 <= i < |rs| && rs[i].id == id
  }

  /** The position of the first room with the id, or `|rs|` when there is none. */
  function FirstIndex(rs: seq<Room>, id: string): (k: nat)
    ensures k <= |rs|
    ensures k < |rs| ==> rs[k].id == id
    ensures forall j :: 0 <= j < k ==> rs[j].id != id
  {
    if rs == [] then 0
    else if rs[0].id == id then 0
    else 1 + FirstIndex(rs[1..], id)
  }

  /** `rooms.find(r => r.id === id)`: the first room with the id, if any. */
  function FindRoom(rs: seq<Room>, id: string): (r: Option<Room>)
    ensures r.None? <==> !HasRoom(rs, id)
    ensures r.Some? ==> r.value.id == id && r.value in rs
    ensures forall k :: 0 <= k < |rs| && rs[k].id == id && (forall j :: 0 <= j < k ==> rs[j].id != id)
                        ==> r == Some(rs[k])
  {
    var k := FirstIndex(rs, id);
    if k < |rs| then Some(rs[k]) else None
  }

  /** The enum values are pairwise distinct strings, so each label names one member. */
  lemma LabelsDistinct()
    ensures forall t, u :: TypeLabel(t) == TypeLabel(u) ==> t == u
    ensures forall s, v :: StatusLabel(s) == StatusLabel(v) ==> s == v
    ensures Code(EN) != Code(AR)
  {
  }
}
