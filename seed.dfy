/** The built-in data of constants.ts: the three seed rooms the store falls
    back to, and the bilingual text table the pages look keys up in. */
module Seed {
  import opened Types
  import opened Wrappers

  /** `INITIAL_ROOMS`. */
  const InitialRooms: seq<Room> := [
    Room(
      "1", Deluxe,
      "Deluxe City View",
      "غرفة ديلوكس مطلة على المدينة",
      "Elegant 40sqm room with a stunning view of Amman.",
      "غرفة أنيقة بمساحة 40 متر مربع مع إطلالة خلابة على عمان.",
      120, 2,
      ["wifi", "ac", "tv", "minibar"],
      "https://picsum.photos/id/10/800/600",
      true),
    Room(
      "2", Suite,
      "Royal Suite",
      "الجناح الملكي",
      "Experience ultimate luxury in our 100sqm Royal Suite with private jacuzzi.",
      "جرب الرفاهية المطلقة في الجناح الملكي بمساحة 100 متر مربع مع جاكوزي خاص.",
      350, 4,
      ["wifi", "ac", "tv", "minibar", "jacuzzi", "breakfast"],
      "https://picsum.photos/id/14/800/600",
      true),
    Room(
      "3", Family,
      "Family Connecting Room",
      "غرفة عائلية متصلة",
      "Perfect for families, offering two connecting bedrooms and spacious living area.",
      "مثالية للعائلات، وتوفر غرفتي نوم متصلتين ومنطقة معيشة واسعة.",
      220, 5,
      ["wifi", "ac", "tv", "kitchen"],
      "https://picsum.photos/id/20/800/600",
      true)
  ]

  /** `TRANSLATIONS`: key to text in both languages. */
  const Translations: map<string, ContentText> := map[
    "heroTitle" := ContentText("Where Comfort Meets Elegance", "حيث تلتقي الراحة بالأناقة"),
    "heroSubtitle" := ContentText("Experience the heart of Amman in luxury.", "استمتع بقلب عمان في فخامة."),
    "bookNow" := ContentText("Book Now", "احجز الآن"),
    "viewRooms" := ContentText("View Rooms", "عرض الغرف"),
    "aboutUs" := ContentText("About Us", "معلومات عنا"),
    "facilities" := ContentText("Facilities", "المرافق"),
    "contact" := ContentText("Contact", "اتصل بنا"),
    "admin" := ContentText("Admin", "مشرف"),
    "home" := ContentText("Home", "الرئيسية"),
    "rooms" := ContentText("Rooms & Suites", "الغرف والأجنحة"),
    "gallery" := ContentText("Gallery", "المعرض"),
    "reviews" := ContentText("Reviews", "التقييمات"),
    "night" := ContentText("/ night", "/ ليلة"),
    "checkIn" := ContentText("Check-in", "تسجيل الوصول"),
    "checkOut" := ContentText("Check-out", "المغادرة"),
    "guests" := ContentText("Guests", "الضيوف"),
    "search" := ContentText("Check Availability", "تحقق من التوفر"),
    "footerText" := ContentText("© 2024 Antalya Hotel Amman. All rights reserved.", "© 2024 فندق أنطاليا عمان. جميع الحقوق محفوظة."),
    "aiPrompt" := ContentText("Ask our AI Concierge...", "اسأل المساعد الذكي...")
  ]

  /** `TRANSLATIONS[key][language]`: `None` stands for the lookup of a key the
      table lacks, which throws in the original. */
  function Translate(key: string, l: Language): (r: Option<string>)
    ensures r.Some? <==> key in Translations
    ensures r.Some? && l == EN ==> r.value == Translations[key].en
    ensures r.Some? && l == AR ==> r.value == Translations[key].ar
  {
    if key in Translations then Some(InLanguage(Translations[key], l)) else None
  }

  /** The seed holds exactly the three rooms '1', '2' and '3', in that order,
      with distinct ids. */
  lemma SeedRooms()
    ensures |InitialRooms| == 3
    ensures RoomIds(InitialRooms) == ["1", "2", "3"]
    ensures UniqueIds(InitialRooms)
  {
  }

  /** Seed prices 120, 350, 220 and capacities 2, 4, 5: all positive, and
      every seed room is available. */
  lemma SeedRoomFields()
    ensures InitialRooms[0].price == 120 && InitialRooms[1].price == 350 && InitialRooms[2].price == 220
    ensures InitialRooms[0].capacity == 2 && InitialRooms[1].capacity == 4 && InitialRooms[2].capacity == 5
    ensures forall i :: 0 <= i < |InitialRooms| ==>
      InitialRooms[i].price > 0 && InitialRooms[i].capacity > 0 && InitialRooms[i].available
  {
  }

  /** Every key of the table has a text in both languages, and the keys the
      booking page uses are defined. */
  lemma TranslationsTotal()
    ensures forall key, l :: key in Translations ==> Translate(key, l).Some?
    ensures forall l :: Translate("search", l).Some? && Translate("checkIn", l).Some?
                     && Translate("checkOut", l).Some? && Translate("guests", l).Some?
  {
  }
}
