/** The card that shows one room in the admin list. */
module RoomCard {
  import opened JsText

  datatype RoomRecord = RoomRecord(
    images: Option<seq<string>>, amenities: Option<seq<string>>, bookingStatus: Option<string>)

  const Green := "text-green-500"
  const Yellow := "text-yellow-500"
  const Red := "text-red-500"
  const Grey := "text-gray-400"
  const Placeholder := "https://placehold.co/600x400/334155/E2E8F0?text=No+Image"

  /** The colour class of a booking status: one colour per known status,
      grey for every other value and for a missing one. */
  function StatusColor(status: Option<string>): (r: string)
    ensures r == Green <==> status == Some("Available")
    ensures r == Red <==> status == Some("Booked")
    ensures r == Yellow <==> status == Some("Maintenance")
    ensures r == Grey <==> status !in {Some("Available"), Some("Booked"), Some("Maintenance")}
  {
    match status
    case Some("Available") => Green
    case Some("Booked") => Red
    case Some("Maintenance") => Yellow
    case _ => Grey
  }

  /** The cover: the first image when the room has any, else the placeholder. */
  function CoverImage(r: RoomRecord): (src: string)
    ensures r.images.Some? && |r.images.value| > 0 ==> src == r.images.value[0]
    ensures !(r.images.Some? && |r.images.value| > 0) ==> src == Placeholder
  {
    if r.images.Some? && |r.images.value| > 0 then r.images.value[0] else Placeholder
  }

  /** The amenity chips: one per amenity, in order; none when the list is
      missing or empty, and then the section is not drawn at all. */
  function AmenityChips(r: RoomRecord): (chips: seq<string>)
    ensures chips == [] <==> r.amenities.None? || r.amenities.value == []
    ensures r.amenities.Some? ==> chips == r.amenities.value
  {
    if r.amenities.Some? && |r.amenities.value| > 0 then r.amenities.value else []
  }

  /** The first image URL added on the room form is the one the card shows,
      however many follow it. */
  lemma FirstAddedImageIsCover(first: string, later: seq<string>, amenities: Option<seq<string>>, status: Option<string>)
    ensures CoverImage(RoomRecord(Some([first] + later), amenities, status)) == first
  {
  }
}
