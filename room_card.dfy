/** What a listing card shows, beyond the listing's own fields: colour bands, the WhatsApp link, amenity
    tones, the secondary photo and which badges appear. */
module RoomCard {
  import opened Wrappers
  import opened Types
  import opened Text

  /** The three colours of the safety score. */
  datatype Band = Green | Yellow | Red

  /** The colour of the safety percentage text: green from 80, yellow from 50, red below. */
  function SafetyColor(score: int): (b: Band)
    ensures b == Green <==> score >= 80
    ensures b == Yellow <==> 50 <= score < 80
    ensures b == Red <==> score < 50
  {
    if score >= 80 then Green
    else if score >= 50 then Yellow
    else Red
  }

  /** The colour of the safety bar, whose thresholds are strict: green above 80, yellow above 50, red otherwise. */
  function SafetyBarColor(score: int): (b: Band)
    ensures b == Green <==> score > 80
    ensures b == Yellow <==> 50 < score <= 80
    ensures b == Red <==> score <= 50
  {
    if score > 80 then Green
    else if score > 50 then Yellow
    else Red
  }

  /** The text and the bar disagree exactly at the scores 80 and 50, where the bar shows the band below. */
  lemma SafetyBandsDisagreeAtThresholds(score: int)
    ensures SafetyColor(score) != SafetyBarColor(score) <==> score == 80 || score == 50
    ensures score == 80 ==> SafetyColor(score) == Green && SafetyBarColor(score) == Yellow
    ensures score == 50 ==> SafetyColor(score) == Yellow && SafetyBarColor(score) == Red
  {
  }

  // ---------------------------------------------------------------------------
  // Amenities

  /** An amenity is shown as available unless it is marked not available. */
  predicate IsAvailable(s: AmenityStatus)
    ensures IsAvailable(s) <==> s == Free || s == Paid
  {
    s != NotAvailable
  }

  /** Free means the landlord pays, so a free amenity is available. */
  predicate IsFree(s: AmenityStatus)
    ensures IsFree(s) ==> IsAvailable(s)
  {
    s == Free
  }

  /** The icon tone: teal for free, orange for paid by the tenant, grey for not available. */
  datatype Tone = Teal | Orange | Grey

  function AmenityTone(s: AmenityStatus): (t: Tone)
    ensures t == Teal <==> IsFree(s)
    ensures t == Orange <==> IsAvailable(s) && !IsFree(s)
    ensures t == Grey <==> !IsAvailable(s)
  {
    if IsAvailable(s) then (if IsFree(s) then Teal else Orange) else Grey
  }

  // ---------------------------------------------------------------------------
  // WhatsApp link

  const WhatsAppPrefix := "https://wa.me/"

  /** The number in the link: the phone's digits, with a leading '0' (a local number) replaced by the
      country code 27. */
  function WhatsAppNumber(phone: string): (n: string)
    ensures AllDigits(n)
    ensures var d := Digits(phone);
            if |d| > 0 && d[0] == '0' then n == "27" + d[1..] else n == d
  {
    var d := Digits(phone);
    if StartsWith(d, "0") then "27" + d[1..] else d
  }

  /** `getWhatsAppLink`: the wa.me link for the phone number. */
  function WhatsAppLink(phone: string): (link: string)
    ensures StartsWith(link, WhatsAppPrefix)
    ensures link[|WhatsAppPrefix|..] == WhatsAppNumber(phone)
    ensures AllDigits(link[|WhatsAppPrefix|..])
  {
    var link := WhatsAppPrefix + WhatsAppNumber(phone);
    assert link[..|WhatsAppPrefix|] == WhatsAppPrefix;
    assert link[|WhatsAppPrefix|..] == WhatsAppNumber(phone);
    link
  }

  /** The number part keeps every digit of the phone after the first, in order, and nothing else;
      a number already written as 27... is left alone. */
  lemma {:induction false} WhatsAppNumberDigits(phone: string)
    ensures var d := Digits(phone);
            var n := WhatsAppNumber(phone);
            |d| > 0 ==> n[|n| - |d| + 1..] == d[1..]
    ensures AllDigits(phone) && |phone| > 0 && phone[0] != '0' ==> WhatsAppNumber(phone) == phone
  {
    var d := Digits(phone);
    var n := WhatsAppNumber(phone);
    if |d| > 0 {
      if d[0] == '0' {
        assert n == "27" + d[1..];
        assert n[|n| - |d| + 1..] == d[1..];
      } else {
        assert n == d;
      }
    }
  }

  // ---------------------------------------------------------------------------
  // Photos and badges

  /** The second gallery image, `photos[1] || photos[0]`: the second photo when there is a non-empty one,
      otherwise the first, which is missing for an empty photo list. */
  function SecondaryPhoto(photos: seq<string>): (p: Option<string>)
    ensures |photos| >= 2 && photos[1] != "" ==> p == Some(photos[1])
    ensures !(|photos| >= 2 && photos[1] != "") && |photos| >= 1 ==> p == Some(photos[0])
    ensures p == None <==> photos == []
  {
    if |photos| >= 2 && photos[1] != "" then Some(photos[1])
    else if |photos| >= 1 then Some(photos[0])
    else None
  }

  /** The status badge; only the "available from" badge carries the date. */
  datatype StatusBadge = AvailableNowBadge | TakenBadge | AvailableFromBadge(date: Option<string>)

  function Badge(status: ListingStatus, availableDate: Option<string>): (b: StatusBadge)
    ensures b.AvailableFromBadge? <==> status == AvailableFrom
    ensures b.AvailableFromBadge? ==> b.date == availableDate
    ensures b == AvailableNowBadge <==> status == Available
    ensures b == TakenBadge <==> status == Taken
  {
    match status
    case Available => AvailableNowBadge
    case Taken => TakenBadge
    case AvailableFrom => AvailableFromBadge(availableDate)
  }

  /** What one card shows, as far as it depends on rules rather than on layout. */
  datatype CardView = CardView(
    badge: StatusBadge,
    secondaryPhoto: Option<string>,
    ratingBadge: bool,
    safetyText: Band,
    safetyBar: Band,
    wifi: Tone, water: Tone, electricity: Tone, bathroom: Tone,
    idNumber: Option<string>,
    whatsAppLink: Option<string>)

  /** The card for a listing. The rating badge appears only for a positive rating, the ID number only
      when present and non-empty, the WhatsApp button only when the landlord takes WhatsApp. */
  function Card(l: Listing): (v: CardView)
    ensures v.ratingBadge <==> l.rating > 0.0
    ensures v.whatsAppLink.Some? <==> l.contactWhatsApp
    ensures v.whatsAppLink.Some? ==> v.whatsAppLink.value == WhatsAppLink(l.contactPhone)
    ensures v.idNumber.Some? <==> l.landlordIdNumber.Some? && l.landlordIdNumber.value != ""
    ensures v.idNumber.Some? ==> v.idNumber == l.landlordIdNumber
    ensures v.badge == Badge(l.status, l.availableDate)
    ensures v.badge.AvailableFromBadge? <==> l.status == AvailableFrom
    ensures v.safetyText == SafetyColor(l.safety) && v.safetyBar == SafetyBarColor(l.safety)
    ensures v.secondaryPhoto == SecondaryPhoto(l.photos)
    ensures v.wifi == AmenityTone(l.amenities.wifi) && v.water == AmenityTone(l.amenities.water)
    ensures v.electricity == AmenityTone(l.amenities.electricity)
    ensures v.bathroom == AmenityTone(l.amenities.bathroom)
  {
    CardView(
      Badge(l.status, l.availableDate),
      SecondaryPhoto(l.photos),
      l.rating > 0.0,
      SafetyColor(l.safety),
      SafetyBarColor(l.safety),
      AmenityTone(l.amenities.wifi), AmenityTone(l.amenities.water),
      AmenityTone(l.amenities.electricity), AmenityTone(l.amenities.bathroom),
      if l.landlordIdNumber.Some? && l.landlordIdNumber.value != "" then l.landlordIdNumber else None,
      if l.contactWhatsApp then Some(WhatsAppLink(l.contactPhone)) else None)
  }
}
