/** The records and closed enumerations of the marketplace (types.ts). */
module Types {
  import opened Wrappers

  /** The ten interface languages. */
  datatype Language = En | Zu | Xh | Nso | St | Tn | Ts | Ss | Ve | Nr

  /** The language code each language is stored under in the translation table. */
  function LanguageCode(l: Language): (code: string)
    ensures 2 <= |code| <= 3
  {
    match l
    case En => "en"
    case Zu => "zu"
    case Xh => "xh"
    case Nso => "nso"
    case St => "st"
    case Tn => "tn"
    case Ts => "ts"
    case Ss => "ss"
    case Ve => "ve"
    case Nr => "nr"
  }

  /** Distinct languages have distinct codes, so the code identifies the language. */
  lemma LanguageCodeInjective(a: Language, b: Language)
    ensures LanguageCode(a) == LanguageCode(b) ==> a == b
  {
  }

  /** Who pays for an amenity. */
  datatype AmenityStatus = Free | Paid | NotAvailable

  /** Whether the room can be taken. */
  datatype ListingStatus = Available | Taken | AvailableFrom

  /** Which side of the marketplace the user is on; `Home` means "not chosen". */
  datatype ViewRole = Landlord | Tenant | Home

  datatype Address = Address(street: string, suburb: string, city: string, province: string, lat: real, lng: real)

  /** The four amenities a listing describes. */
  datatype AmenityKey = Wifi | Water | Electricity | Bathroom

  datatype Amenities = Amenities(wifi: AmenityStatus, water: AmenityStatus, electricity: AmenityStatus, bathroom: AmenityStatus)
  {
    function Get(key: AmenityKey): AmenityStatus
    {
      match key
      case Wifi => wifi
      case Water => water
      case Electricity => electricity
      case Bathroom => bathroom
    }

    /** The amenity map with one key overwritten, as `{ ...amenities, [key]: v }` builds it. */
    function Set(key: AmenityKey, v: AmenityStatus): (r: Amenities)
      ensures r.Get(key) == v
      ensures forall k :: k != key ==> r.Get(k) == Get(k)
    {
      match key
      case Wifi => this.(wifi := v)
      case Water => this.(water := v)
      case Electricity => this.(electricity := v)
      case Bathroom => this.(bathroom := v)
    }
  }

  /** A room posting as stored and displayed. */
  datatype Listing = Listing(
    id: string,
    title: string,
    description: string,
    landlordId: string,
    landlordName: string,
    contactPhone: string,
    contactWhatsApp: bool,
    landlordIdNumber: Option<string>,
    price: int,
    deposit: int,
    address: Address,
    photos: seq<string>,
    amenities: Amenities,
    beds: int,
    baths: int,
    furnished: bool,
    safety: int,
    rating: real,
    status: ListingStatus,
    availableDate: Option<string>,
    createdAt: int)

  /** A proposed listing: every field of `Listing` except `id` and `createdAt`, which only the store assigns. */
  datatype ListingData = ListingData(
    title: string,
    description: string,
    landlordId: string,
    landlordName: string,
    contactPhone: string,
    contactWhatsApp: bool,
    landlordIdNumber: Option<string>,
    price: int,
    deposit: int,
    address: Address,
    photos: seq<string>,
    amenities: Amenities,
    beds: int,
    baths: int,
    furnished: bool,
    safety: int,
    rating: real,
    status: ListingStatus,
    availableDate: Option<string>)

  /** The proposal a stored listing was made from: its fields without `id` and `createdAt`. */
  function Proposal(l: Listing): ListingData
  {
    ListingData(l.title, l.description, l.landlordId, l.landlordName, l.contactPhone, l.contactWhatsApp,
                l.landlordIdNumber, l.price, l.deposit, l.address, l.photos, l.amenities, l.beds, l.baths,
                l.furnished, l.safety, l.rating, l.status, l.availableDate)
  }

  /** `{ ...data, id, createdAt }`: the proposal completed with the two store-assigned fields. */
  function Stamp(d: ListingData, id: string, createdAt: int): (l: Listing)
    ensures l.id == id && l.createdAt == createdAt
    ensures Proposal(l) == d
  {
    Listing(id, d.title, d.description, d.landlordId, d.landlordName, d.contactPhone, d.contactWhatsApp,
            d.landlordIdNumber, d.price, d.deposit, d.address, d.photos, d.amenities, d.beds, d.baths,
            d.furnished, d.safety, d.rating, d.status, d.availableDate, createdAt)
  }

  /** Stamping is the inverse of taking the proposal: a listing is its proposal plus its id and timestamp. */
  lemma StampProposal(l: Listing)
    ensures Stamp(Proposal(l), l.id, l.createdAt) == l
  {
  }

  /** The documented ranges: safety is a percentage and rating a score out of five. */
  predicate InDocumentedRanges(d: ListingData)
  {
    0 <= d.safety <= 100 && 0.0 <= d.rating <= 5.0
  }
}
