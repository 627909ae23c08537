/** The landlord's listing form: its defaults, its per-field edits, the guarded description generator and
    the record a submission proposes. */
module LandlordDashboard {
  import opened Wrappers
  import opened Types
  import opened Text

  /** The form's fields. Price and deposit are number inputs: `None` is a blank field. */
  datatype Form = Form(
    title: string,
    street: string,
    suburb: string,
    city: string,
    price: Option<int>,
    deposit: Option<int>,
    description: string,
    safety: int,
    landlordName: string,
    contactPhone: string,
    contactWhatsApp: bool,
    landlordIdNumber: string,
    amenities: Amenities,
    beds: int,
    baths: int,
    furnished: bool,
    status: ListingStatus,
    availableDate: string)

  /** The amenities a new form starts with. */
  const DefaultAmenities := Amenities(NotAvailable, Free, Paid, Free)

  /** The form as the dashboard opens, with `firstSuburb` the first entry of the suburb list. */
  function InitialForm(firstSuburb: string): (f: Form)
    ensures f.safety == 70 && f.beds == 1 && f.baths == 1 && f.status == Available
    ensures f.amenities.wifi == NotAvailable && f.amenities.water == Free
    ensures f.amenities.electricity == Paid && f.amenities.bathroom == Free
    ensures f.title == "" && f.price == None && f.deposit == None && f.description == ""
    ensures f.suburb == firstSuburb && f.city == "Johannesburg" && !f.contactWhatsApp && !f.furnished
    ensures f.street == "" && f.landlordName == "" && f.contactPhone == "" && f.landlordIdNumber == ""
    ensures f.availableDate == ""
    ensures UneditableAtDefaults(f)
  {
    Form("", "", firstSuburb, "Johannesburg", None, None, "", 70, "", "", false, "",
         DefaultAmenities, 1, 1, false, Available, "")
  }

  /** The fields the form offers no input for keep their initial values. */
  predicate UneditableAtDefaults(f: Form)
  {
    f.city == "Johannesburg" && f.safety == 70 && f.beds == 1 && f.baths == 1 && !f.furnished
    && f.status == Available && f.availableDate == ""
  }

  /** One keystroke or selection in one of the form's inputs. */
  datatype FieldEdit =
    | EditTitle(title: string)
    | EditSuburb(suburb: string)
    | EditStreet(street: string)
    | EditPrice(price: Option<int>)
    | EditDeposit(deposit: Option<int>)
    | EditDescription(description: string)
    | EditLandlordName(name: string)
    | EditContactPhone(phone: string)
    | EditLandlordIdNumber(idNumber: string)
    | EditContactWhatsApp(whatsApp: bool)

  /** `setForm({ ...form, field: value })` for the edited field. */
  function ApplyEdit(f: Form, e: FieldEdit): (g: Form)
    ensures g.title == (if e.EditTitle? then e.title else f.title)
    ensures g.suburb == (if e.EditSuburb? then e.suburb else f.suburb)
    ensures g.street == (if e.EditStreet? then e.street else f.street)
    ensures g.price == (if e.EditPrice? then e.price else f.price)
    ensures g.deposit == (if e.EditDeposit? then e.deposit else f.deposit)
    ensures g.description == (if e.EditDescription? then e.description else f.description)
    ensures g.landlordName == (if e.EditLandlordName? then e.name else f.landlordName)
    ensures g.contactPhone == (if e.EditContactPhone? then e.phone else f.contactPhone)
    ensures g.landlordIdNumber == (if e.EditLandlordIdNumber? then e.idNumber else f.landlordIdNumber)
    ensures g.contactWhatsApp == (if e.EditContactWhatsApp? then e.whatsApp else f.contactWhatsApp)
    ensures g.city == f.city && g.safety == f.safety && g.amenities == f.amenities && g.beds == f.beds
    ensures g.baths == f.baths && g.furnished == f.furnished && g.status == f.status
    ensures g.availableDate == f.availableDate
  {
    match e
    case EditTitle(v) => f.(title := v)
    case EditSuburb(v) => f.(suburb := v)
    case EditStreet(v) => f.(street := v)
    case EditPrice(v) => f.(price := v)
    case EditDeposit(v) => f.(deposit := v)
    case EditDescription(v) => f.(description := v)
    case EditLandlordName(v) => f.(landlordName := v)
    case EditContactPhone(v) => f.(contactPhone := v)
    case EditLandlordIdNumber(v) => f.(landlordIdNumber := v)
    case EditContactWhatsApp(v) => f.(contactWhatsApp := v)
  }

  /** What the description service returns for its reply: the generated text, a fixed sentence when the
      reply is empty, and another when the call fails (`None`). */
  function DescriptionFromReply(reply: Option<string>): (d: string)
    ensures d != ""
    ensures reply.Some? && reply.value != "" ==> d == reply.value
    ensures reply.None? ==> d == "Great room available. Contact landlord for details."
    ensures reply == Some("") ==> d == "Spacious and secure room available."
  {
    match reply
    case None => "Great room available. Contact landlord for details."
    case Some(text) => if text != "" then text else "Spacious and secure room available."
  }

  /** The two stock photos every new listing is given. */
  const StockPhotos: seq<string> := [
    "https://images.unsplash.com/photo-1526308593555-539923361e60?auto=format&fit=crop&w=800&q=60",
    "https://images.unsplash.com/photo-1568605114967-8130f3a36994?auto=format&fit=crop&w=800&q=60"
  ]

  /** `Number(field) || 0` for a number input: a blank field counts as 0. */
  function NumberOrZero(field: Option<int>): (n: int)
    ensures field.None? ==> n == 0
    ensures field.Some? ==> n == field.value
  {
    if field.Some? then field.value else 0
  }

  /** `newListingData`: the proposal a submission sends, with `now` the submit-time clock value and
      `lat`, `lng` the coordinates placed for the suburb. */
  function NewListingData(f: Form, now: nat, lat: real, lng: real): (d: ListingData)
    ensures d.rating == 0.0 && d.address.province == "Gauteng"
    ensures d.photos == StockPhotos && |d.photos| == 2
    ensures d.landlordId == "user-" + DecimalString(now)
    ensures d.deposit == NumberOrZero(f.deposit) && d.price == NumberOrZero(f.price)
    ensures d.title == f.title && d.description == f.description && d.safety == f.safety
    ensures d.landlordName == f.landlordName && d.contactPhone == f.contactPhone
    ensures d.contactWhatsApp == f.contactWhatsApp && d.landlordIdNumber == Some(f.landlordIdNumber)
    ensures d.status == f.status && d.availableDate == Some(f.availableDate)
    ensures d.amenities == f.amenities && d.beds == f.beds && d.baths == f.baths && d.furnished == f.furnished
    ensures d.address == Address(f.street, f.suburb, f.city, "Gauteng", lat, lng)
  {
    ListingData(
      f.title,
      f.description,
      "user-" + DecimalString(now),
      f.landlordName,
      f.contactPhone,
      f.contactWhatsApp,
      Some(f.landlordIdNumber),
      NumberOrZero(f.price),
      NumberOrZero(f.deposit),
      Address(f.street, f.suburb, f.city, "Gauteng", lat, lng),
      StockPhotos,
      f.amenities,
      f.beds,
      f.baths,
      f.furnished,
      f.safety,
      0.0,
      f.status,
      Some(f.availableDate))
  }

  /** Every submission from a form whose uneditable fields are at their defaults is within the documented
      ranges and is an available, unfurnished one-bed, one-bath room in Johannesburg. */
  lemma SubmittedFromDefaults(f: Form, now: nat, lat: real, lng: real)
    requires UneditableAtDefaults(f)
    ensures var d := NewListingData(f, now, lat, lng);
            InDocumentedRanges(d) && d.safety == 70 && d.beds == 1 && d.baths == 1 && !d.furnished
            && d.status == Available && d.availableDate == Some("") && d.address.city == "Johannesburg"
  {
  }

  /** The dashboard component's state: the form record, replaced whole on every change. */
  class Dashboard {
    var form: Form

    ghost predicate Valid()
      reads this
    {
      UneditableAtDefaults(form)
    }

    constructor (firstSuburb: string)
      ensures Valid()
      ensures form == InitialForm(firstSuburb)
    {
      form := InitialForm(firstSuburb);
    }

    /** A change in one of the text, number or checkbox inputs. */
    method Edit(e: FieldEdit)
      requires Valid()
      modifies this
      ensures Valid()
      ensures form == ApplyEdit(old(form), e)
    {
      form := ApplyEdit(form, e);
    }

    /** `handleAmenityChange`: sets one amenity and leaves every other amenity and field as it was. */
    method AmenityChange(key: AmenityKey, v: AmenityStatus)
      requires Valid()
      modifies this
      ensures Valid()
      ensures form.amenities.Get(key) == v
      ensures forall k :: k != key ==> form.amenities.Get(k) == old(form).amenities.Get(k)
      ensures form == old(form).(amenities := form.amenities)
    {
      form := form.(amenities := form.amenities.Set(key, v));
    }

    /** `handleAutoGenerate`, with `reply` the description service's answer. Without a title or a price
        the form is left unchanged; otherwise only the description is replaced. */
    method AutoGenerate(reply: Option<string>) returns (generated: bool)
      requires Valid()
      modifies this
      ensures Valid()
      ensures generated <==> old(form).title != "" && old(form).price.Some?
      ensures !generated ==> form == old(form)
      ensures generated ==> form == old(form).(description := DescriptionFromReply(reply))
    {
      if form.title == "" || form.price.None? {
        return false;
      }
      form := form.(description := DescriptionFromReply(reply));
      generated := true;
    }

    /** `handleSubmit`: the proposal handed to the add-listing handler. */
    method Submit(now: nat, lat: real, lng: real) returns (d: ListingData)
      requires Valid()
      ensures d == NewListingData(form, now, lat, lng)
      ensures InDocumentedRanges(d) && d.safety == 70 && d.rating == 0.0
    {
      d := NewListingData(form, now, lat, lng);
      SubmittedFromDefaults(form, now, lat, lng);
    }
  }
}
