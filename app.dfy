/** The application shell: the onboarding flow, the role switch, the in-memory listings and the tenant
    view's query parameters. */
module AppFlow {
  import opened Wrappers
  import opened Types
  import opened ListingQuery
  import Translation
  import MockBackend

  /** The screens of the onboarding flow, in order. */
  datatype AppState = PhoneInput | OtpVerify | LanguageSelect | RoleSelect | MainApp

  /** The two roles the role screen offers. */
  datatype ChosenRole = ChooseTenant | ChooseLandlord

  /** What the shell renders for a state and role. */
  datatype Screen = PhoneScreen | OtpScreen | LanguageScreen | RoleScreen | DashboardScreen | TenantScreen
                  | RedirectToRoleSelect

  function ScreenFor(s: AppState, role: ViewRole): (v: Screen)
    ensures v == TenantScreen <==> s == MainApp && role == Tenant
    ensures v == DashboardScreen <==> s == MainApp && role == Landlord
    ensures v == RedirectToRoleSelect <==> s == MainApp && role == Home
    ensures s != MainApp ==> v in {PhoneScreen, OtpScreen, LanguageScreen, RoleScreen}
  {
    match s
    case PhoneInput => PhoneScreen
    case OtpVerify => OtpScreen
    case LanguageSelect => LanguageScreen
    case RoleSelect => RoleScreen
    case MainApp =>
      match role
      case Landlord => DashboardScreen
      case Home => RedirectToRoleSelect
      case Tenant => TenantScreen
  }

  /** The whole state of the shell, as one value. */
  datatype Snapshot = Snapshot(
    appState: AppState, role: ViewRole, phoneNumber: string, otp: string, otpError: string,
    language: Language, listings: seq<Listing>,
    searchTerm: string, locationFilter: string, priceRange: PriceRange, sortOption: string)

  class App {
    const translations: Translation.Table
    var appState: AppState
    var role: ViewRole
    var phoneNumber: string
    var otp: string
    var otpError: string
    var language: Language
    var listings: seq<Listing>
    var searchTerm: string
    var locationFilter: string
    var priceRange: PriceRange
    var sortOption: string

    function State(): Snapshot
      reads this
    {
      Snapshot(appState, role, phoneNumber, otp, otpError, language, listings,
               searchTerm, locationFilter, priceRange, sortOption)
    }

    /** Past the phone screen, the phone number entered is longer than nine characters. */
    ghost predicate Valid()
      reads this
    {
      "en" in translations && (appState != PhoneInput ==> |phoneNumber| > 9)
    }

    /** `t`: the translation helper in the current language. */
    function T(key: string): (r: string)
      requires Valid()
      reads this
      ensures key != "" ==> r != ""
    {
      Translation.Translate(translations, language, key)
    }

    /** The listings the tenant view shows for the current parameters. */
    function Visible(): seq<Listing>
      reads this
    {
      Query(listings, Filters(searchTerm, locationFilter, priceRange), SortKeyOf(sortOption))
    }

    constructor (translations: Translation.Table)
      requires "en" in translations
      ensures Valid()
      ensures this.translations == translations
      ensures State() == Snapshot(PhoneInput, Home, "", "", "", En, [], "", "", AllPrices, "RECENT")
    {
      this.translations := translations;
      appState, role := PhoneInput, Home;
      phoneNumber, otp, otpError := "", "", "";
      language, listings := En, [];
      searchTerm, locationFilter, priceRange, sortOption := "", "", AllPrices, "RECENT";
    }

    /** The initial load: the store's collection replaces the (empty) in-memory list; a rejected read
        leaves the list alone. */
    method LoadListings(store: MockBackend.Store) returns (r: Result<seq<Listing>, MockBackend.StoreError>)
      requires Valid()
      modifies this, store
      ensures Valid()
      ensures r.Failure? <==> old(store.slot).Unreadable? || (old(store.slot).Empty? && !store.writable)
      ensures r.Success? ==> r == MockBackend.Current(old(store.slot), store.seed)
                             && store.slot == MockBackend.AfterRead(old(store.slot), store.seed)
      ensures r.Failure? ==> store.slot == old(store.slot)
      ensures r.Success? ==> State() == old(State()).(listings := r.value)
      ensures r.Failure? ==> State() == old(State())
    {
      r := store.GetListings();
      if r.Success? {
        listings := r.value;
      }
    }

    /** Typing in the phone field. */
    method EditPhone(value: string)
      requires Valid() && appState == PhoneInput
      modifies this
      ensures Valid()
      ensures State() == old(State()).(phoneNumber := value)
    {
      phoneNumber := value;
    }

    /** `handlePhoneSubmit`: a number longer than nine characters gets a code sent and moves on to the code
        screen; a shorter one changes nothing. */
    method SubmitPhone(store: MockBackend.Store)
      requires Valid() && appState == PhoneInput
      modifies this
      ensures Valid()
      ensures |old(phoneNumber)| > 9 ==> State() == old(State()).(appState := OtpVerify)
      ensures |old(phoneNumber)| <= 9 ==> State() == old(State())
    {
      if |phoneNumber| > 9 {
        store.SendOtp(phoneNumber);
        appState := OtpVerify;
      }
    }

    /** Typing in the code field clears any error shown. */
    method EditOtp(value: string)
      requires Valid() && appState == OtpVerify
      modifies this
      ensures Valid()
      ensures State() == old(State()).(otp := value, otpError := "")
    {
      otp := value;
      otpError := "";
    }

    /** `handleOtpSubmit`: the right code moves on to language selection; a wrong one stays on the code
        screen with the translated error message. */
    method SubmitOtp(store: MockBackend.Store) returns (accepted: bool)
      requires Valid() && appState == OtpVerify
      modifies this
      ensures Valid()
      ensures accepted <==> old(otp) == MockBackend.AcceptedOtp
      ensures accepted ==> State() == old(State()).(appState := LanguageSelect)
      ensures !accepted ==> State() == old(State()).(otpError := T("invalidOtp")) && otpError != ""
    {
      accepted := store.VerifyOtp(phoneNumber, otp);
      if accepted {
        appState := LanguageSelect;
      } else {
        otpError := T("invalidOtp");
      }
    }

    /** The "resend" link only clears the error. */
    method Resend()
      requires Valid() && appState == OtpVerify
      modifies this
      ensures Valid()
      ensures State() == old(State()).(otpError := "")
    {
      otpError := "";
    }

    /** The back link returns to the phone screen; the code and any error are kept. */
    method Back()
      requires Valid() && appState == OtpVerify
      modifies this
      ensures Valid()
      ensures State() == old(State()).(appState := PhoneInput)
    {
      appState := PhoneInput;
    }

    /** Choosing a language moves on to the role screen. */
    method SelectLanguage(lang: Language)
      requires Valid() && appState == LanguageSelect
      modifies this
      ensures Valid()
      ensures State() == old(State()).(language := lang, appState := RoleSelect)
    {
      language := lang;
      appState := RoleSelect;
    }

    /** `handleRoleSelect`: enters the main application in the chosen role. */
    method SelectRole(chosen: ChosenRole)
      requires Valid() && appState == RoleSelect
      modifies this
      ensures Valid()
      ensures State() == old(State()).(role := if chosen == ChooseTenant then Tenant else Landlord,
                                       appState := MainApp)
      ensures ScreenFor(appState, role) == (if chosen == ChooseTenant then TenantScreen else DashboardScreen)
    {
      role := if chosen == ChooseTenant then Tenant else Landlord;
      appState := MainApp;
    }

    /** The tenant view's "switch role" button. */
    method SwitchRole()
      requires Valid() && ScreenFor(appState, role) == TenantScreen
      modifies this
      ensures Valid()
      ensures State() == old(State()).(appState := RoleSelect)
    {
      appState := RoleSelect;
    }

    /** The dashboard's back button resets the role; the next render redirects. */
    method LeaveDashboard()
      requires Valid() && ScreenFor(appState, role) == DashboardScreen
      modifies this
      ensures Valid()
      ensures State() == old(State()).(role := Home)
      ensures ScreenFor(appState, role) == RedirectToRoleSelect
    {
      role := Home;
    }

    /** Rendering the main application without a role sends the user back to the role screen. */
    method Render() returns (screen: Screen)
      requires Valid()
      modifies this
      ensures Valid()
      ensures screen == ScreenFor(old(appState), old(role))
      ensures screen == RedirectToRoleSelect ==> State() == old(State()).(appState := RoleSelect)
      ensures screen != RedirectToRoleSelect ==> State() == old(State())
    {
      screen := ScreenFor(appState, role);
      if screen == RedirectToRoleSelect {
        appState := RoleSelect;
      }
    }

    /** `handleAddListing`: on success the new record is put in front of the in-memory list, the role is
        reset and the role screen shown; a rejected add changes nothing in the shell or in the store. */
    method AddListing(store: MockBackend.Store, data: ListingData, now: nat)
      returns (r: Result<Listing, MockBackend.StoreError>)
      requires Valid() && ScreenFor(appState, role) == DashboardScreen
      modifies this, store
      ensures Valid()
      ensures r.Failure? <==> old(store.slot).Unreadable? || !store.writable
      ensures r.Success? ==> store.slot == MockBackend.Holds([r.value] + MockBackend.Current(old(store.slot), store.seed).value)
      ensures r.Failure? ==> store.slot == old(store.slot)
      ensures r.Success? ==> r.value == MockBackend.NewRecord(data, now)
      ensures r.Success? ==> State() == old(State()).(listings := [r.value] + old(listings), role := Home,
                                                     appState := RoleSelect)
      ensures r.Failure? ==> State() == old(State())
    {
      r := store.AddListing(data, now);
      if r.Success? {
        listings := [r.value] + listings;
        role := Home;
        appState := RoleSelect;
      }
    }

    /** Changing the search term, suburb, price range or sort option. */
    method SetQuery(term: string, suburb: string, range: PriceRange, option: string)
      requires Valid()
      modifies this
      ensures Valid()
      ensures State() == old(State()).(searchTerm := term, locationFilter := suburb, priceRange := range,
                                       sortOption := option)
    {
      searchTerm, locationFilter, priceRange, sortOption := term, suburb, range, option;
    }

    /** "Clear filters": the visible list becomes the unfiltered, newest-first query, which
        `ListingQuery.ClearedQueryShowsAll` shows holds every listing. */
    method ClearFilters()
      requires Valid()
      modifies this
      ensures Valid()
      ensures State() == old(State()).(searchTerm := "", locationFilter := "", priceRange := AllPrices,
                                       sortOption := "RECENT")
      ensures Visible() == Query(listings, NoFilters, Recent)
    {
      searchTerm, locationFilter, priceRange, sortOption := "", "", AllPrices, "RECENT";
      assert Filters(searchTerm, locationFilter, priceRange) == NoFilters;
    }
  }

  /** A successful onboarding: a long enough number, the right code, a language and a role reach the main
      application in that role and language. */
  method Onboard(translations: Translation.Table, store: MockBackend.Store, phone: string, lang: Language,
                 chosen: ChosenRole)
    returns (app: App)
    requires "en" in translations && |phone| > 9
    ensures app.Valid() && app.appState == MainApp && app.language == lang && app.phoneNumber == phone
    ensures app.role == (if chosen == ChooseTenant then Tenant else Landlord)
  {
    app := new App(translations);
    app.EditPhone(phone);
    app.SubmitPhone(store);
    app.EditOtp(MockBackend.AcceptedOtp);
    var accepted := app.SubmitOtp(store);
    app.SelectLanguage(lang);
    app.SelectRole(chosen);
  }
}
