# BackRoom rental marketplace — a Dafny model of its core

BackRoom (Hlala Nathi) is a single-page application for renting rooms in South African townships.
Landlords post rooms and tenants browse them. This project models the application's logic in Dafny and
proves what it promises:

- the record types of `types.ts` (`wrappers.dfy`, `types.dfy`);
- the tenant view's query (`query.dfy`, with the string operations it needs in `text.dfy`):
  - a case-insensitive text search, an exact suburb filter and a price-bucket filter;
  - a stable sort by the selected comparator.
- the translation helper `t`, which falls back from the chosen language to English to the key itself
  (`translation.dfy`);
- the mock backend (`backend.dfy`):
  - one persisted storage slot, which is seeded on first read;
  - `addListing`, which re-reads the slot, stamps the new record and prepends it;
  - the stub one-time-code check.
- the rules of a listing card (`room_card.dfy`): safety colour bands, the WhatsApp link, amenity tones,
  the secondary photo and which badges appear;
- the landlord's listing form (`dashboard.dfy`): its defaults, its field edits, the guarded description
  generator and the record a submission proposes;
- the application shell (`app.dfy`): a class holding the shell's state, which is
  - the onboarding state machine: phone → code → language → role → main application;
  - the role switch;
  - the in-memory listings;
  - the tenant view's query parameters.

The form and the shell are classes whose methods update their fields. The store is a class whose one
mutable field is the storage slot. The query, the translation helper and the card rules are functions,
with lemmas about them.

The JavaScript sort is stable. It is modelled as an insertion sort by the comparator's key (`Rank`):
`Compare(key, a, b) == Rank(key, a) - Rank(key, b)`. Its output is proved:

- sorted;
- a permutation of its input;
- stable: listings that tie keep their order.

These three facts determine the output.

The store seeds the slot whenever its stored text is falsy. So an empty-string slot is seeded exactly
like an absent one, and the model's `Empty` slot stands for both.

The safety percentage and the safety bar use different thresholds: `>= 80` / `>= 50` for the text and
`> 80` / `> 50` for the bar. The model keeps both, and `RoomCard.SafetyBandsDisagreeAtThresholds` states
exactly where they differ.

## Model

| member | source | states |
|---|---|---|
| Types.LanguageCode | types.ts:1 | each of the ten languages has a two- or three-letter code, the key of its translation table |
| Types.LanguageCodeInjective | types.ts:1 | distinct languages have distinct codes, so no two languages share a translation table |
| Types.Amenities.Set | components/LandlordDashboard.tsx:44-49 | overwriting one amenity sets that key to the new status and leaves the other three as they were |
| Types.Stamp | services/mockBackend.ts:29-33 | the completed record has the given id and timestamp, and its other fields are the proposal's |
| Types.StampProposal | services/mockBackend.ts:29-33 | a listing is exactly its proposal plus its id and timestamp (stamping inverts taking the proposal) |
| Text.LowerChar | App.tsx:121-122 | an ASCII capital maps to its lower-case letter, every other character to itself, and no capital remains |
| Text.Lower | App.tsx:121-122 | lowercasing keeps the length and lowercases each character in place |
| Text.LowerIdempotent | App.tsx:121-122 | lowercasing twice is lowercasing once |
| Text.Includes | App.tsx:121-122 | the search finds the empty term in every string and never finds a term in a shorter string |
| Text.IncludesIff | App.tsx:121-122 | the left-to-right search succeeds exactly when the term occurs at some position |
| Text.Digits | components/RoomCard.tsx:46 | removing non-digits leaves only digits, never lengthens, and leaves an all-digit string unchanged |
| Text.DigitsConcat | components/RoomCard.tsx:46 | the digit filter works piecewise, so the digits keep their order |
| Text.DigitsMembers | components/RoomCard.tsx:46 | a character is in the result exactly when it is a digit of the input |
| Text.DecimalString | services/mockBackend.ts:31 | the decimal rendering of a timestamp is a non-empty digit string without a leading zero |
| Text.DecimalRoundTrip | services/mockBackend.ts:31 | reading the rendered numeral back gives the timestamp |
| Text.DecimalStringInjective | services/mockBackend.ts:31 | distinct timestamps render to distinct strings |
| ListingQuery.SortKeyOf | App.tsx:136-141 | PRICE_ASC, PRICE_DESC and SAFETY select their comparator, and RECENT or any other string selects newest-first, in both directions |
| ListingQuery.MatchesSearch | App.tsx:121-122 | an empty term matches every listing, and a term that matches is no longer than the title or the description |
| ListingQuery.MatchesLocation | App.tsx:123 | an empty suburb filter and the listing's own suburb both accept the listing |
| ListingQuery.InBucket | App.tsx:126-132 | ALL accepts every price, and every bounded bucket accepts only prices from 500 to 5000 |
| ListingQuery.Matches | App.tsx:134 | the cleared parameters accept every listing, and a bounded price range accepts only listings priced 500..5000 |
| ListingQuery.Filter | App.tsx:120-134 | the filter never adds listings and keeps only listings that pass all three tests |
| ListingQuery.FilterMembers | App.tsx:120-134 | a listing is kept exactly when it is in the input and passes the search, the suburb and the price tests |
| ListingQuery.FilterConcat | App.tsx:120-134 | filtering a concatenation filters each part, so relative order is kept |
| ListingQuery.FilterIsSubMultiset | App.tsx:120-134 | the filter only drops listings: the output is a sub-multiset of the input |
| ListingQuery.FilterKeepsAll | App.tsx:120-134 | when every listing passes, the filter returns its input unchanged |
| ListingQuery.SearchIgnoresTermCase | App.tsx:121-122 | lowercasing the search term first does not change the search |
| ListingQuery.BucketsPartition | App.tsx:126-132 | the four buckets are disjoint and cover exactly 500..5000; 1500 and 2500 fall only in the lower bucket; ALL accepts any price |
| ListingQuery.Compare | App.tsx:135-141 | the comparator is the difference of the two listings' ranks under the selected key |
| ListingQuery.Insert | App.tsx:135-142 | one insertion step of the sort adds one element; InsertPermutes, InsertSorted and InsertWithRank state what it adds and where |
| ListingQuery.SortBy | App.tsx:135-142 | the sort keeps the length; sortedness, permutation and stability are the lemmas below |
| ListingQuery.InsertPermutes | App.tsx:135-142 | one insertion step adds exactly the inserted listing |
| ListingQuery.SortPermutes | App.tsx:135-142 | the sort output is a permutation of its input |
| ListingQuery.InsertSorted | App.tsx:135-142 | inserting into a sorted sequence keeps it sorted |
| ListingQuery.SortSorted | App.tsx:135-142 | the sort output is ordered by the comparator |
| ListingQuery.InsertWithRank | App.tsx:135-142 | inserting a listing puts it in front of the listings it ties with and leaves their order alone |
| ListingQuery.SortStable | App.tsx:135-142 | listings that tie under the comparator keep their relative order |
| ListingQuery.SortIdempotent | App.tsx:135-142 | sorting an already sorted sequence returns it unchanged |
| ListingQuery.Query | App.tsx:120-142 | the visible listings are exactly the matching ones, in the filtered multiplicities, non-decreasing price for PRICE_ASC, non-increasing price, safety or timestamp for the other keys, with ties in input order |
| ListingQuery.ClearedQueryShowsAll | App.tsx:460 | after clearing the filters every listing is shown, newest first |
| ListingQuery.QueryResortIdempotent | App.tsx:120-142 | sorting the visible list again by the same key changes nothing |
| Translation.Translate | App.tsx:39-41 | the non-empty entry in the table under the current language's code, else the non-empty entry under "en", else the key; a non-empty key never translates to "" |
| Translation.EnglishLookup | App.tsx:39-41 | in English the fallback has two levels: the English entry or the key |
| Translation.OtherLanguagesUnaffected | App.tsx:39-41 | replacing one language's table (other than English) changes no other language's translations |
| MockBackend.Current | services/mockBackend.ts:13-22 | an empty slot reads as the seed, a populated slot as its stored list verbatim, and an unparsable slot as an error |
| MockBackend.AfterRead | services/mockBackend.ts:15-20 | a successful read turns an empty slot into the seed and writes nothing to any other slot |
| MockBackend.NewRecord | services/mockBackend.ts:29-33 | the new record's timestamp is the clock value, its id that value's decimal string, and every other field the proposal's |
| MockBackend.ReadSettles | services/mockBackend.ts:13-22 | a second read returns the same collection and writes nothing |
| MockBackend.NewRecordIdsDistinct | services/mockBackend.ts:31 | listings added at different instants get different ids |
| MockBackend.Store.constructor | services/mockBackend.ts:11-15 | a store starts with the given seed, slot and storage writability |
| MockBackend.Store.GetListings | services/mockBackend.ts:13-22 | the result is the slot's collection (the seed when empty) and an empty slot is seeded; an empty slot on a storage that refuses writes rejects and stays empty |
| MockBackend.Store.AddListing | services/mockBackend.ts:25-39 | on a readable slot and a writable storage it returns the stamped record and the slot holds it in front of the previous collection (the seed for an empty slot); an unparsable slot or a refused write rejects and leaves the slot as it was |
| MockBackend.Store.SendOtp | services/mockBackend.ts:42-45 | sending a code leaves the slot alone |
| MockBackend.Store.VerifyOtp | services/mockBackend.ts:48-51 | a code is accepted exactly when it is "1234", whatever the phone |
| MockBackend.AddPrepends | services/mockBackend.ts:25-39 | on any store, an add then a read gives one more listing than the slot held, the new record first and the earlier ones after it in order; an unparsable slot or a refused write makes the add reject |
| MockBackend.FreshStoreSequence | services/mockBackend.ts:13-39 | on a fresh store two reads give the seed, the add gives the stamped record, and the next read gives the record followed by the seed |
| MockBackend.UnreadableStoreSequence | services/mockBackend.ts:13-39 | on an unparsable slot the read and the add both reject with the parse error and the slot is never overwritten |
| MockBackend.RefusedWritesSequence | services/mockBackend.ts:16-19 | on a fresh store whose storage refuses writes the seeding write fails, so the read and the add reject and the slot stays empty |
| RoomCard.SafetyColor | components/RoomCard.tsx:25-29 | the safety text is green exactly from 80, yellow exactly from 50 to 79, red exactly below 50 |
| RoomCard.SafetyBarColor | components/RoomCard.tsx:146 | the safety bar is green exactly above 80, yellow exactly from 51 to 80, red exactly at 50 and below |
| RoomCard.SafetyBandsDisagreeAtThresholds | components/RoomCard.tsx:142-146 | the text and the bar differ exactly at 80 and 50, where the bar shows the band below |
| RoomCard.IsAvailable | components/RoomCard.tsx:32 | an amenity is available exactly when it is free or paid by the tenant |
| RoomCard.IsFree | components/RoomCard.tsx:33 | a free amenity is available |
| RoomCard.AmenityTone | components/RoomCard.tsx:31-37 | teal exactly for free, orange exactly for available but not free, grey exactly for not available |
| RoomCard.WhatsAppNumber | components/RoomCard.tsx:46-47 | the link number is the phone's digits, with a leading 0 replaced by 27, and holds only digits |
| RoomCard.WhatsAppLink | components/RoomCard.tsx:45-49 | the link is the wa.me prefix followed by the all-digit link number |
| RoomCard.WhatsAppNumberDigits | components/RoomCard.tsx:46-47 | every digit after the first survives in order at the end of the number, and a digit-only number not starting with 0 is kept as it is |
| RoomCard.SecondaryPhoto | components/RoomCard.tsx:103 | the second photo when present and non-empty, else the first, and nothing for an empty gallery |
| RoomCard.Badge | components/RoomCard.tsx:13-23 | each status shows its own badge, and only "available from" carries the date |
| RoomCard.Card | components/RoomCard.tsx:92-213 | the rating badge appears exactly for a positive rating, the WhatsApp button exactly when WhatsApp is offered (with the wa.me link), the ID number exactly when present and non-empty; the status badge is the one for the listing's status and date, plus the colour bands, tones and secondary photo |
| LandlordDashboard.InitialForm | components/LandlordDashboard.tsx:18-42 | every text field opens empty and both number fields blank, with safety 70, one bed, one bath, unfurnished, status available, Johannesburg, the first suburb and the default amenities |
| LandlordDashboard.ApplyEdit | components/LandlordDashboard.tsx:145-244 | an input's change replaces its own field and leaves every other field as it was |
| LandlordDashboard.DescriptionFromReply | services/geminiService.ts:38-41 | the description is the generated text when there is one, "Spacious and secure room available." for an empty reply, and "Great room available. Contact landlord for details." for a failed call |
| LandlordDashboard.NumberOrZero | components/LandlordDashboard.tsx:93-94 | a blank number field counts as 0, a filled one as its value |
| LandlordDashboard.NewListingData | components/LandlordDashboard.tsx:81-113 | the proposal has rating 0, province Gauteng, the two stock photos, landlord id "user-" and the clock value, blank numbers as 0, and every other field copied from the form |
| LandlordDashboard.SubmittedFromDefaults | components/LandlordDashboard.tsx:90-113 | a proposal from a form with its uneditable fields at their defaults is in the documented ranges and is an available one-bed, one-bath room in Johannesburg |
| LandlordDashboard.Dashboard.constructor | components/LandlordDashboard.tsx:18-42 | the dashboard opens on the initial form |
| LandlordDashboard.Dashboard.Edit | components/LandlordDashboard.tsx:145-244 | an input change applies its edit and keeps the uneditable fields at their defaults |
| LandlordDashboard.Dashboard.AmenityChange | components/LandlordDashboard.tsx:44-49 | sets one amenity and changes no other amenity and no other field |
| LandlordDashboard.Dashboard.AutoGenerate | components/LandlordDashboard.tsx:51-74 | with an empty title or a blank price the form is unchanged; otherwise only the description is replaced, by the service's reply |
| LandlordDashboard.Dashboard.Submit | components/LandlordDashboard.tsx:76-118 | the submission is the proposal built from the form, within the documented ranges, safety 70 and rating 0 |
| AppFlow.ScreenFor | App.tsx:187-337 | the tenant view exactly for the main application as tenant, the dashboard exactly as landlord, a redirect exactly without a role, an onboarding screen otherwise |
| AppFlow.App.T | App.tsx:39-41 | the shell's translation helper never turns a non-empty key into "" |
| AppFlow.App.constructor | App.tsx:16-33 | the shell starts on the phone screen without a role, in English, with no listings and cleared filters sorted by RECENT |
| AppFlow.App.LoadListings | App.tsx:44-57 | the store's collection replaces the in-memory list and the store's slot is the read's; a rejected read (unparsable slot, or refused seeding) leaves the shell and the store unchanged |
| AppFlow.App.EditPhone | App.tsx:206 | typing replaces the phone number only |
| AppFlow.App.SubmitPhone | App.tsx:87-95 | a number longer than nine characters moves to the code screen, and a shorter one changes nothing |
| AppFlow.App.EditOtp | App.tsx:243 | typing replaces the code and clears the error |
| AppFlow.App.SubmitOtp | App.tsx:97-108 | the code "1234" moves to language selection; any other code stays on the code screen with a non-empty translated error |
| AppFlow.App.Resend | App.tsx:256 | "resend" only clears the error |
| AppFlow.App.Back | App.tsx:258 | back returns to the phone screen unconditionally and changes nothing else |
| AppFlow.App.SelectLanguage | App.tsx:176 | choosing a language sets it and moves to the role screen |
| AppFlow.App.SelectRole | App.tsx:110-113 | choosing a role enters the main application in that role, on that role's screen |
| AppFlow.App.SwitchRole | App.tsx:353 | the tenant view's switch button returns to the role screen |
| AppFlow.App.LeaveDashboard | App.tsx:327 | leaving the dashboard resets the role, so the next render redirects |
| AppFlow.App.Render | App.tsx:335-337 | rendering the main application without a role moves back to the role screen and changes nothing else; any other render changes nothing |
| AppFlow.App.AddListing | App.tsx:74-84 | a successful add prepends the new record in the shell and in the store's slot, resets the role and shows the role screen; a rejected add (unparsable slot or refused write) changes neither the shell nor the store |
| AppFlow.App.SetQuery | App.tsx:373-401 | the search, suburb, price and sort inputs set only their parameters |
| AppFlow.App.ClearFilters | App.tsx:460 | clearing resets the four parameters to their initial values, so the visible list is the unfiltered newest-first query |
| AppFlow.Onboard | App.tsx:87-113 | a long enough phone, the right code, a language and a role reach the main application in that role and language |

## Left out

- JSX, CSS classes, icons and layout are presentation only. The card's "+N more" label, the landlord's initial letter and the report overlay are not modelled.
- The simulated network latency and `async`/`await` are left out: every operation is synchronous, and the loading flags (`isAuthLoading`, `isListingsLoading`, `isGenerating`, `isSubmitting`) are not modelled.
- The read-then-write race between concurrent `addListing` calls is left out: the model is single-threaded.
- `localStorage` and JSON are abstracted to one storage slot, and a flag saying whether the storage accepts writes. The slot has three readings:
  - absent or empty-string;
  - a listing array;
  - text that does not parse.
- The parse-failure reading is the `Unreadable` slot. Keeping it distinct is what lets the model state what an unparsable slot does to `getListings` and `addListing`.
- MockBackend.Store.AddListing: a storage refuses either every write or none. A quota that accepts the seeding write but refuses the longer list is not modelled.
- A stored array is taken to be a well-formed listing array; JSON's typing of its fields is not modelled.
- `Date.now()` is a parameter `now`. `addListing` reads the clock twice; the model uses one value for both reads. The dashboard's `landlordId` uses the submit-time clock value, which is a separate parameter.
- `Math.random()` is left out: the coordinate jitter is replaced by the coordinates passed in.
- `MOCK_LISTINGS`, `SUBURBS` and `TRANSLATIONS` are not part of this model (they live in `constants`). They become parameters: the store's seed, the form's first suburb and the shell's translation table.
- `components/MapView.tsx`, marker clicks, the list/map view mode and the scroll-to-listing effect are left out. They are floating-point projection and DOM behaviour.
- The description service's prompt and its network call to the Gemini API are left out. Its answer is a parameter `reply`, with `None` for a failed call; only the two fallback sentences are modelled.
- `alert` and `console` calls and the encoded Google Maps link are left out.
- Text.Lower: lowercases only the ASCII capitals A–Z, not full Unicode `toLowerCase`.
- LandlordDashboard.NumberOrZero: takes a number field as already parsed. `Number()` parsing of non-numeric or fractional text is not modelled.
- Prices, deposits, safety scores and timestamps are unbounded integers, not 64-bit floating-point numbers. Latitude, longitude and rating are reals.
- AppFlow.App.SubmitPhone: the length test counts characters, not UTF-16 code units. A phone string with a character outside the Basic Multilingual Plane is longer to `phoneNumber.length` than to the model.
- Translation.Translate: requires the English table to exist, as the source's `TRANSLATIONS['en'][key]` dereferences it unguarded.
- ListingQuery.SortBy: its own contract states only the length. Sortedness, permutation and stability are the lemmas `SortSorted`, `SortPermutes` and `SortStable`, which `ListingQuery.Query` combines.
- ListingQuery.Filter: its own contract states one direction of membership. The exact condition is `ListingQuery.FilterMembers`.
