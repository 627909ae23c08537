/** The mock backend: a single persisted storage slot holding every listing, and a stub one-time-code check. */
module MockBackend {
  import opened Wrappers
  import opened Types
  import opened Text

  /** The code every verification accepts. */
  const AcceptedOtp := "1234"

  /** The persisted slot. `Empty` is a missing or empty-string slot; `Unreadable` a slot whose text does not
      parse as a listing array. */
  datatype Slot = Empty | Holds(listings: seq<Listing>) | Unreadable

  /** Why an operation rejects: the stored text does not parse, or the storage refused a write. */
  datatype StoreError = ParseError | WriteError

  /** What `getListings` resolves to on a slot: the seed for an empty slot, the stored array verbatim
      otherwise, and a rejection when the stored text does not parse. */
  function Current(slot: Slot, seed: seq<Listing>): (r: Result<seq<Listing>, StoreError>)
    ensures slot.Empty? ==> r == Success(seed)
    ensures slot.Holds? ==> r == Success(slot.listings)
    ensures slot.Unreadable? <==> r.Failure?
  {
    match slot
    case Empty => Success(seed)
    case Holds(ls) => Success(ls)
    case Unreadable => Failure(ParseError)
  }

  /** The slot after `getListings`: an empty slot is seeded, every other slot is left as it was. */
  function AfterRead(slot: Slot, seed: seq<Listing>): (s: Slot)
    ensures slot.Empty? ==> s == Holds(seed)
    ensures !slot.Empty? ==> s == slot
  {
    if slot.Empty? then Holds(seed) else slot
  }

  /** The record `addListing` builds: the proposal with `id` the decimal timestamp and `createdAt` the timestamp. */
  function NewRecord(data: ListingData, now: nat): (l: Listing)
    ensures l.createdAt == now && l.id == DecimalString(now)
    ensures Proposal(l) == data
  {
    Stamp(data, DecimalString(now), now)
  }

  /** A read settles the slot: a second read returns the same collection and writes nothing. */
  lemma ReadSettles(slot: Slot, seed: seq<Listing>)
    ensures AfterRead(AfterRead(slot, seed), seed) == AfterRead(slot, seed)
    ensures Current(AfterRead(slot, seed), seed) == Current(slot, seed)
  {
  }

  /** Two listings added at different instants get different ids. */
  lemma NewRecordIdsDistinct(a: ListingData, b: ListingData, t1: nat, t2: nat)
    requires t1 != t2
    ensures NewRecord(a, t1).id != NewRecord(b, t2).id
  {
    DecimalStringInjective(t1, t2);
  }

  /** The store object: its one field is the storage slot; the seed is the fixture collection shipped with
      the application, and `writable` says whether the storage accepts writes (a full or disabled storage
      makes every write throw). */
  class Store {
    const seed: seq<Listing>
    const writable: bool
    var slot: Slot

    constructor (seed: seq<Listing>, slot: Slot, writable: bool)
      ensures this.seed == seed && this.slot == slot && this.writable == writable
    {
      this.seed := seed;
      this.slot := slot;
      this.writable := writable;
    }

    /** `getListings`: seeds an empty slot and resolves to the slot's collection. Seeding writes, so on a
        storage that refuses writes an empty slot rejects and stays empty. */
    method GetListings() returns (r: Result<seq<Listing>, StoreError>)
      modifies this
      ensures old(slot).Empty? && !writable ==> r == Failure(WriteError) && slot == old(slot)
      ensures !(old(slot).Empty? && !writable) ==> r == Current(old(slot), seed) && slot == AfterRead(old(slot), seed)
    {
      match slot
      case Empty =>
        if !writable {
          return Failure(WriteError);
        }
        slot := Holds(seed);
        r := Success(seed);
      case Holds(ls) =>
        r := Success(ls);
      case Unreadable =>
        r := Failure(ParseError);
    }

    /** `addListing`: re-reads the collection (seeding an empty slot), stamps the record with the clock value
        `now` and overwrites the slot with the record prepended. A slot that does not parse rejects, and so
        does a storage that refuses writes; either way the slot is left as it was. */
    method AddListing(data: ListingData, now: nat) returns (r: Result<Listing, StoreError>)
      modifies this
      ensures old(slot).Unreadable? ==> r == Failure(ParseError) && slot == old(slot)
      ensures !old(slot).Unreadable? && !writable ==> r == Failure(WriteError) && slot == old(slot)
      ensures !old(slot).Unreadable? && writable ==>
                r == Success(NewRecord(data, now))
                && slot == Holds([NewRecord(data, now)] + Current(old(slot), seed).value)
    {
      var current := GetListings();
      if current.Failure? {
        return Failure(current.error);
      }
      if !writable {
        return Failure(WriteError);
      }
      var newListing := NewRecord(data, now);
      slot := Holds([newListing] + current.value);
      r := Success(newListing);
    }

    /** `sendOtp`: only logs that the code was sent; nothing is stored. */
    method SendOtp(phone: string)
      ensures slot == old(slot)
    {
    }

    /** `verifyOtp`: accepts exactly the fixed code, whatever the phone number. */
    method VerifyOtp(phone: string, code: string) returns (ok: bool)
      ensures ok <==> code == AcceptedOtp
    {
      ok := code == "1234";
    }
  }

  /** An add followed by a read, on a store in any state: on a readable slot and a writable storage the read
      returns one more listing than the slot held before, the new record first and the earlier ones after it
      in their order; otherwise the add rejects and the read sees the slot as it was. */
  method AddPrepends(seed: seq<Listing>, slot: Slot, writable: bool, data: ListingData, now: nat)
    returns (added: Result<Listing, StoreError>, after: Result<seq<Listing>, StoreError>)
    ensures !slot.Unreadable? && writable ==>
              added.Success? && after.Success? && |after.value| == |Current(slot, seed).value| + 1
              && after.value[0] == added.value && after.value[1..] == Current(slot, seed).value
    ensures slot.Unreadable? || !writable ==> added.Failure?
    ensures slot.Holds? && !writable ==> after == Success(slot.listings)
  {
    var store := new Store(seed, slot, writable);
    added := store.AddListing(data, now);
    after := store.GetListings();
  }

  /** A fresh store, read twice, then added to, then read again: both reads give the seed (the second
      without reseeding), and the last read gives the new record followed by the seed. */
  method FreshStoreSequence(seed: seq<Listing>, data: ListingData, now: nat)
    returns (first: Result<seq<Listing>, StoreError>, second: Result<seq<Listing>, StoreError>,
             added: Result<Listing, StoreError>, last: Result<seq<Listing>, StoreError>)
    ensures first == Success(seed) && second == Success(seed)
    ensures added == Success(NewRecord(data, now))
    ensures last.Success? && |last.value| == |seed| + 1
    ensures last == Success([NewRecord(data, now)] + seed)
  {
    var store := new Store(seed, Empty, true);
    first := store.GetListings();
    second := store.GetListings();
    added := store.AddListing(data, now);
    last := store.GetListings();
  }

  /** On an unreadable slot every operation rejects and the slot is never overwritten. */
  method UnreadableStoreSequence(seed: seq<Listing>, writable: bool, data: ListingData, now: nat)
    returns (read: Result<seq<Listing>, StoreError>, added: Result<Listing, StoreError>, slotAfter: Slot)
    ensures read == Failure(ParseError) && added == Failure(ParseError)
    ensures slotAfter == Unreadable
  {
    var store := new Store(seed, Unreadable, writable);
    read := store.GetListings();
    added := store.AddListing(data, now);
    slotAfter := store.slot;
  }

  /** A fresh store whose storage refuses writes cannot even be seeded: reads and adds reject with the
      write error, and the slot stays empty. */
  method RefusedWritesSequence(seed: seq<Listing>, data: ListingData, now: nat)
    returns (read: Result<seq<Listing>, StoreError>, added: Result<Listing, StoreError>, slotAfter: Slot)
    ensures read == Failure(WriteError) && added == Failure(WriteError)
    ensures slotAfter == Empty
  {
    var store := new Store(seed, Empty, false);
    read := store.GetListings();
    added := store.AddListing(data, now);
    slotAfter := store.slot;
  }
}
