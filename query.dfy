/** The listing query engine: the tenant view's filter and sort over the in-memory listings. */
module ListingQuery {
  import opened Types
  import opened Text

  /** The five entries of the price filter. */
  datatype PriceRange = AllPrices | From500To1500 | From1500To2500 | From2500To3500 | From3500To5000

  /** The four sort orders; any unrecognised option string sorts like `Recent`. */
  datatype SortKey = Recent | PriceAsc | PriceDesc | Safety

  /** The filter parameters: the free-text search term, the suburb ("" for every suburb) and the price range. */
  datatype Filters = Filters(searchTerm: string, suburb: string, priceRange: PriceRange)

  /** The parameters after "clear filters", which are also the initial ones. */
  const NoFilters := Filters("", "", AllPrices)

  /** The sort order a sort option string selects; `RECENT` and every unrecognised string select `Recent`. */
  function SortKeyOf(option: string): (k: SortKey)
    ensures k == PriceAsc <==> option == "PRICE_ASC"
    ensures k == PriceDesc <==> option == "PRICE_DESC"
    ensures k == Safety <==> option == "SAFETY"
    ensures k == Recent <==> option != "PRICE_ASC" && option != "PRICE_DESC" && option != "SAFETY"
  {
    if option == "PRICE_ASC" then PriceAsc
    else if option == "PRICE_DESC" then PriceDesc
    else if option == "SAFETY" then Safety
    else Recent
  }

  // ---------------------------------------------------------------------------
  // The filter

  /** Case-insensitive substring match of the term against the title or the description. */
  predicate MatchesSearch(l: Listing, term: string)
    ensures term == "" ==> MatchesSearch(l, term)
    ensures MatchesSearch(l, term) ==> |term| <= |l.title| || |term| <= |l.description|
  {
    Includes(Lower(l.title), Lower(term)) || Includes(Lower(l.description), Lower(term))
  }

  /** Exact, case-sensitive suburb match; the empty filter matches every suburb. */
  predicate MatchesLocation(l: Listing, suburb: string)
    ensures suburb == "" || suburb == l.address.suburb ==> MatchesLocation(l, suburb)
  {
    suburb != "" ==> l.address.suburb == suburb
  }

  /** The price test: the first bucket is closed at both ends, the others open below and closed above. */
  predicate InBucket(price: int, range: PriceRange)
    ensures range != AllPrices && InBucket(price, range) ==> 500 <= price <= 5000
    ensures range == AllPrices ==> InBucket(price, range)
  {
    match range
    case From500To1500 => price >= 500 && price <= 1500
    case From1500To2500 => price > 1500 && price <= 2500
    case From2500To3500 => price > 2500 && price <= 3500
    case From3500To5000 => price > 3500 && price <= 5000
    case AllPrices => true
  }

  /** All three tests. The cleared parameters accept every listing, and a bounded price range only
      listings priced 500..5000. */
  predicate Matches(l: Listing, f: Filters)
    ensures f == NoFilters ==> Matches(l, f)
    ensures Matches(l, f) && f.priceRange != AllPrices ==> 500 <= l.price <= 5000
  {
    MatchesSearch(l, f.searchTerm) && MatchesLocation(l, f.suburb) && InBucket(l.price, f.priceRange)
  }

  /** The listings that pass the filter, in their original order. */
  function Filter(ls: seq<Listing>, f: Filters): (r: seq<Listing>)
    ensures |r| <= |ls|
    ensures forall l :: l in r ==> Matches(l, f)
    decreases |ls|
  {
    if ls == [] then []
    else (if Matches(ls[0], f) then [ls[0]] else []) + Filter(ls[1..], f)
  }

  /** A listing is in the result exactly when it is in the input and passes all three tests. */
  lemma {:induction false} FilterMembers(ls: seq<Listing>, f: Filters, l: Listing)
    ensures l in Filter(ls, f) <==> l in ls && MatchesSearch(l, f.searchTerm) && MatchesLocation(l, f.suburb)
                                      && InBucket(l.price, f.priceRange)
    decreases |ls|
  {
    if ls != [] {
      FilterMembers(ls[1..], f, l);
      assert ls == [ls[0]] + ls[1..];
    }
  }

  /** The filter keeps relative order: filtering a concatenation filters each part. */
  lemma {:induction false} FilterConcat(a: seq<Listing>, b: seq<Listing>, f: Filters)
    ensures Filter(a + b, f) == Filter(a, f) + Filter(b, f)
    decreases |a|
  {
    if a == [] {
      assert a + b == b;
    } else {
      assert (a + b)[1..] == a[1..] + b;
      FilterConcat(a[1..], b, f);
    }
  }

  /** The filter only drops listings: every listing it keeps occurs at least as often in the input. */
  lemma {:induction false} FilterIsSubMultiset(ls: seq<Listing>, f: Filters)
    ensures multiset(Filter(ls, f)) <= multiset(ls)
    decreases |ls|
  {
    if ls != [] {
      FilterIsSubMultiset(ls[1..], f);
      assert ls == [ls[0]] + ls[1..];
    }
  }

  /** When every listing passes, the filter returns the input unchanged. */
  lemma {:induction false} FilterKeepsAll(ls: seq<Listing>, f: Filters)
    requires forall l :: l in ls ==> Matches(l, f)
    ensures Filter(ls, f) == ls
    decreases |ls|
  {
    if ls != [] {
      FilterKeepsAll(ls[1..], f);
    }
  }

  /** The search is case-insensitive in the term: lowercasing the term first changes nothing. */
  lemma SearchIgnoresTermCase(l: Listing, term: string)
    ensures MatchesSearch(l, Lower(term)) == MatchesSearch(l, term)
  {
    LowerIdempotent(term);
  }

  /** The four bounded buckets are disjoint and together cover exactly 500..5000; 1500 and 2500 sit in the
      lower of their two neighbouring buckets. */
  lemma BucketsPartition(price: int)
    ensures 500 <= price <= 5000 <==>
              InBucket(price, From500To1500) || InBucket(price, From1500To2500)
              || InBucket(price, From2500To3500) || InBucket(price, From3500To5000)
    ensures forall r1, r2 :: r1 != AllPrices && r2 != AllPrices && InBucket(price, r1) && InBucket(price, r2) ==> r1 == r2
    ensures InBucket(1500, From500To1500) && !InBucket(1500, From1500To2500)
    ensures InBucket(2500, From1500To2500) && !InBucket(2500, From2500To3500)
    ensures InBucket(price, AllPrices)
  {
  }

  // ---------------------------------------------------------------------------
  // The sort

  /** The source's comparator: negative when `a` goes first. */
  function Compare(key: SortKey, a: Listing, b: Listing): (c: int)
    ensures c == Rank(key, a) - Rank(key, b)
  {
    match key
    case PriceAsc => a.price - b.price
    case PriceDesc => b.price - a.price
    case Safety => b.safety - a.safety
    case Recent => b.createdAt - a.createdAt
  }

  /** The number the comparator orders by, ascending: price, or the negated price, safety or timestamp. */
  function Rank(key: SortKey, l: Listing): int
  {
    match key
    case PriceAsc => l.price
    case PriceDesc => -l.price
    case Safety => -l.safety
    case Recent => -l.createdAt
  }

  /** `s` is ordered by the comparator: no later element should come before an earlier one. */
  predicate Sorted(key: SortKey, s: seq<Listing>)
  {
    forall i, j :: 0 <= i < j < |s| ==> Rank(key, s[i]) <= Rank(key, s[j])
  }

  /** Inserts `x` before the first element `y` with `Compare(key, x, y) <= 0` (equivalently, by `Compare`'s
      contract, `Rank(key, x) <= Rank(key, y)`); ties go after `x`, which came first. */
  function Insert(key: SortKey, x: Listing, s: seq<Listing>): (r: seq<Listing>)
    ensures |r| == |s| + 1
    decreases |s|
  {
    if s == [] then [x]
    else if Rank(key, x) <= Rank(key, s[0]) then [x] + s
    else [s[0]] + Insert(key, x, s[1..])
  }

  /** A stable sort by the comparator (an insertion sort). */
  function SortBy(key: SortKey, s: seq<Listing>): (r: seq<Listing>)
    ensures |r| == |s|
    decreases |s|
  {
    if s == [] then [] else Insert(key, s[0], SortBy(key, s[1..]))
  }

  /** Inserting adds exactly `x`: the result is a permutation of `s` plus `x`. */
  lemma {:induction false} InsertPermutes(key: SortKey, x: Listing, s: seq<Listing>)
    ensures multiset(Insert(key, x, s)) == multiset(s) + multiset{x}
    decreases |s|
  {
    if s != [] && Rank(key, x) > Rank(key, s[0]) {
      InsertPermutes(key, x, s[1..]);
      assert s == [s[0]] + s[1..];
    }
  }

  /** The sort only reorders: its output is a permutation of its input. */
  lemma {:induction false} SortPermutes(key: SortKey, s: seq<Listing>)
    ensures multiset(SortBy(key, s)) == multiset(s)
    decreases |s|
  {
    if s != [] {
      SortPermutes(key, s[1..]);
      InsertPermutes(key, s[0], SortBy(key, s[1..]));
      assert s == [s[0]] + s[1..];
    }
  }

  /** Every element of `s` ranks at least `lo`. */
  predicate AllRankAtLeast(key: SortKey, s: seq<Listing>, lo: int)
  {
    forall j :: 0 <= j < |s| ==> lo <= Rank(key, s[j])
  }

  lemma SortedCons(key: SortKey, y: Listing, t: seq<Listing>)
    requires Sorted(key, t) && AllRankAtLeast(key, t, Rank(key, y))
    ensures Sorted(key, [y] + t)
  {
    var r := [y] + t;
    forall i, j | 0 <= i < j < |r| ensures Rank(key, r[i]) <= Rank(key, r[j]) {
      assert r[j] == t[j - 1];
      if i > 0 {
        assert r[i] == t[i - 1];
      }
    }
  }

  lemma {:induction false} InsertRankAtLeast(key: SortKey, x: Listing, s: seq<Listing>, lo: int)
    requires lo <= Rank(key, x) && AllRankAtLeast(key, s, lo)
    ensures AllRankAtLeast(key, Insert(key, x, s), lo)
    decreases |s|
  {
    if s != [] && Rank(key, x) > Rank(key, s[0]) {
      var t := Insert(key, x, s[1..]);
      assert AllRankAtLeast(key, s[1..], lo) by {
        forall j | 0 <= j < |s[1..]| ensures lo <= Rank(key, s[1..][j]) {
          assert s[1..][j] == s[j + 1];
        }
      }
      InsertRankAtLeast(key, x, s[1..], lo);
      assert Insert(key, x, s) == [s[0]] + t;
      var r := [s[0]] + t;
      forall j | 0 <= j < |r| ensures lo <= Rank(key, r[j]) {
        if j > 0 {
          assert r[j] == t[j - 1];
        }
      }
    }
  }

  lemma {:induction false} InsertSorted(key: SortKey, x: Listing, s: seq<Listing>)
    requires Sorted(key, s)
    ensures Sorted(key, Insert(key, x, s))
    decreases |s|
  {
    if s == [] {
    } else if Rank(key, x) <= Rank(key, s[0]) {
      assert AllRankAtLeast(key, s, Rank(key, x));
      SortedCons(key, x, s);
    } else {
      var t := Insert(key, x, s[1..]);
      SortedTail(key, s);
      InsertSorted(key, x, s[1..]);
      assert AllRankAtLeast(key, s[1..], Rank(key, s[0])) by {
        forall j | 0 <= j < |s[1..]| ensures Rank(key, s[0]) <= Rank(key, s[1..][j]) {
          assert s[1..][j] == s[j + 1];
        }
      }
      InsertRankAtLeast(key, x, s[1..], Rank(key, s[0]));
      SortedCons(key, s[0], t);
      assert Insert(key, x, s) == [s[0]] + t;
    }
  }

  lemma {:induction false} SortSorted(key: SortKey, s: seq<Listing>)
    ensures Sorted(key, SortBy(key, s))
    decreases |s|
  {
    if s != [] {
      SortSorted(key, s[1..]);
      InsertSorted(key, s[0], SortBy(key, s[1..]));
    }
  }

  /** The elements of `s` whose rank is `k`, in order. */
  function WithRank(key: SortKey, s: seq<Listing>, k: int): seq<Listing>
    decreases |s|
  {
    if s == [] then []
    else (if Rank(key, s[0]) == k then [s[0]] else []) + WithRank(key, s[1..], k)
  }

  lemma WithRankCons(key: SortKey, y: Listing, s: seq<Listing>, k: int)
    ensures WithRank(key, [y] + s, k) == (if Rank(key, y) == k then [y] else []) + WithRank(key, s, k)
  {
    assert ([y] + s)[1..] == s;
  }

  lemma SortedTail(key: SortKey, s: seq<Listing>)
    requires Sorted(key, s) && s != []
    ensures Sorted(key, s[1..])
  {
    forall i, j | 0 <= i < j < |s[1..]| ensures Rank(key, s[1..][i]) <= Rank(key, s[1..][j]) {
      assert s[1..][i] == s[i + 1] && s[1..][j] == s[j + 1];
    }
  }

  lemma {:induction false} InsertWithRank(key: SortKey, x: Listing, s: seq<Listing>, k: int)
    ensures WithRank(key, Insert(key, x, s), k)
            == (if Rank(key, x) == k then [x] else []) + WithRank(key, s, k)
    decreases |s|
  {
    if s == [] || Rank(key, x) <= Rank(key, s[0]) {
      WithRankCons(key, x, s, k);
    } else {
      var t := Insert(key, x, s[1..]);
      InsertWithRank(key, x, s[1..], k);
      WithRankCons(key, s[0], t, k);
      // s[0] ranks strictly below x, so at most one of the two is kept, and order between them is moot
      assert WithRank(key, s, k) == (if Rank(key, s[0]) == k then [s[0]] else []) + WithRank(key, s[1..], k);
    }
  }

  /** Stability: listings that tie under the comparator keep their relative order. */
  lemma {:induction false} SortStable(key: SortKey, s: seq<Listing>, k: int)
    ensures WithRank(key, SortBy(key, s), k) == WithRank(key, s, k)
    decreases |s|
  {
    if s != [] {
      SortStable(key, s[1..], k);
      InsertWithRank(key, s[0], SortBy(key, s[1..]), k);
    }
  }

  /** Sorting an already sorted sequence returns it unchanged. */
  lemma {:induction false} SortIdempotent(key: SortKey, s: seq<Listing>)
    requires Sorted(key, s)
    ensures SortBy(key, s) == s
    decreases |s|
  {
    if s != [] {
      var u := s[1..];
      SortedTail(key, s);
      SortIdempotent(key, u);
      assert SortBy(key, s) == Insert(key, s[0], u);
      if u != [] {
        assert u[0] == s[1];
        assert Rank(key, s[0]) <= Rank(key, u[0]);
      }
      assert Insert(key, s[0], u) == [s[0]] + u;
      assert [s[0]] + u == s;
    }
  }

  // ---------------------------------------------------------------------------
  // The query

  /** `listings.filter(...).sort(...)`: the visible listings in the tenant view. */
  function Query(ls: seq<Listing>, f: Filters, key: SortKey): (r: seq<Listing>)
    ensures forall l :: l in r <==> l in ls && Matches(l, f)
    ensures multiset(r) == multiset(Filter(ls, f))
    ensures key == PriceAsc ==> forall i, j :: 0 <= i < j < |r| ==> r[i].price <= r[j].price
    ensures key == PriceDesc ==> forall i, j :: 0 <= i < j < |r| ==> r[i].price >= r[j].price
    ensures key == Safety ==> forall i, j :: 0 <= i < j < |r| ==> r[i].safety >= r[j].safety
    ensures key == Recent ==> forall i, j :: 0 <= i < j < |r| ==> r[i].createdAt >= r[j].createdAt
    ensures forall k :: WithRank(key, r, k) == WithRank(key, Filter(ls, f), k)
  {
    var kept := Filter(ls, f);
    var r := SortBy(key, kept);
    SortSorted(key, kept);
    SortPermutes(key, kept);
    forall l ensures l in r <==> l in ls && Matches(l, f) {
      assert l in r <==> l in multiset(r);
      assert l in kept <==> l in multiset(kept);
      FilterMembers(ls, f, l);
    }
    forall k ensures WithRank(key, r, k) == WithRank(key, kept, k) {
      SortStable(key, kept, k);
    }
    r
  }

  /** With the filters cleared, the query shows every listing, newest first. */
  lemma ClearedQueryShowsAll(ls: seq<Listing>)
    ensures multiset(Query(ls, NoFilters, Recent)) == multiset(ls)
    ensures Sorted(Recent, Query(ls, NoFilters, Recent))
  {
    FilterKeepsAll(ls, NoFilters);
    SortSorted(Recent, ls);
    SortPermutes(Recent, ls);
  }

  /** Re-sorting the query's output by the same key changes nothing. */
  lemma QueryResortIdempotent(ls: seq<Listing>, f: Filters, key: SortKey)
    ensures SortBy(key, Query(ls, f, key)) == Query(ls, f, key)
  {
    SortSorted(key, Filter(ls, f));
    SortIdempotent(key, Query(ls, f, key));
  }
}
