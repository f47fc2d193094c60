/** The browser side of the listing search (client/app.js): the search filter over the
    built-in catalogue, the relevance ranking and its top six, the four sort orders of the
    sort menu, and the favourites list that the heart button toggles. The form, the page
    rendering and `localStorage` are not modelled: the search values arrive as a
    `SearchData`, and the stored favourites are the field of a `Favorites` object. */
module ClientApp {
  import opened Js
  import opened Sorting

  /** The fields of a catalogue entry that the search, the ranking and the sort read. */
  datatype ClientListing = ClientListing(
    id: int,
    city: string,
    address: string,
    rent: int,
    accommodationType: string,
    rating: real,
    safetyScore: real,
    verified: bool)

  /** The display-only text of a catalogue entry. */
  datatype CardText = CardText(title: string, travelTime: string, aiExplanation: string, contact: string)

  /** The search the form submits: the slider's budget as `parseInt` read it, the
      location text, and the accommodation type chosen (possibly empty). */
  datatype SearchData = SearchData(budget: Number, location: string, accommodationType: string)

  const DefaultBudget: int := 20000

  /** `x || 20000` on a number: `NaN` and `0` are falsy and give the default. */
  function EffectiveBudget(budget: Number): (b: int)
    ensures b != 0
    ensures budget.Int? && budget.value != 0 ==> b == budget.value
    ensures budget == NaN || budget == Int(0) ==> b == DefaultBudget
  {
    match budget
    case NaN => DefaultBudget
    case Int(n) => if n == 0 then DefaultBudget else n
  }

  /** `accommodationType || 'all'`. */
  function EffectiveType(accommodationType: string): string {
    if accommodationType == "" then "all" else accommodationType
  }

  /** calculateRelevanceScore: half for price, three tenths for safety and a fifth for
      verification, against the budget defaulted as above. */
  function CalculateRelevanceScore(listing: ClientListing, budget: Number): real {
    var b := EffectiveBudget(budget) as real;
    var priceFactor := 1.0 - listing.rent as real / b;
    var safetyFactor := listing.safetyScore / 5.0;
    var verificationFactor := if listing.verified then 1.0 else 0.5;
    priceFactor * 0.5 + safetyFactor * 0.3 + verificationFactor * 0.2
  }

  /** The comparator `(a, b) => calculateRelevanceScore(b, budget) - calculateRelevanceScore(a, budget)`
      as a descending key. */
  function ByRelevance(budget: Number): ClientListing -> real {
    l => CalculateRelevanceScore(l, budget)
  }

  /** A missing, unreadable or zero budget scores as a budget of 20000. */
  lemma RelevanceDefaultBudget(listing: ClientListing)
    ensures CalculateRelevanceScore(listing, NaN) == CalculateRelevanceScore(listing, Int(DefaultBudget))
    ensures CalculateRelevanceScore(listing, Int(0)) == CalculateRelevanceScore(listing, Int(DefaultBudget))
  {
  }

  /** A listing within a positive budget and with a safety score in [0, 5] scores
      between 0.1 and 1. */
  lemma RelevanceBounds(listing: ClientListing, budget: Number)
    requires EffectiveBudget(budget) > 0 && 0 <= listing.rent <= EffectiveBudget(budget)
    requires 0.0 <= listing.safetyScore <= 5.0
    ensures 0.1 <= CalculateRelevanceScore(listing, budget) <= 1.0
  {
    var b := EffectiveBudget(budget) as real;
    DivMonotone(listing.rent as real, b, b);
    DivMonotone(0.0, listing.rent as real, b);
    assert b / b == 1.0 && 0.0 / b == 0.0;
    assert 0.0 <= listing.rent as real / b <= 1.0;
  }

  /** For a positive budget a cheaper listing is strictly more relevant, all else equal. */
  lemma RelevanceDecreasesWithRent(listing: ClientListing, cheaperRent: int, budget: Number)
    requires EffectiveBudget(budget) > 0 && cheaperRent < listing.rent
    ensures CalculateRelevanceScore(listing.(rent := cheaperRent), budget) >
      CalculateRelevanceScore(listing, budget)
  {
    var b := EffectiveBudget(budget) as real;
    DivStrict(cheaperRent as real, listing.rent as real, b);
  }

  /** With all else equal, being verified is worth exactly 0.1. */
  lemma RelevanceVerifiedBonus(listing: ClientListing, budget: Number)
    ensures CalculateRelevanceScore(listing.(verified := true), budget) ==
      CalculateRelevanceScore(listing.(verified := false), budget) + 0.1
  {
  }

  /** The filter callback of getMockListings, for the defaulted budget and type and the
      lower-cased location. */
  predicate Matches(search: SearchData, listing: ClientListing) {
    var accommodationType := EffectiveType(search.accommodationType);
    var location := ToLower(search.location);
    && listing.rent <= EffectiveBudget(search.budget)
    && (accommodationType == "all" || listing.accommodationType == accommodationType)
    && (location == [] || Includes(ToLower(listing.address), location) ||
        Includes(ToLower(listing.city), location))
  }

  /** `listings.filter(...)` with that callback. */
  function Filter(listings: seq<ClientListing>, search: SearchData): seq<ClientListing>
    decreases |listings|
  {
    if listings == [] then []
    else Kept(search, listings[0]) + Filter(listings[1..], search)
  }

  /** What the filter keeps of one listing. */
  function Kept(search: SearchData, listing: ClientListing): seq<ClientListing> {
    if Matches(search, listing) then [listing] else []
  }

  /** The filter keeps exactly the listings that pass the callback, each at most as often
      as it occurs. */
  lemma {:induction false} FilterExact(listings: seq<ClientListing>, search: SearchData)
    ensures forall l :: l in Filter(listings, search) <==> l in listings && Matches(search, l)
    ensures multiset(Filter(listings, search)) <= multiset(listings)
    decreases |listings|
  {
    if listings != [] {
      FilterExact(listings[1..], search);
      assert listings == [listings[0]] + listings[1..];
    }
  }

  /** What the three tests of the callback mean: a rent no higher than the budget (20000
      when the slider gives none), the requested type unless `'all'` or nothing was chosen,
      and, unless the location is empty, the location found in the address or the city,
      ignoring ASCII case. */
  lemma MatchesMeans(search: SearchData, listing: ClientListing)
    ensures Matches(search, listing) <==>
      && listing.rent <= EffectiveBudget(search.budget)
      && (search.accommodationType in {"", "all"} || listing.accommodationType == search.accommodationType)
      && (search.location == [] || Includes(ToLower(listing.address), ToLower(search.location)) ||
          Includes(ToLower(listing.city), ToLower(search.location)))
  {
    assert |ToLower(search.location)| == |search.location|;
  }

  /** The listings getMockListings answers: the matching catalogue listings, stably sorted
      by non-increasing relevance, the first six of them. */
  function SearchResults(catalogue: seq<ClientListing>, search: SearchData): seq<ClientListing> {
    Take(SortDesc(Filter(catalogue, search), ByRelevance(Int(EffectiveBudget(search.budget)))), 6)
  }

  /** getMockListings over the catalogue `catalogue` (getAllMockListings() in the app):
      filter, sort the filtered array in place, keep the first six. */
  method GetMockListings(catalogue: seq<ClientListing>, search: SearchData) returns (top: seq<ClientListing>)
    ensures top == SearchResults(catalogue, search)
  {
    var budget := EffectiveBudget(search.budget);
    var filtered := Filter(catalogue, search);
    var a := new ClientListing[|filtered|](i requires 0 <= i < |filtered| => filtered[i]);
    assert a[..] == filtered;
    SortInPlace(a, ByRelevance(Int(budget)));
    top := Take(a[..], 6);
  }

  /** At most six listings, each a matching catalogue listing, in non-increasing relevance,
      and no matching listing left out is more relevant than one answered. */
  lemma SearchResultsRanked(catalogue: seq<ClientListing>, search: SearchData)
    ensures |SearchResults(catalogue, search)| <= 6
    ensures |Filter(catalogue, search)| <= 6 ==> |SearchResults(catalogue, search)| == |Filter(catalogue, search)|
    ensures forall l :: l in SearchResults(catalogue, search) ==> l in catalogue && Matches(search, l)
    ensures forall i, j :: 0 <= i < j < |SearchResults(catalogue, search)| ==>
      CalculateRelevanceScore(SearchResults(catalogue, search)[i], search.budget) >=
      CalculateRelevanceScore(SearchResults(catalogue, search)[j], search.budget)
    ensures forall x, y ::
      (x in multiset(Filter(catalogue, search)) - multiset(SearchResults(catalogue, search)) &&
       y in SearchResults(catalogue, search)) ==>
      CalculateRelevanceScore(x, search.budget) <= CalculateRelevanceScore(y, search.budget)
  {
    var filtered := Filter(catalogue, search);
    var key := ByRelevance(Int(EffectiveBudget(search.budget)));
    var top := SearchResults(catalogue, search);
    TopOfSortDesc(filtered, key, 6);
    SearchResultsFromCatalogue(catalogue, search);
    forall l ensures key(l) == CalculateRelevanceScore(l, search.budget) {
      RelevanceSameBudget(l, search.budget);
    }
  }

  /** Every listing answered is a matching catalogue listing. */
  lemma SearchResultsFromCatalogue(catalogue: seq<ClientListing>, search: SearchData)
    ensures forall l :: l in SearchResults(catalogue, search) ==> l in catalogue && Matches(search, l)
  {
    var filtered := Filter(catalogue, search);
    var key := ByRelevance(Int(EffectiveBudget(search.budget)));
    var top := SearchResults(catalogue, search);
    TopOfSortDesc(filtered, key, 6);
    FilterExact(catalogue, search);
    forall l | l in top ensures l in catalogue && Matches(search, l) {
      assert l in multiset(top);
      assert l in multiset(filtered);
    }
  }

  /** Scoring against the defaulted budget is scoring against the budget itself. */
  lemma RelevanceSameBudget(listing: ClientListing, budget: Number)
    ensures CalculateRelevanceScore(listing, Int(EffectiveBudget(budget))) == CalculateRelevanceScore(listing, budget)
  {
  }

  /** The options of the sort menu; any other value ranks by relevance. */
  datatype SortOrder = PriceLowHigh | PriceHighLow | Safety | Relevance

  function ParseSortOrder(sort: string): SortOrder {
    if sort == "priceLowHigh" then PriceLowHigh
    else if sort == "priceHighLow" then PriceHighLow
    else if sort == "safety" then Safety
    else Relevance
  }

  /** The comparator of each order as a descending key: ascending rent is descending
      negated rent. */
  function OrderKey(order: SortOrder, budget: Number): ClientListing -> real {
    match order
    case PriceLowHigh => (l: ClientListing) => -(l.rent as real)
    case PriceHighLow => (l: ClientListing) => l.rent as real
    case Safety => (l: ClientListing) => l.safetyScore
    case Relevance => ByRelevance(budget)
  }

  /** The copy of `listings` stably sorted in the order `sort` names, with
      relevance scored against `budget`. */
  function SortedCopy(listings: seq<ClientListing>, sort: string, budget: Number): seq<ClientListing> {
    SortDesc(listings, OrderKey(ParseSortOrder(sort), budget))
  }

  /** applySort: nothing for a missing list; otherwise a copy of the list, sorted in place
      in the chosen order, relevance scored against the slider's budget `sliderBudget`. */
  method ApplySort(listings: Option<seq<ClientListing>>, sort: string, sliderBudget: Number)
    returns (sorted: seq<ClientListing>)
    ensures listings.None? ==> sorted == []
    ensures listings.Some? ==> sorted == SortedCopy(listings.value, sort, sliderBudget)
  {
    if listings.None? {
      return [];
    }
    var copy := listings.value;
    var a := new ClientListing[|copy|](i requires 0 <= i < |copy| => copy[i]);
    assert a[..] == copy;
    SortInPlace(a, OrderKey(ParseSortOrder(sort), sliderBudget));
    sorted := a[..];
  }

  /** The sorted copy holds the same listings as the input, and is ordered by ascending
      rent, descending rent, descending safety score or descending relevance, as the menu
      value says. */
  lemma SortedCopyOrders(listings: seq<ClientListing>, sort: string, budget: Number)
    ensures multiset(SortedCopy(listings, sort, budget)) == multiset(listings)
    ensures sort == "priceLowHigh" ==> forall i, j :: 0 <= i < j < |SortedCopy(listings, sort, budget)| ==>
      SortedCopy(listings, sort, budget)[i].rent <= SortedCopy(listings, sort, budget)[j].rent
    ensures sort == "priceHighLow" ==> forall i, j :: 0 <= i < j < |SortedCopy(listings, sort, budget)| ==>
      SortedCopy(listings, sort, budget)[i].rent >= SortedCopy(listings, sort, budget)[j].rent
    ensures sort == "safety" ==> forall i, j :: 0 <= i < j < |SortedCopy(listings, sort, budget)| ==>
      SortedCopy(listings, sort, budget)[i].safetyScore >= SortedCopy(listings, sort, budget)[j].safetyScore
    ensures sort !in {"priceLowHigh", "priceHighLow", "safety"} ==>
      forall i, j :: 0 <= i < j < |SortedCopy(listings, sort, budget)| ==>
      CalculateRelevanceScore(SortedCopy(listings, sort, budget)[i], budget) >=
      CalculateRelevanceScore(SortedCopy(listings, sort, budget)[j], budget)
  {
    var order := ParseSortOrder(sort);
    var key := OrderKey(order, budget);
    var r := SortedCopy(listings, sort, budget);
    SortDescSortedAndPermutes(listings, key);
    forall i, j | 0 <= i < j < |r| ensures key(r[i]) >= key(r[j]) {
    }
    match order
    case PriceLowHigh =>
      forall i, j | 0 <= i < j < |r| ensures r[i].rent <= r[j].rent {
        assert key(r[i]) == -(r[i].rent as real) && key(r[j]) == -(r[j].rent as real);
      }
    case PriceHighLow =>
      forall i, j | 0 <= i < j < |r| ensures r[i].rent >= r[j].rent {
        assert key(r[i]) == r[i].rent as real && key(r[j]) == r[j].rent as real;
      }
    case Safety =>
      forall i, j | 0 <= i < j < |r| ensures r[i].safetyScore >= r[j].safetyScore {
        assert key(r[i]) == r[i].safetyScore && key(r[j]) == r[j].safetyScore;
      }
    case Relevance =>
      forall i, j | 0 <= i < j < |r|
        ensures CalculateRelevanceScore(r[i], budget) >= CalculateRelevanceScore(r[j], budget)
      {
        assert key(r[i]) == CalculateRelevanceScore(r[i], budget);
        assert key(r[j]) == CalculateRelevanceScore(r[j], budget);
      }
  }

  /** `favorites.filter(id => id !== listingId)`. */
  function RemoveAll(ids: seq<int>, listingId: int): (r: seq<int>)
    decreases |ids|
  {
    if ids == [] then []
    else (if ids[0] == listingId then [] else [ids[0]]) + RemoveAll(ids[1..], listingId)
  }

  /** The removal drops every occurrence of the id and keeps every other id as often as
      it occurs. */
  lemma {:induction false} RemoveAllCounts(ids: seq<int>, listingId: int)
    ensures multiset(RemoveAll(ids, listingId))[listingId] == 0
    ensures forall x :: x != listingId ==> multiset(RemoveAll(ids, listingId))[x] == multiset(ids)[x]
    decreases |ids|
  {
    if ids != [] {
      RemoveAllCounts(ids[1..], listingId);
      assert ids == [ids[0]] + ids[1..];
    }
  }

  /** A list without the id is left as it is. */
  lemma {:induction false} RemoveAllAbsent(ids: seq<int>, listingId: int)
    requires listingId !in ids
    ensures RemoveAll(ids, listingId) == ids
    decreases |ids|
  {
    if ids != [] {
      assert ids[0] != listingId;
      assert listingId !in ids[1..];
      RemoveAllAbsent(ids[1..], listingId);
      assert ids == [ids[0]] + ids[1..];
    }
  }

  /** The favourites after a toggle of `listingId`. */
  function Toggled(ids: seq<int>, listingId: int): seq<int> {
    if listingId in ids then RemoveAll(ids, listingId) else ids + [listingId]
  }

  /** A toggle flips the membership of its id and no other. */
  lemma ToggledMembership(ids: seq<int>, listingId: int)
    ensures listingId in Toggled(ids, listingId) <==> listingId !in ids
    ensures forall x :: x != listingId ==> (x in Toggled(ids, listingId) <==> x in ids)
    ensures forall x :: x != listingId ==>
      multiset(Toggled(ids, listingId))[x] == multiset(ids)[x]
  {
    if listingId in ids {
      RemoveAllCounts(ids, listingId);
      forall x | x != listingId ensures x in Toggled(ids, listingId) <==> x in ids {
        assert x in multiset(ids) <==> x in ids;
        assert x in multiset(RemoveAll(ids, listingId)) <==> x in RemoveAll(ids, listingId);
      }
      assert listingId !in multiset(RemoveAll(ids, listingId));
    }
  }

  /** Toggling the same id twice restores which ids are favourites; when the id was not a
      favourite it restores the list itself. */
  lemma ToggleTwice(ids: seq<int>, listingId: int)
    ensures forall x :: x in Toggled(Toggled(ids, listingId), listingId) <==> x in ids
    ensures listingId !in ids ==> Toggled(Toggled(ids, listingId), listingId) == ids
  {
    var once := Toggled(ids, listingId);
    ToggledMembership(ids, listingId);
    ToggledMembership(once, listingId);
    if listingId !in ids {
      RemoveAllAbsent(ids, listingId);
      RemoveAllAppend(ids, listingId);
    }
  }

  lemma {:induction false} RemoveAllAppend(ids: seq<int>, listingId: int)
    ensures RemoveAll(ids + [listingId], listingId) == RemoveAll(ids, listingId)
    decreases |ids|
  {
    if ids == [] {
      assert ids + [listingId] == [listingId];
    } else {
      assert (ids + [listingId])[1..] == ids[1..] + [listingId];
      RemoveAllAppend(ids[1..], listingId);
    }
  }

  /** The favourite ids kept in the browser's storage. */
  class Favorites {
    var ids: seq<int>

    constructor ()
      ensures ids == []
    {
      ids := [];
    }

    /** toggleFavorite's list logic: drop every occurrence of a favourite id, or append a
        new one. */
    method Toggle(listingId: int)
      modifies this
      ensures ids == Toggled(old(ids), listingId)
      ensures listingId in ids <==> listingId !in old(ids)
      ensures forall x :: x != listingId ==> (x in ids <==> x in old(ids))
    {
      ToggledMembership(ids, listingId);
      if listingId in ids {
        ids := RemoveAll(ids, listingId);
      } else {
        ids := ids + [listingId];
      }
    }
  }

  function MockListing1(): ClientListing {
    ClientListing(1, "Chennai", "Anna Nagar, Chennai", 7000, "pg", 4.1, 4.2, true)
  }

  function MockListing2(): ClientListing {
    ClientListing(2, "Chennai", "Besant Nagar, Chennai", 22000, "flat", 4.6, 4.8, true)
  }

  function MockListing3(): ClientListing {
    ClientListing(3, "Chennai", "Velachery, Chennai", 5500, "hostel", 3.8, 3.9, true)
  }

  function MockListing4(): ClientListing {
    ClientListing(4, "Chennai", "T. Nagar, Chennai", 12000, "flat", 4.2, 4.4, true)
  }

  function MockListing5(): ClientListing {
    ClientListing(5, "Bengaluru", "Koramangala, Bengaluru", 9000, "pg", 4.3, 4.5, true)
  }

  function MockListing6(): ClientListing {
    ClientListing(6, "Bengaluru", "Whitefield, Bengaluru", 15000, "flat", 4.5, 4.7, true)
  }

  function MockListing7(): ClientListing {
    ClientListing(7, "Bengaluru", "Jayanagar, Bengaluru", 6500, "hostel", 3.9, 4.0, true)
  }

  function MockListing8(): ClientListing {
    ClientListing(8, "Bengaluru", "Indiranagar, Bengaluru", 25000, "flat", 4.7, 4.9, true)
  }

  function MockListing9(): ClientListing {
    ClientListing(9, "Delhi", "Lajpat Nagar, Delhi", 8000, "pg", 4.2, 4.4, true)
  }

  function MockListing10(): ClientListing {
    ClientListing(10, "Delhi", "South Extension, Delhi", 25000, "flat", 4.7, 4.9, true)
  }

  function MockListing11(): ClientListing {
    ClientListing(11, "Delhi", "North Campus, Delhi", 6000, "hostel", 3.7, 3.8, true)
  }

  function MockListing12(): ClientListing {
    ClientListing(12, "Delhi", "Dwarka, Delhi", 12000, "flat", 4.0, 4.2, true)
  }

  /** The text on each catalogue card, by listing id: title, travel note, explanation and
      contact number. No search or ranking step reads it. */
  function MockCardText(id: int): Option<CardText> {
    match id
    case 1 => Some(CardText("Budget PG in Chennai", "10 mins to Anna University",
                         "Affordable PG close to Anna University with good safety.", "919876543210"))
    case 2 => Some(CardText("Luxury 3BHK Flat", "5 mins to Marina Beach",
                         "Premium flat near the beach, ideal for professionals.", "919876111222"))
    case 3 => Some(CardText("Student Hostel", "15 mins to IIT Madras",
                         "Budget-friendly hostel option for IIT students.", "919000111333"))
    case 4 => Some(CardText("Affordable 1BHK", "Near shopping hub",
                         "Affordable flat in central Chennai, great for small families.", "919000222444"))
    case 5 => Some(CardText("PG near Christ University", "Walking distance to Christ University",
                         "Close to Christ University, ideal for students.", "917722334455"))
    case 6 => Some(CardText("2BHK Flat in Whitefield", "Near IT Park",
                         "Perfect flat for IT professionals near tech hub.", "919000444555"))
    case 7 => Some(CardText("Affordable Hostel", "10 mins to Metro",
                         "Budget hostel with metro connectivity.", "919333555666"))
    case 8 => Some(CardText("Luxury 3BHK Flat", "Near MG Road",
                         "High-end flat near MG Road with premium amenities.", "919444555777"))
    case 9 => Some(CardText("Girls PG in Delhi", "Near LSR College",
                         "Safe PG for girls near popular colleges.", "919888777111"))
    case 10 => Some(CardText("Luxury Flat", "Near Metro Station",
                         "Premium flat with metro access and high safety.", "919333444555"))
    case 11 => Some(CardText("Hostel near DU", "5 mins to Delhi University",
                         "Affordable hostel option near Delhi University.", "919111222333"))
    case 12 => Some(CardText("Affordable 1BHK Flat", "Near Airport Express",
                         "Budget-friendly flat in Dwarka with metro access.", "919555666777"))
    case _ => None
  }

  function ChennaiListings(): seq<ClientListing> {
    [MockListing1(), MockListing2(), MockListing3(), MockListing4()]
  }

  function BengaluruListings(): seq<ClientListing> {
    [MockListing5(), MockListing6(), MockListing7(), MockListing8()]
  }

  function DelhiListings(): seq<ClientListing> {
    [MockListing9(), MockListing10(), MockListing11(), MockListing12()]
  }

  /** getAllMockListings: twelve listings, four each in Chennai, Bengaluru and Delhi. */
  function AllMockListings(): (listings: seq<ClientListing>)
    ensures |listings| == 12
  {
    ChennaiListings() + BengaluruListings() + DelhiListings()
  }

  /** The listings of `block` carry the ids `first`, `first + 1`, ... in order, are
      verified, have positive rents and safety scores in [0, 5]. */
  predicate Numbered(block: seq<ClientListing>, first: int) {
    forall i :: 0 <= i < |block| ==>
      block[i].id == first + i && block[i].verified && block[i].rent > 0 &&
      0.0 <= block[i].safetyScore <= 5.0
  }

  lemma NumberedAppend(a: seq<ClientListing>, b: seq<ClientListing>, first: int)
    requires Numbered(a, first) && Numbered(b, first + |a|)
    ensures Numbered(a + b, first)
  {
    forall i | |a| <= i < |a + b| ensures (a + b)[i] == b[i - |a|] {}
  }

  lemma BlocksNumbered()
    ensures Numbered(ChennaiListings(), 1)
    ensures Numbered(BengaluruListings(), 5)
    ensures Numbered(DelhiListings(), 9)
  {
  }

  /** The listings are numbered 1 to 12 in order, all verified, with positive rents and
      safety scores in [0, 5]. */
  lemma AllMockListingsShape()
    ensures forall i :: 0 <= i < |AllMockListings()| ==> AllMockListings()[i].id == i + 1
    ensures forall l :: l in AllMockListings() ==> l.verified && l.rent > 0 && 0.0 <= l.safetyScore <= 5.0
  {
    BlocksNumbered();
    NumberedAppend(ChennaiListings(), BengaluruListings(), 1);
    NumberedAppend(ChennaiListings() + BengaluruListings(), DelhiListings(), 1);
  }

  /** The search of the scenario below: budget 10000, location "Chennai", every type. */
  function ChennaiQuery(): SearchData {
    SearchData(Int(10000), "Chennai", "all")
  }

  lemma ChennaiListingsMatch()
    ensures Matches(ChennaiQuery(), MockListing1()) && Matches(ChennaiQuery(), MockListing3())
  {
    assert ToLower("Chennai") == "chennai";
  }

  /** A listing in whose lower-cased address and city "c" is never followed by "h" fails
      the scenario's location test. */
  lemma OutsideChennaiRejected(listing: ClientListing)
    requires forall i :: 0 <= i < |listing.address| - 1 ==>
      !(ToLowerChar(listing.address[i]) == 'c' && ToLowerChar(listing.address[i + 1]) == 'h')
    requires forall i :: 0 <= i < |listing.city| - 1 ==>
      !(ToLowerChar(listing.city[i]) == 'c' && ToLowerChar(listing.city[i + 1]) == 'h')
    ensures !Matches(ChennaiQuery(), listing)
  {
    NotIncludesLower(listing.address, "chennai");
    NotIncludesLower(listing.city, "chennai");
    assert ToLower("Chennai") == "chennai";
  }

  lemma Listing5Rejected()
    ensures !Matches(ChennaiQuery(), MockListing5())
  {
    OutsideChennaiRejected(MockListing5());
  }

  lemma Listing7Rejected()
    ensures !Matches(ChennaiQuery(), MockListing7())
  {
    OutsideChennaiRejected(MockListing7());
  }

  lemma Listing9Rejected()
    ensures !Matches(ChennaiQuery(), MockListing9())
  {
    OutsideChennaiRejected(MockListing9());
  }

  lemma Listing11Rejected()
    ensures !Matches(ChennaiQuery(), MockListing11())
  {
    OutsideChennaiRejected(MockListing11());
  }

  /** Filtering a concatenation filters each part. */
  lemma {:induction false} FilterAppend(a: seq<ClientListing>, b: seq<ClientListing>, search: SearchData)
    ensures Filter(a + b, search) == Filter(a, search) + Filter(b, search)
    decreases |a|
  {
    if a == [] {
      assert a + b == b;
    } else {
      assert (a + b)[0] == a[0] && (a + b)[1..] == a[1..] + b;
      FilterAppend(a[1..], b, search);
    }
  }

  /** The filter keeps or drops the first listing, then filters the rest. */
  lemma FilterCons(listing: ClientListing, rest: seq<ClientListing>, search: SearchData)
    ensures Filter([listing] + rest, search) == Kept(search, listing) + Filter(rest, search)
  {
    assert ([listing] + rest)[1..] == rest;
  }

  /** The filter of a block of four listings, one listing at a time. */
  lemma FilterOfFour(a: ClientListing, b: ClientListing, c: ClientListing, d: ClientListing, search: SearchData)
    ensures Filter([a, b, c, d], search) == Kept(search, a) + (Kept(search, b) + (Kept(search, c) + Kept(search, d)))
  {
    assert [d] == [d] + [];
    FilterCons(d, [], search);
    assert Kept(search, d) + [] == Kept(search, d);
    assert [c, d] == [c] + [d];
    FilterCons(c, [d], search);
    assert [b, c, d] == [b] + [c, d];
    FilterCons(b, [c, d], search);
    assert [a, b, c, d] == [a] + [b, c, d];
    FilterCons(a, [b, c, d], search);
  }

  /** Of the Chennai listings, 1 and 3 are within 10000. */
  lemma ChennaiFilter()
    ensures Filter(ChennaiListings(), ChennaiQuery()) == [MockListing1(), MockListing3()]
  {
    FilterOfFour(MockListing1(), MockListing2(), MockListing3(), MockListing4(), ChennaiQuery());
    ChennaiListingsMatch();
  }

  /** No Bengaluru listing is in Chennai. */
  lemma BengaluruFilter()
    ensures Filter(BengaluruListings(), ChennaiQuery()) == []
  {
    FilterOfFour(MockListing5(), MockListing6(), MockListing7(), MockListing8(), ChennaiQuery());
    Listing5Rejected();
    Listing7Rejected();
  }

  /** No Delhi listing is in Chennai. */
  lemma DelhiFilter()
    ensures Filter(DelhiListings(), ChennaiQuery()) == []
  {
    FilterOfFour(MockListing9(), MockListing10(), MockListing11(), MockListing12(), ChennaiQuery());
    Listing9Rejected();
    Listing11Rejected();
  }

  /** A search in Chennai with a budget of 10000 over every type answers listing 3 and
      then listing 1. */
  lemma ChennaiSearch()
    ensures SearchResults(AllMockListings(), ChennaiQuery()) == [MockListing3(), MockListing1()]
    ensures SearchResults(AllMockListings(), ChennaiQuery())[0].id == 3
    ensures SearchResults(AllMockListings(), ChennaiQuery())[1].id == 1
  {
    CatalogueFilter();
    ChennaiRanking();
    assert SearchResults(AllMockListings(), ChennaiQuery()) == [MockListing3(), MockListing1()];
  }

  /** Of the whole catalogue, the scenario's filter keeps listings 1 and 3, in that order. */
  lemma CatalogueFilter()
    ensures Filter(AllMockListings(), ChennaiQuery()) == [MockListing1(), MockListing3()]
  {
    ChennaiFilter();
    BengaluruFilter();
    DelhiFilter();
    FilterAppend(ChennaiListings(), BengaluruListings(), ChennaiQuery());
    FilterAppend(ChennaiListings() + BengaluruListings(), DelhiListings(), ChennaiQuery());
  }

  /** Listing 3 is the more relevant of the two at a budget of 10000. */
  lemma ChennaiRanking()
    ensures SortDesc([MockListing1(), MockListing3()], ByRelevance(Int(10000))) == [MockListing3(), MockListing1()]
  {
    var key := ByRelevance(Int(10000));
    var one, three := MockListing1(), MockListing3();
    assert key(one) < key(three);
    assert [one, three][..1] == [one] && [one][..0] == [];
    assert SortDesc([one], key) == [one];
    assert Insert([one], three, key) == [three, one];
  }

}
