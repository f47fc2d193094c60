/** Heuristic fraud detection (server/utils/fraudDetection.js): a listing is a likely
    duplicate of a pool listing when a weighted mix of text, location, rent and amenity
    similarity exceeds 0.85; an owner profile is scored by four fixed rules. Floating-point
    numbers are modelled as reals, and a `NaN` produced by `0 / 0` as `None`. */
module FraudDetection {
  import opened Js

  const SimilarityThreshold: real := 0.85
  const FakeIdThreshold: real := 0.75

  const TitleWeight: real := 0.25
  const AddressWeight: real := 0.3
  const DescriptionWeight: real := 0.15
  const LocationWeight: real := 0.2
  const RentWeight: real := 0.05
  const AmenitiesWeight: real := 0.05

  /** Listings farther apart than this many metres have location similarity 0. */
  const LocationRange: real := 2000.0

  datatype Coordinates = Coordinates(lat: real, lng: real)

  /** The great-circle distance in metres between two points; the haversine formula itself
      is not part of this model, so every operation that needs it takes it as a parameter. */
  type Distance = (Coordinates, Coordinates) -> real

  /** A distance that is never negative and is zero from a point to itself. */
  ghost predicate IsDistance(distance: Distance) {
    forall p, q :: distance(p, q) >= 0.0 && distance(p, p) == 0.0
  }

  /** A listing as the detector receives it: any field it reads may be missing. */
  datatype Listing = Listing(
    id: int,
    title: Option<string>,
    address: Option<string>,
    description: Option<string>,
    rent: Option<real>,
    amenities: Option<seq<string>>,
    coordinates: Option<Coordinates>)

  datatype ListingFeatures = ListingFeatures(
    title: string,
    address: string,
    description: string,
    rent: real,
    amenities: seq<string>,
    coordinates: Coordinates)

  function LowerOrEmpty(text: Option<string>): string {
    if text.Some? then ToLower(text.value) else ""
  }

  /** extractListingFeatures: each present field carried over, texts lower-cased, and
      neutral values for missing fields (a rent of 0 is falsy too and stays 0). */
  function ExtractListingFeatures(listing: Listing): (f: ListingFeatures)
    ensures listing.title.Some? ==> f.title == ToLower(listing.title.value)
    ensures listing.address.Some? ==> f.address == ToLower(listing.address.value)
    ensures listing.description.Some? ==> f.description == ToLower(listing.description.value)
    ensures listing.title.None? ==> f.title == ""
    ensures listing.address.None? ==> f.address == ""
    ensures listing.description.None? ==> f.description == ""
    ensures ToLower(f.title) == f.title && ToLower(f.address) == f.address
    ensures ToLower(f.description) == f.description
    ensures f.rent == (if listing.rent.Some? then listing.rent.value else 0.0)
    ensures f.amenities == (if listing.amenities.Some? then listing.amenities.value else [])
    ensures f.coordinates == (if listing.coordinates.Some? then listing.coordinates.value else Coordinates(0.0, 0.0))
  {
    ListingFeatures(
      LowerOrEmpty(listing.title),
      LowerOrEmpty(listing.address),
      LowerOrEmpty(listing.description),
      if listing.rent.Some? then listing.rent.value else 0.0,
      if listing.amenities.Some? then listing.amenities.value else [],
      if listing.coordinates.Some? then listing.coordinates.value else Coordinates(0.0, 0.0))
  }

  /** |a ∩ b| / |a ∪ b|. */
  function Jaccard<T>(a: set<T>, b: set<T>): real
    requires a + b != {}
  {
    |a * b| as real / |a + b| as real
  }

  lemma SubsetCardinality<T>(x: set<T>, y: set<T>)
    requires x <= y
    ensures |x| <= |y|
    ensures |x| == |y| ==> x == y
  {
    assert y == x + (y - x);
    assert x * (y - x) == {};
    if |x| == |y| {
      assert |y - x| == 0;
      assert y - x == {};
    }
  }

  lemma JaccardProperties<T>(a: set<T>, b: set<T>)
    requires a + b != {}
    ensures 0.0 <= Jaccard(a, b) <= 1.0
    ensures Jaccard(a, b) == Jaccard(b, a)
    ensures Jaccard(a, b) == 1.0 <==> a == b
  {
    var meet, join := a * b, a + b;
    SubsetCardinality(meet, join);
    assert b * a == meet && b + a == join;
    RatioBounds(|meet| as real, |join| as real);
    if a == b {
      assert meet == join;
    }
    if |meet| == |join| {
      MeetIsJoin(a, b);
    }
  }

  /** Two sets whose intersection is their union are equal. */
  lemma MeetIsJoin<T>(a: set<T>, b: set<T>)
    requires |a * b| == |a + b|
    ensures a == b
  {
    SubsetCardinality(a * b, a + b);
    assert forall x :: x in a ==> x in a * b;
    assert forall x :: x in b ==> x in a * b;
  }

  /** The set of words of a text. */
  function WordSet(text: string): set<string> {
    set w | w in Tokens(text)
  }

  lemma WordSetEmptyIffBlank(text: string)
    ensures WordSet(text) == {} <==> Blank(text)
  {
    TokensEmptyIffBlank(text);
    if Tokens(text) != [] {
      assert Tokens(text)[0] in WordSet(text);
    }
  }

  /** calculateTextSimilarity: the Jaccard index of the two word sets, 0 when either text is
      empty, and `NaN` (here `None`) when both are non-empty but hold no word at all. */
  function TextSimilarity(text1: string, text2: string): (r: Option<real>)
    ensures r.Some? ==> 0.0 <= r.value <= 1.0
  {
    if text1 == "" || text2 == "" then Some(0.0)
    else
      var words1, words2 := WordSet(text1), WordSet(text2);
      if words1 + words2 == {} then None
      else
        JaccardProperties(words1, words2);
        Some(Jaccard(words1, words2))
  }

  /** The text score is 0 for an empty text, `NaN` exactly when both texts are whitespace
      only, symmetric, within [0, 1], and, when there is a word, 1 exactly when both texts
      have the same set of words. */
  lemma TextSimilarityProperties(text1: string, text2: string)
    ensures text1 == "" || text2 == "" ==> TextSimilarity(text1, text2) == Some(0.0)
    ensures TextSimilarity(text1, text2).None? <==>
      text1 != "" && text2 != "" && Blank(text1) && Blank(text2)
    ensures TextSimilarity(text1, text2) == TextSimilarity(text2, text1)
    ensures TextSimilarity(text1, text2).Some? ==> 0.0 <= TextSimilarity(text1, text2).value <= 1.0
    ensures !Blank(text1) ==> TextSimilarity(text1, text1) == Some(1.0)
    ensures text1 != "" && text2 != "" && !Blank(text1) ==>
      (TextSimilarity(text1, text2) == Some(1.0) <==> WordSet(text1) == WordSet(text2))
  {
    WordSetEmptyIffBlank(text1);
    WordSetEmptyIffBlank(text2);
    var words1, words2 := WordSet(text1), WordSet(text2);
    assert words1 + words2 == words2 + words1;
    if words1 + words2 != {} {
      JaccardProperties(words1, words2);
    }
    if !Blank(text1) {
      assert text1 != "";
      assert words1 + words1 != {};
      JaccardProperties(words1, words1);
    }
  }

  /** calculateLocationSimilarity: 1 at distance 0 falling linearly to 0 at 2 km, and 0 when
      either point is missing. */
  function LocationSimilarity(coord1: Option<Coordinates>, coord2: Option<Coordinates>, distance: Distance): (r: real)
    ensures 0.0 <= r
    ensures coord1.Some? && coord2.Some? && distance(coord1.value, coord2.value) >= 0.0 ==> r <= 1.0
  {
    if coord1.None? || coord2.None? then 0.0
    else Max(0.0, 1.0 - distance(coord1.value, coord2.value) / LocationRange)
  }

  lemma LocationSimilarityProperties(coord1: Option<Coordinates>, coord2: Option<Coordinates>, distance: Distance)
    ensures coord1.None? || coord2.None? ==> LocationSimilarity(coord1, coord2, distance) == 0.0
    ensures coord1.Some? && coord2.Some? && distance(coord1.value, coord2.value) >= 0.0 ==>
      0.0 <= LocationSimilarity(coord1, coord2, distance) <= 1.0
    ensures coord1.Some? && coord2.Some? && distance(coord1.value, coord2.value) == 0.0 ==>
      LocationSimilarity(coord1, coord2, distance) == 1.0
    ensures coord1.Some? && coord2.Some? && distance(coord1.value, coord2.value) >= LocationRange ==>
      LocationSimilarity(coord1, coord2, distance) == 0.0
  {
  }

  /** calculateRentSimilarity: 1 minus the difference relative to the larger rent, floored at 0;
      0 when either rent is 0. */
  function RentSimilarity(rent1: real, rent2: real): (r: real)
    ensures 0.0 <= r
    ensures rent1 >= 0.0 && rent2 >= 0.0 ==> r <= 1.0
  {
    if rent1 == 0.0 || rent2 == 0.0 then 0.0
    else
      var maxRent, minRent := Max(rent1, rent2), Min(rent1, rent2);
      Max(0.0, 1.0 - (maxRent - minRent) / maxRent)
  }

  /** For positive rents the rent score is the smaller rent over the larger one: it lies in
      (0, 1], is symmetric, and is 1 exactly when the rents are equal. */
  lemma RentSimilarityRatio(rent1: real, rent2: real)
    ensures rent1 == 0.0 || rent2 == 0.0 ==> RentSimilarity(rent1, rent2) == 0.0
    ensures rent1 > 0.0 && rent2 > 0.0 ==>
      && RentSimilarity(rent1, rent2) == Min(rent1, rent2) / Max(rent1, rent2)
      && 0.0 < RentSimilarity(rent1, rent2) <= 1.0
      && RentSimilarity(rent1, rent2) == RentSimilarity(rent2, rent1)
      && (RentSimilarity(rent1, rent2) == 1.0 <==> rent1 == rent2)
  {
    if rent1 > 0.0 && rent2 > 0.0 {
      var maxRent, minRent := Max(rent1, rent2), Min(rent1, rent2);
      ShortfallRatio(minRent, maxRent);
      RatioBounds(minRent, maxRent);
      DivStrict(0.0, minRent, maxRent);
    }
  }

  /** calculateAmenitiesSimilarity: the Jaccard index of the two amenity sets, 0 when either
      list is empty. */
  function AmenitiesSimilarity(amenities1: seq<string>, amenities2: seq<string>): (r: real)
    ensures 0.0 <= r <= 1.0
  {
    if |amenities1| == 0 || |amenities2| == 0 then 0.0
    else
      var set1, set2 := set a | a in amenities1, set a | a in amenities2;
      assert amenities1[0] in set1;
      JaccardProperties(set1, set2);
      Jaccard(set1, set2)
  }

  lemma AmenitiesSimilarityProperties(amenities1: seq<string>, amenities2: seq<string>)
    ensures |amenities1| == 0 || |amenities2| == 0 ==> AmenitiesSimilarity(amenities1, amenities2) == 0.0
    ensures 0.0 <= AmenitiesSimilarity(amenities1, amenities2) <= 1.0
    ensures AmenitiesSimilarity(amenities1, amenities2) == AmenitiesSimilarity(amenities2, amenities1)
    ensures |amenities1| > 0 ==> AmenitiesSimilarity(amenities1, amenities1) == 1.0
  {
    var set1, set2 := set a | a in amenities1, set a | a in amenities2;
    if |amenities1| > 0 {
      assert amenities1[0] in set1;
      JaccardProperties(set1, set2);
      JaccardProperties(set1, set1);
    } else if |amenities2| > 0 {
      assert amenities2[0] in set2;
      JaccardProperties(set1, set2);
    }
  }

  /** calculateSimilarity: the weighted sum of the six component scores; `NaN` (here `None`)
      when any text score is `NaN`. */
  function Similarity(features1: ListingFeatures, features2: ListingFeatures, distance: Distance): (r: Option<real>)
    ensures
      && features1.rent >= 0.0 && features2.rent >= 0.0
      && distance(features1.coordinates, features2.coordinates) >= 0.0
      && r.Some?
      ==> 0.0 <= r.value <= 1.0
  {
    var title := TextSimilarity(features1.title, features2.title);
    var address := TextSimilarity(features1.address, features2.address);
    var description := TextSimilarity(features1.description, features2.description);
    var location := LocationSimilarity(Some(features1.coordinates), Some(features2.coordinates), distance);
    var rent := RentSimilarity(features1.rent, features2.rent);
    var amenities := AmenitiesSimilarity(features1.amenities, features2.amenities);
    if title.None? || address.None? || description.None? then None
    else
      Some(title.value * TitleWeight + address.value * AddressWeight + description.value * DescriptionWeight +
           location * LocationWeight + rent * RentWeight + amenities * AmenitiesWeight)
  }

  lemma WeightsSumToOne()
    ensures TitleWeight + AddressWeight + DescriptionWeight + LocationWeight + RentWeight + AmenitiesWeight == 1.0
  {
  }

  /** With non-negative rents and distance the combined score lies in [0, 1]: the weights sum
      to 1 and every component does. It is `NaN` only when some text field is whitespace-only
      on both sides. */
  lemma SimilarityInUnitInterval(features1: ListingFeatures, features2: ListingFeatures, distance: Distance)
    requires features1.rent >= 0.0 && features2.rent >= 0.0
    requires distance(features1.coordinates, features2.coordinates) >= 0.0
    ensures Similarity(features1, features2, distance).Some? ==>
      0.0 <= Similarity(features1, features2, distance).value <= 1.0
    ensures Similarity(features1, features2, distance).None? ==>
      || (Blank(features1.title) && Blank(features2.title))
      || (Blank(features1.address) && Blank(features2.address))
      || (Blank(features1.description) && Blank(features2.description))
  {
    TextSimilarityProperties(features1.title, features2.title);
    TextSimilarityProperties(features1.address, features2.address);
    TextSimilarityProperties(features1.description, features2.description);
    LocationSimilarityProperties(Some(features1.coordinates), Some(features2.coordinates), distance);
    RentBetweenZeroAndOne(features1.rent, features2.rent);
    AmenitiesSimilarityProperties(features1.amenities, features2.amenities);
  }

  lemma RentBetweenZeroAndOne(rent1: real, rent2: real)
    requires rent1 >= 0.0 && rent2 >= 0.0
    ensures 0.0 <= RentSimilarity(rent1, rent2) <= 1.0
  {
    RentSimilarityRatio(rent1, rent2);
  }

  /** A listing with a word in its title, address and description, a positive rent and at
      least one amenity scores exactly 1 against a listing with the same features. */
  lemma IdenticalFeaturesScoreOne(listing: Listing, distance: Distance)
    requires listing.title.Some? && !Blank(listing.title.value)
    requires listing.address.Some? && !Blank(listing.address.value)
    requires listing.description.Some? && !Blank(listing.description.value)
    requires listing.rent.Some? && listing.rent.value > 0.0
    requires listing.amenities.Some? && |listing.amenities.value| > 0
    requires IsDistance(distance)
    ensures Similarity(ExtractListingFeatures(listing), ExtractListingFeatures(listing), distance) == Some(1.0)
  {
    var f := ExtractListingFeatures(listing);
    LowerKeepsBlank(listing.title.value);
    LowerKeepsBlank(listing.address.value);
    LowerKeepsBlank(listing.description.value);
    TextSimilarityProperties(f.title, f.title);
    TextSimilarityProperties(f.address, f.address);
    TextSimilarityProperties(f.description, f.description);
    assert distance(f.coordinates, f.coordinates) == 0.0;
    LocationSimilarityProperties(Some(f.coordinates), Some(f.coordinates), distance);
    RentSimilarityRatio(f.rent, f.rent);
    AmenitiesSimilarityProperties(f.amenities, f.amenities);
  }

  /** Without a description the same listing scores exactly 0.85: a missing description
      scores 0 against itself, and its weight 0.15 is lost. */
  lemma IdenticalWithoutDescriptionScore(listing: Listing, distance: Distance)
    requires listing.title.Some? && !Blank(listing.title.value)
    requires listing.address.Some? && !Blank(listing.address.value)
    requires listing.description.None?
    requires listing.rent.Some? && listing.rent.value > 0.0
    requires listing.amenities.Some? && |listing.amenities.value| > 0
    requires IsDistance(distance)
    ensures Similarity(ExtractListingFeatures(listing), ExtractListingFeatures(listing), distance) == Some(SimilarityThreshold)
  {
    var f := ExtractListingFeatures(listing);
    LowerKeepsBlank(listing.title.value);
    LowerKeepsBlank(listing.address.value);
    TextSimilarityProperties(f.title, f.title);
    TextSimilarityProperties(f.address, f.address);
    assert TextSimilarity(f.description, f.description) == Some(0.0);
    assert distance(f.coordinates, f.coordinates) == 0.0;
    LocationSimilarityProperties(Some(f.coordinates), Some(f.coordinates), distance);
    RentSimilarityRatio(f.rent, f.rent);
    AmenitiesSimilarityProperties(f.amenities, f.amenities);
  }

  /** The comparison with the threshold is strict, so such an exact copy of a listing that
      has no description is not recorded as a match. */
  lemma IdenticalWithoutDescriptionNotMatched(listing: Listing, distance: Distance)
    requires listing.title.Some? && !Blank(listing.title.value)
    requires listing.address.Some? && !Blank(listing.address.value)
    requires listing.description.None?
    requires listing.rent.Some? && listing.rent.value > 0.0
    requires listing.amenities.Some? && |listing.amenities.value| > 0
    requires IsDistance(distance)
    ensures MatchOf(ExtractListingFeatures(listing), listing, distance) == []
  {
    IdenticalWithoutDescriptionScore(listing, distance);
  }

  datatype SimilarListing = SimilarListing(id: int, similarity: real)

  datatype DuplicateResult = DuplicateResult(
    isDuplicate: bool,
    confidence: real,
    similarListings: seq<SimilarListing>)

  /** What one pool listing contributes to `similarListings`: itself and its score when the
      score exceeds the threshold (a `NaN` score never does), nothing otherwise. */
  function MatchOf(features: ListingFeatures, listing: Listing, distance: Distance): seq<SimilarListing> {
    var similarity := Similarity(features, ExtractListingFeatures(listing), distance);
    if similarity.Some? && similarity.value > SimilarityThreshold
    then [SimilarListing(listing.id, similarity.value)]
    else []
  }

  /** The similar listings found in `pool`, in pool order. */
  function Matches(features: ListingFeatures, pool: seq<Listing>, distance: Distance): seq<SimilarListing>
    decreases |pool|
  {
    if pool == [] then []
    else Matches(features, pool[..|pool| - 1], distance) + MatchOf(features, pool[|pool| - 1], distance)
  }

  /** The running maximum the loop keeps, starting from 0. */
  function BestSimilarity(matches: seq<SimilarListing>): real
    decreases |matches|
  {
    if matches == [] then 0.0
    else Max(BestSimilarity(matches[..|matches| - 1]), matches[|matches| - 1].similarity)
  }

  /** Matching distributes over concatenation of pools, so entries keep pool order. */
  lemma {:induction false} MatchesAppend(features: ListingFeatures, pool1: seq<Listing>, pool2: seq<Listing>, distance: Distance)
    ensures Matches(features, pool1 + pool2, distance) ==
      Matches(features, pool1, distance) + Matches(features, pool2, distance)
    decreases |pool2|
  {
    if pool2 == [] {
      assert pool1 + pool2 == pool1;
    } else {
      var init := pool2[..|pool2| - 1];
      assert (pool1 + pool2)[..|pool1 + pool2| - 1] == pool1 + init;
      MatchesAppend(features, pool1, init, distance);
    }
  }

  /** The pool listing at position `i` is recorded exactly when its score exceeds 0.85, and
      its entry sits between those of the listings before it and those after it. */
  lemma MatchesSplitAt(features: ListingFeatures, pool: seq<Listing>, i: nat, distance: Distance)
    requires i < |pool|
    ensures Matches(features, pool, distance) ==
      Matches(features, pool[..i], distance) + MatchOf(features, pool[i], distance) +
      Matches(features, pool[i + 1..], distance)
  {
    assert pool == pool[..i] + [pool[i]] + pool[i + 1..];
    MatchesAppend(features, pool[..i] + [pool[i]], pool[i + 1..], distance);
    MatchesAppend(features, pool[..i], [pool[i]], distance);
    assert [pool[i]][..0] == [];
  }

  /** Every recorded entry scored above the threshold. */
  lemma {:induction false} MatchesAboveThreshold(features: ListingFeatures, pool: seq<Listing>, distance: Distance)
    ensures forall m :: m in Matches(features, pool, distance) ==> m.similarity > SimilarityThreshold
    decreases |pool|
  {
    if pool != [] {
      MatchesAboveThreshold(features, pool[..|pool| - 1], distance);
    }
  }

  /** The confidence is the largest recorded score, and 0 when nothing was recorded. */
  lemma {:induction false} BestSimilarityIsMaximum(matches: seq<SimilarListing>)
    requires forall m :: m in matches ==> m.similarity > 0.0
    ensures forall m :: m in matches ==> m.similarity <= BestSimilarity(matches)
    ensures matches == [] <==> BestSimilarity(matches) == 0.0
    ensures matches != [] ==> exists m :: m in matches && m.similarity == BestSimilarity(matches)
    decreases |matches|
  {
    if matches != [] {
      var init := matches[..|matches| - 1];
      assert forall m :: m in init ==> m in matches;
      BestSimilarityIsMaximum(init);
      assert matches == init + [matches[|matches| - 1]];
    }
  }

  /** Extending the scanned prefix of the pool by one listing appends that listing's
      contribution. */
  lemma ExtendPool(features: ListingFeatures, pool: seq<Listing>, i: nat, distance: Distance)
    requires i < |pool|
    ensures Matches(features, pool[..i + 1], distance) ==
      Matches(features, pool[..i], distance) + MatchOf(features, pool[i], distance)
  {
    assert pool[..i + 1][..i] == pool[..i];
  }

  /** Appending a recorded score raises the confidence to it if it is larger. */
  lemma BestSimilarityAppend(matches: seq<SimilarListing>, m: SimilarListing)
    ensures BestSimilarity(matches + [m]) == Max(BestSimilarity(matches), m.similarity)
  {
    assert (matches + [m])[..|matches|] == matches;
  }

  /** A pool listing with the same features as the new one (with a word in each text, a
      positive rent and an amenity) is recorded with similarity 1. */
  lemma IdenticalListingIsDuplicate(newListing: Listing, pool: seq<Listing>, i: nat, distance: Distance)
    requires i < |pool| && ExtractListingFeatures(pool[i]) == ExtractListingFeatures(newListing)
    requires newListing.title.Some? && !Blank(newListing.title.value)
    requires newListing.address.Some? && !Blank(newListing.address.value)
    requires newListing.description.Some? && !Blank(newListing.description.value)
    requires newListing.rent.Some? && newListing.rent.value > 0.0
    requires newListing.amenities.Some? && |newListing.amenities.value| > 0
    requires IsDistance(distance)
    ensures SimilarListing(pool[i].id, 1.0) in Matches(ExtractListingFeatures(newListing), pool, distance)
  {
    var features := ExtractListingFeatures(newListing);
    IdenticalFeaturesScoreOne(newListing, distance);
    MatchesSplitAt(features, pool, i, distance);
    assert MatchOf(features, pool[i], distance) == [SimilarListing(pool[i].id, 1.0)];
  }

  /** detectDuplicateListings: compares the new listing with every pool listing in order,
      recording those scoring above 0.85 and keeping the highest recorded score. */
  method DetectDuplicateListings(newListing: Listing, existingListings: Option<seq<Listing>>, distance: Distance)
    returns (result: DuplicateResult)
    ensures existingListings.None? || existingListings.value == [] ==>
      result == DuplicateResult(false, 0.0, [])
    ensures existingListings.Some? ==>
      result.similarListings == Matches(ExtractListingFeatures(newListing), existingListings.value, distance)
    ensures result.isDuplicate <==> result.similarListings != []
    ensures result.confidence == BestSimilarity(result.similarListings)
    ensures forall m :: m in result.similarListings ==>
      SimilarityThreshold < m.similarity <= result.confidence
    ensures result.similarListings == [] <==> result.confidence == 0.0
  {
    result := DuplicateResult(false, 0.0, []);
    if existingListings.None? || |existingListings.value| == 0 {
      return;
    }
    var pool := existingListings.value;
    var newListingFeatures := ExtractListingFeatures(newListing);
    for i := 0 to |pool|
      invariant result.similarListings == Matches(newListingFeatures, pool[..i], distance)
      invariant result.isDuplicate <==> result.similarListings != []
      invariant result.confidence == BestSimilarity(result.similarListings)
    {
      ExtendPool(newListingFeatures, pool, i, distance);
      var existingFeatures := ExtractListingFeatures(pool[i]);
      var similarity := Similarity(newListingFeatures, existingFeatures, distance);
      if similarity.Some? && similarity.value > SimilarityThreshold {
        var entry := SimilarListing(pool[i].id, similarity.value);
        assert MatchOf(newListingFeatures, pool[i], distance) == [entry];
        BestSimilarityAppend(result.similarListings, entry);
        result := result.(isDuplicate := true, similarListings := result.similarListings + [entry]);
        if similarity.value > result.confidence {
          result := result.(confidence := similarity.value);
        }
      } else {
        assert MatchOf(newListingFeatures, pool[i], distance) == [];
      }
    }
    assert pool[..|pool|] == pool;
    MatchesAboveThreshold(newListingFeatures, pool, distance);
    BestSimilarityIsMaximum(result.similarListings);
  }

  // ---- Fake profile detection ----

  /** An owner profile. `createdAt` is the account's creation time in milliseconds, as
      `new Date(createdAt).getTime()` gives it. */
  datatype UserProfile = UserProfile(
    name: Option<string>,
    email: Option<string>,
    phone: Option<string>,
    address: Option<string>,
    idProof: Option<string>,
    createdAt: Option<int>,
    listingsCount: Option<int>)

  datatype UserFeatures = UserFeatures(
    completeness: real,
    suspiciousEmail: bool,
    suspiciousPhone: bool,
    suspiciousActivity: bool)

  datatype FlagType = IncompleteProfile | SuspiciousEmail | SuspiciousPhone | SuspiciousActivity {
    /** The `type` string the source attaches to the flag. */
    function Name(): string {
      match this
      case IncompleteProfile => "incomplete_profile"
      case SuspiciousEmail => "suspicious_email"
      case SuspiciousPhone => "suspicious_phone"
      case SuspiciousActivity => "suspicious_activity"
    }

    /** The position of the rule in the order the rules are checked. */
    function Rank(): nat {
      match this
      case IncompleteProfile => 0
      case SuspiciousEmail => 1
      case SuspiciousPhone => 2
      case SuspiciousActivity => 3
    }
  }

  datatype Severity = Medium | High {
    function Name(): string {
      match this
      case Medium => "medium"
      case High => "high"
    }

    /** The score a rule of this severity adds to the total. */
    function Weight(): real {
      match this
      case Medium => 0.3
      case High => 0.4
    }
  }

  /** A flag as pushed onto `result.flags`: its `type` and `description` are fixed by the
      rule that raised it. */
  datatype Flag = Flag(kind: FlagType, severity: Severity) {
    function Type(): string {
      kind.Name()
    }

    function Description(): string {
      match kind
      case IncompleteProfile => "Profile is missing important information"
      case SuspiciousEmail => "Email pattern matches known suspicious patterns"
      case SuspiciousPhone => "Phone number pattern is suspicious or invalid"
      case SuspiciousActivity => "User activity pattern matches known suspicious patterns"
    }
  }

  datatype FakeIdResult = FakeIdResult(isFake: bool, confidence: real, flags: seq<Flag>)

  /** The flag each rule raises: the two profile-shape rules are of medium severity, the
      email and phone rules of high severity. */
  function RuleFlag(kind: FlagType): Flag {
    match kind
    case IncompleteProfile => Flag(kind, Medium)
    case SuspiciousEmail => Flag(kind, High)
    case SuspiciousPhone => Flag(kind, High)
    case SuspiciousActivity => Flag(kind, Medium)
  }

  /** A required field is present and not blank after `trim`. */
  predicate Filled(field: Option<string>) {
    field.Some? && !Blank(field.value)
  }

  function Count(b: bool): nat {
    if b then 1 else 0
  }

  /** How many of name, email, phone, address and idProof are filled. */
  function FilledFields(profile: UserProfile): nat {
    Count(Filled(profile.name)) + Count(Filled(profile.email)) + Count(Filled(profile.phone)) +
    Count(Filled(profile.address)) + Count(Filled(profile.idProof))
  }

  /** The length of the longest prefix of `s` matching `[a-z0-9]*` case-insensitively. */
  function AlnumPrefixLength(s: string): (k: nat)
    ensures k <= |s|
    ensures forall i :: 0 <= i < k ==> IsAlnum(s[i])
    ensures k < |s| ==> !IsAlnum(s[k])
  {
    if s == [] || !IsAlnum(s[0]) then 0 else 1 + AlnumPrefixLength(s[1..])
  }

  /** `/^[a-z0-9]{20,}@/i`. The `@` can only follow the whole alphanumeric prefix, since `@`
      is not alphanumeric. */
  predicate LongLocalPart(email: string) {
    var k := AlnumPrefixLength(email);
    k >= 20 && k < |email| && email[k] == '@'
  }

  /** `/^temp[0-9]+@/i`. */
  predicate TempLocalPart(email: string) {
    |email| >= 4 && ToLower(email[..4]) == "temp" &&
    var digits := |LeadingDigits(email[4..])|;
    digits >= 1 && 4 + digits < |email| && email[4 + digits] == '@'
  }

  /** `/^[a-z0-9]{8,}[0-9]{4,}@/i`: an alphanumeric prefix of at least 12 characters ending
      in 4 digits, then `@` (taking the four digits last is the split that leaves the most
      characters for the first group). */
  predicate RandomLocalPart(email: string) {
    var k := AlnumPrefixLength(email);
    k >= 12 && k < |email| && email[k] == '@' && AllDigits(email[k - 4..k])
  }

  const DisposableDomains: seq<string> :=
    ["mailinator", "tempmail", "guerrilla", "10minutemail", "yopmail", "throwaway"]

  /** `/@(mailinator|tempmail|guerrilla|10minutemail|yopmail|throwaway)/i`: some `@` is
      followed by one of these names. */
  predicate DisposableDomain(email: string) {
    exists i :: 0 <= i < |email| && email[i] == '@' &&
      exists d :: d in DisposableDomains && StartsWith(ToLower(email[i + 1..]), d)
  }

  /** Whichever pattern matches, a suspicious address holds an `@`. */
  predicate SuspiciousEmailAddress(email: Option<string>)
    ensures SuspiciousEmailAddress(email) ==> email.Some? && '@' in email.value
  {
    email.Some? && email.value != "" &&
    (LongLocalPart(email.value) || TempLocalPart(email.value) ||
     RandomLocalPart(email.value) || DisposableDomain(email.value))
  }

  /** The alphanumeric run from the start ends where the first other character stands. */
  lemma AlnumPrefixAt(s: string, k: nat)
    requires k < |s| && !IsAlnum(s[k])
    requires forall i :: 0 <= i < k ==> IsAlnum(s[i])
    ensures AlnumPrefixLength(s) == k
  {
  }

  /** `/^[a-z0-9]{20,}@/i` in its own terms: twenty or more letters or digits from the start,
      then `@`. */
  lemma LongLocalPartMeans(email: string)
    ensures LongLocalPart(email) <==>
      exists k :: 20 <= k < |email| && (forall i :: 0 <= i < k ==> IsAlnum(email[i])) && email[k] == '@'
  {
    if exists k :: 20 <= k < |email| && (forall i :: 0 <= i < k ==> IsAlnum(email[i])) && email[k] == '@' {
      var k :| 20 <= k < |email| && (forall i :: 0 <= i < k ==> IsAlnum(email[i])) && email[k] == '@';
      AlnumPrefixAt(email, k);
    }
  }

  /** The leading run of digits is exactly the `k` digits before the first non-digit. */
  lemma LeadingDigitsAt(s: string, k: nat)
    requires k < |s| && !IsDigit(s[k])
    requires AllDigits(s[..k])
    ensures |LeadingDigits(s)| == k
  {
    var d := LeadingDigits(s);
    assert d == s[..|d|];
    assert forall i :: 0 <= i < k ==> s[..k][i] == s[i];
  }

  /** `/^temp[0-9]+@/i` in its own terms: `temp` in any case, one or more digits, then `@`. */
  lemma TempLocalPartMeans(email: string)
    ensures TempLocalPart(email) <==>
      |email| >= 4 && ToLower(email[..4]) == "temp" &&
      exists k :: 5 <= k < |email| && AllDigits(email[4..k]) && email[k] == '@'
  {
    if |email| >= 4 {
      var rest := email[4..];
      var d := LeadingDigits(rest);
      if 1 <= |d| && 4 + |d| < |email| {
        assert email[4..4 + |d|] == d;
      }
      if exists k :: 5 <= k < |email| && AllDigits(email[4..k]) && email[k] == '@' {
        var k :| 5 <= k < |email| && AllDigits(email[4..k]) && email[k] == '@';
        assert rest[..k - 4] == email[4..k];
        assert rest[k - 4] == '@';
        LeadingDigitsAt(rest, k - 4);
      }
    }
  }

  /** `/^[a-z0-9]{8,}[0-9]{4,}@/i` in its own terms: at least eight letters or digits, then at
      least four digits, then `@`. */
  lemma RandomLocalPartMeans(email: string)
    ensures RandomLocalPart(email) <==>
      exists j, k :: 8 <= j && j + 4 <= k < |email| &&
        (forall i :: 0 <= i < j ==> IsAlnum(email[i])) && AllDigits(email[j..k]) && email[k] == '@'
  {
    var n := AlnumPrefixLength(email);
    if RandomLocalPart(email) {
      assert 8 <= n - 4 && n - 4 + 4 <= n < |email|;
      assert forall i :: 0 <= i < n - 4 ==> IsAlnum(email[i]);
    }
    if exists j, k :: 8 <= j && j + 4 <= k < |email| &&
        (forall i :: 0 <= i < j ==> IsAlnum(email[i])) && AllDigits(email[j..k]) && email[k] == '@' {
      var j, k :| 8 <= j && j + 4 <= k < |email| &&
        (forall i :: 0 <= i < j ==> IsAlnum(email[i])) && AllDigits(email[j..k]) && email[k] == '@';
      forall i | j <= i < k ensures IsAlnum(email[i]) {
        assert email[j..k][i - j] == email[i];
      }
      AlnumPrefixAt(email, k);
      var digits, last := email[j..k], email[k - 4..k];
      forall i | 0 <= i < |last| ensures IsDigit(last[i]) {
        assert last[i] == digits[k - 4 + i - j];
      }
    }
  }

  const FakePhonePrefixes: seq<string> :=
    ["123", "456", "789", "000", "111", "222", "333", "444", "555", "666", "777", "888", "999"]

  /** `/^1234/`, `/0000/` and `/^(123|456|...|999)/`. */
  predicate SuspiciousPhoneNumber(phone: Option<string>) {
    phone.Some? && phone.value != "" &&
    (StartsWith(phone.value, "1234") || Includes(phone.value, "0000") ||
     exists p :: p in FakePhonePrefixes && StartsWith(phone.value, p))
  }

  /** The three phone patterns in their own terms: the number starts with `1234`, holds
      `0000` at some index, or its first three characters are one of the listed prefixes. */
  lemma SuspiciousPhoneMeans(phone: string)
    ensures SuspiciousPhoneNumber(Some(phone)) <==>
      phone != "" &&
      ((|phone| >= 4 && phone[..4] == "1234") ||
       (exists i :: OccursAt(phone, "0000", i)) ||
       (|phone| >= 3 && phone[..3] in FakePhonePrefixes))
  {
    IncludesMeans(phone, "0000");
    forall p | p in FakePhonePrefixes && StartsWith(phone, p) ensures phone[..3] == p {
      assert |p| == 3;
    }
    if |phone| >= 3 && phone[..3] in FakePhonePrefixes {
      assert StartsWith(phone, phone[..3]);
    }
  }

  const Day: int := 86400000

  /** An account less than a day old with more than five listings. */
  predicate SuspiciousActivityPattern(profile: UserProfile, now: int) {
    profile.createdAt.Some? && now - profile.createdAt.value < Day &&
    profile.listingsCount.Some? && profile.listingsCount.value > 5
  }

  /** extractUserFeatures, with the clock reading `now` passed in: the share of the five
      fields that are filled, and the verdict of each of the three pattern checks. */
  function ExtractUserFeatures(profile: UserProfile, now: int): (f: UserFeatures)
    ensures f.completeness == FilledFields(profile) as real / 5.0
    ensures 0.0 <= f.completeness <= 1.0
    ensures f.suspiciousEmail == SuspiciousEmailAddress(profile.email)
    ensures f.suspiciousPhone == SuspiciousPhoneNumber(profile.phone)
    ensures f.suspiciousActivity == SuspiciousActivityPattern(profile, now)
  {
    UserFeatures(
      FilledFields(profile) as real / 5.0,
      SuspiciousEmailAddress(profile.email),
      SuspiciousPhoneNumber(profile.phone),
      SuspiciousActivityPattern(profile, now))
  }

  /** The profile counts as incomplete exactly when at most three of the five fields are filled. */
  lemma IncompleteIffAtMostThreeFilled(profile: UserProfile, now: int)
    ensures ExtractUserFeatures(profile, now).completeness < 0.7 <==> FilledFields(profile) <= 3
  {
  }

  predicate Triggered(features: UserFeatures, kind: FlagType) {
    match kind
    case IncompleteProfile => features.completeness < 0.7
    case SuspiciousEmail => features.suspiciousEmail
    case SuspiciousPhone => features.suspiciousPhone
    case SuspiciousActivity => features.suspiciousActivity
  }

  /** The flag list after checking one rule: the rule's flag is pushed when it fires. */
  function Push(flags: seq<Flag>, features: UserFeatures, kind: FlagType): seq<Flag> {
    if Triggered(features, kind) then flags + [RuleFlag(kind)] else flags
  }

  /** The running total after checking one rule: the rule's weight is added when it fires. */
  function AddScore(totalScore: real, features: UserFeatures, kind: FlagType): real {
    if Triggered(features, kind) then totalScore + RuleFlag(kind).severity.Weight() else totalScore
  }

  /** The flags the four rules raise, checked in their fixed order. */
  function TriggeredFlags(features: UserFeatures): seq<Flag> {
    var afterCompleteness := Push([], features, IncompleteProfile);
    var afterEmail := Push(afterCompleteness, features, SuspiciousEmail);
    var afterPhone := Push(afterEmail, features, SuspiciousPhone);
    Push(afterPhone, features, SuspiciousActivity)
  }

  /** The total the four rules add up to. */
  function TriggeredScore(features: UserFeatures): real {
    var afterCompleteness := AddScore(0.0, features, IncompleteProfile);
    var afterEmail := AddScore(afterCompleteness, features, SuspiciousEmail);
    var afterPhone := AddScore(afterEmail, features, SuspiciousPhone);
    AddScore(afterPhone, features, SuspiciousActivity)
  }

  /** The kinds of `flags` strictly increase in rule order. */
  predicate RankIncreasing(flags: seq<Flag>) {
    forall i, j :: 0 <= i < j < |flags| ==> flags[i].kind.Rank() < flags[j].kind.Rank()
  }

  lemma PushKeepsRankIncreasing(flags: seq<Flag>, features: UserFeatures, kind: FlagType)
    requires RankIncreasing(flags)
    requires forall flag :: flag in flags ==> flag.kind.Rank() < kind.Rank()
    ensures RankIncreasing(Push(flags, features, kind))
    ensures forall flag :: flag in Push(flags, features, kind) ==> flag.kind.Rank() <= kind.Rank()
  {
    var r := Push(flags, features, kind);
    forall i, j | 0 <= i < j < |r| ensures r[i].kind.Rank() < r[j].kind.Rank() {
      if j >= |flags| {
        assert r[j] == RuleFlag(kind) && r[i] == flags[i];
        assert flags[i] in flags;
      }
    }
  }

  lemma InPush(flags: seq<Flag>, features: UserFeatures, kind: FlagType, flag: Flag)
    ensures flag in Push(flags, features, kind) <==>
      flag in flags || (Triggered(features, kind) && flag == RuleFlag(kind))
  {
  }

  lemma TriggeredFlagsMembers(features: UserFeatures, flag: Flag)
    ensures flag in TriggeredFlags(features) <==> exists kind :: Triggered(features, kind) && flag == RuleFlag(kind)
  {
    var f1 := Push([], features, IncompleteProfile);
    var f2 := Push(f1, features, SuspiciousEmail);
    var f3 := Push(f2, features, SuspiciousPhone);
    InPush([], features, IncompleteProfile, flag);
    InPush(f1, features, SuspiciousEmail, flag);
    InPush(f2, features, SuspiciousPhone, flag);
    InPush(f3, features, SuspiciousActivity, flag);
  }

  /** One flag per triggered rule and none for the others, each with its rule's severity and
      text, in the order the rules are checked. */
  lemma TriggeredFlagsExact(features: UserFeatures)
    ensures forall kind: FlagType :: RuleFlag(kind) in TriggeredFlags(features) <==> Triggered(features, kind)
    ensures forall flag :: flag in TriggeredFlags(features) ==> flag == RuleFlag(flag.kind)
    ensures RankIncreasing(TriggeredFlags(features))
  {
    var f1 := Push([], features, IncompleteProfile);
    var f2 := Push(f1, features, SuspiciousEmail);
    var f3 := Push(f2, features, SuspiciousPhone);
    PushKeepsRankIncreasing([], features, IncompleteProfile);
    PushKeepsRankIncreasing(f1, features, SuspiciousEmail);
    PushKeepsRankIncreasing(f2, features, SuspiciousPhone);
    PushKeepsRankIncreasing(f3, features, SuspiciousActivity);
    forall flag {
      TriggeredFlagsMembers(features, flag);
    }
    forall kind: FlagType ensures RuleFlag(kind) in TriggeredFlags(features) <==> Triggered(features, kind) {
      assert RuleFlag(kind).kind == kind;
    }
  }

  function TotalWeight(flags: seq<Flag>): real
    decreases |flags|
  {
    if flags == [] then 0.0 else TotalWeight(flags[..|flags| - 1]) + flags[|flags| - 1].severity.Weight()
  }

  lemma PushWeight(flags: seq<Flag>, features: UserFeatures, kind: FlagType)
    ensures TotalWeight(Push(flags, features, kind)) == AddScore(TotalWeight(flags), features, kind)
  {
    assert (flags + [RuleFlag(kind)])[..|flags|] == flags;
  }

  /** The total the detector accumulates is the sum of the weights of the flags it raises. */
  lemma TriggeredScoreIsTotalWeight(features: UserFeatures)
    ensures TriggeredScore(features) == TotalWeight(TriggeredFlags(features))
  {
    var f1 := Push([], features, IncompleteProfile);
    var f2 := Push(f1, features, SuspiciousEmail);
    var f3 := Push(f2, features, SuspiciousPhone);
    PushWeight([], features, IncompleteProfile);
    PushWeight(f1, features, SuspiciousEmail);
    PushWeight(f2, features, SuspiciousPhone);
    PushWeight(f3, features, SuspiciousActivity);
  }

  /** The mean severity weight of the flags, 0 when there is none. */
  function MeanWeight(flags: seq<Flag>): real {
    if flags == [] then 0.0 else TotalWeight(flags) / |flags| as real
  }

  lemma {:induction false} TotalWeightBounds(flags: seq<Flag>)
    ensures 0.3 * |flags| as real <= TotalWeight(flags) <= 0.4 * |flags| as real
    decreases |flags|
  {
    if flags != [] {
      TotalWeightBounds(flags[..|flags| - 1]);
    }
  }

  /** An average of weights that are each 0.3 or 0.4 lies between 0.3 and 0.4, so it never
      exceeds the 0.75 threshold: no profile is ever judged fake. */
  lemma MeanWeightBounds(flags: seq<Flag>)
    ensures flags == [] ==> MeanWeight(flags) == 0.0
    ensures flags != [] ==> 0.3 <= MeanWeight(flags) <= 0.4
    ensures !(MeanWeight(flags) > FakeIdThreshold)
  {
    if flags != [] {
      TotalWeightBounds(flags);
      var n := |flags| as real;
      DivMonotone(TotalWeight(flags), 0.4 * n, n);
      DivMonotone(0.3 * n, TotalWeight(flags), n);
      ProductOverFactor(0.4, n);
      ProductOverFactor(0.3, n);
    }
  }

  /** The four rule checks of detectFakeID, in order: each triggered rule pushes its flag,
      adds its weight to the running total and counts one more flag. */
  method ApplyRules(features: UserFeatures) returns (flags: seq<Flag>, totalScore: real, flagCount: int)
    ensures flags == TriggeredFlags(features)
    ensures totalScore == TriggeredScore(features) && totalScore == TotalWeight(flags)
    ensures flagCount == |flags|
  {
    flags, totalScore, flagCount := [], 0.0, 0;
    ghost var flags0, score0 := Push(flags, features, IncompleteProfile), AddScore(totalScore, features, IncompleteProfile);
    if features.completeness < 0.7 {
      flags := flags + [RuleFlag(IncompleteProfile)];
      totalScore := totalScore + 0.3;
      flagCount := flagCount + 1;
    }
    assert flags == flags0 && totalScore == score0 && flagCount == |flags|;
    ghost var flags1, score1 := Push(flags, features, SuspiciousEmail), AddScore(totalScore, features, SuspiciousEmail);
    if features.suspiciousEmail {
      flags := flags + [RuleFlag(SuspiciousEmail)];
      totalScore := totalScore + 0.4;
      flagCount := flagCount + 1;
    }
    assert flags == flags1 && totalScore == score1 && flagCount == |flags|;
    ghost var flags2, score2 := Push(flags, features, SuspiciousPhone), AddScore(totalScore, features, SuspiciousPhone);
    if features.suspiciousPhone {
      flags := flags + [RuleFlag(SuspiciousPhone)];
      totalScore := totalScore + 0.4;
      flagCount := flagCount + 1;
    }
    assert flags == flags2 && totalScore == score2 && flagCount == |flags|;
    ghost var flags3, score3 := Push(flags, features, SuspiciousActivity), AddScore(totalScore, features, SuspiciousActivity);
    if features.suspiciousActivity {
      flags := flags + [RuleFlag(SuspiciousActivity)];
      totalScore := totalScore + 0.3;
      flagCount := flagCount + 1;
    }
    assert flags == flags3 && totalScore == score3 && flagCount == |flags|;
    TriggeredScoreIsTotalWeight(features);
  }

  /** detectFakeID: applies the four rules to the profile's features; the confidence is the
      total weight over the number of flags, and the profile is fake when that exceeds 0.75. */
  method DetectFakeID(userProfile: Option<UserProfile>, now: int) returns (result: FakeIdResult)
    ensures userProfile.None? ==> result == FakeIdResult(false, 0.0, [])
    ensures userProfile.Some? ==> result.flags == TriggeredFlags(ExtractUserFeatures(userProfile.value, now))
    ensures result.confidence == MeanWeight(result.flags)
    ensures result.isFake <==> result.confidence > FakeIdThreshold
    ensures 0.0 <= result.confidence <= 0.4 && !result.isFake
  {
    result := FakeIdResult(false, 0.0, []);
    if userProfile.None? {
      return;
    }
    var features := ExtractUserFeatures(userProfile.value, now);
    var flags, totalScore, flagCount := ApplyRules(features);
    var confidence := if flagCount > 0 then totalScore / flagCount as real else 0.0;
    result := FakeIdResult(confidence > FakeIdThreshold, confidence, flags);
    MeanWeightBounds(result.flags);
  }

  // ---- Worked examples ----

  /** Twenty-two `a`s at `mailinator.com`. */
  function LongDisposableEmail(): string {
    seq(22, i => 'a') + "@mailinator.com"
  }

  /** A local part of twenty or more letters is flagged. */
  lemma LongDisposableEmailIsLong()
    ensures LongLocalPart(LongDisposableEmail())
  {
    var e := LongDisposableEmail();
    assert e[22] == '@';
    AlnumPrefixAt(e, 22);
  }

  /** So is an address at a disposable domain. */
  lemma LongDisposableEmailIsDisposable()
    ensures DisposableDomain(LongDisposableEmail())
  {
    var e := LongDisposableEmail();
    var domain := "mailinator.com";
    assert e[22] == '@' && e[22 + 1..] == domain;
    assert ToLower(domain) == domain;
    var d := DisposableDomains[0];
    assert d in DisposableDomains && StartsWith(ToLower(e[22 + 1..]), d);
  }

  lemma LongDisposableEmailSuspicious()
    ensures SuspiciousEmailAddress(Some(LongDisposableEmail()))
  {
    LongDisposableEmailIsLong();
  }

  const OrdinaryEmail: string := "ravi@gmail.com"

  /** The letters of `ravi` stop at the `@`, and `@` stands at no other index. */
  lemma OrdinaryEmailShape()
    ensures AlnumPrefixLength(OrdinaryEmail) == 4
    ensures forall i :: 0 <= i < |OrdinaryEmail| && OrdinaryEmail[i] == '@' ==> i == 4
  {
    AlnumPrefixAt(OrdinaryEmail, 4);
  }

  /** A short local part at an ordinary domain matches none of the four patterns. */
  lemma OrdinaryEmailNotSuspicious()
    ensures !SuspiciousEmailAddress(Some(OrdinaryEmail))
  {
    var e := OrdinaryEmail;
    OrdinaryEmailShape();
    assert ToLower(e[..4]) == "ravi";
    var domain := "gmail.com";
    assert e[5..] == domain;
    assert ToLower(domain) == domain;
    forall d | d in DisposableDomains ensures !StartsWith(domain, d) {
      assert d[0] != 'g' || d[1] != 'm';
    }
  }

  const OrdinaryPhone: string := "9876543210"

  /** `1234…` and a number holding `0000` are flagged. */
  lemma SuspiciousPhoneExamples()
    ensures SuspiciousPhoneNumber(Some("1234567890"))
    ensures SuspiciousPhoneNumber(Some("9810000345"))
  {
    var zeros := "9810000345";
    SuspiciousPhoneMeans(zeros);
    assert OccursAt(zeros, "0000", 3);
  }

  lemma OrdinaryPhoneHasNoZeros()
    ensures !exists i :: OccursAt(OrdinaryPhone, "0000", i)
  {
    var phone := OrdinaryPhone;
    forall i | 0 <= i && i + 4 <= |phone| ensures !OccursAt(phone, "0000", i) {
      assert phone[i..i + 4][0] == phone[i];
    }
  }

  lemma OrdinaryPhonePrefixes()
    ensures !(OrdinaryPhone[..4] == "1234")
    ensures OrdinaryPhone[..3] !in FakePhonePrefixes
  {
    var phone := OrdinaryPhone;
    assert phone[..4][0] == '9';
    var first := phone[..3];
    assert first == "987";
    forall p | p in FakePhonePrefixes ensures p != first {
      assert p[0] != '9' || p[1] != '8';
    }
  }

  /** An ordinary mobile number is not. */
  lemma OrdinaryPhoneNotSuspicious()
    ensures !SuspiciousPhoneNumber(Some(OrdinaryPhone))
  {
    SuspiciousPhoneMeans(OrdinaryPhone);
    OrdinaryPhoneHasNoZeros();
    OrdinaryPhonePrefixes();
  }

  /** A profile with all five fields filled whose only fault is the email above. */
  function LongEmailProfile(): UserProfile {
    UserProfile(Some("Ravi"), Some(LongDisposableEmail()), Some(OrdinaryPhone), Some("Chennai"), Some("ID123"), None, None)
  }

  lemma LongEmailProfileFilled()
    ensures FilledFields(LongEmailProfile()) == 5
  {
    var profile := LongEmailProfile();
    assert !IsSpace(profile.name.value[0]) && !IsSpace(profile.email.value[0]);
    assert !IsSpace(profile.phone.value[0]) && !IsSpace(profile.address.value[0]);
    assert !IsSpace(profile.idProof.value[0]);
  }

  lemma LongEmailProfileFeatures(now: int)
    ensures ExtractUserFeatures(LongEmailProfile(), now) == UserFeatures(1.0, true, false, false)
  {
    LongEmailProfileFilled();
    LongDisposableEmailSuspicious();
    OrdinaryPhoneNotSuspicious();
  }

  /** A complete profile with a suspicious email and nothing else raises the email flag
      alone, so its confidence is that flag's weight. */
  lemma EmailOnlyVerdict()
    ensures TriggeredFlags(UserFeatures(1.0, true, false, false)) == [RuleFlag(SuspiciousEmail)]
    ensures MeanWeight([RuleFlag(SuspiciousEmail)]) == 0.4
  {
    assert [RuleFlag(SuspiciousEmail)][..0] == [];
  }

  /** The profile above scores a confidence of 0.4 and is not judged fake. */
  lemma LongEmailProfileVerdict(now: int)
    ensures TriggeredFlags(ExtractUserFeatures(LongEmailProfile(), now)) == [RuleFlag(SuspiciousEmail)]
    ensures MeanWeight(TriggeredFlags(ExtractUserFeatures(LongEmailProfile(), now))) == 0.4
    ensures !(MeanWeight(TriggeredFlags(ExtractUserFeatures(LongEmailProfile(), now))) > FakeIdThreshold)
  {
    LongEmailProfileFeatures(now);
    EmailOnlyVerdict();
  }
}
