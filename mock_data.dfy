/** The server's listing catalogue and its recommendation score (server/utils/mockData.js).
    Rents and deposits are whole rupees; ratings and scores are reals. The image URLs of the
    catalogue are not part of this model. */
module MockData {
  import opened Js

  datatype Listing = Listing(
    id: int,
    title: string,
    address: string,
    rent: int,
    deposit: int,
    accommodationType: string,
    rating: real,
    safetyScore: real,
    verified: bool)

  /** getMockListings: the fixed five-listing catalogue. */
  function MockListings(): (listings: seq<Listing>)
    ensures |listings| == 5
  {
    [ Listing(1, "Modern PG Accommodation", "123 College Road, Near Delhi University",
              7500, 15000, "pg", 4.2, 4.5, true),
      Listing(2, "Spacious 2BHK Apartment", "456 University Lane, Delhi",
              12000, 24000, "flat", 4.5, 4.8, true),
      Listing(3, "Budget Hostel", "789 Student Hub, Delhi",
              6000, 6000, "hostel", 3.8, 3.5, true),
      Listing(4, "Luxury PG with Meals", "101 Premium Residency, Delhi",
              9500, 19000, "pg", 4.7, 4.9, true),
      Listing(5, "Suspicious Listing - Too Good To Be True", "999 Fake Address, Delhi",
              4000, 4000, "flat", 2.1, 1.5, false) ]
  }

  /** The catalogue holds listings 1 to 5 in that order, so every id occurs once; listing 5
      is the only unverified one, every rent is positive and every safety score lies in
      [0, 5]. */
  lemma MockListingsShape()
    ensures forall i :: 0 <= i < |MockListings()| ==> MockListings()[i].id == i + 1
    ensures forall i, j :: 0 <= i < j < |MockListings()| ==> MockListings()[i].id != MockListings()[j].id
    ensures forall l :: l in MockListings() ==> (l.verified <==> l.id != 5)
    ensures forall l :: l in MockListings() ==> 4000 <= l.rent <= 12000
    ensures forall l :: l in MockListings() ==> 0.0 <= l.safetyScore <= 5.0
  {
  }

  const PriceWeight: real := 0.4
  const TravelWeight: real := 0.2
  const SafetyWeight: real := 0.3
  const VerificationWeight: real := 0.1

  /** The verification factor: full for a verified listing, half otherwise. */
  function VerificationFactor(verified: bool): real {
    if verified then 1.0 else 0.5
  }

  /** calculateScore, with the travel time `travelMinutes` that `parseInt` reads from the
      listing's "N mins" label. The budget must be non-zero: JavaScript would divide by zero. */
  function CalculateScore(listing: Listing, travelMinutes: int, budget: real): real
    requires budget != 0.0
  {
    var priceFactor := 1.0 - listing.rent as real / budget;
    var travelTimeFactor := 1.0 - travelMinutes as real / 60.0;
    var safetyFactor := listing.safetyScore / 5.0;
    priceFactor * PriceWeight + travelTimeFactor * TravelWeight + safetyFactor * SafetyWeight +
    VerificationFactor(listing.verified) * VerificationWeight
  }

  /** A listing within a positive budget, with a trip of at most an hour and a safety score
      in [0, 5], scores between 0.05 and 1. */
  lemma ScoreBounds(listing: Listing, travelMinutes: int, budget: real)
    requires 0 <= listing.rent && listing.rent as real <= budget && budget > 0.0
    requires 0 <= travelMinutes <= 60 && 0.0 <= listing.safetyScore <= 5.0
    ensures 0.05 <= CalculateScore(listing, travelMinutes, budget) <= 1.0
  {
    DivMonotone(listing.rent as real, budget, budget);
    DivMonotone(0.0, listing.rent as real, budget);
  }

  /** With all else equal, being verified is worth exactly 0.05. */
  lemma VerifiedBonus(listing: Listing, travelMinutes: int, budget: real)
    requires budget != 0.0
    ensures CalculateScore(listing.(verified := true), travelMinutes, budget) ==
      CalculateScore(listing.(verified := false), travelMinutes, budget) + 0.05
  {
  }

  /** For a positive budget a cheaper listing scores strictly higher, all else equal. */
  lemma ScoreDecreasesWithRent(listing: Listing, cheaperRent: int, travelMinutes: int, budget: real)
    requires budget > 0.0 && cheaperRent < listing.rent
    ensures CalculateScore(listing.(rent := cheaperRent), travelMinutes, budget) >
      CalculateScore(listing, travelMinutes, budget)
  {
    assert cheaperRent as real / budget < listing.rent as real / budget by {
      var d := listing.rent as real - cheaperRent as real;
      assert listing.rent as real / budget == cheaperRent as real / budget + d / budget;
      assert d / budget > 0.0;
    }
  }

  /** A shorter trip scores strictly higher, all else equal. */
  lemma ScoreDecreasesWithTravel(listing: Listing, quicker: int, travelMinutes: int, budget: real)
    requires budget != 0.0 && quicker < travelMinutes
    ensures CalculateScore(listing, quicker, budget) > CalculateScore(listing, travelMinutes, budget)
  {
  }
}
