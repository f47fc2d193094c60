/** The `POST /recommendations` handler (server/routes/listings.js): keep the catalogue listings
    within budget and of the requested type, give each a travel time, sort them by
    `calculateScore`, attach a templated explanation and answer the best three. The random
    travel times are inputs here, one `Math.random()` draw per kept listing. */
module ListingsRoute {
  import opened Js
  import opened Sorting
  import opened MockData

  /** The request body fields the route reads. */
  datatype Request = Request(budget: real, accommodationType: string)

  /** The filter callback: within budget, and of the requested type unless `'all'` was asked. */
  predicate Keeps(req: Request, listing: Listing) {
    listing.rent as real <= req.budget &&
    (req.accommodationType == "all" || listing.accommodationType == req.accommodationType)
  }

  /** `listings.filter(...)` with that callback. */
  function Filter(listings: seq<Listing>, req: Request): seq<Listing>
    decreases |listings|
  {
    if listings == [] then []
    else
      var rest := Filter(listings[..|listings| - 1], req);
      if Keeps(req, listings[|listings| - 1]) then rest + [listings[|listings| - 1]] else rest
  }

  /** The filter keeps exactly the listings that pass the callback, each at most as often as
      it occurs; `FilterAppend` states the order. */
  lemma {:induction false} FilterExact(listings: seq<Listing>, req: Request)
    ensures forall l :: l in Filter(listings, req) <==> l in listings && Keeps(req, l)
    ensures multiset(Filter(listings, req)) <= multiset(listings)
    ensures |Filter(listings, req)| <= |listings|
    decreases |listings|
  {
    if listings != [] {
      var init, last := listings[..|listings| - 1], listings[|listings| - 1];
      FilterExact(init, req);
      assert listings == init + [last];
    }
  }

  /** Filtering works piece by piece: the kept listings of `a + b` are those of `a` followed
      by those of `b`, so the filter keeps the catalogue's order. A single listing is kept
      exactly when it passes the callback. */
  lemma {:induction false} FilterAppend(a: seq<Listing>, b: seq<Listing>, req: Request)
    ensures Filter(a + b, req) == Filter(a, req) + Filter(b, req)
    ensures |b| == 1 ==> Filter(b, req) == (if Keeps(req, b[0]) then b else [])
    decreases |b|
  {
    if b == [] {
      assert a + b == a;
    } else {
      var init, last := b[..|b| - 1], b[|b| - 1];
      assert (a + b)[..|a + b| - 1] == a + init && (a + b)[|a + b| - 1] == last;
      FilterAppend(a, init, req);
      if |b| == 1 {
        assert init == [];
      }
    }
  }

  /** Every catalogue rent is positive, so a non-positive budget keeps nothing and any kept
      listing means a budget of at least 4000. */
  lemma KeptMeansPositiveBudget(req: Request)
    ensures Filter(MockListings(), req) != [] ==> req.budget >= 4000.0
  {
    FilterExact(MockListings(), req);
    MockListingsShape();
    if Filter(MockListings(), req) != [] {
      assert Filter(MockListings(), req)[0] in Filter(MockListings(), req);
    }
  }

  /** `Math.floor(Math.random() * 30) + 5` for the draw `draw`. */
  function TravelMinutes(draw: real): int {
    (draw * 30.0).Floor + 5
  }

  /** A draw in [0, 1) gives a travel time of 5 to 34 minutes. */
  lemma TravelMinutesRange(draw: real)
    requires 0.0 <= draw < 1.0
    ensures 5 <= TravelMinutes(draw) <= 34
  {
    var x := draw * 30.0;
    assert 0.0 <= x < 30.0;
    assert x.Floor as real <= x < x.Floor as real + 1.0;
  }

  /** A kept listing with its simulated travel time. */
  datatype TimedListing = TimedListing(listing: Listing, travelMinutes: nat) {
    /** The `travelTime` field, `${travelTime} mins`. */
    function TravelTime(): string {
      NatToString(travelMinutes) + " mins"
    }
  }

  /** The second `map`: each listing with the travel time of its draw. */
  function WithTravelTimes(listings: seq<Listing>, draws: seq<real>): (timed: seq<TimedListing>)
    requires |draws| == |listings|
    requires forall i :: 0 <= i < |draws| ==> 0.0 <= draws[i] < 1.0
    ensures |timed| == |listings|
    ensures forall i :: 0 <= i < |timed| ==>
      timed[i].listing == listings[i] && 5 <= timed[i].travelMinutes <= 34
  {
    seq(|listings|, i requires 0 <= i < |listings| =>
      TravelMinutesRange(draws[i]);
      TimedListing(listings[i], TravelMinutes(draws[i]) as nat))
  }

  /** The sort comparator's `calculateScore(listing, budget)`, with the minutes `parseInt`
      reads back from the travel time label. A zero budget admits no listing, so its branch
      never reaches a comparison. */
  function RouteScore(t: TimedListing, budget: real): real {
    if budget == 0.0 then 0.0 else CalculateScore(t.listing, t.travelMinutes, budget)
  }

  function ByScore(budget: real): TimedListing -> real {
    t => RouteScore(t, budget)
  }

  /** The score the comparator computes is the one `calculateScore` gives for the label the
      listing carries. */
  lemma RouteScoreReadsLabel(t: TimedListing, budget: real)
    requires budget != 0.0
    ensures ParseInt(t.TravelTime()) == Int(t.travelMinutes)
    ensures RouteScore(t, budget) == CalculateScore(t.listing, t.travelMinutes, budget)
  {
    ParseIntOfMinutesLabel(t.travelMinutes);
  }

  const FlaggedExplanation: string :=
    "This listing has been flagged as suspicious. The price is unusually low for the area and amenities."
  const WellUnderBudget: string := "well under your budget, "
  const WithinBudget: string := "within your budget, "
  const ExcellentSafety: string := "and has excellent safety ratings."
  const GoodSafety: string := "and has good safety ratings."
  const AverageSafety: string := "but has average safety ratings."

  /** The opening of a verified listing's explanation. */
  function Opening(t: TimedListing): string {
    "This " + t.listing.accommodationType + " is " + t.TravelTime() + " from your location, "
  }

  /** The explanation's budget clause. */
  function BudgetPhrase(rent: int, budget: real): string {
    if rent as real <= budget * 0.8 then WellUnderBudget else WithinBudget
  }

  /** The explanation's safety clause: at least 4 is excellent, at least 3 good, else average. */
  function SafetyPhrase(safetyScore: real): string {
    if safetyScore >= 4.0 then ExcellentSafety
    else if safetyScore >= 3.0 then GoodSafety
    else AverageSafety
  }

  /** The explanation the third `map` attaches. */
  function AiExplanation(t: TimedListing, budget: real): string {
    if t.listing.verified then Opening(t) + BudgetPhrase(t.listing.rent, budget) + SafetyPhrase(t.listing.safetyScore)
    else FlaggedExplanation
  }

  /** Builds the explanation as the handler does, clause by clause. */
  method BuildExplanation(t: TimedListing, budget: real) returns (explanation: string)
    ensures explanation == AiExplanation(t, budget)
  {
    explanation := "";
    if t.listing.verified {
      explanation := "This " + t.listing.accommodationType + " is " + t.TravelTime() + " from your location, ";
      if t.listing.rent as real <= budget * 0.8 {
        explanation := explanation + WellUnderBudget;
      } else {
        explanation := explanation + WithinBudget;
      }
      if t.listing.safetyScore >= 4.0 {
        explanation := explanation + ExcellentSafety;
      } else if t.listing.safetyScore >= 3.0 {
        explanation := explanation + GoodSafety;
      } else {
        explanation := explanation + AverageSafety;
      }
    } else {
      explanation := FlaggedExplanation;
    }
  }

  lemma SuffixOfAppend(x: string, p: string, q: string)
    requires EndsWith(x + p, q)
    ensures |q| <= |p| ==> p[|p| - |q|..] == q
    ensures |q| > |p| ==> q[|q| - |p|..] == p
  {
    var s := x + p;
    if |q| <= |p| {
      assert s[|s| - |q|..] == p[|p| - |q|..];
    } else {
      assert s[|s| - |p|..] == p;
      assert q[|q| - |p|..] == s[|s| - |p|..];
    }
  }

  /** An explanation is the fixed "flagged as suspicious" text exactly when the listing is not
      verified: a verified listing's text ends in "ratings." and never in "amenities.". */
  lemma FlaggedIffUnverified(t: TimedListing, budget: real)
    ensures AiExplanation(t, budget) == FlaggedExplanation <==> !t.listing.verified
  {
    if t.listing.verified {
      var x := Opening(t) + BudgetPhrase(t.listing.rent, budget);
      var p := SafetyPhrase(t.listing.safetyScore);
      var s := x + p;
      assert s[|s| - 3] == p[|p| - 3] == 'g';
      assert FlaggedExplanation[|FlaggedExplanation| - 3] == 'e';
    }
  }

  /** After the opening, a verified listing's explanation goes on "well under your budget, "
      exactly when the rent is at most 80% of the budget, and "within your budget, " exactly
      when it is more. */
  lemma BudgetClause(t: TimedListing, budget: real)
    requires t.listing.verified
    ensures |Opening(t)| <= |AiExplanation(t, budget)|
    ensures StartsWith(AiExplanation(t, budget)[|Opening(t)|..], WellUnderBudget) <==>
      t.listing.rent as real <= budget * 0.8
    ensures StartsWith(AiExplanation(t, budget)[|Opening(t)|..], WithinBudget) <==>
      t.listing.rent as real > budget * 0.8
  {
    var o, b, p := Opening(t), BudgetPhrase(t.listing.rent, budget), SafetyPhrase(t.listing.safetyScore);
    var r := b + p;
    assert (o + b + p)[|o|..] == r;
    assert r[..|b|] == b && r[1] == b[1];
    assert WellUnderBudget[1] != WithinBudget[1];
  }

  // Each safety clause ends only the texts that end with it.

  lemma EndsExcellent(x: string)
    ensures EndsWith(x + ExcellentSafety, ExcellentSafety)
    ensures !EndsWith(x + ExcellentSafety, GoodSafety)
    ensures !EndsWith(x + ExcellentSafety, AverageSafety)
  {
    assert (x + ExcellentSafety)[|x|..] == ExcellentSafety;
    if EndsWith(x + ExcellentSafety, GoodSafety) {
      SuffixOfAppend(x, ExcellentSafety, GoodSafety);
    }
    if EndsWith(x + ExcellentSafety, AverageSafety) {
      SuffixOfAppend(x, ExcellentSafety, AverageSafety);
    }
  }

  lemma EndsGood(x: string)
    ensures EndsWith(x + GoodSafety, GoodSafety)
    ensures !EndsWith(x + GoodSafety, ExcellentSafety)
    ensures !EndsWith(x + GoodSafety, AverageSafety)
  {
    assert (x + GoodSafety)[|x|..] == GoodSafety;
    if EndsWith(x + GoodSafety, ExcellentSafety) {
      SuffixOfAppend(x, GoodSafety, ExcellentSafety);
    }
    if EndsWith(x + GoodSafety, AverageSafety) {
      SuffixOfAppend(x, GoodSafety, AverageSafety);
    }
  }

  lemma EndsAverage(x: string)
    ensures EndsWith(x + AverageSafety, AverageSafety)
    ensures !EndsWith(x + AverageSafety, ExcellentSafety)
    ensures !EndsWith(x + AverageSafety, GoodSafety)
  {
    assert (x + AverageSafety)[|x|..] == AverageSafety;
    if EndsWith(x + AverageSafety, ExcellentSafety) {
      SuffixOfAppend(x, AverageSafety, ExcellentSafety);
    }
    if EndsWith(x + AverageSafety, GoodSafety) {
      SuffixOfAppend(x, AverageSafety, GoodSafety);
    }
  }

  /** A verified listing's explanation closes with the excellent-safety clause exactly when its
      safety score is at least 4, the good-safety clause exactly when it is at least 3 and below
      4, and the average-safety clause exactly when it is below 3. */
  lemma SafetyClause(t: TimedListing, budget: real)
    requires t.listing.verified
    ensures EndsWith(AiExplanation(t, budget), ExcellentSafety) <==> t.listing.safetyScore >= 4.0
    ensures EndsWith(AiExplanation(t, budget), GoodSafety) <==> 3.0 <= t.listing.safetyScore < 4.0
    ensures EndsWith(AiExplanation(t, budget), AverageSafety) <==> t.listing.safetyScore < 3.0
  {
    var x := Opening(t) + BudgetPhrase(t.listing.rent, budget);
    var p := SafetyPhrase(t.listing.safetyScore);
    EndsExcellent(x);
    EndsGood(x);
    EndsAverage(x);
    assert ExcellentSafety != GoodSafety && ExcellentSafety != AverageSafety && GoodSafety != AverageSafety by {
      assert |ExcellentSafety| == 33 && |GoodSafety| == 28 && |AverageSafety| == 31;
    }
  }

  datatype Recommendation = Recommendation(timed: TimedListing, aiExplanation: string)

  /** The kept listings of `catalogue` with their travel times, ranked by non-increasing score. */
  function Ranked(catalogue: seq<Listing>, req: Request, draws: seq<real>): seq<TimedListing>
    requires |draws| == |Filter(catalogue, req)|
    requires forall i :: 0 <= i < |draws| ==> 0.0 <= draws[i] < 1.0
  {
    SortDesc(WithTravelTimes(Filter(catalogue, req), draws), ByScore(req.budget))
  }

  /** The third `map`: every listing with its explanation attached. */
  function ExplainAll(ts: seq<TimedListing>, budget: real): seq<Recommendation>
    decreases |ts|
  {
    if ts == [] then []
    else ExplainAll(ts[..|ts| - 1], budget) + [Recommendation(ts[|ts| - 1], AiExplanation(ts[|ts| - 1], budget))]
  }

  /** Attaching explanations keeps the listings, their order and every field but adds the
      explanation. */
  lemma {:induction false} ExplainAllKeeps(ts: seq<TimedListing>, budget: real)
    ensures |ExplainAll(ts, budget)| == |ts|
    ensures forall i :: 0 <= i < |ts| ==>
      ExplainAll(ts, budget)[i].timed == ts[i] && ExplainAll(ts, budget)[i].aiExplanation == AiExplanation(ts[i], budget)
    decreases |ts|
  {
    if ts != [] {
      ExplainAllKeeps(ts[..|ts| - 1], budget);
    }
  }

  /** The handler's response for the catalogue `catalogue` (`getMockListings()`, which is
      `MockListings()`): the first three ranked listings, each with its explanation. */
  method Recommendations(catalogue: seq<Listing>, req: Request, draws: seq<real>) returns (top: seq<Recommendation>)
    requires |draws| == |Filter(catalogue, req)|
    requires forall i :: 0 <= i < |draws| ==> 0.0 <= draws[i] < 1.0
    ensures top == Take(ExplainAll(Ranked(catalogue, req, draws), req.budget), 3)
  {
    var timed := WithTravelTimes(Filter(catalogue, req), draws);
    var a := new TimedListing[|timed|](i requires 0 <= i < |timed| => timed[i]);
    assert a[..] == timed;
    SortInPlace(a, ByScore(req.budget));
    var explained := ExplainEach(a, req.budget);
    top := Take(explained, 3);
  }

  /** The loop that builds each listing's explanation in turn, in the order of `a`. */
  method ExplainEach(a: array<TimedListing>, budget: real) returns (explained: seq<Recommendation>)
    ensures explained == ExplainAll(a[..], budget)
  {
    explained := [];
    for i := 0 to a.Length
      invariant explained == ExplainAll(a[..i], budget)
    {
      var explanation := BuildExplanation(a[i], budget);
      assert a[..i + 1][..i] == a[..i];
      explained := explained + [Recommendation(a[i], explanation)];
    }
    assert a[..a.Length] == a[..];
  }

  /** Every ranked listing is a kept catalogue listing with one of the travel times. */
  lemma RankedFromCatalogue(catalogue: seq<Listing>, req: Request, draws: seq<real>)
    requires |draws| == |Filter(catalogue, req)|
    requires forall i :: 0 <= i < |draws| ==> 0.0 <= draws[i] < 1.0
    ensures forall t :: t in Ranked(catalogue, req, draws) ==>
      t.listing in catalogue && Keeps(req, t.listing) && 5 <= t.travelMinutes <= 34
  {
    var kept := Filter(catalogue, req);
    var timed := WithTravelTimes(kept, draws);
    FilterExact(catalogue, req);
    SortDescSortedAndPermutes(timed, ByScore(req.budget));
    forall t | t in Ranked(catalogue, req, draws)
      ensures t.listing in catalogue && Keeps(req, t.listing) && 5 <= t.travelMinutes <= 34
    {
      assert t in multiset(Ranked(catalogue, req, draws));
      assert t in multiset(timed);
      var i :| 0 <= i < |timed| && timed[i] == t;
      assert kept[i] in kept;
    }
  }

  /** The response holds at most three listings, each a kept catalogue listing, ranked by
      non-increasing score, and no kept listing left out scores higher than one answered. */
  lemma RecommendationsRanked(catalogue: seq<Listing>, req: Request, draws: seq<real>)
    requires |draws| == |Filter(catalogue, req)|
    requires forall i :: 0 <= i < |draws| ==> 0.0 <= draws[i] < 1.0
    ensures |Take(Ranked(catalogue, req, draws), 3)| <= 3
    ensures forall t :: t in Take(Ranked(catalogue, req, draws), 3) ==> t.listing in catalogue && Keeps(req, t.listing)
    ensures SortedDesc(Take(Ranked(catalogue, req, draws), 3), ByScore(req.budget))
    ensures forall x, y ::
      (x in multiset(WithTravelTimes(Filter(catalogue, req), draws)) - multiset(Take(Ranked(catalogue, req, draws), 3)) &&
       y in Take(Ranked(catalogue, req, draws), 3)) ==>
      RouteScore(x, req.budget) <= RouteScore(y, req.budget)
  {
    var ranked := Ranked(catalogue, req, draws);
    var timed := WithTravelTimes(Filter(catalogue, req), draws);
    var key := ByScore(req.budget);
    TopOfSortDesc(timed, key, 3);
    RankedFromCatalogue(catalogue, req, draws);
    assert forall t :: t in Take(ranked, 3) ==> t in ranked;
    forall x, y | x in multiset(timed) - multiset(Take(ranked, 3)) && y in Take(ranked, 3)
      ensures RouteScore(x, req.budget) <= RouteScore(y, req.budget)
    {
      assert key(x) <= key(y);
      assert key(x) == RouteScore(x, req.budget) && key(y) == RouteScore(y, req.budget);
    }
  }
}
