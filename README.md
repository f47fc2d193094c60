# SafeStay listing core in Dafny

SafeStay helps students find a PG, hostel or flat. This project models four parts of it and
proves properties of them:

- **Fraud heuristics.** `FraudDetection` models `server/utils/fraudDetection.js`.
  - Duplicate detection compares a new listing with a pool of listings. It uses a weighted
    mix of word-set Jaccard similarity on title, address and description, distance-based
    location similarity, rent ratio and amenity Jaccard.
  - Fake-profile detection scores an owner profile with four fixed rules.
- **Server scoring.** `MockData` models `server/utils/mockData.js`: the five-listing
  catalogue and `calculateScore`.
- **Recommendation route.** `ListingsRoute` models the `POST /recommendations` handler of
  `server/routes/listings.js`. It filters by budget and type, adds a travel time, sorts in
  place by `calculateScore`, adds a templated explanation and returns the top three.
- **Client search.** `ClientApp` models `client/app.js`:
  - the filter, relevance sort and top six of `getMockListings`;
  - `calculateRelevanceScore`;
  - the four orders of `applySort`;
  - the favourites list that `toggleFavorite` changes (the `Favorites` class);
  - the twelve-listing catalogue of `getAllMockListings`.

Two support modules:

- `Js` models the JavaScript built-ins the code relies on: `undefined` as `Option`, `parseInt`
  results as `Number` (`NaN` or an integer), `\s`, ASCII `toLowerCase`, `includes`,
  `split(/\s+/)`, `slice(0, n)` and number-to-string. It also has prefix and suffix tests:
  the prefix test stands for regular expressions anchored with `^`.
- `Sorting` models `Array.prototype.sort` with a `b - a` comparator as a stable sort into
  non-increasing key order. JavaScript's sort has been stable since ES2019, so its result is
  fixed by its input. It is defined once as a function (`SortDesc`), and an in-place
  insertion sort on an `array` (`SortInPlace`) is proved to compute it. Stability is proved
  for every input: the elements of each key leave in the order they came (`SortDescStable`).
  It decides which tied listings survive the route's top three and the client's top six. An
  ascending sort is the descending sort on the negated key.

The in-place steps are methods proved against specification functions:

- the duplicate loop;
- the four rule checks of the fake-profile detector;
- the in-place sorts;
- the clause-by-clause building of the explanation;
- the favourites toggle.

Scores are `real`. A `0 / 0` that JavaScript turns into `NaN` is `None`.

Proved about the code as written:

- **No profile is ever judged fake.** The fake-profile confidence is the mean of the weights
  of the raised flags. Each weight is 0.3 or 0.4, so the mean never reaches the 0.75
  threshold (`MeanWeightBounds`, `DetectFakeID`).
- **Travel times run from 5 to 34.** The route's simulated travel time lies between 5 and
  34 minutes, whereas the comment in the source says "5-35" (`TravelMinutesRange`).

Two behaviours of the duplicate detector are modelled as the code has them:

- **Text similarity can be `NaN`.** The comment on `calculateTextSimilarity`
  (server/utils/fraudDetection.js:114) promises a score between 0 and 1. Two texts that are
  both non-empty and both whitespace only divide 0 by 0 instead. The result is `NaN`, so the
  combined score is `NaN` and the pool listing is never recorded.
- **The confidence only tracks recorded matches.** The detector updates its confidence only
  inside the "above 0.85" branch (server/utils/fraudDetection.js:39-49). The confidence is
  therefore the best *recorded* score, and 0 when nothing is recorded.

## Model

| member | source | states |
|---|---|---|
| `FraudDetection.ExtractListingFeatures` | server/utils/fraudDetection.js:61-70 | a present title, address or description is carried over lower-cased, and a missing one gives `''`; the features' texts have no upper-case letter; a present rent, amenity list or coordinate pair is carried over, and a missing one gives 0, `[]` or `{0, 0}` |
| `FraudDetection.JaccardProperties` | server/utils/fraudDetection.js:124-128 | the intersection-over-union ratio lies in [0, 1], is symmetric, and is 1 exactly when the two sets are equal |
| `FraudDetection.WordSetEmptyIffBlank` | server/utils/fraudDetection.js:120-121 | a text's set of non-empty words is empty exactly when the text is whitespace only |
| `FraudDetection.TextSimilarity` | server/utils/fraudDetection.js:116-129 | a score that is not `NaN` lies in [0, 1] |
| `FraudDetection.TextSimilarityProperties` | server/utils/fraudDetection.js:116-129 | 0 when either text is empty; `NaN` exactly when both are non-empty and whitespace only; symmetric; in [0, 1]; with a word present, 1 exactly when the word sets are equal |
| `FraudDetection.LocationSimilarity` | server/utils/fraudDetection.js:137-149 | the score is never negative, and is at most 1 when both points are present at a non-negative distance |
| `FraudDetection.LocationSimilarityProperties` | server/utils/fraudDetection.js:137-149 | 0 when either point is missing; in [0, 1] for a non-negative distance; 1 at distance 0; 0 from 2000 m on |
| `FraudDetection.RentSimilarity` | server/utils/fraudDetection.js:180-190 | the rent score is never negative, and is at most 1 for non-negative rents |
| `FraudDetection.RentSimilarityRatio` | server/utils/fraudDetection.js:180-190 | 0 when either rent is 0; for positive rents it equals min/max, lies in (0, 1], is symmetric, and is 1 exactly when the rents are equal |
| `FraudDetection.RentBetweenZeroAndOne` | server/utils/fraudDetection.js:180-190 | for non-negative rents the rent score lies in [0, 1] |
| `FraudDetection.AmenitiesSimilarity` | server/utils/fraudDetection.js:198-213 | the amenity score lies in [0, 1] |
| `FraudDetection.AmenitiesSimilarityProperties` | server/utils/fraudDetection.js:198-213 | 0 when either list is empty; in [0, 1]; symmetric; 1 for a non-empty list compared with itself |
| `FraudDetection.WeightsSumToOne` | server/utils/fraudDetection.js:100-107 | the six weights 0.25, 0.3, 0.15, 0.2, 0.05 and 0.05 sum to 1 |
| `FraudDetection.Similarity` | server/utils/fraudDetection.js:78-108 | with non-negative rents and distance, a combined score that is not `NaN` lies in [0, 1] |
| `FraudDetection.SimilarityInUnitInterval` | server/utils/fraudDetection.js:78-108 | with non-negative rents and distance the combined score lies in [0, 1]; it is `NaN` only when some text field is whitespace only on both sides |
| `FraudDetection.IdenticalFeaturesScoreOne` | server/utils/fraudDetection.js:78-108 | a listing with a word in each text, a positive rent and an amenity scores exactly 1 against itself |
| `FraudDetection.IdenticalWithoutDescriptionScore` | server/utils/fraudDetection.js:78-108 | a listing without a description but with a word in its title and address, a positive rent and an amenity scores exactly 0.85 against itself |
| `FraudDetection.IdenticalWithoutDescriptionNotMatched` | server/utils/fraudDetection.js:39-44 | in exact arithmetic only: such a listing is not recorded as a match of itself, since the comparison with 0.85 is strict (the program, summing in doubles, does record it; see "Left out") |
| `FraudDetection.MatchesAppend` | server/utils/fraudDetection.js:35-51 | the recorded matches of two pools placed one after the other are the matches of the first followed by those of the second |
| `FraudDetection.MatchesSplitAt` | server/utils/fraudDetection.js:35-45 | the pool listing at position i contributes exactly its own entry when its score exceeds 0.85 and nothing otherwise, between the entries of the listings before and after it |
| `FraudDetection.MatchesAboveThreshold` | server/utils/fraudDetection.js:39-44 | every recorded entry scored strictly above 0.85 |
| `FraudDetection.BestSimilarityIsMaximum` | server/utils/fraudDetection.js:46-49 | the tracked confidence is at least every recorded score, is one of them, and is 0 exactly when nothing was recorded |
| `FraudDetection.ExtendPool` | server/utils/fraudDetection.js:35-51 | scanning one more pool listing appends that listing's contribution |
| `FraudDetection.BestSimilarityAppend` | server/utils/fraudDetection.js:47-49 | recording a score raises the confidence to it when it is larger, and leaves it otherwise |
| `FraudDetection.IdenticalListingIsDuplicate` | server/utils/fraudDetection.js:35-45 | a pool listing with the same features as the new one is recorded with similarity 1 |
| `FraudDetection.DetectDuplicateListings` | server/utils/fraudDetection.js:19-54 | an absent or empty pool gives `{false, 0, []}`; otherwise the entries are exactly the pool listings scoring above 0.85, in pool order; `isDuplicate` holds exactly when there is an entry; the confidence is the largest recorded score, and 0 exactly when there is none |
| `FraudDetection.ExtractUserFeatures` | server/utils/fraudDetection.js:297-333 | completeness is the number of filled fields among name, email, phone, address and idProof, divided by 5, and lies in [0, 1]; each of the three flags is the verdict of its pattern check on the profile's email, phone, or creation time and listing count |
| `FraudDetection.SuspiciousEmailAddress` | server/utils/fraudDetection.js:306-313 | an address any email pattern flags holds an `@` |
| `FraudDetection.AlnumPrefixAt` | server/utils/fraudDetection.js:307-309 | the run of letters and digits from the start ends at the first other character |
| `FraudDetection.LongLocalPartMeans` | server/utils/fraudDetection.js:307 | `/^[a-z0-9]{20,}@/i` matches exactly when twenty or more letters or digits from the start are followed by `@` |
| `FraudDetection.LeadingDigitsAt` | server/utils/fraudDetection.js:308 | the leading run of digits is exactly the digits before the first non-digit |
| `FraudDetection.TempLocalPartMeans` | server/utils/fraudDetection.js:308 | `/^temp[0-9]+@/i` matches exactly when the address starts with `temp` in any case, then one or more digits, then `@` |
| `FraudDetection.RandomLocalPartMeans` | server/utils/fraudDetection.js:309 | `/^[a-z0-9]{8,}[0-9]{4,}@/i` matches exactly when at least eight letters or digits from the start are followed by at least four digits and then `@` |
| `FraudDetection.SuspiciousPhoneMeans` | server/utils/fraudDetection.js:316-322 | a non-empty phone number is flagged exactly when it starts with `1234`, holds `0000` at some index, or its first three characters are one of the thirteen listed prefixes |
| `FraudDetection.LongDisposableEmailIsLong` | server/utils/fraudDetection.js:307 | twenty-two `a`s followed by `@mailinator.com` have a long local part |
| `FraudDetection.LongDisposableEmailIsDisposable` | server/utils/fraudDetection.js:310 | that address is at a disposable domain |
| `FraudDetection.LongDisposableEmailSuspicious` | server/utils/fraudDetection.js:312-313 | so that address is suspicious |
| `FraudDetection.OrdinaryEmailShape` | server/utils/fraudDetection.js:307-310 | in `ravi@gmail.com` the letters stop after four characters, at the only `@` |
| `FraudDetection.OrdinaryEmailNotSuspicious` | server/utils/fraudDetection.js:306-313 | `ravi@gmail.com` matches none of the four email patterns |
| `FraudDetection.SuspiciousPhoneExamples` | server/utils/fraudDetection.js:316-322 | `1234567890` and `9810000345` are flagged |
| `FraudDetection.OrdinaryPhoneHasNoZeros` | server/utils/fraudDetection.js:318 | `9876543210` holds no `0000` |
| `FraudDetection.OrdinaryPhonePrefixes` | server/utils/fraudDetection.js:317-319 | `9876543210` starts neither with `1234` nor with a listed prefix |
| `FraudDetection.OrdinaryPhoneNotSuspicious` | server/utils/fraudDetection.js:316-322 | so `9876543210` is not flagged |
| `FraudDetection.LongEmailProfileFilled` | server/utils/fraudDetection.js:299-302 | a profile with name, that email, that phone, an address and an ID proof has all five fields filled |
| `FraudDetection.LongEmailProfileFeatures` | server/utils/fraudDetection.js:297-333 | its features are completeness 1, a suspicious email, and neither a suspicious phone nor suspicious activity |
| `FraudDetection.EmailOnlyVerdict` | server/utils/fraudDetection.js:239-284 | features with only the email rule firing raise the one email flag, whose mean weight is 0.4 |
| `FraudDetection.LongEmailProfileVerdict` | server/utils/fraudDetection.js:233-287 | that profile raises the email flag alone, scores a confidence of 0.4 and is not fake |
| `FraudDetection.IncompleteIffAtMostThreeFilled` | server/utils/fraudDetection.js:299-303 | the "incomplete profile" rule (completeness below 0.7) fires exactly when at most three of the five fields are filled |
| `FraudDetection.PushKeepsRankIncreasing` | server/utils/fraudDetection.js:240-281 | checking a later rule keeps the flags in rule order |
| `FraudDetection.InPush` | server/utils/fraudDetection.js:240-281 | after a rule check a flag is present exactly when it was before, or else the rule fired and the flag is that rule's flag |
| `FraudDetection.TriggeredFlagsMembers` | server/utils/fraudDetection.js:240-281 | a flag is raised exactly when it is the flag of a rule that fired |
| `FraudDetection.TriggeredFlagsExact` | server/utils/fraudDetection.js:240-281 | one flag per fired rule and none for the others; each flag has its rule's type, severity and description; the flags come in the order incomplete, email, phone, activity |
| `FraudDetection.PushWeight` | server/utils/fraudDetection.js:240-281 | checking a rule adds its weight to the total exactly when it pushes its flag |
| `FraudDetection.TriggeredScoreIsTotalWeight` | server/utils/fraudDetection.js:236-281 | the accumulated total is the sum of the severity weights (0.3 medium, 0.4 high) of the raised flags |
| `FraudDetection.TotalWeightBounds` | server/utils/fraudDetection.js:246-279 | n flags weigh between 0.3·n and 0.4·n |
| `FraudDetection.MeanWeightBounds` | server/utils/fraudDetection.js:284-287 | the confidence is 0 with no flag and between 0.3 and 0.4 otherwise, so it never exceeds the 0.75 threshold |
| `FraudDetection.ApplyRules` | server/utils/fraudDetection.js:236-281 | the four rule checks push exactly the flags of the fired rules, in rule order; the total is their weight and the count their number |
| `FraudDetection.DetectFakeID` | server/utils/fraudDetection.js:220-290 | an absent profile gives `{false, 0, []}`; otherwise the flags are those of the fired rules; the confidence is total over count (0 with no flag) and lies in [0, 0.4]; `isFake` is confidence > 0.75 and so never holds |
| `Js.IncludesMeans` | server/utils/fraudDetection.js:318 | `includes` holds exactly when the text occurs at some index |
| `Js.TokensEmptyIffBlank` | server/utils/fraudDetection.js:120-121 | `split(/\s+/)` yields no non-empty word exactly when the text is whitespace only |
| `Js.LowerKeepsBlank` | server/utils/fraudDetection.js:63-65 | lower-casing a text keeps it whitespace only, or not |
| `Js.ParseIntOfMinutesLabel` | server/utils/mockData.js:72 | `parseInt` of the label `${n} mins` gives back n |
| `MockData.MockListings` | server/utils/mockData.js:4-67 | the catalogue has five listings |
| `MockData.MockListingsShape` | server/utils/mockData.js:4-67 | the ids are 1 to 5 in order and distinct; only listing 5 is unverified; rents lie in [4000, 12000]; safety scores lie in [0, 5] |
| `MockData.ScoreBounds` | server/utils/mockData.js:70-78 | within a positive budget, with a trip of at most an hour and safety in [0, 5], the score lies in [0.05, 1] |
| `MockData.VerifiedBonus` | server/utils/mockData.js:74-77 | all else equal, a verified listing scores exactly 0.05 more than an unverified one |
| `MockData.ScoreDecreasesWithRent` | server/utils/mockData.js:71-77 | for a positive budget a cheaper listing scores strictly higher, all else equal |
| `MockData.ScoreDecreasesWithTravel` | server/utils/mockData.js:72-77 | a shorter trip scores strictly higher, all else equal |
| `ListingsRoute.FilterExact` | server/routes/listings.js:14-17 | the filter keeps exactly the listings with rent within budget and of the requested type (or any type for `'all'`), none more often than it occurs |
| `ListingsRoute.FilterAppend` | server/routes/listings.js:14-17 | the kept listings of two lists placed one after the other are those of the first followed by those of the second, and a single listing is kept exactly when it passes, so the catalogue order is kept |
| `ListingsRoute.KeptMeansPositiveBudget` | server/routes/listings.js:14-17 | over the catalogue, any kept listing means a budget of at least 4000, so the sort never divides by a zero budget |
| `ListingsRoute.TravelMinutesRange` | server/routes/listings.js:22 | `Math.floor(Math.random() * 30) + 5` lies between 5 and 34 |
| `ListingsRoute.WithTravelTimes` | server/routes/listings.js:20-27 | each listing keeps its place and fields and gains a travel time of 5 to 34 minutes |
| `ListingsRoute.RouteScoreReadsLabel` | server/routes/listings.js:30-34 | the comparator's score is `calculateScore` with the minutes read back from the listing's `"N mins"` label |
| `ListingsRoute.BuildExplanation` | server/routes/listings.js:39-59 | building the text clause by clause gives the templated explanation |
| `ListingsRoute.FlaggedIffUnverified` | server/routes/listings.js:41-59 | the explanation is the fixed "flagged as suspicious" text exactly when the listing is not verified |
| `ListingsRoute.BudgetClause` | server/routes/listings.js:44-48 | after the opening, a verified listing's text says "well under your budget, " exactly when rent ≤ 0.8·budget and "within your budget, " exactly when it is more |
| `ListingsRoute.SafetyClause` | server/routes/listings.js:50-56 | a verified listing's text ends with the excellent clause exactly when safety ≥ 4, the good clause exactly when 3 ≤ safety < 4, and the average clause exactly when safety < 3 |
| `ListingsRoute.ExplainAllKeeps` | server/routes/listings.js:37-65 | adding explanations keeps the number, order and fields of the listings and only adds `aiExplanation` |
| `ListingsRoute.ExplainEach` | server/routes/listings.js:37-65 | the explanation loop gives each listing of the sorted array its explanation, in array order |
| `ListingsRoute.Recommendations` | server/routes/listings.js:11-68 | the answer is filter, travel times, stable sort by score, explanations, then the first three |
| `ListingsRoute.RankedFromCatalogue` | server/routes/listings.js:14-34 | every ranked listing is a kept catalogue listing with a travel time of 5 to 34 minutes |
| `ListingsRoute.RecommendationsRanked` | server/routes/listings.js:30-68 | at most three listings, each a kept catalogue listing, in non-increasing score, and no kept listing left out scores higher than one answered |
| `ClientApp.EffectiveBudget` | client/app.js:202 | the defaulted budget: a `NaN` or zero budget becomes 20000, any other budget is kept, and the result is never 0 |
| `ClientApp.RelevanceDefaultBudget` | client/app.js:423 | a `NaN` or zero budget scores as 20000 |
| `ClientApp.RelevanceBounds` | client/app.js:422-428 | within a positive budget and with safety in [0, 5], the relevance lies in [0.1, 1] |
| `ClientApp.RelevanceDecreasesWithRent` | client/app.js:424-427 | for a positive budget a cheaper listing is strictly more relevant, all else equal |
| `ClientApp.RelevanceVerifiedBonus` | client/app.js:426-427 | all else equal, a verified listing is exactly 0.1 more relevant |
| `ClientApp.FilterExact` | client/app.js:208-213 | the filter keeps exactly the listings that pass the callback, none more often than it occurs |
| `ClientApp.MatchesMeans` | client/app.js:202-212 | a listing passes exactly when its rent is within the (defaulted) budget, its type is the requested one unless `''` or `'all'` was asked, and the location is empty or occurs in the address or the city, ignoring ASCII case |
| `ClientApp.GetMockListings` | client/app.js:201-217 | filtering, sorting the filtered array in place by relevance and keeping six gives the search results |
| `ClientApp.SearchResultsRanked` | client/app.js:208-216 | at most six listings (all of them when at most six match), each a matching catalogue listing, in non-increasing relevance, and no matching listing left out is more relevant than one answered |
| `ClientApp.SearchResultsFromCatalogue` | client/app.js:208-216 | every listing answered is a matching catalogue listing |
| `ClientApp.RelevanceSameBudget` | client/app.js:422-423 | scoring against the budget already defaulted by `getMockListings` gives the same relevance |
| `ClientApp.ApplySort` | client/app.js:191-198 | a missing list gives `[]`; otherwise a copy of the list sorted in place in the order the menu value names |
| `ClientApp.SortedCopyOrders` | client/app.js:193-197 | the sorted copy is a permutation of the input, in ascending rent for `priceLowHigh`, descending rent for `priceHighLow`, descending safety for `safety`, and descending relevance otherwise |
| `ClientApp.RemoveAllCounts` | client/app.js:155 | `filter(id => id !== listingId)` drops every occurrence of the id and keeps every other id as often as it occurs |
| `ClientApp.RemoveAllAbsent` | client/app.js:155 | removing an absent id leaves the list as it is |
| `ClientApp.RemoveAllAppend` | client/app.js:155-156 | removing an id just appended is removing it from the list before the append |
| `ClientApp.ToggledMembership` | client/app.js:154-156 | a toggle flips the membership of its id and keeps the membership and multiplicity of every other id |
| `ClientApp.ToggleTwice` | client/app.js:154-156 | toggling the same id twice restores membership, and restores the list itself when the id was not a favourite |
| `ClientApp.Favorites.constructor` | client/app.js:154 | with nothing stored, the favourites are `[]` |
| `ClientApp.Favorites.Toggle` | client/app.js:154-156 | a present id has every occurrence removed and an absent one is appended; it is a favourite afterwards exactly when it was not before, and no other id changes membership |
| `ClientApp.AllMockListings` | client/app.js:219-419 | the catalogue has twelve listings |
| `ClientApp.NumberedAppend` | client/app.js:219-419 | two consecutively numbered blocks make one numbered block |
| `ClientApp.BlocksNumbered` | client/app.js:221-418 | the Chennai, Bengaluru and Delhi blocks carry ids 1–4, 5–8 and 9–12, all verified, with positive rents and safety in [0, 5] |
| `ClientApp.AllMockListingsShape` | client/app.js:219-419 | listing i carries id i + 1; every listing is verified, with a positive rent and safety in [0, 5] |
| `ClientApp.ChennaiListingsMatch` | client/app.js:208-213 | listings 1 and 3 pass the filter for budget 10000, location "Chennai" and any type |
| `ClientApp.OutsideChennaiRejected` | client/app.js:211 | a listing whose lower-cased address and city never hold "ch" fails the "Chennai" location test |
| `ClientApp.Listing5Rejected` | client/app.js:211 | the Koramangala listing fails the Chennai search |
| `ClientApp.Listing7Rejected` | client/app.js:211 | the Jayanagar listing fails the Chennai search |
| `ClientApp.Listing9Rejected` | client/app.js:211 | the Lajpat Nagar listing fails the Chennai search |
| `ClientApp.Listing11Rejected` | client/app.js:211 | the North Campus listing fails the Chennai search |
| `ClientApp.FilterAppend` | client/app.js:208-213 | filtering a concatenation filters each part |
| `ClientApp.FilterCons` | client/app.js:208-213 | the filter keeps or drops the first listing, then filters the rest |
| `ClientApp.FilterOfFour` | client/app.js:208-213 | the filter of four listings is what each of them keeps, in order |
| `ClientApp.ChennaiFilter` | client/app.js:208-213 | of the Chennai block, the search keeps listings 1 and 3 |
| `ClientApp.BengaluruFilter` | client/app.js:208-213 | of the Bengaluru block, the search keeps nothing |
| `ClientApp.DelhiFilter` | client/app.js:208-213 | of the Delhi block, the search keeps nothing |
| `ClientApp.CatalogueFilter` | client/app.js:206-213 | of the whole catalogue, the search keeps listings 1 and 3, in that order |
| `ClientApp.ChennaiRanking` | client/app.js:215 | at budget 10000 listing 3 is more relevant than listing 1 and is sorted first |
| `ClientApp.ChennaiSearch` | client/app.js:201-217 | budget 10000, location "Chennai" and type "all" answer listing 3, then listing 1 |
| `Sorting.InsertPermutes` | client/app.js:215 | placing one element adds exactly that element |
| `Sorting.InsertSorted` | client/app.js:215 | placing an element behind every element with a key at least its own keeps the order |
| `Sorting.SortDescSortedAndPermutes` | client/app.js:215 | the sort returns its input rearranged into non-increasing key order |
| `Sorting.InsertKeyEq` | client/app.js:215 | inserting an element puts it after every element of the same key already present, and leaves the order of each key's elements alone |
| `Sorting.SortDescStable` | server/routes/listings.js:30-34 | the sort is stable: for every key, the elements with that key come out in the order they went in |
| `Sorting.SortDescOfSorted` | client/app.js:215 | an input already in order comes back unchanged, since the sort is stable |
| `Sorting.SortDescIdempotent` | client/app.js:193-197 | sorting a sorted copy again changes nothing |
| `Sorting.TopOfSortDesc` | client/app.js:215-216 | the first n of the sorted input are min(n, length) elements of the input, sorted, and none left out has a larger key than one kept |
| `Sorting.SortedPrefix` | server/routes/listings.js:68 | a prefix of a sorted sequence is sorted, is part of it, and no element left out has a larger key than one kept |
| `Sorting.InsertAt` | server/routes/listings.js:30-34 | the element lands right after the last element whose key is at least its own |
| `Sorting.InsertLast` | server/routes/listings.js:30-34 | one insertion pass moves the next element into the sorted prefix and leaves the rest of the array alone |
| `Sorting.SortInPlace` | server/routes/listings.js:30-34 | sorting the array in place leaves in it the stable non-increasing sort of its old contents |

## Left out

- `calculateDistance`: the haversine formula (server/utils/fraudDetection.js:159-172) is not
  modelled. It relies on trigonometry over floating-point numbers. Location similarity takes
  the distance as a function parameter. The lemmas that need it assume only that the
  distance is non-negative and 0 from a point to itself.
- Regular expressions are not run. The four email patterns and three phone patterns are
  written as explicit string predicates (`LongLocalPart`, `TempLocalPart`,
  `RandomLocalPart`, `DisposableDomain`, `SuspiciousPhoneNumber`). The `...Means` lemmas
  restate each predicate in the shape of its pattern. The disposable-domain predicate
  already has that shape.
- Case-insensitive matching and `toLowerCase` cover ASCII letters only. Full Unicode case
  mapping is not modelled.
- `Date.now()` is passed in as `now`. `createdAt` arrives already converted to
  milliseconds, so an unparsable date (`getTime()` is `NaN`) or a falsy `createdAt` is
  `None`.
- `Math.random()` in the route becomes one draw in [0, 1) per kept listing, given by the
  caller.
- The `"N mins"` string is modelled, and `parseInt` of it is proved to give the minutes back.
  The comparator then uses those minutes.
- Floating-point arithmetic is real arithmetic. There is no rounding, and no `Infinity` or
  `NaN` beyond the `0 / 0` of text similarity. Rounding changes two outcomes of the duplicate
  detector, on the two lines below.
- `FraudDetection.IdenticalWithoutDescriptionNotMatched` holds in exact arithmetic only. The
  program sums the weighted scores left to right in doubles
  (server/utils/fraudDetection.js:100-107). For an exact copy without a description that sum
  is 0.8500000000000001, not 0.85, so `similarity > 0.85` holds and the program does record
  the copy.
- `FraudDetection.SimilarityInUnitInterval`, `FraudDetection.IdenticalFeaturesScoreOne` and
  `FraudDetection.IdenticalListingIsDuplicate` bound or fix the score at 1 in exact
  arithmetic. In doubles a full self-match sums to 1.0000000000000002, and the program
  records that as the confidence, slightly above 1.
- `FraudDetection.DetectDuplicateListings` takes the new listing and every pool entry as
  objects. In the program, `detectDuplicateListings(undefined, pool)` with a non-empty pool
  throws a `TypeError` when `extractListingFeatures` reads `listing.title`
  (server/utils/fraudDetection.js:32 and 63). So does an `undefined` pool entry. That error
  path is not modelled. With an absent or empty pool the program returns `{false, 0, []}`
  before reading the new listing (lines 27-29), and the model does the same.
- `MockData.CalculateScore` requires a non-zero budget. JavaScript would divide by zero when
  the budget is 0. The route never reaches it then, because no catalogue rent is 0 or less.
  `ListingsRoute.RouteScore` scores 0 in that case.
- The request body is typed. The route's `budget` is a number and `accommodationType` a
  string. The `location`, `roomType` and `roommates` fields are read but never used, so they
  are not modelled.
- The client's budget is the `Number` that `parseInt(budgetSlider.value)` gives. The
  location arrives already trimmed by the submit handler (client/app.js:31).
- `applySort`'s relevance budget is read from the slider in the source. It is passed in here
  as `sliderBudget`.
- Relevance in `SortedCopyOrders` is scored against that budget as a `Number`. `parseFloat`
  on an integer is the identity.
- The catalogues take out what no modelled step reads:
  - the image URLs of both catalogues;
  - the client catalogue's title, travel note, explanation and contact, which are kept
    apart in `MockCardText`.
- The route and `getMockListings` take the catalogue as a parameter. The application always
  supplies `MockListings()` and `AllMockListings()`. The Chennai scenario is proved on the
  latter.
- DOM rendering, event wiring and `setTimeout` are not modelled. Neither are `showSkeletons`,
  `displayListings`, `displayFavorites` or `escapeHtml`.
- The JSON reading and writing of `localStorage` is replaced by the `ids` field of
  `Favorites`. The re-run of the search after a toggle is not modelled.
- Express routing, `res.json` and the 500 error path are not modelled.
- server/models/Listing.js (a database schema and query) and server/server.js (start-up)
  are not part of this model.
- Parsing of very long digit strings is exact here. JavaScript loses precision beyond 2^53.
