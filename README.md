# demandSide pricing engine, modelled in Dafny

demandSide is an agent-based simulation of a vertically differentiated
market. Firms sell one product at a price and a quality. Consumers differ
only in their welfare parameter, the value they put on one unit of quality;
its distribution is a Pareto tail. Each period every consumer buys from the
known firm that gives the greatest positive utility. Every firm re-prices
against the market it expects, and a firm whose smoothed profit falls below
a minimum is killed.

This project models the firm's pricing engine and the bookkeeping around it:

- **Demand and indifference arithmetic** (`consumers.dfy`, `utility_function.dfy`, `recessions_handler.dfy`, `rounding.dfy`):
  - the limiting welfare parameter between two offers;
  - the expected number of consumers above a threshold, and the expected quantity of an offer between its neighbours;
  - the price that expels a neighbour from above or from below;
  - the maximum price at which an offer still enters, and the minimum price;
  - the searches for a free quality on the quality grid;
  - the recession scaling of welfare parameters, and its colon-separated schedule;
  - BigDecimal's FLOOR, CEILING, HALF_UP and HALF_DOWN rounding to a decimal scale.
- **The two offer classes**:
  - `legacy_offer.dfy`, the older `offer.Offer`;
  - `firms_offer.dfy`, `firms.Offer`;
  - `delta_offer.dfy`, the change of offer and the comparison of its directions.
- **Competitive segments** (`expected_market.dfy`, `firms_segments.dfy`, `comparators.dfy`):
  - the sorted sets of firms that have consumers of their own;
  - admission when a firm's segment is not empty, and expulsion of the neighbours the entrant's price reaches;
  - the comparators that order those sets and queues.
- **The price window and the queue of firms to expel** (`neighbors.dfy`, `neighbors_by_price_to_expel.dfy`).
- **The price search**:
  - `optimal_price.dfy`, the `optimalPrice` package, over the expected market;
  - `decision_optimal_price.dfy`, the older `decisionTools` version, over FirmsSegments;
  - the profit objectives they maximise (`profit_objectives.dfy`).
- **Choosing an offer** (`improving_offer.dfy`, `firms_decision.dfy`, `firm_types.dfy`, `strategic_preference.dfy`): the best quality option, the decision comparators, and the quality options of each firm type.
- **Agents**:
  - `agents.dfy`: `Consumer` and `Firm` as classes whose methods update their fields;
  - `firms.dfy`: the `Firms` registry with the quality-keyed map `firmsByQ`;
  - `quality_map.dfy`: the registry's lower and higher lookups;
  - `neighbour_history.dfy`: a firm's smoothed memory of its two neighbours.

Prices and qualities are reals. BigDecimal rounding is modelled exactly, as
multiples of 10^-scale, including the rounding the offer setters apply
(HALF_DOWN for both components of the legacy offer; HALF_DOWN prices and
HALF_UP qualities in `firms.Offer`, whose setters the neighbour histories
write through). A Java double that may be infinite is an extended
real. Collaborators outside this model are passed in as function
parameters; each module's header names them. These are `pow`, the
commons-math optimisers, parsing of numbers, and a firm's closest free
quality. Where the source does not compile as given, the model reads it
with `firms.Offer` values and exact reals: `OfferHistory.update` multiplies a
BigDecimal by a double, `NeighborData.updateOffer` assigns an `offer.Offer`
to a `firms.Offer`, and `ImprovingOffer.get` maps `Offer::new` over an
`Optional<DecisionResult>`. Stateful code keeps its form:

- classes with `modifies` clauses;
- loops with invariants, proved equal to a functional specification;
- lemmas stating what that specification promises.

Where the repository holds two revisions of a class, each has its own
module.

## Model

| member | source | states |
|---|---|---|
| Rounding.Floor | demandSide/src/consumers/UtilityFunction.java:158 | RoundingMode.FLOOR to a scale: on the grid, never above x, less than one unit below it |
| Rounding.Ceiling | demandSide/src/consumers/Consumers.java:238 | RoundingMode.CEILING to a scale: on the grid, never below x, less than one unit above it |
| Rounding.HalfUp | demandSide/src/firms/Offer.java:134-143 | RoundingMode.HALF_UP to a scale: on the grid, within half a unit of x, and ties go away from zero (strictly above x minus half a unit for x ≥ 0, strictly below x plus half a unit for x < 0) |
| Rounding.HalfDown | demandSide/src/firms/Offer.java:130-157 | RoundingMode.HALF_DOWN to a scale: on the grid, within half a unit of x, and ties go toward zero (strictly below x plus half a unit for x ≥ 0, strictly above x minus half a unit for x < 0) |
| Rounding.FloorIsGreatest | demandSide/src/consumers/UtilityFunction.java:158 | FLOOR gives the greatest grid value not above x |
| Rounding.CeilingIsLeast | demandSide/src/consumers/Consumers.java:238 | CEILING gives the least grid value not below x |
| Rounding.FloorOnGrid | demandSide/src/consumers/UtilityFunction.java:158 | FLOOR leaves a value already on the grid unchanged |
| Rounding.CeilingOnGrid | demandSide/src/consumers/Consumers.java:238 | CEILING leaves a value already on the grid unchanged |
| Rounding.HalfUpOnGrid | demandSide/src/firms/Offer.java:139 | HALF_UP leaves a value already on the grid unchanged |
| Rounding.HalfDownOnGridIfOnGrid | demandSide/src/firms/Offer.java:152 | HALF_DOWN lands on the grid and leaves a value already on it unchanged |
| Rounding.NearestStaysInGridInterval | demandSide/src/optimalPrice/OptimalPrice.java:44 | rounding to nearest keeps a value inside an interval whose ends are on the grid |
| RecessionsHandler.NoRecessionIsIdentity | demandSide/src/demandSide/RecessionsHandler.java:69-74 | with magnitude 0 the welfare scaling is the identity |
| RecessionsHandler.ScaledKeepsOrder | demandSide/src/demandSide/RecessionsHandler.java:64-79 | a magnitude in [0, 1) keeps the order of welfare parameters (strict and non-strict) and never raises a non-negative one |
| RecessionsHandler.Fields | demandSide/src/demandSide/RecessionsHandler.java:26 | the ':'-separated fields of a text: at least one, none containing ':' |
| RecessionsHandler.JoinFields | demandSide/src/demandSide/RecessionsHandler.java:26 | joining the fields with ':' gives back the text, so splitting loses nothing but the separators |
| RecessionsHandler.DropTrailingEmpty | demandSide/src/demandSide/RecessionsHandler.java:26 | the result is a prefix of the fields, ends in a non-empty field, and only empty fields were dropped |
| RecessionsHandler.Split | demandSide/src/demandSide/RecessionsHandler.java:26 | String.split(":"): the whole text when it has no ':', otherwise a prefix of its fields with trailing empty ones removed |
| RecessionsHandler.ParseAll | demandSide/src/demandSide/RecessionsHandler.java:27-30 | succeeds iff every field parses; then one double per field, in order |
| RecessionsHandler.ParseColonList | demandSide/src/demandSide/RecessionsHandler.java:26-44 | the array-filling loop yields exactly ParseAll of the split text |
| RecessionsHandler.Schedule | demandSide/src/demandSide/RecessionsHandler.java:47-60 | for every magnitude i a set at start[i] and a reset to 0.0 at start[i] + dur[i], in order; a shorter start or duration list stops the loop with an index error after the actions already registered |
| RecessionsHandler.RecessionsHandler.constructor | demandSide/src/demandSide/RecessionsHandler.java:14-19 | the magnitude starts at 0.0 |
| RecessionsHandler.RecessionsHandler.SetRecesMagnitude | demandSide/src/demandSide/RecessionsHandler.java:81-83 | the magnitude becomes the value set |
| RecessionsHandler.RecessionsHandler.GetRecesMagnitude | demandSide/src/demandSide/RecessionsHandler.java:85-87 | returns the stored magnitude, so get after set returns the value set |
| RecessionsHandler.RecessionsHandler.MinWelfareParamPerceivedByFirms | demandSide/src/demandSide/RecessionsHandler.java:64-67 | the scaled raw minimum lies between 0 and the raw minimum for a magnitude in [0, 1) |
| RecessionsHandler.RecessionsHandler.WelfareParamPerceivedByFirms | demandSide/src/demandSide/RecessionsHandler.java:69-74 | the firm-side scaled parameter lies between 0 and the raw one for a magnitude in [0, 1) |
| RecessionsHandler.RecessionsHandler.WelfareParamForConsumers | demandSide/src/demandSide/RecessionsHandler.java:76-79 | the consumer-side scaling equals the firm-side scaling for the same input |
| RecessionsHandler.RecessionsHandler.ScheduleRecessions | demandSide/src/demandSide/RecessionsHandler.java:22-62 | a parameter that fails to parse schedules nothing; otherwise the actions are the set/reset pairs per magnitude and the run completes iff the start and duration lists are long enough |
| UtilityFunction.RealUtility | demandSide/src/consumers/UtilityFunction.java:23-37 | the real utility is the expected utility with quality factor 1 |
| UtilityFunction.CalculateRawLimit | demandSide/src/consumers/UtilityFunction.java:78-81 | the raw limit times the quality gap equals the price gap |
| UtilityFunction.PreferenceFlipsAtRawLimit | demandSide/src/consumers/UtilityFunction.java:78-81 | a consumer strictly prefers the higher-quality offer iff its welfare parameter exceeds the raw limit, and is indifferent exactly at it |
| UtilityFunction.CalculateLimit | demandSide/src/consumers/UtilityFunction.java:74-85 | for distinct qualities the limit is the larger of the raw limit and the perceived minimum welfare parameter; a lower offer priced at or above the higher one gets the minimum |
| UtilityFunction.RawLimitNotPositive | demandSide/src/consumers/UtilityFunction.java:78-83 | a lower-quality offer priced at or above the higher-quality one has a raw limit of at most 0 |
| UtilityFunction.EntryLineKeepsMarginalConsumerIndifferent | demandSide/src/consumers/UtilityFunction.java:61-66 | the unrounded maximum entry price passes through both neighbours' offers and leaves the consumer at the neighbours' limit indifferent between the entrant and the lower offer |
| UtilityFunction.MaxPriceToEnter | demandSide/src/consumers/UtilityFunction.java:44-72 | the configured maximum price without a higher firm; 0 when the higher quality does not exceed the lower reference quality (a missing lower firm counts as price and quality 0, its perceived quality otherwise); else the entry line rounded down to the price grid |
| UtilityFunction.PriceToExpelFromAbove | demandSide/src/consumers/UtilityFunction.java:95-110 | absent exactly when f's lower limit is infinite |
| UtilityFunction.ExpelFromAboveMeaning | demandSide/src/consumers/UtilityFunction.java:95-110 | pricing below (or at) the returned price puts the entrant's limit with f below (or at) f's lower limit, which is what expels f from above |
| UtilityFunction.PriceToExpelFromBelow | demandSide/src/consumers/UtilityFunction.java:120-134 | 0 when f's higher limit is infinite |
| UtilityFunction.ExpelFromBelowMeaning | demandSide/src/consumers/UtilityFunction.java:120-134 | pricing at or below (strictly below) the returned price puts the limit between the entrant and f at or above (strictly above) f's higher limit, which is what expels f from below |
| UtilityFunction.MinWelfareParamAcceptingOffer | demandSide/src/consumers/UtilityFunction.java:139-146 | at least the perceived minimum, accepts the offer, and is either the minimum or the parameter with zero utility (p/q) |
| UtilityFunction.AcceptanceIsMonotone | demandSide/src/consumers/UtilityFunction.java:23-37 | utility of an offer with positive quality grows with the welfare parameter |
| UtilityFunction.AcceptingThresholdIsExact | demandSide/src/consumers/UtilityFunction.java:139-146 | above the minimum, a consumer accepts the offer iff its welfare parameter reaches the threshold |
| UtilityFunction.MaxPriceForPoorestConsumer | demandSide/src/consumers/UtilityFunction.java:151-160 | quality times the minimum rounded down to the price grid: never above the exact product, less than one unit below it, and still accepted by the poorest consumer |
| Consumers.LambdaOfGini | demandSide/src/consumers/Consumers.java:53-54 | the Pareto exponent solves lambda·2·gini = 1 + gini, and exceeds 1 for a Gini coefficient in (0, 1) |
| Consumers.ExpectedConsumersAbove | demandSide/src/consumers/Consumers.java:118-127 | the whole market at or below the raw minimum, nobody at +∞ |
| Consumers.ConsumersAboveBounds | demandSide/src/consumers/Consumers.java:118-127 | the expected number of consumers above any threshold lies between 0 and the market size |
| Consumers.ConsumersAboveAntitone | demandSide/src/consumers/Consumers.java:118-127 | a higher threshold never has more consumers above it |
| Consumers.LimitBetween | demandSide/src/consumers/Consumers.java:167-197 | the scaled raw minimum when loP ≥ hiP; +∞ for equal qualities; otherwise the scaled max(raw minimum, raw limit), never below the scaled minimum |
| Consumers.LimitBetweenSeparatesChoices | demandSide/src/consumers/Consumers.java:158-197 | the limit does what its comment promises: with loP ≥ hiP nobody prefers the lower offer, with equal quality nobody prefers the higher one, otherwise consumers above the limit prefer the higher offer and those below it the lower one |
| Consumers.LimitBetweenIsCalculateLimit | demandSide/src/consumers/Consumers.java:192-195 | without a recession the two-offer limit agrees with UtilityFunction.calculateLimit |
| Consumers.LimitingWelfareParam | demandSide/src/consumers/Consumers.java:139-156 | +∞ without a higher offer; the minimum welfare parameter accepting the higher offer without a lower one; the two-offer limit otherwise; never below the scaled minimum |
| Consumers.ExpectedQuantity | demandSide/src/consumers/Consumers.java:98-112 | never negative; positive exactly when more consumers lie above the lower limit than above the upper one, and then it is their difference |
| Consumers.ExpectedQuantityBounded | demandSide/src/consumers/Consumers.java:98-112 | the expected quantity never exceeds the market size |
| Consumers.SqueezedOfferHasNoDemand | demandSide/src/consumers/Consumers.java:98-112 | an offer whose upper limit is not above its lower limit gets no demand |
| Consumers.MinPrice | demandSide/src/consumers/Consumers.java:231-239 | on the price grid, at least cost plus one price unit and at least the poorest consumer's maximum price |
| Consumers.MinPriceIsLeast | demandSide/src/consumers/Consumers.java:231-239 | it is the least grid price meeting both floors |
| Consumers.DownSteps | demandSide/src/consumers/Consumers.java:253-255 | the number of steps the downward walk takes: every rung before it is occupied and above the minimum, the rung it stops at is not |
| Consumers.UpSteps | demandSide/src/consumers/Consumers.java:267-269 | the number of steps the upward walk takes: every rung before it is occupied, the rung it stops at is free |
| Consumers.DownwardClosestAvailableQuality | demandSide/src/consumers/Consumers.java:249-262 | the loop stops where DownSteps says; empty when that quality is still occupied, else that quality rounded |
| Consumers.UpwardClosestAvailableQuality | demandSide/src/consumers/Consumers.java:264-273 | the loop stops where UpSteps says and returns that quality rounded |
| Consumers.DownwardSearchMeaning | demandSide/src/consumers/Consumers.java:249-262 | from a quality on the grid the stop is at or below the start and not below the minimum; a free stop is returned unchanged by rounding; an occupied stop is the minimum quality, so empty means every quality down to the minimum is taken |
| Consumers.UpwardSearchMeaning | demandSide/src/consumers/Consumers.java:264-273 | from a quality on the grid the result is free, at or above the start, and unchanged by rounding |
| LegacyOffer.Offer.constructor | demandSide/src/offer/Offer.java:28-34 | both components go through the HALF_DOWN setters |
| LegacyOffer.Offer.Copy | demandSide/src/offer/Offer.java:36-39 | the copy holds the other offer's components rounded HALF_DOWN |
| LegacyOffer.Offer.SetQuality | demandSide/src/offer/Offer.java:266-272 | the quality becomes q rounded HALF_DOWN; the price is unchanged |
| LegacyOffer.Offer.SetPrice | demandSide/src/offer/Offer.java:278-286 | the price becomes p rounded HALF_DOWN; the quality is unchanged |
| LegacyOffer.Rounded | demandSide/src/offer/Offer.java:258-264 | the stored offer is on both grids, and an offer already on them is kept as is |
| LegacyOffer.Limit | demandSide/src/offer/Offer.java:103-145 | an error exactly for equivalent offers or a lower quality above the higher one; the minimum accepting the higher offer without a lower one; +∞ without a higher one; otherwise at least the minimum marginal utility, and above it only when the higher price exceeds the lower |
| LegacyOffer.LimitAgreesWithConsumers | demandSide/src/offer/Offer.java:115-143 | on two distinct, ordered offers the legacy limit equals the consumers' limit without a recession |
| LegacyOffer.LimitD | demandSide/src/offer/Offer.java:147-181 | the double overload with its first test read as equality of the values (corrected, Finding 7): "Offers should be different" exactly for equal components, and "inconsistent values" when a lower price is present without its quality or the reverse |
| LegacyOffer.LimitDAsWritten | demandSide/src/offer/Offer.java:147-181 | the double overload as written, comparing boxes by reference: "Offers should be different" exactly when each pair of boxes is both null or one object; whenever that test agrees with value equality, the result is the corrected one |
| LegacyOffer.DistinctBoxesOfEqualOffers | demandSide/src/offer/Offer.java:149-150 | two equal offers in distinct boxes get the minimum marginal utility as written, where the corrected test raises "Offers should be different" |
| LegacyOffer.LimitOverloadsAgree | demandSide/src/offer/Offer.java:147-181 | on the components of two optional offers the double overload gives what the offer overload gives |
| LegacyOffer.MinusValue | demandSide/src/offer/Offer.java:183-189 | adding the delta a − b to b gives back a |
| LegacyOffer.Minus | demandSide/src/offer/Offer.java:183-189 | returns a fresh delta offer holding a − b |
| LegacyOffer.DownwardClosestAvailableQuality | demandSide/src/offer/Offer.java:213-226 | stops where the downward walk stops; null when that quality is still occupied, else that quality unrounded |
| LegacyOffer.UpwardClosestAvailableQuality | demandSide/src/offer/Offer.java:228-240 | stops where the upward walk bounded by the maximum quality stops; null when that quality is still occupied, else that quality |
| LegacyOffer.UpwardSearchMeaning | demandSide/src/offer/Offer.java:228-240 | the stop is at or above the start; it is occupied only at or above the maximum quality; from a grid start not above a grid maximum it never passes the maximum |
| FirmsOffer.MinDelta | demandSide/src/firms/Offer.java:49-50 | minDeltaPrice and minDeltaQuality (10^-scale) are positive, on the grid, and the gap between any two distinct grid values |
| FirmsOffer.Offer.Default | demandSide/src/firms/Offer.java:18-22 | a default offer has price and quality 0 |
| FirmsOffer.Offer.constructor | demandSide/src/firms/Offer.java:24-30 | the quality is rounded HALF_UP and the price HALF_DOWN, so the offer is on both grids |
| FirmsOffer.Offer.Copy | demandSide/src/firms/Offer.java:32-35 | the copy goes through the setters, so a copy of an offer on the grids is equal to it |
| FirmsOffer.Offer.SetQuality | demandSide/src/firms/Offer.java:138-144 | the quality becomes q rounded HALF_UP; the price is unchanged |
| FirmsOffer.Offer.SetPrice | demandSide/src/firms/Offer.java:150-158 | the price becomes p rounded HALF_DOWN; the quality is unchanged |
| FirmsOffer.SetterRoundingIsStable | demandSide/src/firms/Offer.java:130-158 | rounding a value the setters already rounded changes nothing |
| FirmsOffer.EquivalentOffers | demandSide/src/firms/Offer.java:72-82 | two empties are equivalent, exactly one empty is not, two present offers are iff price and quality are equal: equivalence is equality of the optional offers |
| DeltaOffer.DeltaOffer.constructor | demandSide/src/offer/DeltaOffer.java:9-12 | the delta holds the given price and quality differences |
| DeltaOffer.DeltaOffer.Zero | demandSide/src/offer/DeltaOffer.java:14-18 | a default delta has both components 0 |
| DeltaOffer.DeltaOffer.SetDeltaPrice | demandSide/src/offer/DeltaOffer.java:28-30 | sets the price difference and leaves the quality difference |
| DeltaOffer.DeltaOffer.SetDeltaQuality | demandSide/src/offer/DeltaOffer.java:32-34 | sets the quality difference and leaves the price difference |
| DeltaOffer.DeltaOffer.GetDeltaPrice | demandSide/src/offer/DeltaOffer.java:20-22 | reads back the stored price difference, so a get after a set returns the value set |
| DeltaOffer.DeltaOffer.GetDeltaQuality | demandSide/src/offer/DeltaOffer.java:24-26 | reads back the stored quality difference, so a get after a set returns the value set |
| DeltaOffer.DeltaOfferCompare | demandSide/src/offer/DeltaOffer.java:36-53 | BOTH_UNEQUAL iff both the price and the quality differences have opposite signs; UNEQUAL_QUALITY iff prices agree in sign and qualities oppose; UNEQUAL_PRICE iff the reverse; BOTH_EQUAL otherwise |
| DeltaOffer.SignOfProduct | demandSide/src/offer/DeltaOffer.java:38-39 | the product of two signums is −1 (+1) exactly when the product of the values is negative (positive) |
| DeltaOffer.DeltaOfferCompareSymmetric | demandSide/src/offer/DeltaOffer.java:36-53 | the comparison is symmetric in its arguments, and a zero price difference gives BOTH_EQUAL |
| ExpectedMarket.LastBelow | demandSide/src/firms/ExpectedMarket.java:58 | TreeSet.lower: the last member ordered strictly before f, or none when no member is |
| ExpectedMarket.FirstAbove | demandSide/src/firms/ExpectedMarket.java:66 | TreeSet.higher: the first member ordered strictly after f, or none when no member is |
| ExpectedMarket.PriceToExpel | demandSide/src/firms/ExpectedMarket.java:94-119 | empty exactly for an empty firm; f's price rounded down at equal quality; the null from-above result (f's lower limit infinite) reaches setScale and fails; every price returned is on the price grid |
| ExpectedMarket.PriceToExpelMeaning | demandSide/src/firms/ExpectedMarket.java:94-119 | for a grid price p, p reaches the rounded threshold exactly when entering at p puts the new limit with f at or below f's lower limit (from above) or at or above f's higher limit (from below) |
| ExpectedMarket.FloorSameOnGrid | demandSide/src/firms/ExpectedMarket.java:117-118 | rounding the threshold down does not change which grid prices reach it |
| ExpectedMarket.PriceOrNull | demandSide/src/firms/ExpectedMarket.java:50-51 | the price to expel when one is present, none when it is empty or throws |
| ExpectedMarket.Survivors | demandSide/src/firms/ExpectedMarket.java:44-54 | keeps exactly the members that are not expelled, i.e. whose price to expel is absent or below the entrant's price; the scan does not stop at a survivor |
| ExpectedMarket.SurvivorsSorted | demandSide/src/firms/ExpectedMarket.java:44-54 | removing the expelled members keeps the set's order |
| ExpectedMarket.Insert | demandSide/src/firms/ExpectedMarket.java:33 | TreeSet.add inserts f: one more element, the old ones plus f |
| ExpectedMarket.InsertSorted | demandSide/src/firms/ExpectedMarket.java:33 | inserting a firm equal to no member keeps the set ordered by perceived then real quality |
| ExpectedMarket.AddSpecMeaning | demandSide/src/firms/ExpectedMarket.java:25-54 | after add the set is still ordered; true only when the entry check passed and f is in; every other member was there before and was not expelled; every member not expelled remains; an exception leaves the set unchanged |
| ExpectedMarket.LastAtOrBelowQ | demandSide/src/firms/ExpectedMarket.java:72-79 | the last member with perceived quality ≤ q (equality included), none when there is none |
| ExpectedMarket.FirstAboveQ | demandSide/src/firms/ExpectedMarket.java:81-85 | the first member with perceived quality strictly > q, none when there is none |
| ExpectedMarket.GivenQQueriesSplit | demandSide/src/firms/ExpectedMarket.java:72-85 | on the ordered set the two queries split it: the higher firm is the one right after the lower firm |
| ExpectedMarket.ExpectedMarket.Empty | demandSide/src/firms/ExpectedMarket.java:18-20 | a new set is empty and ordered |
| ExpectedMarket.ExpectedMarket.Add | demandSide/src/firms/ExpectedMarket.java:25-54 | the overriding add performs exactly AddSpec (entry check, removal of expelled members, insertion) and keeps the set ordered |
| ExpectedMarket.ExpectedMarket.LowerFirmGivenQ | demandSide/src/firms/ExpectedMarket.java:72-79 | a member with perceived quality ≤ q, or none when every member is above q |
| ExpectedMarket.ExpectedMarket.HigherFirmGivenQ | demandSide/src/firms/ExpectedMarket.java:81-85 | a member with perceived quality > q, or none when no member is above q |
| ExpectedMarket.AddSpecPositive | demandSide/src/firms/ExpectedMarket.java:25-54 | add keeps every member's perceived quality positive |
| ExpectedMarket.Build | demandSide/src/firms/ExpectedMarket.java:18-23 | the construction adds every market firm except the omitted one, in order; it fails exactly when one of those adds throws |
| FirmsSegments.SegQ | demandSide/src/firms/FirmsPerceivedQSegments.java:26-34 | the segment quality is the perceived quality for perceived-quality segments and the real quality otherwise (FirmsRealQSegments.java:26-30) |
| FirmsSegments.SegmentOrderIsComparator | demandSide/src/firms/FirmsSegments.java:13-15 | the order the model keeps is the one the segment comparators define: for distinct firms, a lower segment quality compares −1 and (perceived kind) equal segment qualities compare 0 |
| FirmsSegments.LastBelow | demandSide/src/firms/FirmsSegments.java:59 | TreeSet.lower: the last member with segment quality strictly below q |
| FirmsSegments.FirstAbove | demandSide/src/firms/FirmsSegments.java:60 | TreeSet.higher: the first member with segment quality strictly above q |
| FirmsSegments.LowerGivenQ | demandSide/src/firms/FirmsSegments.java:109-113 | a member with segment quality strictly below q, or none when every member is at or above q |
| FirmsSegments.HigherGivenQ | demandSide/src/firms/FirmsSegments.java:115-119 | a member with segment quality strictly above q, or none when every member is at or below q |
| FirmsSegments.NeighboursAreClosest | demandSide/src/firms/FirmsSegments.java:109-119 | on the ordered set the lower firm is the closest member below q and the higher firm the closest member above it |
| FirmsSegments.CheckEntry | demandSide/src/firms/FirmsSegments.java:55-65 | admits exactly when both limits are defined and the lower limit is strictly below the higher one; an error of Offer.limit propagates |
| FirmsSegments.Threshold | demandSide/src/firms/FirmsSegments.java:130-144 | price − MIN_NORMAL at equal quality; +∞ from above when the lower limit is infinite; −∞ from below when the higher limit is infinite; an error exactly when the limit used fails |
| FirmsSegments.ThresholdMeaning | demandSide/src/firms/FirmsSegments.java:130-144 | a price is below the threshold exactly when entering at it moves the limit with the firm past the firm's own lower (from above) or higher (from below) limit |
| FirmsSegments.AboveThreshold | demandSide/src/firms/FirmsSegments.java:140-141 | p < price + loLimit·(q − qF) iff the raw limit between the firm and the entrant is below loLimit |
| FirmsSegments.BelowThreshold | demandSide/src/firms/FirmsSegments.java:142-143 | p < price − hiLimit·(qF − q) iff the raw limit between the entrant and the firm is above hiLimit |
| FirmsSegments.AsWrittenUpWalkKeepsSqueezedFirm | demandSide/src/firms/FirmsSegments.java:82-89 | a concrete set where the upward walk's test `p > priceToExpel` keeps a higher neighbour the entrant leaves with no consumer |
| FirmsSegments.CorrectedUpWalkRemovesSqueezedFirm | demandSide/src/firms/FirmsSegments.java:82-89 | with the corrected test the same walk removes that neighbour |
| FirmsSegments.Insert | demandSide/src/firms/FirmsSegments.java:22 | TreeSet.add: one more element, the old ones plus f |
| FirmsSegments.InsertSorted | demandSide/src/firms/FirmsSegments.java:22 | inserting a firm whose segment quality is not taken keeps the set ordered |
| FirmsSegments.RemoveKey | demandSide/src/firms/FirmsSegments.java:30 | TreeSet.remove drops exactly the member comparing equal to the argument |
| FirmsSegments.RemoveKeySorted | demandSide/src/firms/FirmsSegments.java:30 | removal keeps the set ordered |
| FirmsSegments.Readmit | demandSide/src/firms/FirmsSegments.java:34 | the re-admission pass keeps the set ordered and adds only market firms |
| FirmsSegments.RemoveRun | demandSide/src/firms/FirmsSegments.java:27-37 | remove leaves an ordered set whose members are old members other than the removed one, or market firms re-admitted without the expulsion walk |
| FirmsSegments.WalkDown | demandSide/src/firms/FirmsSegments.java:73-80 | the downward walk keeps the set ordered and holds only old members or market firms |
| FirmsSegments.WalkUp | demandSide/src/firms/FirmsSegments.java:82-89 | the upward walk, with the corrected test, keeps the set ordered and holds only old members or market firms |
| FirmsSegments.WalkStopsAtFirstSurvivor | demandSide/src/firms/FirmsSegments.java:74-89 | a neighbour the entrant does not expel stops either walk with the set unchanged |
| FirmsSegments.WalkRemovesExpelledNeighbour | demandSide/src/firms/FirmsSegments.java:74-89 | a neighbour the entrant expels (and that the market does not re-admit) is gone after the walk |
| FirmsSegments.TakeOutSpec | demandSide/src/firms/FirmsSegments.java:67-91 | the downward then the upward walk leave an ordered set of old members and market firms |
| FirmsSegments.AddSpecMeaning | demandSide/src/firms/FirmsSegments.java:17-25 | after add the set is ordered; f went in only after a passed entry check; a failed check changes nothing; every member is f, an old member or a market firm |
| FirmsSegments.Segments.constructor | demandSide/src/firms/FirmsSegments.java:13-15 | a new set is empty and ordered |
| FirmsSegments.Segments.Remove | demandSide/src/firms/FirmsSegments.java:27-37 | the overriding remove performs RemoveRun and reports whether the firm was a member |
| FirmsSegments.Segments.TakeOutExpelledFirms | demandSide/src/firms/FirmsSegments.java:67-91 | the two while loops perform TakeOutSpec |
| FirmsSegments.Segments.Add | demandSide/src/firms/FirmsSegments.java:17-25 | the overriding add performs AddSpec |
| FirmsSegments.Segments.ExpectedDemand | demandSide/src/firms/FirmsSegments.java:121-128 | 0 for a non-member, never negative |
| Comparators.CompareByQ | demandSide/src/firms/CompareByQ.java:8-14 | 0 exactly for the same firm or equal quality; −1 exactly for a lower quality; 1 exactly for a higher one |
| Comparators.CompareByQIsOrder | demandSide/src/firms/CompareByQ.java:8-14 | antisymmetric and transitive on "compares ≤ 0" |
| Comparators.FirmComparatorByQ | demandSide/src/firms/FirmComparatorByQ.java:11-30 | never 0; equivalent offers (a firm against itself included) give −1; otherwise −1 exactly for lower quality, or equal quality and lower price |
| Comparators.FirmComparatorByQAntisymmetric | demandSide/src/firms/FirmComparatorByQ.java:11-30 | antisymmetric for non-equivalent offers; a firm compared with itself gives −1 |
| Comparators.CompareByPerceivedQ | demandSide/src/firms/CompareByPerceivedQ.java:13-29 | 0 for the same firm; different qualities in the owner's view order by that quality; equal ones fall back to the real qualities |
| Comparators.CompareByPerceivedQAntisymmetric | demandSide/src/firms/CompareByPerceivedQ.java:13-29 | antisymmetric; for distinct firms "before" means lower viewed quality, then lower real quality |
| Comparators.PerceivedQSegmentsCompare | demandSide/src/firms/FirmsPerceivedQSegments.java:11-18 | 0 exactly for the same firm or equal perceived quality; −1 exactly for lower, 1 exactly for higher perceived quality |
| Comparators.PerceivedQSegmentsCompareAntisymmetric | demandSide/src/firms/FirmsPerceivedQSegments.java:14-17 | compare(a, b) = −compare(b, a) |
| Comparators.RealQSegmentsCompare | demandSide/src/firms/FirmsRealQSegments.java:11-18 | 0 only for the same firm; −1 exactly for distinct firms with lower quality; 1 for distinct firms with higher or equal quality |
| Comparators.RealQSegmentsCompareTies | demandSide/src/firms/FirmsRealQSegments.java:14-17 | antisymmetric for different qualities; distinct firms of equal quality give 1 both ways |
| Comparators.CompareByPriceToExpel | demandSide/src/optimalPrice/CompareByPriceToExpel.java:18-35 | 0 exactly for the same firm; otherwise −1 exactly for a higher price to expel, or an equal one and a lower price |
| Comparators.CompareByPriceToExpelAntisymmetric | demandSide/src/optimalPrice/CompareByPriceToExpel.java:18-35 | antisymmetric for distinct firms unless both the thresholds and the prices tie, where both directions give 1 |
| Comparators.CompareByPriceToExpelNoTieBreak | demandSide/src/decisionTools/CompareByPriceToExpel.java:18-25 | 0 exactly for the same firm; otherwise −1 exactly for a strictly higher price to expel |
| Comparators.CompareByPriceToExpelNoTieBreakTies | demandSide/src/decisionTools/CompareByPriceToExpel.java:18-25 | antisymmetric for different thresholds; distinct firms with equal thresholds give 1 both ways |
| Neighbors.MaxWith | demandSide/src/optimalPrice/Neighbors.java:32-36 | BigDecimal.max against an optional bound: at least both, and equal to one of them |
| Neighbors.MinWith | demandSide/src/optimalPrice/Neighbors.java:40-41 | BigDecimal.min against an optional bound: at most both, and equal to one of them |
| Neighbors.LoPriceLimit | demandSide/src/optimalPrice/Neighbors.java:27-36 | at least minPrice and at least the price to expel of loF and of hiF when present, and equal to one of them |
| Neighbors.HiPriceLimit | demandSide/src/optimalPrice/Neighbors.java:38-41 | at most the maximum price to enter, at most the replaced firm's price to expel when present, equal to one of them; exactly the maximum price to enter without a replaced firm |
| Neighbors.LimitsOnGrid | demandSide/src/optimalPrice/Neighbors.java:25-43 | with grid minimum and maximum prices both ends of the window are on the price grid |
| Neighbors.Neighbors.constructor | demandSide/src/optimalPrice/Neighbors.java:14-23 | stores the neighbours and computes the limits with no replaced firm, so the upper limit is the maximum price to enter |
| Neighbors.Neighbors.SetPriceLimits | demandSide/src/optimalPrice/Neighbors.java:25-43 | the limits become LoPriceLimit and HiPriceLimit of the current neighbours and the replaced firm; the neighbours are unchanged |
| Neighbors.Neighbors.SetLoF | demandSide/src/optimalPrice/Neighbors.java:49-53 | changes only loF and recomputes both limits with the old loF as the replaced firm |
| Neighbors.Neighbors.SetHiF | demandSide/src/optimalPrice/Neighbors.java:59-63 | changes only hiF and recomputes both limits with the old hiF as the replaced firm |
| NeighborsByPriceToExpel.ToBeExpelled | demandSide/src/optimalPrice/NeighborsByPriceToExpel.java:31-34 | the queue holds exactly the members whose price to expel is present and at least minPrice |
| NeighborsByPriceToExpel.HeadIndex | demandSide/src/optimalPrice/NeighborsByPriceToExpel.java:79 | PriorityQueue.remove takes an element no other queued firm precedes |
| NeighborsByPriceToExpel.HeadIsLeastForComparator | demandSide/src/optimalPrice/NeighborsByPriceToExpel.java:34 | the head is least for CompareByPriceToExpel: no queued firm compares before it |
| NeighborsByPriceToExpel.RemoveAt | demandSide/src/optimalPrice/NeighborsByPriceToExpel.java:79 | removing the head leaves one firm fewer, all from the queue |
| NeighborsByPriceToExpel.Initial | demandSide/src/optimalPrice/NeighborsByPriceToExpel.java:23-45 | the queue holds exactly the expellable members; the window is between the market's lower and higher firms around perceivedQ, with the maximum price to enter as upper limit |
| NeighborsByPriceToExpel.Step | demandSide/src/optimalPrice/NeighborsByPriceToExpel.java:77-92 | one fewer queued firm; the head replaces loF by the firm below it when it is loF, else hiF by the firm above it; the upper limit then drops to the head's price to expel |
| NeighborsByPriceToExpel.Settle | demandSide/src/optimalPrice/NeighborsByPriceToExpel.java:47-49 | advancing stops with an open window or an empty queue, and an open window is left as it is |
| NeighborsByPriceToExpel.Trail | demandSide/src/optimalPrice/NeighborsByPriceToExpel.java:56-100 | the windows the iterator yields, one per queued firm, each well formed and with ends on the price grid |
| NeighborsByPriceToExpel.NeighborsByPriceToExpel.constructor | demandSide/src/optimalPrice/NeighborsByPriceToExpel.java:23-38 | the iterator starts in the Initial state |
| NeighborsByPriceToExpel.NeighborsByPriceToExpel.HasNext | demandSide/src/optimalPrice/NeighborsByPriceToExpel.java:56-59 | true iff the queue is non-empty |
| NeighborsByPriceToExpel.NeighborsByPriceToExpel.Next | demandSide/src/optimalPrice/NeighborsByPriceToExpel.java:69-100 | performs one Step and returns the current neighbours |
| NeighborsByPriceToExpel.NeighborsByPriceToExpel.SetInitialCurrNeighbors | demandSide/src/optimalPrice/NeighborsByPriceToExpel.java:40-54 | the loop reaches the Settle state; NoPrice exactly when the window is still not strictly open |
| NeighborsByPriceToExpel.LowerGivenQ | demandSide/src/optimalPrice/NeighborsByPriceToExpel.java:42 | a member with perceived quality ≤ q, if any |
| NeighborsByPriceToExpel.HigherGivenQ | demandSide/src/optimalPrice/NeighborsByPriceToExpel.java:43 | a member with perceived quality > q, if any |
| OptimalPrice.SearchOf | demandSide/src/optimalPrice/OptimalPrice.java:27-28 | the iterator over prices to expel starts at the offer's minimum price and the configured maximum; its bounds are on the price grid exactly when the maximum price is |
| OptimalPrice.ClosedForm | demandSide/src/optimalPrice/OptimalPrice.java:85-97 | with no firm above, the candidate price r solves the first-order condition r - loP = lambda (r - cost) of the margin against the lower neighbour's price (0 without one) |
| OptimalPrice.ClosedFormIsUnique | demandSide/src/optimalPrice/OptimalPrice.java:93-95 | any price satisfying that first-order condition is the closed form: the root is unique for lambda > 1 |
| OptimalPrice.SegmentOptimalPrice | demandSide/src/optimalPrice/OptimalPrice.java:72-137 | None exactly when a higher firm exists and the window is not open (lower limit at or above the upper), the NumberIsTooLargeException SearchInterval throws there and nothing catches; any price chosen is on the price grid, whether it comes from the closed form, the optimiser or the midpoint fallback |
| OptimalPrice.SegmentPriceInWindow | demandSide/src/optimalPrice/OptimalPrice.java:85-135 | a price chosen inside a window stays between its lower and upper price limits; with no firm above and the closed form inside the window, the price is the closed form rounded half-down |
| OptimalPrice.SegmentDemand | demandSide/src/optimalPrice/OptimalPrice.java:65 | the expected quantity at the window's price is never negative |
| OptimalPrice.SegmentOptimalResult | demandSide/src/optimalPrice/OptimalPrice.java:48-70 | None exactly when the window's search interval is rejected; otherwise the result carries the window's optimal price, a positive margin means a price above unit cost, and a price at or above cost never gives a negative margin |
| OptimalPrice.Margin | demandSide/src/optimalPrice/OptimalPrice.java:65-66 | margin is quantity times unit margin: with non-negative demand its sign follows the unit margin's |
| OptimalPrice.Results | demandSide/src/optimalPrice/OptimalPrice.java:33-42 | None exactly when some window the iterator yields is rejected; otherwise one segment result per window, in order |
| OptimalPrice.PickIsFirstMaximum | demandSide/src/optimalPrice/OptimalPrice.java:33-42 | replacing only on a strictly greater margin keeps the maximum margin over all windows, and it is the first window reaching it (or the starting result) |
| OptimalPrice.PickIsFirstBest | demandSide/src/optimalPrice/OptimalPrice.java:39-40 | the kept price belongs to the earliest result whose margin is greatest among the starting and all later windows |
| OptimalPrice.PickStaysAboveCost | demandSide/src/optimalPrice/OptimalPrice.java:39-40 | when the starting result is priced above cost, the kept result stays above cost with a non-negative margin |
| OptimalPrice.StartWindow | demandSide/src/optimalPrice/OptimalPrice.java:28-29 | the iterator's starting window is well formed for the problem's search |
| OptimalPrice.GetSpec | demandSide/src/optimalPrice/OptimalPrice.java:21-46 | NoPrice exactly when the starting window is closed, and then no prices to expel remain queued; NumberIsTooLarge exactly when some later window is rejected by the optimiser's search interval; a price otherwise |
| OptimalPrice.StartResultAboveCost | demandSide/src/optimalPrice/OptimalPrice.java:27-31 | an open starting window always has a result, priced at or above the minimum price, which exceeds unit cost, so its margin is non-negative |
| OptimalPrice.GetPriceIsFirstBest | demandSide/src/optimalPrice/OptimalPrice.java:21-46 | when a price is returned, no later window was rejected and the price is on the grid, above unit cost, and is the price of the first window with the greatest expected margin |
| OptimalPrice.Get | demandSide/src/optimalPrice/OptimalPrice.java:21-46 | the loop over the iterator returns exactly the specification's outcome: NoPrice on a closed start, NumberIsTooLarge at the first rejected window, else the first best window's price rounded half-down |
| DecisionOptimalPrice.OnSegments | demandSide/src/decisionTools/OptimalPrice.java:17-29 | the pricing problem reads the price to expel of every firm from the segments and the demand from the consumers' expected quantity, for the given quality and cost, and builds the offer at price p as new Offer(p, q) rounded HALF_DOWN |
| DecisionOptimalPrice.MaxE | demandSide/src/decisionTools/OptimalPrice.java:50 | FastMath.max over prices that may be infinite: an upper bound of both arguments that is one of them |
| DecisionOptimalPrice.MinE | demandSide/src/decisionTools/OptimalPrice.java:51 | FastMath.min over prices that may be infinite: a lower bound of both arguments that is one of them |
| DecisionOptimalPrice.Clip | demandSide/src/decisionTools/OptimalPrice.java:50-51 | raising to the lower limit and then capping at the upper limit lands inside a non-empty window and leaves a price already inside unchanged |
| DecisionOptimalPrice.FirstError | demandSide/src/decisionTools/OptimalPrice.java:35 | filtering by price to expel fails exactly when some firm's price to expel fails, with the failure of the first such firm |
| DecisionOptimalPrice.Filter | demandSide/src/decisionTools/OptimalPrice.java:35 | keeps exactly the firms whose price to expel is above unit cost |
| DecisionOptimalPrice.InsertByPte | demandSide/src/decisionTools/OptimalPrice.java:36 | inserting into a list in non-increasing price to expel keeps that order and adds exactly one copy of the firm |
| DecisionOptimalPrice.SortByPte | demandSide/src/decisionTools/OptimalPrice.java:35-36 | the sorted list is in non-increasing price to expel and is a permutation of its input |
| DecisionOptimalPrice.ByPriceToExpelMeaning | demandSide/src/decisionTools/OptimalPrice.java:35-36 | the iterator yields exactly the firms whose price to expel exceeds cost, as a permutation of the filtered segments, each later firm comparing as no higher under CompareByPriceToExpel |
| DecisionOptimalPrice.Demand | demandSide/src/decisionTools/OptimalPrice.java:53 | the expected quantity of the candidate offer between its neighbours is never negative |
| DecisionOptimalPrice.MarginAt | demandSide/src/decisionTools/OptimalPrice.java:241-243 | expected margin is defined only at a finite price; at or above cost it is non-negative and it is positive only above cost |
| DecisionOptimalPrice.AsWrittenBorderHasSmallerMargin | demandSide/src/decisionTools/OptimalPrice.java:230-239 | as written, whenever the two border margins differ, the border returned is the one with the smaller margin |
| DecisionOptimalPrice.AsWrittenBorderExample | demandSide/src/decisionTools/OptimalPrice.java:235-236 | on window [2, 3] with cost 1 and unit demand the written choice returns 2 (margin 1) where the intended choice returns 3 (margin 2) |
| DecisionOptimalPrice.BorderChoice | demandSide/src/decisionTools/OptimalPrice.java:230-239 | the corrected border choice returns a border whose margin is at least the other's, the upper border on ties |
| DecisionOptimalPrice.BestBorder | demandSide/src/decisionTools/OptimalPrice.java:230-239 | the chosen border is one of the two and its expected margin is at least that of either border; an infinite upper border is an error |
| DecisionOptimalPrice.SegLoLimit | demandSide/src/decisionTools/OptimalPrice.java:174-179 | the window's lower limit is the greatest of the higher firm's price to expel, the lower firm's and unit cost |
| DecisionOptimalPrice.SegmentOptimalPrice | demandSide/src/decisionTools/OptimalPrice.java:167-211 | NoPrice exactly when the lower limit exceeds the upper limit; a closed-up window returns its single price; otherwise a price or a non-finite failure |
| DecisionOptimalPrice.SegmentPriceInWindow | demandSide/src/decisionTools/OptimalPrice.java:181-209 | a price the segment returns lies between its lower and upper limits when the solver stays in its interval |
| DecisionOptimalPrice.Prepend | demandSide/src/decisionTools/OptimalPrice.java:44-63 | a window's result goes before the results of the later windows, and a later failure propagates unchanged |
| DecisionOptimalPrice.Scored | demandSide/src/decisionTools/OptimalPrice.java:53-54 | a window scores its price with the expected margin there; a non-finite price or a later failure is the outcome |
| DecisionOptimalPrice.Better | demandSide/src/decisionTools/OptimalPrice.java:56-59 | a candidate replaces the kept result only on a strictly greater margin, and the kept margin never drops |
| DecisionOptimalPrice.ResumeScored | demandSide/src/decisionTools/OptimalPrice.java:44-63 | folding over a window's result and the later ones is the same as first keeping the better of the window's result and then folding the rest |
| DecisionOptimalPrice.WithoutWindows | demandSide/src/decisionTools/OptimalPrice.java:44-88 | without a higher firm, each firm the iterator yields gives one window and the unexpellable rest gives the last, unless a price is not finite |
| DecisionOptimalPrice.WithoutWindowsAboveCost | demandSide/src/decisionTools/OptimalPrice.java:44-88 | every window's price without a higher firm is at least unit cost and its margin non-negative |
| DecisionOptimalPrice.WindowAboveCost | demandSide/src/decisionTools/OptimalPrice.java:53-54 | scoring a price at or above cost keeps every result at or above cost with a non-negative margin |
| DecisionOptimalPrice.QueuedNeighbours | demandSide/src/decisionTools/OptimalPrice.java:115-118 | an expelled firm replaces the lower neighbour when it is of lower quality and the higher one otherwise, the other staying put |
| DecisionOptimalPrice.WithWindows | demandSide/src/decisionTools/OptimalPrice.java:112-161 | with a higher firm, one window per expelled firm plus the last; failures are NoPrice, a non-finite price or a missing higher neighbour |
| DecisionOptimalPrice.ClippedSegmentPriceAboveCost | demandSide/src/decisionTools/OptimalPrice.java:120-124 | the segment price clipped to the window is never below unit cost |
| DecisionOptimalPrice.WithWindowsAboveCost | demandSide/src/decisionTools/OptimalPrice.java:112-161 | every window's price with a higher firm is at least unit cost and its margin non-negative |
| DecisionOptimalPrice.GetSpec | demandSide/src/decisionTools/OptimalPrice.java:17-29 | fails exactly when some price to expel fails; with no higher firm it is the pricing without a higher limiting firm |
| DecisionOptimalPrice.ResumeIsFirstBest | demandSide/src/decisionTools/OptimalPrice.java:41-59 | starting from price 0 and margin 0, the kept price is the first with the greatest margin, and it is 0 or at least cost |
| DecisionOptimalPrice.WithoutHigherMeaning | demandSide/src/decisionTools/OptimalPrice.java:31-91 | the price without a higher firm is the first best over its windows (0 when no margin is positive) and is 0 or at least unit cost |
| DecisionOptimalPrice.WithHigherMeaning | demandSide/src/decisionTools/OptimalPrice.java:93-165 | the price with a higher firm is the first best over its windows (0 when no margin is positive) and is 0 or at least unit cost |
| DecisionOptimalPrice.GetNeverBelowCost | demandSide/src/decisionTools/OptimalPrice.java:17-29 | a price returned is 0 or at least unit cost |
| DecisionOptimalPrice.WithoutHigherLimitingFirm | demandSide/src/decisionTools/OptimalPrice.java:31-91 | the loop over the firms by price to expel computes exactly the functional specification |
| DecisionOptimalPrice.WithHigherLimitingFirms | demandSide/src/decisionTools/OptimalPrice.java:93-165 | the loop over the firms by price to expel with a higher limiting firm computes exactly the functional specification |
| DecisionOptimalPrice.Get | demandSide/src/decisionTools/OptimalPrice.java:17-29 | dispatches on the higher firm given q and returns exactly the specification's price or error |
| ProfitObjectives.NewObjective | demandSide/src/optimalPrice/ExpectedGrossProfitForMaximization.java:17-29 | the objective keeps the constructor's arguments, and the offer it evaluates at price p is new Offer(p, q): price on the price grid within half a unit of p, the same quality at every price |
| ProfitObjectives.GrossValue | demandSide/src/optimalPrice/ExpectedGrossProfitForMaximization.java:27-37 | the gross objective is zero below the minimum expected demand and at unit cost, non-negative at or above cost, and positive only where expected demand reaches the minimum |
| ProfitObjectives.NetValue | demandSide/src/optimalPrice/ExpectedProfitForMaximization.java:31-42 | the net objective is zero whenever expected demand is below the minimum |
| ProfitObjectives.NetIsGrossLessFixedCost | demandSide/src/optimalPrice/ExpectedProfitForMaximization.java:38-41 | where demand reaches the minimum, net profit is gross profit less the fixed cost; below it both are zero |
| ProfitObjectives.GrossValueIsLinearInPrice | demandSide/src/optimalPrice/ExpectedGrossProfitForMaximization.java:29-36 | at equal expected demand above the minimum, the gross objective changes by the price difference times that demand |
| ProfitObjectives.NetValueIsLinearInPrice | demandSide/src/optimalPrice/ExpectedProfitForMaximization.java:38-41 | at equal expected demand above the minimum, the net objective changes by the price difference times that demand (the fixed cost cancels) |
| ProfitObjectives.GrossValuePositiveMeansAboveCost | demandSide/src/optimalPrice/ExpectedGrossProfitForMaximization.java:33-36 | a positive gross objective means a price above unit cost, and then it is at least the unit margin times the minimum expected demand |
| ImprovingOffer.DecisionFor | demandSide/src/improvingOffer/ImprovingOffer.java:33-38 | a quality option has a decision exactly when the optimal price exists for its perceived quality and unit cost, and then it carries that price and margin at the real quality |
| ImprovingOffer.Compare | demandSide/src/improvingOffer/DecisionComparator.java:11-17 | two present decisions compare as the sign of their margin difference: 0 exactly on equal margins, positive exactly when the first is larger |
| ImprovingOffer.CompareIsTotalPreorder | demandSide/src/improvingOffer/DecisionComparator.java:16 | the comparator is antisymmetric and transitive, so the stream's max is well defined |
| ImprovingOffer.Survivors | demandSide/src/improvingOffer/ImprovingOffer.java:28 | after mapping and filtering, exactly the options with a decision remain, each with its own decision |
| ImprovingOffer.MaxFromPresent | demandSide/src/improvingOffer/ImprovingOffer.java:28-29 | the stream's max from a first element has the greatest margin of all and is the first element reaching it |
| ImprovingOffer.MaxIsFirstMaximum | demandSide/src/improvingOffer/ImprovingOffer.java:28-29 | max over an empty stream is empty; otherwise it is the first decision with the greatest margin |
| ImprovingOffer.GetIsBestOption | demandSide/src/improvingOffer/ImprovingOffer.java:19-31 | there is no improving offer exactly when no quality option has a price; otherwise the offer is the decision of an option whose margin is at least every other option's |
| FirmsDecision.Compare | demandSide/src/firms/DecisionComparator.java:11-23 | an empty first decision ranks below anything, an empty second below a present first; two present decisions compare as the sign of their gross profit difference |
| FirmsDecision.CompareAntisymmetricExceptBothEmpty | demandSide/src/firms/DecisionComparator.java:13-21 | the comparator is antisymmetric on every pair except two empty decisions, which both compare as -1 |
| FirmsDecision.EmptyRanksLowest | demandSide/src/firms/DecisionComparator.java:13-18 | an empty decision compares below any present one from either side |
| FirmTypes.Present | demandSide/src/firmTypes/StandardFirm.java:26 | keeping the present options keeps exactly the values present, in order, losing nothing only when every option is present |
| FirmTypes.Standard | demandSide/src/firmTypes/StandardFirm.java:12-28 | the options start with the current quality and hold, besides it, exactly the closest free quality a step down (only above one step) and a step up |
| FirmTypes.NoQIncrease | demandSide/src/firmTypes/NoQIncreaseFirm.java:18-32 | the options start with the current quality and add only the closest free quality a step down, when the quality exceeds one step |
| FirmTypes.NoQReduction | demandSide/src/firmTypes/NoQReductionFirm.java:12-23 | the options start with the current quality and add only the closest free quality a step up |
| FirmTypes.IncreaseQ | demandSide/src/firmTypes/IncreaseQFirm.java:17-27 | the only option is the closest free quality a step up, and there is none when no such quality is free |
| FirmTypes.NoQChange | demandSide/src/firmTypes/NoQChangeFirm.java:15-23 | the only option is the current quality |
| FirmTypes.OptionsNest | demandSide/src/firmTypes/StandardFirm.java:12-28 | the restricted firm types offer subsets of the standard options, all starting at the current quality, and the standard options are the union of the down-only and up-only ones |
| StrategicPreference.SelectPriceFromRange | demandSide/src/firms/StrategicPreference.java:14-17 | the selected price is equidistant from both ends of the range, hence inside any non-empty range |
| StrategicPreference.ClosestAvailableQuality | demandSide/src/firms/StrategicPreference.java:23-44 | prefers the upward closest free quality and falls back to the downward one; from a quality on the grid the result is a free quality at or above it |
| StrategicPreference.RealQualityOptions | demandSide/src/firms/StrategicPreference.java:46-55 | three options: the current quality and the closest free qualities a step down and a step up; from grid inputs both are free and at or above their targets, and above one step they are the standard firm's options |
| QualityMap.LowerKey | demandSide/src/firms/History.java:24 | the strictly-lower key is absent exactly when no quality lies below q, and otherwise is the greatest quality below q |
| QualityMap.HigherKey | demandSide/src/firms/History.java:28 | the strictly-higher key is absent exactly when no quality lies above q, and otherwise is the least quality above q |
| QualityMap.LowerEntry | demandSide/src/firms/History.java:24 | the lower entry lookup returns the firm at the greatest quality below q, and nothing exactly when there is none |
| QualityMap.HigherEntry | demandSide/src/firms/History.java:28 | the higher entry lookup returns the firm at the least quality above q, and nothing exactly when there is none |
| NeighbourHistory.Smooth | demandSide/src/firms/OfferHistory.java:24-30 | one smoothing step leaves a fraction 1 - p of the gap between the previous smoothed value and the current one |
| NeighbourHistory.SmoothStaysBetween | demandSide/src/firms/OfferHistory.java:20-32 | with a smoothing parameter in [0, 1] the smoothed value stays between the previous smoothed value and the current one |
| NeighbourHistory.SetterRounded | demandSide/src/firms/Offer.java:138-158 | what the setters store: the price on the price grid and the quality on the quality grid, and an offer already on both grids unchanged |
| NeighbourHistory.RoundedSmoothStaysBetween | demandSide/src/firms/OfferHistory.java:24-30 | between grid values and with a weight in [0, 1], a blend written through its setter lands between the previous and the current value: the rounding never overshoots |
| NeighbourHistory.SmoothingGapNeverGrows | demandSide/src/firms/OfferHistory.java:20-32 | after n updates against the same current value the history stays between its start and that value, and each further update lands between the value before it and the current one, so the gap never grows |
| NeighbourHistory.SmoothingCanStall | demandSide/src/firms/OfferHistory.java:24-26 | the setter's rounding can stop the smoothing short: at price scale 0 and weight 0.5 a history at 10 against a price of 11 stays at 10 after any number of updates |
| NeighbourHistory.OfferHistory.constructor | demandSide/src/firms/OfferHistory.java:11-18 | weights p for the current offer and 1 - p for the history; the history starts as the given offer stored through the setters (price HALF_DOWN, quality HALF_UP) |
| NeighbourHistory.OfferHistory.Update | demandSide/src/firms/OfferHistory.java:20-32 | price and quality of the smoothed offer each become the weighted blend of the current offer and the history, stored through the setters: price rounded HALF_DOWN, quality HALF_UP |
| NeighbourHistory.NeighborData.constructor | demandSide/src/firms/NeighborData.java:9-12 | tracks the given firm with a fresh history starting at its perceived offer as the setters store it |
| NeighbourHistory.NeighborData.UpdateOffer | demandSide/src/firms/NeighborData.java:37-47 | as written: the same neighbour's offer is smoothed into the history through the setters (price HALF_DOWN, quality HALF_UP); a different firm restarts the history at its offer as the setters store it, while the tracked neighbour stays the old one |
| NeighbourHistory.NeighborData.UpdateOfferTracking | demandSide/src/firms/NeighborData.java:37-47 | as intended: as above, with the same setter rounding, but a different firm also becomes the tracked neighbour |
| NeighbourHistory.UpdateNeighborData | demandSide/src/firms/NeighborData.java:14-35 | no firm gives no data and changes nothing; a first firm gets fresh data at its offer as the setters store it; existing data is updated in place, with the setters' rounding, and returned, keeping its old neighbour |
| NeighbourHistory.UpdateNeighborDataTracking | demandSide/src/firms/NeighborData.java:14-35 | with the intended update, any returned data tracks the given firm, smoothed through the setters when it was already tracked and restarted at its setter-rounded offer otherwise |
| NeighbourHistory.History.constructor | demandSide/src/firms/History.java:13-17 | neither neighbour is tracked at first |
| NeighbourHistory.History.CompetitorPerceivedOffer | demandSide/src/firms/History.java:39-51 | a firm tracked as the higher neighbour is seen through that history, else as the lower neighbour through that one, else by its own perceived offer |
| NeighbourHistory.History.UpdateCompetitorsPerceivedOffers | demandSide/src/firms/History.java:19-31 | as written the updated neighbour data are discarded, so which neighbours are tracked never changes |
| NeighbourHistory.AsWrittenHistoryNeverTracks | demandSide/src/firms/History.java:24-29 | starting from a fresh history, after any update every competitor is still seen by its own perceived offer |
| NeighbourHistory.HistoryExample | demandSide/src/firms/History.java:19-51 | a lower neighbour moving its price from 10 to 20 with smoothing 0.5, at price and quality scale 0, is seen at (20, 1) as written and at (15, 1) with the results kept |
| NeighbourHistory.History.UpdateCompetitorsPerceivedOffersTracking | demandSide/src/firms/History.java:19-31 | with the results kept, each side tracks exactly the firm at the next lower or higher quality, smoothing its offer through the setters when it was already tracked and restarting at its setter-rounded offer otherwise |
| NeighbourHistory.NeighbourSwapExample | demandSide/src/firms/NeighborData.java:43-46 | data tracking firm 1 updated with firm 2's offer (5, 7), at scale 0, reports that offer but still names firm 1 as written, and names firm 2 as intended |
| Agents.QualityDiscount | demandSide/src/consumers/Consumer.java:68-76 | the drawn discount is kept unless it is exactly 1, which would mark every firm as already tried; then it is moved just below 1 |
| Agents.AfterRemoval | demandSide/src/consumers/Consumer.java:143-145 | the chosen firm is dropped exactly when it has the removed firm's id, and otherwise kept |
| Agents.Consumer.constructor | demandSide/src/consumers/Consumer.java:35-54 | a new consumer knows no firm, has chosen none, and has its marginal utility and its adjusted quality discount |
| Agents.Consumer.AddToKnownFirms | demandSide/src/consumers/Consumer.java:78-82 | the firm becomes known with the consumer's quality discount as its factor; nothing else changes |
| Agents.Consumer.AddToTriedFirms | demandSide/src/consumers/Consumer.java:84-87 | the firm's quality factor becomes 1 (tried); nothing else changes |
| Agents.Consumer.ChooseMaximizingFirm | demandSide/src/consumers/Consumer.java:116-132 | the loop returns a known firm with the greatest positive utility, or none exactly when no known firm gives positive utility |
| Agents.Consumer.ChooseFirm | demandSide/src/consumers/Consumer.java:89-105 | the chosen firm is a best choice; its demand rises by one, and on its first choice it gains a tried consumer and a factor of 1; every known firm keeps its offer, delta offer, profits and unaware consumers, the others also their demand and tried count, and a chosen firm gives positive utility |
| Agents.Consumer.BuyFrom | demandSide/src/consumers/Consumer.java:94-102 | the chosen firm's demand rises by one and, when its factor is not yet 1, its tried count rises by one and its factor becomes 1; no other field of the firm changes |
| Agents.Consumer.TriedFactorRaisesUtility | demandSide/src/consumers/Consumer.java:134-139 | with non-negative marginal utility and quality, trying a firm (factor 1) never lowers its utility below the discounted one |
| Agents.BestChoiceIsUnique | demandSide/src/consumers/Consumer.java:116-132 | any two best choices agree on whether a firm is chosen and give the same utility, whatever the map's iteration order |
| Agents.Consumer.RemoveTraceOfFirm | demandSide/src/consumers/Consumer.java:141-146 | the firm is forgotten, and the choice is dropped exactly when it has the firm's id |
| Agents.Consumer.GetUtility | demandSide/src/consumers/Consumer.java:173-179 | zero with no chosen firm, else the utility of the chosen firm at its quality factor |
| Agents.Round | demandSide/src/firms/Firm.java:266-267 | rounding to the nearest integer, ties upward, stays within one half of its argument |
| Agents.KnownByIncrement | demandSide/src/firms/Firm.java:264-270 | the number of consumers to inform this period is at least one and at most the market size |
| Agents.IncrementKeepsInRangeTerm | demandSide/src/firms/Firm.java:266-270 | when the logistic term is already between 1 and the market size, the clamps leave it unchanged |
| Agents.Firm.constructor | demandSide/src/firms/Firm.java:57-76 | a new firm starts with its offer, a zero delta offer, no demand, no profit, no tried consumers and the given consumers not yet aware of it |
| Agents.Firm.ResetDemand | demandSide/src/firms/Firm.java:126-129 | demand becomes zero and every other field is unchanged |
| Agents.Firm.SetDemand | demandSide/src/firms/Firm.java:310-312 | demand becomes the given value and every other field is unchanged |
| Agents.Firm.AddNewConsumer | demandSide/src/firms/Firm.java:306-308 | one more consumer has tried the firm and every other field is unchanged |
| Agents.Firm.PerceptionDiscount | demandSide/src/firms/Firm.java:162-173 | the perception discount is the mean discount plus its complement weighted by the share of consumers who tried the firm |
| Agents.PerceptionDiscountBetween | demandSide/src/firms/Firm.java:162-173 | the discount lies between the mean discount and 1, and reaches 1 exactly when every consumer has tried the firm |
| Agents.Firm.PerceivedQuality | demandSide/src/firms/Firm.java:157-160 | the perceived quality is on the quality grid, within half a grid unit of real quality times the perception discount, and strictly below the upper half-way point for a non-negative product (HALF_DOWN, as the legacy offer rounds its quality) |
| Agents.FullyTriedFirmIsPerceivedAsIs | demandSide/src/firms/Firm.java:157-171 | a firm every consumer has tried is perceived at its real quality when that is on the grid |
| Agents.Firm.PerceivedOffer | demandSide/src/firms/Firm.java:175-182 | the perceived offer keeps the price and carries the perceived quality, rounded HALF_DOWN |
| Agents.UnitCost | demandSide/src/firms/Firm.java:280-284 | unit cost is non-negative and equals the square of quality over the cost parameter |
| Agents.UnitCostGrowsWithQuality | demandSide/src/firms/Firm.java:281-282 | with a positive cost parameter, unit cost does not decrease as quality grows |
| Agents.Firm.CalcProfit | demandSide/src/firms/Firm.java:276-278 | with no demand the profit is minus the fixed cost, and pricing at or above unit cost never loses more than the fixed cost |
| Agents.Firm.NextStep | demandSide/src/firms/Firm.java:195-217 | profit is the period's profit, accumulated profit grows by it, the autoregressive profit restarts at entry and is smoothed afterwards, and the firm is queued to be killed exactly when that falls below the minimum profit |
| Agents.KilledOnlyAfterLowProfit | demandSide/src/firms/Firm.java:204-211 | a firm whose smoothed profit was at least the minimum is killed only after a period whose own profit is below the minimum |
| Agents.Firm.GetFromIgnorance | demandSide/src/firms/Firm.java:237-249 | up to the given amount of not-yet-aware consumers (all, if fewer) leave the list and each learns of the firm at its quality discount; the rest are unchanged |
| Agents.Firm.UpdateConsumerKnowledge | demandSide/src/firms/Firm.java:251-274 | nothing when everyone already knows the firm; otherwise the clamped logistic increment of consumers (at least one) learns of it |
| FirmRegistry.EntrantsThisPeriod | demandSide/src/firms/Firms.java:84-94 | with entry restricted to the start no firm enters after the first tick; otherwise the configured number (none if not positive) |
| FirmRegistry.AfterRemovals | demandSide/src/consumers/Consumer.java:141-146 | after several removals the choice is dropped exactly when one removed firm has its id |
| FirmRegistry.Firms.constructor | demandSide/src/firms/Firms.java:56-60 | no firms, an empty quality map and nothing queued to be killed |
| FirmRegistry.Firms.AddToFirmLists | demandSide/src/firms/Firms.java:62-66 | the firm's quality maps to the firm, and the map stays keyed by quality |
| FirmRegistry.Firms.UpdateFirmLists | demandSide/src/firms/Firms.java:68-71 | the old quality's entry is removed and the new quality maps to the firm |
| FirmRegistry.Firms.RemoveFromFirmLists | demandSide/src/firms/Firms.java:73-77 | as written the call fails and removes nothing: the firm itself is the lookup key of a map keyed by quality |
| FirmRegistry.Firms.RemoveFromFirmListsByQuality | demandSide/src/firms/Firms.java:73-77 | as intended the entry at the firm's quality goes, and a map keyed by quality then holds the firm nowhere |
| FirmRegistry.Firms.MakeOffer | demandSide/src/firms/Firm.java:132-151 | as written the map entry moves to the new quality (overwriting any firm already there) and the delta offer is recorded, but the firm's offer is unchanged, so after a quality change the map is no longer keyed by quality; the firm's demand, profits, tried count and unaware consumers are unchanged |
| FirmRegistry.Firms.MakeOfferAdopting | demandSide/src/firms/Firm.java:132-151 | as intended the firm also takes the new offer, so the map stays keyed by quality, even when an occupied new quality has its entry overwritten; the firm's demand, profits, tried count and unaware consumers are unchanged |
| FirmRegistry.Firms.KillFirm | demandSide/src/firms/Firm.java:295-304 | the firm's quality entry goes, every consumer forgets it and drops it as its choice, and it leaves the market |
| FirmRegistry.Firms.WipeDeadFirms | demandSide/src/firms/Firms.java:96-103 | every queued firm leaves the market, the map and every consumer's knowledge and choice, and the queue is emptied |

## Left out

- Floating point: doubles and BigDecimal values are exact reals. Overflow, NaN and the digits of `Double.valueOf` conversions are not modelled. `Double.MIN_NORMAL` is a symbolic positive epsilon.
- Foreign numerics are function parameters with only the properties the code relies on:
  - `FastMath.pow` is one parameter;
  - the Brent optimiser returns a point of its interval or fails;
  - the Newton-Raphson solver with its `checkMax` test returns a point of its interval, fails, or reports a rejected maximum;
  - parsing a number is a parameter that may fail.
- Random draws are arguments of the constructors that use them:
  - a consumer's marginal utility and quality discount;
  - a firm's fixed cost.
- The random index in `Firm.getFromIgnorance` is an arbitrary choice (`:|`).
- `Offer.getRandomQuality`, `Firm.makeInitialOffer`, `Firm.initializeConsumerKnowledge` and the random firm-type factory are not part of this model. They are random draws and wiring around the modelled operations.
- Repast scheduling, parameters, projections and plots are left out.
  - The dates `scheduleRecessions` schedules are returned as a list of actions instead of being registered with the scheduler.
  - `Firm.updateProjections`, `Consumer.updateProjections` and the tracking of the maximum marginal utility used to scale plots are left out.
- HashMap iteration order in `chooseMaximizingFirm` is unspecified. The model proves that every best choice gives the same utility (`Agents.BestChoiceIsUnique`), not which of several tied firms is picked.
- `Agents.Round`: `FastMath.round` returns a `long` that the source casts to `int`; the cast and the `long` range are not modelled.
- `Agents.Firm.PerceptionDiscount` requires a non-empty market; with no consumers the source divides by zero and gets NaN.
- `Agents.UnitCost` requires a non-zero cost parameter, where the source would divide by zero. `Agents.UnitCostGrowsWithQuality` is proved only for a positive parameter.
- `Agents.Firm.GetFromIgnorance` requires the list of unaware consumers to hold no consumer twice; the source builds it from the market's consumers once.
- `FirmRegistry.Firms.MakeOffer` leaves out the `updateConsumerKnowledge` call at the end of `makeOffer` (`Agents.Firm.UpdateConsumerKnowledge` models it).
- `FirmRegistry.Firms.MakeOfferAdopting` leaves out the same `updateConsumerKnowledge` call (`Firm.java:149`), as `MakeOffer` does; `Agents.Firm.UpdateConsumerKnowledge` models it.
- `FirmRegistry.Firms.KillFirm` uses the intended removal from `firmsByQ` (Finding 3).
- `FirmsSegments.WalkUp` uses the corrected expulsion test of Finding 1 (a higher neighbour goes when the entrant's price is below its price to expel); `FirmsSegments.AsWrittenUpWalkKeepsSqueezedFirm` exhibits the written test.
- `FirmsSegments.TakeOutSpec` is built on `WalkUp`, so it states the corrected walk of Finding 1, not the written one.
- `FirmsSegments.Segments.TakeOutExpelledFirms` runs the corrected upward walk of Finding 1, not the written test at `FirmsSegments.java:84`.
- `FirmsSegments.Segments.Add` expels through `TakeOutExpelledFirms`, so it too runs the corrected walk of Finding 1.
- `DecisionOptimalPrice.SegmentOptimalPrice` uses the corrected border choice of Finding 2 (`BestBorder`, the border with the larger margin); `DecisionOptimalPrice.AsWrittenBorderHasSmallerMargin` states the written choice.
- `DecisionOptimalPrice.WithWindows` prices its windows with the corrected border choice of Finding 2.
- `DecisionOptimalPrice.GetSpec` is stated over the corrected border choice of Finding 2.
- `DecisionOptimalPrice.WithHigherLimitingFirms` computes the specification built on the corrected border choice of Finding 2.
- `DecisionOptimalPrice.Get` returns the specification built on the corrected border choice of Finding 2.
- `LegacyOffer.LimitD` reads the boxed `Double ==` of its first test (`offer/Offer.java:149`) as value equality, as Finding 7 corrects it; Java compares references there, which `LegacyOffer.LimitDAsWritten` models with the identity of the boxes as parameters. The reference test `loQ == hiQ` at line 173 is modelled as value equality in both: a distinct box of equal quality reaches a division by zero whose IEEE result, +∞, is the same Infinity.
- `FirmsSegments.SegmentOrderIsComparator` and `FirmsSegments.Sorted` assume that distinct firms in a real-quality set have distinct real qualities. `FirmsRealQSegments.java:12-18` answers 0 only for equal firms and orders two distinct firms of equal quality as 1 both ways, an order the model does not represent.
- `UtilityFunction.MinWelfareParamAcceptingOffer` requires a positive quality: the source divides price by quality, and for quality 0 the double result is infinite or NaN, which the model does not represent.
- `Consumers.ExpectedQuantity` requires a positive raw minimum welfare parameter and limits that are defined, that is, a higher offer of quality 0 without a lower one is excluded, where the source divides by that quality.
- `Consumers.ExpectedConsumersAbove` requires a positive raw minimum welfare parameter, the scale of the Pareto distribution; the source would divide by zero in `pow` otherwise.
- The following are not part of this model:
  - `Firm.getKnownByPerc` and `Firm.getMarginalCostOfQuality`;
  - the probe setters and getters;
  - `Consumer.getMargUtilOfQuality`;
  - `UtilityFunction.realUtility` beyond its use as the utility with factor 1.
- `NeighbourHistory.NeighborData.UpdateOffer`: `getOffer` of `OfferHistory` hands out its internal offer object, so a caller could alias it. The model returns the value.
- `Offer(DecisionResult)` and the other conversions between data holders are the value type `Values.OfferVal`.
- `firmTypes` options call `Firm.getClosestAvailableQuality`, which is not part of this model; it is the parameter `closest`.
- Several pieces depend on `pow` and probabilities and are not part of this model:
  - `UtilityFunction.getMaxPriceToHaveMinimumExpectedDemand`;
  - `Consumers.getMaxPriceForRichestConsumer`;
  - `Consumers.getRawMaxWelfareParamForRichestConsumer`.
- `UtilityFunction.getMaxPriceForWelfareParam` is not part of this model. `Consumers.MinPrice` uses quality times the scaled minimum welfare parameter, rounded FLOOR, as `getMaxPriceForPoorestConsumer` does.
- `ExpectedMarket.getMaxPriceToEnter` is not part of this model; `UtilityFunction.MaxPriceToEnter` stands in for it in the price window.
- `getMinPrice` in both offer classes is the same expression as `Consumers.getMinPrice` and is modelled once, by `Consumers.MinPrice`. Likewise the free-quality searches of `firms/Offer.java` (84-108) are those of `Consumers` and are modelled there.
- The older `equivalentOffers` (`offer/Offer.java`) is the same logic as `FirmsOffer.EquivalentOffers`, with `null` read as an absent offer.
- Java `assert` statements are not enforced, as under the JVM's default. This covers `loPriceLimit < hiPriceLimit` in the window pricing, the assert after `next`, the ordering assert of `calculateLimit` beyond distinct qualities, and the assert of `makeOffer` that the new quality is free or the firm's own (an occupied quality has its entry overwritten). The members below keep part of an assert as a requires, because without it the source divides by zero:
  - `UtilityFunction.CalculateLimit` requires distinct qualities (part of the assert at `UtilityFunction.java:76`); `loP < hiP` is not required, and a lower offer priced at or above the higher one gets the minimum welfare parameter.
  - `ExpectedMarket.PriceToExpel`, `ExpectedMarket.PriceOrNull`, `ExpectedMarket.Survivors`, `ExpectedMarket.Build`, `ExpectedMarket.ExpectedMarket.Add` and the lemmas about them require positive perceived qualities, the positivity assert of the offer constructor (`firms/Offer.java:26`); the price to expel divides by the quality.
  - `NeighborsByPriceToExpel.NeighborsByPriceToExpel.constructor`, `NeighborsByPriceToExpel.Initial`, `NeighborsByPriceToExpel.LowerGivenQ`, `NeighborsByPriceToExpel.HigherGivenQ` and `NeighborsByPriceToExpel.ToBeExpelled` require the same positive perceived qualities, for the same reason.
  - `Consumers.LimitingWelfareParam` requires that a higher offer without a lower one has a positive quality (`LimitDefined`), as the offer constructor asserts; the source divides by that quality.
- `NeighborsByPriceToExpel.NeighborsByPriceToExpel.Next`: the `do … while()` at `NeighborsByPriceToExpel.java:94` has no condition in the source, so `next` is modelled as one step.
- The index error `scheduleRecessions` raises when a start or duration is missing is modelled as an early stop: `RecessionsHandler.Schedule` returns the actions registered so far with `completed` false.

## Findings

| source | as written | input that shows it | evidently intended | confidence | as-written member | corrected member |
|---|---|---|---|---|---|---|
| demandSide/src/firms/FirmsSegments.java:84 | the walk above the entrant removes a higher neighbour when the entrant's price is greater than its price to expel | real-quality segments with firm (price 100, quality 100) below a firm (102, 110); an entrant (40, 50) is admitted with limits 0.8 < 1.2, and the firm's price to expel is 90; since 40 > 90 is false the squeezed firm stays | remove it when the entrant's price is below its price to expel, as the walk below does | high, not executed | FirmsSegments.AsWrittenUpWalkKeepsSqueezedFirm | FirmsSegments.CorrectedUpWalkRemovesSqueezedFirm |
| demandSide/src/decisionTools/OptimalPrice.java:230-239 | `getBestBorderSolution` returns the lower border exactly when its margin is smaller than the upper border's | window [2, 3], cost 1, unit demand: margins 1 and 2, and the written code returns 2 | return the border with the larger margin (3 here) | high, not executed | DecisionOptimalPrice.AsWrittenBorderExample | DecisionOptimalPrice.BestBorder |
| demandSide/src/firms/Firms.java:75 | `removeFromFirmLists` passes the firm itself as the key of the quality-keyed TreeMap, so no entry is removed and the ordered map's key cast fails | any firm queued to be killed | remove the entry at the firm's quality | high, not executed | FirmRegistry.Firms.RemoveFromFirmLists | FirmRegistry.Firms.RemoveFromFirmListsByQuality |
| demandSide/src/firms/History.java:25 | the Optionals returned by `updateNeighborData` are discarded, so the neighbour histories stay empty | firm 1 at quality 1 below the firm at quality 2; its price goes from 10 to 20 with smoothing 0.5; the competitor is seen at (20, 1) | keep the results, so the competitor is seen at (15, 1) | high, not executed | NeighbourHistory.HistoryExample | NeighbourHistory.History.UpdateCompetitorsPerceivedOffersTracking |
| demandSide/src/firms/NeighborData.java:43-46 | when a different firm becomes the neighbour the history restarts but the tracked neighbour stays the old firm | data tracking firm 1 updated with firm 2's offer (5, 7) still names firm 1 | track the new firm | medium, not executed | NeighbourHistory.NeighbourSwapExample | NeighbourHistory.NeighborData.UpdateOfferTracking |
| demandSide/src/firms/Firm.java:132-151 | `makeOffer` re-keys `firmsByQ` and records the delta offer but never assigns the new offer to the firm | a firm at quality 1 making an offer at free quality 2: the map holds it under 2 while its quality is still 1 | the firm takes the new offer | medium, not executed | FirmRegistry.Firms.MakeOffer | FirmRegistry.Firms.MakeOfferAdopting |
| demandSide/src/offer/Offer.java:149 | the double overload of `limit` tests `loP == hiP && loQ == hiQ` on boxed Doubles, which compares references | two equal offers (p, q) passed as distinct boxes: the test fails and the limit is the minimum marginal utility | raise "Offers should be different" for equal values, as the offer overload does | medium, not executed | LegacyOffer.DistinctBoxesOfEqualOffers | LegacyOffer.LimitD |
