/** Value types of the journey planner: transport modes, journey options,
    the user's stated preferences and the optional wrapper used for the
    source's `undefined` / `null` results. */
module Types {

  datatype Option<+T> = None | Some(value: T)

  /** The closed set of transport mode types. The display name, icon and
      colour that accompany each mode are presentation only. */
  datatype ModeType = Bus | Metro | Train | Cab | Bike | Walk

  /** The ranking criterion. `Other` stands for any value outside the four
      known ones, which the ranker's `default` branch handles. */
  datatype Preference = Cheapest | Fastest | Comfortable | Balanced | Other

  /** One leg of a journey: the mode used, its duration in minutes and its
      cost in currency units. */
  datatype Segment = Segment(mode: ModeType, duration: int, cost: int)

  /** A candidate journey. `sequence` lists the mode of each leg in order;
      `breakdown` holds the legs themselves. */
  datatype JourneyOption = JourneyOption(
    id: string,
    sequence: seq<ModeType>,
    totalCost: int,
    totalTime: int,
    comfortRating: int,
    safetyRating: int,
    breakdown: seq<Segment>)

  datatype Location = Location(name: string, lat: real, lng: real)

  /** The preferences a user submits with a request. */
  datatype UserPreferences = UserPreferences(
    preference: Preference,
    budget: Option<int>,
    passengers: int,
    rememberRoutes: bool)

  function SegmentCosts(legs: seq<Segment>): int
  {
    if legs == [] then 0 else SegmentCosts(legs[..|legs| - 1]) + legs[|legs| - 1].cost
  }

  function SegmentDurations(legs: seq<Segment>): int
  {
    if legs == [] then 0 else SegmentDurations(legs[..|legs| - 1]) + legs[|legs| - 1].duration
  }

  function SegmentModes(legs: seq<Segment>): (modes: seq<ModeType>)
    ensures |modes| == |legs|
    ensures forall i :: 0 <= i < |legs| ==> modes[i] == legs[i].mode
  {
    if legs == [] then [] else SegmentModes(legs[..|legs| - 1]) + [legs[|legs| - 1].mode]
  }

  /** The aggregate fields of an option agree with its legs. */
  predicate ConsistentOption(o: JourneyOption)
  {
    && o.totalCost == SegmentCosts(o.breakdown)
    && o.totalTime == SegmentDurations(o.breakdown)
    && o.sequence == SegmentModes(o.breakdown)
  }
}
