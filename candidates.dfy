/** The fixed candidate set of `generateJourneyOptions`
    (src/utils/aiPlanner.ts), which ignores start and destination and ranks
    four hard-coded options, and the concrete facts about it. */
module Candidates {
  import opened Types
  import opened Ranker
  import opened BudgetAdvisor
  import opened Planner
  import opened StableSort

  function OptionOne(): JourneyOption
  {
    JourneyOption("1", [Bus, Metro], 50, 55, 7, 8,
      [Segment(Bus, 20, 15), Segment(Metro, 35, 35)])
  }

  function OptionTwo(): JourneyOption
  {
    JourneyOption("2", [Cab], 250, 40, 9, 7,
      [Segment(Cab, 40, 250)])
  }

  function OptionThree(): JourneyOption
  {
    JourneyOption("3", [Bike, Metro], 30, 60, 5, 6,
      [Segment(Bike, 15, 10), Segment(Metro, 45, 20)])
  }

  function OptionFour(): JourneyOption
  {
    JourneyOption("4", [Walk, Bus, Train], 35, 75, 6, 9,
      [Segment(Walk, 5, 0), Segment(Bus, 25, 15), Segment(Train, 45, 20)])
  }

  /** The four options, in the order they are written in the source. */
  function FixedOptions(): seq<JourneyOption>
  {
    [OptionOne(), OptionTwo(), OptionThree(), OptionFour()]
  }

  /** Each option's total cost and time are the sums over its legs, its
      modes are its legs' modes, and its ratings lie in 0..10. */
  lemma {:induction false} FixedOptionsConsistent()
    ensures forall o :: o in FixedOptions() ==> ConsistentOption(o) && RatingsInRange(o)
  {
    OneLeg(OptionTwo().breakdown);
    TwoLegs(OptionOne().breakdown);
    TwoLegs(OptionThree().breakdown);
    var four := OptionFour().breakdown;
    assert four[..2] == [four[0], four[1]];
    TwoLegs(four[..2]);
  }

  lemma {:induction false} OneLeg(legs: seq<Segment>)
    requires |legs| == 1
    ensures SegmentCosts(legs) == legs[0].cost
    ensures SegmentDurations(legs) == legs[0].duration
    ensures SegmentModes(legs) == [legs[0].mode]
  {
    assert legs[..0] == [];
  }

  lemma {:induction false} TwoLegs(legs: seq<Segment>)
    requires |legs| == 2
    ensures SegmentCosts(legs) == legs[0].cost + legs[1].cost
    ensures SegmentDurations(legs) == legs[0].duration + legs[1].duration
    ensures SegmentModes(legs) == [legs[0].mode, legs[1].mode]
  {
    assert legs[..1] == [legs[0]];
    OneLeg(legs[..1]);
  }

  /** The fixed options ranked by the requested preference; the endpoints
      play no part. */
  function GenerateJourneyOptions(start: Location, destination: Location, preferences: UserPreferences): (options: seq<JourneyOption>)
    ensures multiset(options) == multiset(FixedOptions())
  {
    RankOptions(FixedOptions(), preferences)
  }

  function Ids(options: seq<JourneyOption>): seq<string>
  {
    seq(|options|, i requires 0 <= i < |options| => options[i].id)
  }

  /** Balanced scores of the four options, computed exactly. */
  lemma {:induction false} FixedScores()
    ensures CalculateBalancedScore(OptionOne()) == 76.75
    ensures CalculateBalancedScore(OptionTwo()) == 61.0
    ensures CalculateBalancedScore(OptionThree()) == 70.0
    ensures CalculateBalancedScore(OptionFour()) == 75.25
  {
  }

  /** `SortBy` on four elements is four insertions. */
  lemma {:induction false} SortFour<T>(a: T, b: T, c: T, d: T, key: T -> real)
    ensures SortBy([a, b, c, d], key)
         == Insert(a, Insert(b, Insert(c, [d], key), key), key)
  {
    assert SortBy([d], key) == [d] by {
      assert [d][1..] == [];
    }
    assert SortBy([c, d], key) == Insert(c, [d], key) by {
      assert [c, d][1..] == [d];
    }
    assert SortBy([b, c, d], key) == Insert(b, SortBy([c, d], key), key) by {
      assert [b, c, d][1..] == [c, d];
    }
    assert SortBy([a, b, c, d], key) == Insert(a, SortBy([b, c, d], key), key) by {
      assert [a, b, c, d][1..] == [b, c, d];
    }
  }

  /** Inserting `x` into `before + after`, where every key of `before` is
      smaller and the first key of `after` is not, puts it between them. */
  lemma {:induction false} InsertBetween<T>(x: T, before: seq<T>, after: seq<T>, key: T -> real)
    requires forall i :: 0 <= i < |before| ==> key(before[i]) < key(x)
    requires after == [] || key(x) <= key(after[0])
    ensures Insert(x, before + after, key) == before + [x] + after
    decreases |before|
  {
    if before == [] {
      assert before + after == after;
      InsertHere(x, after, key);
    } else {
      var y, rest := before[0], before[1..];
      calc {
        Insert(x, before + after, key);
        { assert before + after == [y] + (rest + after); }
        Insert(x, [y] + (rest + after), key);
        { InsertPast(x, y, rest + after, key); }
        [y] + Insert(x, rest + after, key);
        { InsertBetween(x, rest, after, key); }
        [y] + (rest + [x] + after);
        { assert before == [y] + rest; }
        before + [x] + after;
      }
    }
  }

  // Single insertions into short sorted lists, one per position used below.

  lemma {:induction false} InsertInto1At0<T>(x: T, p: T, key: T -> real)
    requires key(x) <= key(p)
    ensures Insert(x, [p], key) == [x, p]
  {
    InsertHere(x, [p], key);
    assert [x] + [p] == [x, p];
  }


  lemma {:induction false} InsertInto1At1<T>(x: T, p: T, key: T -> real)
    requires key(p) < key(x)
    ensures Insert(x, [p], key) == [p, x]
  {
    InsertBetween(x, [p], [], key);
    assert [p] + [] == [p];
    assert [p] + [x] + [] == [p, x];
  }

  lemma {:induction false} InsertInto2At0<T>(x: T, p: T, q: T, key: T -> real)
    requires key(x) <= key(p)
    ensures Insert(x, [p, q], key) == [x, p, q]
  {
    InsertHere(x, [p, q], key);
    assert [x] + [p, q] == [x, p, q];
  }


  lemma {:induction false} InsertInto2At2<T>(x: T, p: T, q: T, key: T -> real)
    requires key(p) < key(x) && key(q) < key(x)
    ensures Insert(x, [p, q], key) == [p, q, x]
  {
    InsertBetween(x, [p, q], [], key);
    assert [p, q] + [] == [p, q];
    assert [p, q] + [x] + [] == [p, q, x];
  }

  lemma {:induction false} InsertInto3At0<T>(x: T, p: T, q: T, r: T, key: T -> real)
    requires key(x) <= key(p)
    ensures Insert(x, [p, q, r], key) == [x, p, q, r]
  {
    var s := [p, q, r];
    assert s[0] == p;
    InsertHere(x, s, key);
    assert [x] + s == [x, p, q, r] by {
      assert ([x] + s)[0] == x && ([x] + s)[1] == p && ([x] + s)[2] == q && ([x] + s)[3] == r;
    }
  }


  lemma {:induction false} InsertInto3At1<T>(x: T, p: T, q: T, r: T, key: T -> real)
    requires key(p) < key(x) && key(x) <= key(q)
    ensures Insert(x, [p, q, r], key) == [p, x, q, r]
  {
    InsertBetween(x, [p], [q, r], key);
    assert [p] + [q, r] == [p, q, r];
    assert [p] + [x] + [q, r] == [p, x, q, r];
  }

  lemma {:induction false} InsertInto3At2<T>(x: T, p: T, q: T, r: T, key: T -> real)
    requires key(p) < key(x) && key(q) < key(x) && key(x) <= key(r)
    ensures Insert(x, [p, q, r], key) == [p, q, x, r]
  {
    InsertBetween(x, [p, q], [r], key);
    assert [p, q] + [r] == [p, q, r];
    assert [p, q] + [x] + [r] == [p, q, x, r];
  }

  /** Keys ordered c < d < a < b. */
  lemma {:induction false} SortFourCDAB<T>(a: T, b: T, c: T, d: T, key: T -> real)
    requires key(c) < key(d) < key(a) < key(b)
    ensures SortBy([a, b, c, d], key) == [c, d, a, b]
  {
    SortFour(a, b, c, d, key);
    InsertInto1At0(c, d, key);
    InsertInto2At2(b, c, d, key);
    InsertInto3At2(a, c, d, b, key);
  }

  /** Keys ordered b < a < c < d. */
  lemma {:induction false} SortFourBACD<T>(a: T, b: T, c: T, d: T, key: T -> real)
    requires key(b) < key(a) < key(c) < key(d)
    ensures SortBy([a, b, c, d], key) == [b, a, c, d]
  {
    SortFour(a, b, c, d, key);
    InsertInto1At0(c, d, key);
    InsertInto2At0(b, c, d, key);
    InsertInto3At1(a, b, c, d, key);
  }

  /** Keys ordered b < a < d < c. */
  lemma {:induction false} SortFourBADC<T>(a: T, b: T, c: T, d: T, key: T -> real)
    requires key(b) < key(a) < key(d) < key(c)
    ensures SortBy([a, b, c, d], key) == [b, a, d, c]
  {
    SortFour(a, b, c, d, key);
    InsertInto1At1(c, d, key);
    InsertInto2At0(b, d, c, key);
    InsertInto3At1(a, b, d, c, key);
  }

  /** Keys ordered a < d < c < b. */
  lemma {:induction false} SortFourADCB<T>(a: T, b: T, c: T, d: T, key: T -> real)
    requires key(a) < key(d) < key(c) < key(b)
    ensures SortBy([a, b, c, d], key) == [a, d, c, b]
  {
    SortFour(a, b, c, d, key);
    InsertInto1At1(c, d, key);
    InsertInto2At2(b, d, c, key);
    InsertInto3At0(a, d, c, b, key);
  }

  lemma {:induction false} CheapestOrder(options: seq<JourneyOption>, preferences: UserPreferences)
    requires options == FixedOptions() && preferences.preference == Cheapest
    ensures RankOptions(options, preferences) == [OptionThree(), OptionFour(), OptionOne(), OptionTwo()]
  {
    var key := RankKey(Cheapest);
    assert key(OptionThree()) < key(OptionFour()) < key(OptionOne()) < key(OptionTwo());
    SortFourCDAB(OptionOne(), OptionTwo(), OptionThree(), OptionFour(), key);
  }

  lemma {:induction false} FastestOrder(options: seq<JourneyOption>, preferences: UserPreferences)
    requires options == FixedOptions() && preferences.preference == Fastest
    ensures RankOptions(options, preferences) == [OptionTwo(), OptionOne(), OptionThree(), OptionFour()]
  {
    var key := RankKey(Fastest);
    assert key(OptionTwo()) < key(OptionOne()) < key(OptionThree()) < key(OptionFour());
    SortFourBACD(OptionOne(), OptionTwo(), OptionThree(), OptionFour(), key);
  }

  lemma {:induction false} ComfortableOrder(options: seq<JourneyOption>, preferences: UserPreferences)
    requires options == FixedOptions() && preferences.preference == Comfortable
    ensures RankOptions(options, preferences) == [OptionTwo(), OptionOne(), OptionFour(), OptionThree()]
  {
    var key := RankKey(Comfortable);
    assert key(OptionTwo()) < key(OptionOne()) < key(OptionFour()) < key(OptionThree());
    SortFourBADC(OptionOne(), OptionTwo(), OptionThree(), OptionFour(), key);
  }

  lemma {:induction false} BalancedOrder(options: seq<JourneyOption>, preferences: UserPreferences)
    requires options == FixedOptions() && preferences.preference == Balanced
    ensures RankOptions(options, preferences) == [OptionOne(), OptionFour(), OptionThree(), OptionTwo()]
  {
    var key := RankKey(Balanced);
    FixedScores();
    assert key(OptionOne()) < key(OptionFour()) < key(OptionThree()) < key(OptionTwo());
    SortFourADCB(OptionOne(), OptionTwo(), OptionThree(), OptionFour(), key);
  }

  /** The id order of the fixed options under each mode, and under any other
      preference value the source order. */
  lemma {:induction false} GeneratedOrders(start: Location, destination: Location, preferences: UserPreferences)
    ensures preferences.preference == Cheapest ==>
      Ids(GenerateJourneyOptions(start, destination, preferences)) == ["3", "4", "1", "2"]
    ensures preferences.preference == Fastest ==>
      Ids(GenerateJourneyOptions(start, destination, preferences)) == ["2", "1", "3", "4"]
    ensures preferences.preference == Comfortable ==>
      Ids(GenerateJourneyOptions(start, destination, preferences)) == ["2", "1", "4", "3"]
    ensures preferences.preference == Balanced ==>
      Ids(GenerateJourneyOptions(start, destination, preferences)) == ["1", "4", "3", "2"]
    ensures preferences.preference == Other ==>
      Ids(GenerateJourneyOptions(start, destination, preferences)) == ["1", "2", "3", "4"]
  {
    var options := FixedOptions();
    var r := GenerateJourneyOptions(start, destination, preferences);
    IdsFour(r);
    match preferences.preference
    case Cheapest => CheapestOrder(options, preferences);
    case Fastest => FastestOrder(options, preferences);
    case Comfortable => ComfortableOrder(options, preferences);
    case Balanced => BalancedOrder(options, preferences);
    case Other =>
  }

  lemma {:induction false} IdsFour(r: seq<JourneyOption>)
    requires |r| == 4
    ensures Ids(r) == [r[0].id, r[1].id, r[2].id, r[3].id]
  {
  }

  /** With a budget of 200 only the cab option is over, by 50, and it is
      told to take the metro instead. */
  lemma {:induction false} FixedBudgetAlerts()
    ensures CheckBudgetAlert(OptionOne(), Some(200)).None?
    ensures CheckBudgetAlert(OptionThree(), Some(200)).None?
    ensures CheckBudgetAlert(OptionFour(), Some(200)).None?
    ensures CheckBudgetAlert(OptionTwo(), Some(200)) == Some(BudgetAlert(true, 50, MetroInsteadOfCab))
    ensures CheckBudgetAlert(OptionTwo(), Some(200)).value.suggestion.Text()
         == "Consider using Metro instead of Cab to reduce cost"
  {
  }

  lemma {:induction false} ScenarioMean()
    ensures Mean([50, 250, 30]) == 110.0
  {
    var c := [50, 250, 30];
    assert c[..2] == [50, 250];
    assert c[..2][..1] == [50];
    assert [50][..0] == [];
    assert Sum([50]) == 50;
    assert Sum([50, 250]) == 300;
    assert Sum(c) == 330;
  }

  /** The frequency profile of the scenario's modes: metro twice, then
      bus, cab and bike once each, first used in that order. */
  predicate ScenarioProfile(modes: seq<ModeType>)
  {
    && Count(modes, Metro) == 2
    && Count(modes, Bus) == 1 && Count(modes, Cab) == 1 && Count(modes, Bike) == 1
    && Count(modes, Train) == 0 && Count(modes, Walk) == 0
    && Bus in modes && Cab in modes && Bike in modes
    && FirstIndex(modes, Bus) < FirstIndex(modes, Cab) < FirstIndex(modes, Bike)
  }

  lemma {:induction false} ScenarioModes()
    ensures ScenarioProfile([Bus, Metro, Cab, Bike, Metro])
  {
    var modes := [Bus, Metro, Cab, Bike, Metro];
    assert modes[..0] == [];
    assert modes[..2] == [Bus, Metro];
    assert modes[..3] == [Bus, Metro, Cab];
    assert FirstIndex(modes, Bus) == 0;
    assert FirstIndex(modes, Cab) == 2;
    assert FirstIndex(modes, Bike) == 3;
  }

  /** What the general lemmas of `Planner` say about a summary `r` of
      `modes`: at most three distinct modes taken, all of them when fewer
      than three are reported, ... */
  ghost predicate Chosen(modes: seq<ModeType>, r: seq<ModeType>)
  {
    && |r| <= 3
    && (forall i, j :: 0 <= i < j < |r| ==> r[i] != r[j])
    && (forall i :: 0 <= i < |r| ==> r[i] in modes)
    && (|r| < 3 ==> forall m :: m in modes ==> m in r)
  }

  /** ... most frequent first, with nothing omitted more frequent than
      anything reported, ... */
  ghost predicate ByFrequency(modes: seq<ModeType>, r: seq<ModeType>)
  {
    && (forall i, j :: 0 <= i < j < |r| ==> Count(modes, r[i]) >= Count(modes, r[j]))
    && (forall i, m :: 0 <= i < |r| && m in modes && m !in r ==> Count(modes, r[i]) >= Count(modes, m))
  }

  /** ... and ties, inside the result and at the cut-off, settled by first use. */
  ghost predicate ByFirstUse(modes: seq<ModeType>, r: seq<ModeType>)
  {
    && (forall i, j :: 0 <= i < j < |r| && Count(modes, r[i]) == Count(modes, r[j]) ==>
          r[i] in modes && r[j] in modes && FirstIndex(modes, r[i]) < FirstIndex(modes, r[j]))
    && (forall i, m :: 0 <= i < |r| && m in modes && m !in r && Count(modes, r[i]) == Count(modes, m) ==>
          r[i] in modes && FirstIndex(modes, r[i]) < FirstIndex(modes, m))
  }

  lemma {:induction false} PreferredFacts(modes: seq<ModeType>)
    ensures Chosen(modes, PreferredModes(modes))
    ensures ByFrequency(modes, PreferredModes(modes))
    ensures ByFirstUse(modes, PreferredModes(modes))
  {
    PreferredModesChosen(modes);
    PreferredModesAllWhenFew(modes);
    PreferredModesNonIncreasing(modes);
    PreferredModesMostFrequent(modes);
    PreferredModesTiesByFirstUse(modes);
    PreferredModesCutOffByFirstUse(modes);
  }

  /** Any mode list with that profile is summarised as metro, bus, cab: the
      result follows from the general properties of `PreferredModes`
      alone (three distinct modes, most frequent first, ties and the
      cut-off decided by first use). */
  lemma {:induction false} PreferredForProfile(modes: seq<ModeType>)
    requires ScenarioProfile(modes)
    ensures PreferredModes(modes) == [Metro, Bus, Cab]
  {
    PreferredFacts(modes);
    ProfileSummary(modes, PreferredModes(modes));
  }

  /** The same, for any `r` with those properties. */
  lemma {:induction false} ProfileSummary(modes: seq<ModeType>, r: seq<ModeType>)
    requires ScenarioProfile(modes)
    requires Chosen(modes, r) && ByFrequency(modes, r) && ByFirstUse(modes, r)
    ensures r == [Metro, Bus, Cab]
  {
    ProfileLength(modes, r);
    ProfileHead(modes, r);
    ProfileRest(modes, r);
    ProfileBikeNotSecond(modes, r);
    ProfileBikeNotThird(modes, r);
    assert Count(modes, r[1]) == Count(modes, r[2]);
    assert FirstIndex(modes, r[1]) < FirstIndex(modes, r[2]);
  }

  /** A sequence holding three different modes has at least three elements. */
  lemma {:induction false} ThreeModes(r: seq<ModeType>)
    requires Bus in r && Metro in r && Cab in r
    ensures |r| >= 3
  {
    var i :| 0 <= i < |r| && r[i] == Bus;
    var j :| 0 <= j < |r| && r[j] == Metro;
    var k :| 0 <= k < |r| && r[k] == Cab;
    assert i != j && j != k && i != k;
  }

  lemma {:induction false} ProfileLength(modes: seq<ModeType>, r: seq<ModeType>)
    requires ScenarioProfile(modes) && Chosen(modes, r)
    ensures |r| == 3
  {
    assert Bus in modes && Metro in modes && Cab in modes;
    if |r| < 3 {
      assert Bus in r && Metro in r && Cab in r;
      ThreeModes(r);
    }
  }

  lemma {:induction false} ProfileHead(modes: seq<ModeType>, r: seq<ModeType>)
    requires ScenarioProfile(modes) && Chosen(modes, r) && ByFrequency(modes, r)
    requires |r| == 3
    ensures r[0] == Metro
  {
    assert Metro in modes;
    if r[0] != Metro {
      assert false;
    }
  }

  /** Behind metro come two of bus, cab and bike, each taken once. */
  lemma {:induction false} ProfileRest(modes: seq<ModeType>, r: seq<ModeType>)
    requires ScenarioProfile(modes) && Chosen(modes, r)
    requires |r| == 3 && r[0] == Metro
    ensures r[1] in {Bus, Cab, Bike} && r[2] in {Bus, Cab, Bike} && r[1] != r[2]
  {
    assert r[1] in modes && r[2] in modes;
    assert r[1] != Metro && r[2] != Metro;
    assert multiset(modes)[Train] == 0 && multiset(modes)[Walk] == 0;
  }

  /** Bike, first used last, is the one cut off: it cannot come second,
      ahead of a mode of equal frequency used before it ... */
  lemma {:induction false} ProfileBikeNotSecond(modes: seq<ModeType>, r: seq<ModeType>)
    requires ScenarioProfile(modes) && Chosen(modes, r) && ByFirstUse(modes, r)
    requires |r| == 3 && r[0] == Metro
    ensures r[1] != Bike
  {
    ProfileRest(modes, r);
    assert Count(modes, r[1]) == Count(modes, r[2]);
  }

  /** ... nor third, ahead of the omitted one of bus and cab. */
  lemma {:induction false} ProfileBikeNotThird(modes: seq<ModeType>, r: seq<ModeType>)
    requires ScenarioProfile(modes) && Chosen(modes, r) && ByFirstUse(modes, r)
    requires |r| == 3 && r[0] == Metro
    ensures r[2] != Bike
  {
    ProfileRest(modes, r);
  }

  /** Three bookings costing 50, 250 and 30 leave an average of 110; the
      modes taken are bus, metro, cab, bike and metro, so metro comes first
      and bus and cab follow in order of first use. */
  method LearnerScenario() returns (average: real, preferred: seq<ModeType>)
    ensures average == 110.0
    ensures preferred == [Metro, Bus, Cab]
  {
    var planner := new AIJourneyPlanner();
    BookFirstTwo(planner);
    BookThird(planner);
    var r := planner.GetPersonalizedRecommendations("user");
    ScenarioMean();
    ScenarioModes();
    PreferredForProfile(planner.userHistory["user"].selectedModes);
    average := r.value.averageBudget;
    preferred := r.value.preferredModes;
  }

  /** A new user books the first and then the second option. */
  method BookFirstTwo(planner: AIJourneyPlanner)
    requires planner.Valid() && planner.userHistory == map[]
    modifies planner
    ensures planner.Valid() && "user" in planner.userHistory
    ensures planner.tripCosts["user"] == [50, 250]
    ensures planner.userHistory["user"].selectedModes == [Bus, Metro, Cab]
  {
    var prefs := UserPreferences(Balanced, None, 1, false);
    planner.LearnFromUserChoice("user", OptionOne(), prefs);
    planner.LearnFromUserChoice("user", OptionTwo(), prefs);
  }

  /** The same user then books the third option. */
  method BookThird(planner: AIJourneyPlanner)
    requires planner.Valid() && "user" in planner.userHistory
    requires planner.tripCosts["user"] == [50, 250]
    requires planner.userHistory["user"].selectedModes == [Bus, Metro, Cab]
    modifies planner
    ensures planner.Valid() && "user" in planner.userHistory
    ensures planner.tripCosts["user"] == [50, 250, 30]
    ensures planner.userHistory["user"].selectedModes == [Bus, Metro, Cab, Bike, Metro]
  {
    planner.LearnFromUserChoice("user", OptionThree(), UserPreferences(Balanced, None, 1, false));
  }
}
