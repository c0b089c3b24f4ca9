/** The ranker: reorders a copy of the candidate options under one of the
    four preference modes (src/utils/aiPlanner.ts, `rankOptions` and
    `calculateBalancedScore`). Scores are exact rationals. */
module Ranker {
  import opened Types
  import opened StableSort

  function Max(a: real, b: real): real
  {
    if a >= b then a else b
  }

  /** Cost term of the balanced score: lower cost scores higher, floored at 0. */
  function CostScore(o: JourneyOption): (r: real)
    ensures 0.0 <= r
    ensures o.totalCost >= 0 ==> r <= 100.0
    ensures r == 0.0 <==> o.totalCost >= 300
  {
    Max(0.0, 100.0 - o.totalCost as real / 3.0)
  }

  /** Time term of the balanced score: shorter trips score higher, floored at 0. */
  function TimeScore(o: JourneyOption): (r: real)
    ensures 0.0 <= r
    ensures o.totalTime >= 0 ==> r <= 100.0
    ensures r == 0.0 <==> o.totalTime >= 200
  {
    Max(0.0, 100.0 - o.totalTime as real / 2.0)
  }

  /** Ratings between 0 and 10. */
  predicate RatingsInRange(o: JourneyOption)
  {
    0 <= o.comfortRating <= 10 && 0 <= o.safetyRating <= 10
  }

  /** The weighted balanced score; weights 0.3, 0.3, 0.2, 0.2 sum to one,
      so an option with non-negative cost and time and ratings in 0..10
      scores between 0 and 100. */
  function CalculateBalancedScore(o: JourneyOption): (score: real)
    ensures o.totalCost >= 0 && o.totalTime >= 0 && RatingsInRange(o) ==> 0.0 <= score <= 100.0
  {
    var comfortScore := (o.comfortRating * 10) as real;
    var safetyScore := (o.safetyRating * 10) as real;
    CostScore(o) * 0.3 + TimeScore(o) * 0.3 + comfortScore * 0.2 + safetyScore * 0.2
  }

  /** Other things equal, a cheaper or faster option never scores lower. */
  lemma {:induction false} BalancedScoreMonotone(a: JourneyOption, b: JourneyOption)
    requires a.totalCost <= b.totalCost && a.totalTime <= b.totalTime
    requires a.comfortRating == b.comfortRating && a.safetyRating == b.safetyRating
    ensures CalculateBalancedScore(a) >= CalculateBalancedScore(b)
  {
    assert CostScore(a) >= CostScore(b);
    assert TimeScore(a) >= TimeScore(b);
  }

  /** The sort key of each mode; the sort is ascending by key, so the
      descending modes negate. `Other` never sorts. */
  function Key(p: Preference, o: JourneyOption): real
  {
    match p
    case Cheapest => o.totalCost as real
    case Fastest => o.totalTime as real
    case Comfortable => -(o.comfortRating as real)
    case Balanced => -CalculateBalancedScore(o)
    case Other => 0.0
  }

  function RankKey(p: Preference): JourneyOption -> real
  {
    o => Key(p, o)
  }

  /** Ranks a copy of `options`: a permutation of the input, and the input
      itself when the preference is not one of the four known modes. */
  function RankOptions(options: seq<JourneyOption>, preferences: UserPreferences): (ranked: seq<JourneyOption>)
    ensures multiset(ranked) == multiset(options)
    ensures |ranked| == |options|
    ensures preferences.preference == Other ==> ranked == options
  {
    match preferences.preference
    case Other => options
    case _ =>
      SortByLength(options, RankKey(preferences.preference));
      SortBy(options, RankKey(preferences.preference))
  }

  /** The order each mode produces. */
  lemma {:induction false} RankOrdered(options: seq<JourneyOption>, preferences: UserPreferences)
    ensures var r := RankOptions(options, preferences);
      && (preferences.preference == Cheapest ==>
            forall i, j :: 0 <= i < j < |r| ==> r[i].totalCost <= r[j].totalCost)
      && (preferences.preference == Fastest ==>
            forall i, j :: 0 <= i < j < |r| ==> r[i].totalTime <= r[j].totalTime)
      && (preferences.preference == Comfortable ==>
            forall i, j :: 0 <= i < j < |r| ==> r[i].comfortRating >= r[j].comfortRating)
      && (preferences.preference == Balanced ==>
            forall i, j :: 0 <= i < j < |r| ==> CalculateBalancedScore(r[i]) >= CalculateBalancedScore(r[j]))
  {
    var r := RankOptions(options, preferences);
    var p := preferences.preference;
    if p != Other {
      assert SortedBy(r, RankKey(p));
      forall i, j | 0 <= i < j < |r| ensures Key(p, r[i]) <= Key(p, r[j]) {
        assert RankKey(p)(r[i]) <= RankKey(p)(r[j]);
      }
    }
  }

  /** Stability: under a known mode, the options that tie on the mode's key
      `k` appear in the result in their input order. */
  lemma {:induction false} RankStable(options: seq<JourneyOption>, preferences: UserPreferences, k: real)
    requires preferences.preference != Other
    ensures Filter(RankOptions(options, preferences), RankKey(preferences.preference), k)
         == Filter(options, RankKey(preferences.preference), k)
  {
    SortByStable(options, RankKey(preferences.preference), k);
  }

  /** Any arrangement of the input that is ordered by the mode's key and
      keeps tied options in input order is the ranker's result. */
  lemma {:induction false} RankCharacterized(options: seq<JourneyOption>, preferences: UserPreferences, r: seq<JourneyOption>)
    requires preferences.preference != Other
    requires SortedBy(r, RankKey(preferences.preference))
    requires forall k :: Filter(r, RankKey(preferences.preference), k) == Filter(options, RankKey(preferences.preference), k)
    ensures r == RankOptions(options, preferences)
  {
    SortByCharacterized(options, r, RankKey(preferences.preference));
  }
}
