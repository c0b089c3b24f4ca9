/** The preference learner of `AIJourneyPlanner` (src/utils/aiPlanner.ts,
    `learnFromUserChoice` and `getPersonalizedRecommendations`): a per-user
    profile kept in a map, updated on every confirmed booking, and the
    recommendation derived from it. */
module Planner {
  import opened Types
  import opened StableSort

  /** A user's accumulated history. */
  datatype Profile = Profile(
    preferences: seq<Preference>,
    selectedModes: seq<ModeType>,
    averageBudget: real,
    totalTrips: int)

  /** What the recommendation query returns for a known user. */
  datatype Recommendation = Recommendation(preferredModes: seq<ModeType>, averageBudget: real)

  function Sum(costs: seq<int>): int
  {
    if costs == [] then 0 else Sum(costs[..|costs| - 1]) + costs[|costs| - 1]
  }

  /** The arithmetic mean, 0 for no trips. */
  function Mean(costs: seq<int>): real
  {
    if costs == [] then 0.0 else Sum(costs) as real / |costs| as real
  }

  /** The incremental mean update of the learner: the new average lies
      between the old average and the new cost. */
  function UpdatedAverage(average: real, trips: int, cost: int): (r: real)
    requires trips >= 0
    ensures average <= cost as real ==> average <= r <= cost as real
    ensures cost as real <= average ==> cost as real <= r <= average
  {
    (average * trips as real + cost as real) / (trips as real + 1.0)
  }

  /** When `avg` is the mean of `costs` and `n` their number, the update
      gives the mean once `cost` is added. */
  lemma {:induction false} RunningMeanStep(avg: real, n: int, costs: seq<int>, cost: int)
    requires n == |costs| && avg == Mean(costs)
    ensures UpdatedAverage(avg, n, cost) == Mean(costs + [cost])
  {
    var c := costs + [cost];
    assert c[..|c| - 1] == costs;
    assert Sum(c) == Sum(costs) + cost;
    if n > 0 {
      assert avg * n as real == Sum(costs) as real;
    }
  }

  /** A profile summarises the trip costs `costs` recorded for its user. */
  ghost predicate Tracks(p: Profile, costs: seq<int>)
  {
    && p.totalTrips == |costs|
    && |p.preferences| == |costs|
    && p.averageBudget == Mean(costs)
  }

  // ---------------------------------------------------------------------
  // Mode frequencies

  /** The index of the first occurrence of `x` in `s`. */
  function FirstIndex<T(==)>(s: seq<T>, x: T): (r: int)
    requires x in s
    ensures 0 <= r < |s| && s[r] == x && x !in s[..r]
  {
    var n := |s| - 1;
    if x in s[..n] then
      var r := FirstIndex(s[..n], x);
      assert s[..n][..r] == s[..r];
      r
    else
      assert s == s[..n] + [s[n]];
      n
  }

  function Count(modes: seq<ModeType>, m: ModeType): nat
  {
    multiset(modes)[m]
  }

  /** The accumulator of the frequency `reduce`: an object whose keys are
      kept in insertion order and whose values count occurrences. */
  datatype Tally = Tally(keys: seq<ModeType>, counts: map<ModeType, int>)

  /** Folds `modes` left to right into a tally: the keys are the distinct
      modes, and each count is the number of occurrences. */
  function TallyModes(modes: seq<ModeType>): (t: Tally)
    ensures forall m :: m in t.counts <==> m in modes
    ensures forall m :: m in t.keys <==> m in modes
    ensures forall m :: m in t.counts ==> t.counts[m] == Count(modes, m)
  {
    if modes == [] then Tally([], map[])
    else
      var n := |modes| - 1;
      var acc := TallyModes(modes[..n]);
      assert modes == modes[..n] + [modes[n]];
      Step(acc, modes[n])
  }

  /** One step of the `reduce`: `acc[mode] = (acc[mode] || 0) + 1`, where a
      new key goes to the end of the key order. */
  function Step(acc: Tally, m: ModeType): (r: Tally)
    ensures r.counts.Keys == acc.counts.Keys + {m}
    ensures r.counts[m] == (if m in acc.counts then acc.counts[m] else 0) + 1
    ensures forall x :: x in acc.counts && x != m ==> r.counts[x] == acc.counts[x]
  {
    if m in acc.counts then Tally(acc.keys, acc.counts[m := acc.counts[m] + 1])
    else Tally(acc.keys + [m], acc.counts[m := 1])
  }

  lemma {:induction false} FirstIndexPrefix(s: seq<ModeType>, n: int, x: ModeType)
    requires 0 <= n <= |s| && x in s[..n]
    ensures x in s && FirstIndex(s, x) == FirstIndex(s[..n], x)
  {
    var r := FirstIndex(s[..n], x);
    assert s[..r] == s[..n][..r];
  }

  /** Every element of `keys` occurs in `modes`, and earlier keys occur
      first earlier. */
  ghost predicate InFirstUseOrder(keys: seq<ModeType>, modes: seq<ModeType>)
  {
    forall i, j :: 0 <= i < j < |keys| ==>
      keys[i] in modes && keys[j] in modes && FirstIndex(modes, keys[i]) < FirstIndex(modes, keys[j])
  }

  lemma {:induction false} FirstUseOrderExtend(keys: seq<ModeType>, prefix: seq<ModeType>, m: ModeType)
    requires InFirstUseOrder(keys, prefix)
    requires forall i :: 0 <= i < |keys| ==> keys[i] in prefix
    ensures InFirstUseOrder(keys, prefix + [m])
  {
    var modes := prefix + [m];
    assert modes[..|prefix|] == prefix;
    forall i | 0 <= i < |keys| ensures keys[i] in modes && FirstIndex(modes, keys[i]) == FirstIndex(prefix, keys[i]) {
      FirstIndexPrefix(modes, |prefix|, keys[i]);
    }
  }

  lemma {:induction false} FirstUseOrderAppendNew(keys: seq<ModeType>, prefix: seq<ModeType>, m: ModeType)
    requires InFirstUseOrder(keys, prefix + [m])
    requires forall i :: 0 <= i < |keys| ==> keys[i] in prefix
    requires m !in prefix
    ensures InFirstUseOrder(keys + [m], prefix + [m])
  {
    var modes := prefix + [m];
    var keys' := keys + [m];
    assert modes[..|prefix|] == prefix;
    assert FirstIndex(modes, m) == |prefix|;
    forall i, j | 0 <= i < j < |keys'|
      ensures keys'[i] in modes && keys'[j] in modes && FirstIndex(modes, keys'[i]) < FirstIndex(modes, keys'[j])
    {
      if j == |keys| {
        assert keys'[i] == keys[i];
        FirstIndexPrefix(modes, |prefix|, keys[i]);
      } else {
        assert keys'[i] == keys[i] && keys'[j] == keys[j];
      }
    }
  }

  /** The keys of a tally come in order of first occurrence. */
  lemma {:induction false} TallyKeysInFirstUseOrder(modes: seq<ModeType>)
    ensures InFirstUseOrder(TallyModes(modes).keys, modes)
  {
    if modes != [] {
      var n := |modes| - 1;
      var prefix := modes[..n];
      var m := modes[n];
      TallyKeysInFirstUseOrder(prefix);
      var acc := TallyModes(prefix);
      assert modes == prefix + [m];
      FirstUseOrderExtend(acc.keys, prefix, m);
      if m !in acc.counts {
        FirstUseOrderAppendNew(acc.keys, prefix, m);
      }
    }
  }

  /** The keys of a tally are distinct. */
  lemma {:induction false} TallyKeysDistinct(modes: seq<ModeType>)
    ensures var keys := TallyModes(modes).keys;
      forall i, j :: 0 <= i < j < |keys| ==> keys[i] != keys[j]
  {
    TallyKeysInFirstUseOrder(modes);
  }

  /** Sort key for the modes: descending by count. */
  function FrequencyKey(counts: map<ModeType, int>): ModeType -> real
  {
    m => if m in counts then -(counts[m] as real) else 0.0
  }

  function Min(a: int, b: int): int
  {
    if a <= b then a else b
  }

  /** The distinct modes sorted by descending frequency, stably, then the
      first three. */
  function PreferredModes(modes: seq<ModeType>): (r: seq<ModeType>)
    ensures |r| <= 3
    ensures modes != [] ==> |r| >= 1
  {
    var t := TallyModes(modes);
    var sorted := SortBy(t.keys, FrequencyKey(t.counts));
    SortByLength(t.keys, FrequencyKey(t.counts));
    sorted[..Min(3, |sorted|)]
  }

  /** The sorted keys are the distinct modes of `modes`. */
  lemma {:induction false} SortedTallyDistinct(modes: seq<ModeType>)
    ensures var t := TallyModes(modes);
      var sorted := SortBy(t.keys, FrequencyKey(t.counts));
      && (forall x :: x in sorted <==> x in modes)
      && (forall i, j :: 0 <= i < j < |sorted| ==> sorted[i] != sorted[j])
  {
    var t := TallyModes(modes);
    var key := FrequencyKey(t.counts);
    var sorted := SortBy(t.keys, key);
    TallyKeysDistinct(modes);
    SortByDistinct(t.keys, key);
    forall x ensures x in sorted <==> x in modes {
      assert x in sorted <==> x in multiset(sorted);
      assert x in t.keys <==> x in multiset(t.keys);
    }
  }

  /** The reported modes are the first (at most) three of the ranking. */
  lemma {:induction false} PreferredPrefix(modes: seq<ModeType>)
    ensures var t := TallyModes(modes);
      var sorted := SortBy(t.keys, FrequencyKey(t.counts));
      var r := PreferredModes(modes);
      && |r| == Min(3, |sorted|)
      && forall i :: 0 <= i < |r| ==> r[i] == sorted[i]
  {
  }

  /** At most three distinct modes, each one the user has taken. */
  lemma {:induction false} PreferredModesChosen(modes: seq<ModeType>)
    ensures var r := PreferredModes(modes);
      && |r| <= 3
      && (forall i, j :: 0 <= i < j < |r| ==> r[i] != r[j])
      && (forall i :: 0 <= i < |r| ==> r[i] in modes)
  {
    SortedTallyDistinct(modes);
    PreferredPrefix(modes);
  }

  /** Fewer than three modes are reported only when the user has taken
      fewer than three distinct modes: then every mode taken is reported. */
  lemma {:induction false} PreferredModesAllWhenFew(modes: seq<ModeType>)
    ensures var r := PreferredModes(modes);
      |r| < 3 ==> forall m :: m in modes ==> m in r
  {
    var t := TallyModes(modes);
    var sorted := SortBy(t.keys, FrequencyKey(t.counts));
    SortedTallyDistinct(modes);
    PreferredPrefix(modes);
    var r := PreferredModes(modes);
    if |r| < 3 {
      assert r == sorted;
    }
  }

  /** The sort key of each sorted mode is its negated number of occurrences. */
  lemma {:induction false} SortedTallyKeys(modes: seq<ModeType>)
    ensures var t := TallyModes(modes);
      var sorted := SortBy(t.keys, FrequencyKey(t.counts));
      forall i :: 0 <= i < |sorted| ==>
        sorted[i] in modes && FrequencyKey(t.counts)(sorted[i]) == -(Count(modes, sorted[i]) as real)
  {
    SortedTallyDistinct(modes);
  }

  /** The reported modes come in non-increasing order of frequency. */
  lemma {:induction false} PreferredModesNonIncreasing(modes: seq<ModeType>)
    ensures var r := PreferredModes(modes);
      forall i, j :: 0 <= i < j < |r| ==> Count(modes, r[i]) >= Count(modes, r[j])
  {
    var t := TallyModes(modes);
    var key := FrequencyKey(t.counts);
    var sorted := SortBy(t.keys, key);
    SortedTallyKeys(modes);
    PreferredPrefix(modes);
    var r := PreferredModes(modes);
    forall i, j | 0 <= i < j < |r| ensures Count(modes, r[i]) >= Count(modes, r[j]) {
      assert key(sorted[i]) <= key(sorted[j]);
    }
  }

  /** No mode left out is more frequent than one reported. */
  lemma {:induction false} PreferredModesMostFrequent(modes: seq<ModeType>)
    ensures var r := PreferredModes(modes);
      forall i, m :: 0 <= i < |r| && m in modes && m !in r ==> Count(modes, r[i]) >= Count(modes, m)
  {
    var t := TallyModes(modes);
    var key := FrequencyKey(t.counts);
    var sorted := SortBy(t.keys, key);
    SortedTallyDistinct(modes);
    SortedTallyKeys(modes);
    PreferredPrefix(modes);
    var r := PreferredModes(modes);
    forall i, m | 0 <= i < |r| && m in modes && m !in r ensures Count(modes, r[i]) >= Count(modes, m) {
      var j :| 0 <= j < |sorted| && sorted[j] == m;
      assert j >= |r|;
      assert key(sorted[i]) <= key(sorted[j]);
    }
  }

  /** Two sorted modes of equal frequency keep their order of first use. */
  lemma {:induction false} SortedTallyTie(modes: seq<ModeType>, i: int, j: int)
    requires var t := TallyModes(modes);
      0 <= i < j < |SortBy(t.keys, FrequencyKey(t.counts))|
    requires var t := TallyModes(modes);
      var sorted := SortBy(t.keys, FrequencyKey(t.counts));
      Count(modes, sorted[i]) == Count(modes, sorted[j])
    ensures var t := TallyModes(modes);
      var sorted := SortBy(t.keys, FrequencyKey(t.counts));
      sorted[i] in modes && sorted[j] in modes && FirstIndex(modes, sorted[i]) < FirstIndex(modes, sorted[j])
  {
    var t := TallyModes(modes);
    var key := FrequencyKey(t.counts);
    var sorted := SortBy(t.keys, key);
    SortedTallyKeys(modes);
    TallyKeysInFirstUseOrder(modes);
    assert key(sorted[i]) == key(sorted[j]);
    SortByTiesKeepOrder(t.keys, key, i, j);
    var a, b :| 0 <= a < b < |t.keys| && t.keys[a] == sorted[i] && t.keys[b] == sorted[j];
    assert InFirstUseOrder(t.keys, modes);
  }

  /** Modes with equal frequency are reported in order of first use. */
  lemma {:induction false} PreferredModesTiesByFirstUse(modes: seq<ModeType>)
    ensures var r := PreferredModes(modes);
      forall i, j :: 0 <= i < j < |r| && Count(modes, r[i]) == Count(modes, r[j]) ==>
        r[i] in modes && r[j] in modes && FirstIndex(modes, r[i]) < FirstIndex(modes, r[j])
  {
    var t := TallyModes(modes);
    var sorted := SortBy(t.keys, FrequencyKey(t.counts));
    PreferredPrefix(modes);
    var r := PreferredModes(modes);
    forall i, j | 0 <= i < j < |r| && Count(modes, r[i]) == Count(modes, r[j])
      ensures r[i] in modes && r[j] in modes && FirstIndex(modes, r[i]) < FirstIndex(modes, r[j])
    {
      assert r[i] == sorted[i] && r[j] == sorted[j];
      SortedTallyTie(modes, i, j);
    }
  }

  /** A mode cut off at the third place was first used after every
      reported mode of the same frequency. */
  lemma {:induction false} PreferredModesCutOffByFirstUse(modes: seq<ModeType>)
    ensures var r := PreferredModes(modes);
      forall i, m :: 0 <= i < |r| && m in modes && m !in r && Count(modes, r[i]) == Count(modes, m) ==>
        r[i] in modes && FirstIndex(modes, r[i]) < FirstIndex(modes, m)
  {
    var t := TallyModes(modes);
    var sorted := SortBy(t.keys, FrequencyKey(t.counts));
    SortedTallyDistinct(modes);
    PreferredPrefix(modes);
    var r := PreferredModes(modes);
    forall i, m | 0 <= i < |r| && m in modes && m !in r && Count(modes, r[i]) == Count(modes, m)
      ensures r[i] in modes && FirstIndex(modes, r[i]) < FirstIndex(modes, m)
    {
      var j :| 0 <= j < |sorted| && sorted[j] == m;
      assert j >= |r|;
      assert r[i] == sorted[i];
      SortedTallyTie(modes, i, j);
    }
  }

  // ---------------------------------------------------------------------
  // The learner state

  class AIJourneyPlanner {
    /** Profiles by user id. */
    var userHistory: map<string, Profile>
    /** The cost of every trip recorded for each user, in order. */
    ghost var tripCosts: map<string, seq<int>>

    ghost predicate Valid()
      reads this
    {
      && userHistory.Keys == tripCosts.Keys
      && forall u :: u in userHistory ==> Tracks(userHistory[u], tripCosts[u])
    }

    constructor ()
      ensures Valid()
      ensures userHistory == map[] && tripCosts == map[]
    {
      userHistory := map[];
      tripCosts := map[];
    }

    /** Records a confirmed booking: a profile is created for an unseen
        user, then the trip is counted, the preference and every leg's mode
        appended, and the average cost kept equal to the mean of all the
        user's recorded trip costs. Other users are untouched. */
    method LearnFromUserChoice(userId: string, selectedOption: JourneyOption, preferences: UserPreferences)
      requires Valid()
      modifies this
      ensures Valid()
      ensures userHistory.Keys == old(userHistory.Keys) + {userId}
      ensures forall u :: u in old(userHistory) && u != userId ==>
        userHistory[u] == old(userHistory[u]) && tripCosts[u] == old(tripCosts[u])
      ensures var before := if userId in old(userHistory) then old(userHistory[userId]) else Profile([], [], 0.0, 0);
        && userHistory[userId].preferences == before.preferences + [preferences.preference]
        && userHistory[userId].selectedModes == before.selectedModes + selectedOption.sequence
        && userHistory[userId].totalTrips == before.totalTrips + 1
      ensures tripCosts[userId] == (if userId in old(tripCosts) then old(tripCosts[userId]) else []) + [selectedOption.totalCost]
      ensures userHistory[userId].averageBudget == Mean(tripCosts[userId])
    {
      var userData := if userId in userHistory then userHistory[userId] else Profile([], [], 0.0, 0);
      ghost var costs := if userId in tripCosts then tripCosts[userId] else [];
      assert Tracks(userData, costs);
      userData := userData.(preferences := userData.preferences + [preferences.preference]);
      userData := userData.(selectedModes := userData.selectedModes + selectedOption.sequence);
      RunningMeanStep(userData.averageBudget, userData.totalTrips, costs, selectedOption.totalCost);
      userData := userData.(averageBudget :=
        UpdatedAverage(userData.averageBudget, userData.totalTrips, selectedOption.totalCost));
      userData := userData.(totalTrips := userData.totalTrips + 1);
      assert Tracks(userData, costs + [selectedOption.totalCost]);
      userHistory := userHistory[userId := userData];
      tripCosts := tripCosts[userId := costs + [selectedOption.totalCost]];
    }

    /** Nothing for an unknown user; otherwise the user's most frequent
        modes and their average trip cost, which is the mean of every
        cost recorded for them. */
    function GetPersonalizedRecommendations(userId: string): (r: Option<Recommendation>)
      reads this
      ensures r.None? <==> userId !in userHistory
      ensures r.Some? ==>
        && r.value.preferredModes == PreferredModes(userHistory[userId].selectedModes)
        && r.value.averageBudget == userHistory[userId].averageBudget
      ensures Valid() && r.Some? ==> r.value.averageBudget == Mean(tripCosts[userId])
    {
      if userId !in userHistory then None
      else
        var userData := userHistory[userId];
        Some(Recommendation(PreferredModes(userData.selectedModes), userData.averageBudget))
    }
  }
}
