/** Loyalty tiers: which tier a points balance falls in, the tier after it,
    and the progress shown towards it. */
module Rewards {
  import opened Wrappers

  datatype Tier = Tier(name: string, minPoints: int)

  const Tiers: seq<Tier> := [Tier("Bronze", 0), Tier("Silver", 1000), Tier("Gold", 2000), Tier("Platinum", 5000)]

  /** `tiers[i + 1]?.minPoints || Infinity`: the next tier's threshold, or
      `None` (no bound) past the last tier or when that threshold is 0. */
  function UpperBound(i: nat): Option<int>
    requires i < |Tiers|
  {
    if i + 1 < |Tiers| && Tiers[i + 1].minPoints != 0 then Some(Tiers[i + 1].minPoints) else None
  }

  /** The test `getCurrentTier` applies to tier `i`. */
  predicate Matches(points: int, i: nat)
    requires i < |Tiers|
  {
    points >= Tiers[i].minPoints && (UpperBound(i).None? || points < UpperBound(i).value)
  }

  /** `tiers.find(...)` from index `from` on: the first matching tier. */
  function FindTier(points: int, from: nat): (r: Option<nat>)
    requires from <= |Tiers|
    ensures r.Some? ==> from <= r.value < |Tiers| && Matches(points, r.value)
    ensures r.Some? ==> forall j :: from <= j < r.value ==> !Matches(points, j)
    ensures r.None? ==> forall j :: from <= j < |Tiers| ==> !Matches(points, j)
    decreases |Tiers| - from
  {
    if from == |Tiers| then None
    else if Matches(points, from) then Some(from)
    else FindTier(points, from + 1)
  }

  /** `getCurrentTier`: the first matching tier, or the first tier when none matches. */
  function CurrentTierIndex(points: int): (i: nat)
    ensures i < |Tiers|
  {
    match FindTier(points, 0)
    case Some(i) => i
    case None => 0
  }

  function CurrentTier(points: int): Tier {
    Tiers[CurrentTierIndex(points)]
  }

  /** The intended banding, stated independently: tier `i` covers
      [min_i, min_(i+1)), and the last tier has no upper bound. */
  predicate InBand(points: int, i: nat)
    requires i < |Tiers|
  {
    Tiers[i].minPoints <= points && (i + 1 == |Tiers| || points < Tiers[i + 1].minPoints)
  }

  /** For a non-negative balance the current tier is exactly the band the balance is in. */
  lemma CurrentTierIsBand(points: int, i: nat)
    requires 0 <= points
    requires i < |Tiers|
    ensures CurrentTierIndex(points) == i <==> InBand(points, i)
  {
    var b := BandOf(points);
    assert InBand(points, b);
  }

  /** The band of a non-negative balance, by direct comparison with the thresholds. */
  function BandOf(points: int): (i: nat)
    requires 0 <= points
    ensures i < |Tiers| && Matches(points, i)
  {
    if points < 1000 then 0 else if points < 2000 then 1 else if points < 5000 then 2 else 3
  }

  /** A negative balance matches no band and falls back to Bronze. */
  lemma NegativeIsBronze(points: int)
    requires points < 0
    ensures CurrentTier(points) == Tier("Bronze", 0)
  {
  }

  /** More points never mean a lower tier. */
  lemma CurrentTierMonotone(p: int, q: int)
    requires p <= q
    ensures CurrentTierIndex(p) <= CurrentTierIndex(q)
  {
    if 0 <= p {
      CurrentTierIsBand(p, CurrentTierIndex(p));
      CurrentTierIsBand(q, CurrentTierIndex(q));
    } else {
      NegativeIsBronze(p);
    }
  }

  /** `tiers.findIndex(t => t.name === name)`, -1 when no tier has that name. */
  function IndexOfName(name: string, from: nat): (r: int)
    requires from <= |Tiers|
    ensures r == -1 || (from <= r < |Tiers| && Tiers[r].name == name)
    ensures r == -1 ==> forall j :: from <= j < |Tiers| ==> Tiers[j].name != name
    ensures r != -1 ==> forall j :: from <= j < r ==> Tiers[j].name != name
    decreases |Tiers| - from
  {
    if from == |Tiers| then -1
    else if Tiers[from].name == name then from
    else IndexOfName(name, from + 1)
  }

  /** `getNextTier`: the tier after the one whose name is the current tier's;
      `None` (undefined) past the last tier. */
  function NextTier(points: int): (r: Option<Tier>)
    ensures r.None? <==> CurrentTierIndex(points) == |Tiers| - 1
    ensures r.Some? ==> r.value == Tiers[CurrentTierIndex(points) + 1]
  {
    var k := IndexOfName(CurrentTier(points).name, 0);
    if k + 1 < |Tiers| then Some(Tiers[k + 1]) else None
  }

  /** There is no next tier exactly from 5000 points (Platinum). */
  lemma MaxTierExactly(points: int)
    ensures NextTier(points).None? <==> points >= 5000
  {
    if 0 <= points {
      CurrentTierIsBand(points, 3);
    }
  }

  /** The "Next Tier" card: the tier name, points still needed and the
      progress bar width in percent, or the "Max Tier Reached" message. */
  datatype NextTierCard = MaxTierReached | Progress(name: string, pointsToGo: int, percent: real)

  function NextTierView(points: int): (v: NextTierCard)
    ensures v.MaxTierReached? <==> NextTier(points).None?
    ensures v.Progress? ==> v.pointsToGo > 0
    ensures v.Progress? && 0 <= points ==> 0.0 <= v.percent < 100.0
  {
    match NextTier(points)
    case None => MaxTierReached
    case Some(next) =>
      var k := CurrentTierIndex(points);
      assert Matches(points, k) || points < 0;
      Progress(next.name, next.minPoints - points, points as real / next.minPoints as real * 100.0)
  }

  /** "Points to go" is exactly what the named tier needs: that many more
      points reach it, and any fewer leave the current tier unchanged. */
  lemma NextTierViewReaches(points: int)
    requires 0 <= points
    ensures var v := NextTierView(points);
            var k := CurrentTierIndex(points);
            v.Progress? ==>
              && k + 1 < |Tiers| && v.name == Tiers[k + 1].name
              && CurrentTierIndex(points + v.pointsToGo) == k + 1
              && forall q :: points <= q < points + v.pointsToGo ==> CurrentTierIndex(q) == k
  {
    var v := NextTierView(points);
    if v.Progress? {
      var k := CurrentTierIndex(points);
      CurrentTierIsBand(points, k);
      CurrentTierIsBand(points + v.pointsToGo, k + 1);
      forall q | points <= q < points + v.pointsToGo
        ensures CurrentTierIndex(q) == k
      {
        CurrentTierIsBand(q, k);
      }
    }
  }

  /** The page's own balance: 1250 points is Silver, Gold is next, 750 to go. */
  lemma SampleBalance()
    ensures CurrentTier(1250).name == "Silver"
    ensures NextTier(1250) == Some(Tier("Gold", 2000))
    ensures NextTierView(1250).Progress? && NextTierView(1250).pointsToGo == 750
  {
    CurrentTierIsBand(1250, 1);
  }

  // ---------------------------------------------------------------------
  // Challenges

  datatype Challenge = Challenge(id: int, title: string, reward: int, progress: int, completed: bool)

  const Challenges: seq<Challenge> := [
    Challenge(1, "First Charge", 100, 100, true),
    Challenge(2, "Weekly Warrior", 200, 80, false),
    Challenge(3, "Eco Champion", 500, 125, true),
    Challenge(4, "Social Butterfly", 1000, 60, false),
    Challenge(5, "Station Explorer", 300, 70, false),
    Challenge(6, "Review Master", 250, 45, false)
  ]

  /** `Math.min(progress, 100)`: the percentage shown and the bar width. */
  function DisplayedProgress(c: Challenge): (r: int)
    ensures r <= 100 && r <= c.progress
    ensures r == 100 || r == c.progress
  {
    if c.progress < 100 then c.progress else 100
  }

  /** "Eco Champion" is over its target and shows 100. */
  lemma EcoChampionCapped()
    ensures Challenges[2].title == "Eco Champion" && DisplayedProgress(Challenges[2]) == 100
  {
  }
}
