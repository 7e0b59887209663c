/**
 * Achievements: progress towards the unlock threshold, rewards scaled by
 * rarity, recording a new measured value, and the choice of one achievement to
 * recommend next.
 */
module AchievementUtils {
  import opened Common

  datatype Rarity = Common | Uncommon | Rare | Epic | Legendary

  /**
   * An achievement. The category is kept as text because the recommender
   * compares it with free-form activity names; an absent number is `None`.
   */
  datatype Achievement = Achievement(
    id: string,
    description: string,
    category: string,
    rarity: Rarity,
    isUnlocked: bool,
    unlockedAt: Option<int>,
    progress: Option<real>,
    requiredAmount: Option<real>,
    currentAmount: Option<real>)

  /** `achievementRarities[rarity].multiplier`. */
  function Multiplier(rarity: Rarity): (m: int)
    ensures m > 0
  {
    match rarity
    case Common => 1
    case Uncommon => 2
    case Rare => 3
    case Epic => 5
    case Legendary => 10
  }

  function RarityRank(rarity: Rarity): nat {
    match rarity
    case Common => 0
    case Uncommon => 1
    case Rare => 2
    case Epic => 3
    case Legendary => 4
  }

  /** A threshold is in force only when it is present and not zero (JavaScript truthiness). */
  predicate HasThreshold(a: Achievement) {
    a.requiredAmount.Some? && a.requiredAmount.value != 0.0
  }

  /** `calculateAchievementProgress`. */
  function Progress(a: Achievement): (r: real)
    ensures a.isUnlocked ==> r == 100.0
    ensures !a.isUnlocked && HasThreshold(a) && a.currentAmount.Some? ==>
      && 0.0 <= r <= 100.0
      && (a.requiredAmount.value > 0.0 && a.currentAmount.value >= a.requiredAmount.value ==> r == 100.0)
      && (a.requiredAmount.value > 0.0 && a.currentAmount.value <= 0.0 ==> r == 0.0)
      && (0.0 < a.currentAmount.value < a.requiredAmount.value ==>
            (r - 0.5) * a.requiredAmount.value <= 100.0 * a.currentAmount.value
                                                < (r + 0.5) * a.requiredAmount.value)
    ensures !a.isUnlocked && !(HasThreshold(a) && a.currentAmount.Some?) ==> r == a.progress.GetOr(0.0)
  {
    if a.isUnlocked then 100.0
    else if HasThreshold(a) && a.currentAmount.Some? then
      var p := Round(Percent(a.currentAmount.value, a.requiredAmount.value));
      if a.requiredAmount.value > 0.0 && a.currentAmount.value <= 0.0 then
        PercentNonPositive(a.currentAmount.value, a.requiredAmount.value);
        0.0
      else if a.requiredAmount.value > 0.0 && a.currentAmount.value >= a.requiredAmount.value then
        PercentAtLeastHundred(a.currentAmount.value, a.requiredAmount.value);
        100.0
      else if a.requiredAmount.value > 0.0 then
        PercentBounds(a.currentAmount.value, a.requiredAmount.value);
        RoundWithin(Percent(a.currentAmount.value, a.requiredAmount.value), 0, 100);
        RoundedShare(a.currentAmount.value, a.requiredAmount.value);
        p as real
      else
        (if p > 100 then 100 else if p < 0 then 0 else p) as real
    else a.progress.GetOr(0.0)
  }

  datatype Reward = Reward(coins: real, xp: real)

  /** `calculateAchievementReward`. */
  function AchievementReward(baseCoins: real, baseXp: real, rarity: Rarity): (r: Reward)
    ensures r.coins * baseXp == r.xp * baseCoins
    ensures rarity == Common ==> r == Reward(baseCoins, baseXp)
  {
    var m := Multiplier(rarity) as real;
    Reward(baseCoins * m, baseXp * m)
  }

  /** The reward table: each rarity multiplies both the coins and the XP by its own factor. */
  lemma RewardTable(baseCoins: real, baseXp: real)
    ensures AchievementReward(baseCoins, baseXp, Common) == Reward(baseCoins, baseXp)
    ensures AchievementReward(baseCoins, baseXp, Uncommon) == Reward(2.0 * baseCoins, 2.0 * baseXp)
    ensures AchievementReward(baseCoins, baseXp, Rare) == Reward(3.0 * baseCoins, 3.0 * baseXp)
    ensures AchievementReward(baseCoins, baseXp, Epic) == Reward(5.0 * baseCoins, 5.0 * baseXp)
    ensures AchievementReward(baseCoins, baseXp, Legendary) == Reward(10.0 * baseCoins, 10.0 * baseXp)
  {
  }

  /** The multipliers grow strictly with rarity, so a non-negative reward never shrinks with it. */
  lemma RewardGrowsWithRarity(baseCoins: real, baseXp: real, r1: Rarity, r2: Rarity)
    requires baseCoins >= 0.0 && baseXp >= 0.0
    requires RarityRank(r1) <= RarityRank(r2)
    ensures RarityRank(r1) < RarityRank(r2) ==> Multiplier(r1) < Multiplier(r2)
    ensures AchievementReward(baseCoins, baseXp, r1).coins <= AchievementReward(baseCoins, baseXp, r2).coins
    ensures AchievementReward(baseCoins, baseXp, r1).xp <= AchievementReward(baseCoins, baseXp, r2).xp
  {
  }

  /** `checkAchievementUnlock`, with `now` the instant recorded as the unlock time. */
  function CheckUnlock(a: Achievement, value: real, now: int): (r: Achievement)
    ensures a.isUnlocked || !HasThreshold(a) ==> r == a
    ensures !a.isUnlocked && HasThreshold(a) ==>
      && r.currentAmount.Some?
      && r.currentAmount.value >= a.currentAmount.GetOr(0.0)
      && r.currentAmount.value >= value
      && (r.currentAmount.value == value || r.currentAmount.value == a.currentAmount.GetOr(0.0))
      && (r.isUnlocked <==> r.currentAmount.value >= a.requiredAmount.value)
      && r.unlockedAt == (if r.isUnlocked then Some(now) else None)
      && r.(currentAmount := a.currentAmount, isUnlocked := a.isUnlocked, unlockedAt := a.unlockedAt) == a
  {
    if a.isUnlocked || !HasThreshold(a) then a
    else
      var amount := Max(a.currentAmount.GetOr(0.0), value);
      var unlocked := amount >= a.requiredAmount.value;
      a.(currentAmount := Some(amount), isUnlocked := unlocked,
         unlockedAt := if unlocked then Some(now) else None)
  }

  /** Recording the same value again changes nothing. */
  lemma CheckUnlockIdempotent(a: Achievement, value: real, now: int, later: int)
    ensures CheckUnlock(CheckUnlock(a, value, now), value, later) == CheckUnlock(a, value, now)
  {
  }

  /**
   * Recording two values in turn unlocks exactly when recording the larger
   * one would, and leaves the larger of the amounts; once unlocked, an
   * achievement stays unlocked.
   */
  lemma CheckUnlockTwice(a: Achievement, v1: real, v2: real, t1: int, t2: int)
    requires !a.isUnlocked && HasThreshold(a)
    ensures var twice := CheckUnlock(CheckUnlock(a, v1, t1), v2, t2);
      var once := CheckUnlock(a, Max(v1, v2), t2);
      && twice.isUnlocked == once.isUnlocked
      && (!twice.isUnlocked ==> twice == once)
      && (CheckUnlock(a, v1, t1).isUnlocked ==> twice == CheckUnlock(a, v1, t1))
  {
  }

  // ---------------------------------------------------------------------
  // Recommendation
  // ---------------------------------------------------------------------

  datatype Activity = Activity(kind: string, count: real)

  function IsLocked(): Achievement -> bool { (a: Achievement) => !a.isUnlocked }

  function IsNearCompletion(): Achievement -> bool { (a: Achievement) => 50.0 < Progress(a) < 100.0 }

  function IsRelevantTo(kind: string): Achievement -> bool {
    (a: Achievement) => a.category == kind || ContainsIgnoringCase(a.description, kind)
  }

  function ProgressOf(): Achievement -> real { (a: Achievement) => Progress(a) }

  function CountOf(): Activity -> real { (x: Activity) => x.count }

  /** `Math.floor(r * n)` for `r` drawn from [0, 1): an index below `n`. */
  function RandomIndex(r: real, n: nat): (i: nat)
    requires 0.0 <= r < 1.0 && n > 0
    ensures i < n
  {
    assert 0.0 <= r * n as real < n as real;
    (r * n as real).Floor
  }

  /**
   * `getPersonalizedAchievementRecommendation`, with `r` standing for the
   * value `Math.random()` returns.
   */
  function Recommend(achs: seq<Achievement>, activity: seq<Activity>, r: real): (res: Option<Achievement>)
    requires 0.0 <= r < 1.0
    ensures res.None? <==> forall i :: 0 <= i < |achs| ==> achs[i].isUnlocked
    ensures res.Some? ==> res.value in achs && !res.value.isUnlocked
  {
    var available := Filter(achs, IsLocked());
    FilterMembers(achs, IsLocked());
    if |available| == 0 then
      assert forall i :: 0 <= i < |achs| ==> achs[i].isUnlocked by {
        forall i | 0 <= i < |achs|
          ensures achs[i].isUnlocked
        {
          assert achs[i] in achs;
        }
      }
      None
    else
      var near := Filter(available, IsNearCompletion());
      if |near| > 0 then
        Some(near[FirstMax(near, ProgressOf())])
      else
        var relevant := if |activity| > 0
          then Filter(available, IsRelevantTo(activity[FirstMax(activity, CountOf())].kind))
          else [];
        if |relevant| > 0 then Some(relevant[0])
        else Some(available[RandomIndex(r, |available|)])
  }

  /** With a locked achievement near completion, the pick is the first maximum among those. */
  lemma {:induction false} RecommendPicksNear(achs: seq<Achievement>, activity: seq<Activity>, r: real)
    requires 0.0 <= r < 1.0
    requires |Filter(Filter(achs, IsLocked()), IsNearCompletion())| > 0
    ensures var near := Filter(Filter(achs, IsLocked()), IsNearCompletion());
      Recommend(achs, activity, r) == Some(near[FirstMax(near, ProgressOf())])
  {
    var available := Filter(achs, IsLocked());
    assert |available| > 0;
  }

  /**
   * When some locked achievement is more than half way (and not at 100), the
   * recommendation is the one furthest along, the earliest among equals.
   */
  lemma {:induction false} RecommendNearest(achs: seq<Achievement>, activity: seq<Activity>, r: real)
    requires 0.0 <= r < 1.0
    requires exists x :: x in achs && !x.isUnlocked && 50.0 < Progress(x) < 100.0
    ensures var res := Recommend(achs, activity, r);
      var near := Filter(Filter(achs, IsLocked()), IsNearCompletion());
      && res.Some?
      && 50.0 < Progress(res.value) < 100.0
      && (forall x :: x in near ==> Progress(x) <= Progress(res.value))
      && exists k :: 0 <= k < |near| && near[k] == res.value
                     && forall j :: 0 <= j < k ==> Progress(near[j]) < Progress(res.value)
  {
    var x :| x in achs && !x.isUnlocked && 50.0 < Progress(x) < 100.0;
    var available := Filter(achs, IsLocked());
    assert x in available;
    var near := Filter(available, IsNearCompletion());
    assert x in near;
    var k := FirstMax(near, ProgressOf());
    RecommendPicksNear(achs, activity, r);
    var res := Recommend(achs, activity, r);
    assert res == Some(near[k]);
    assert IsNearCompletion()(near[k]);
    FirstMaxBounds(near, ProgressOf());
    assert forall j :: 0 <= j < k ==> ProgressOf()(near[j]) < ProgressOf()(near[k]);
    assert 0 <= k < |near| && near[k] == res.value
           && forall j :: 0 <= j < k ==> Progress(near[j]) < Progress(res.value);
  }

  /**
   * With nothing near completion and a non-empty activity list, a locked
   * achievement that matches the busiest activity (by category, or by a
   * case-insensitive mention in its description) is recommended if one exists,
   * and it is the first such in input order.
   */
  lemma {:induction false} RecommendRelevant(achs: seq<Achievement>, activity: seq<Activity>, r: real)
    requires 0.0 <= r < 1.0
    requires forall x :: x in achs && !x.isUnlocked ==> !(50.0 < Progress(x) < 100.0)
    requires |activity| > 0
    ensures var top := activity[FirstMax(activity, CountOf())];
      var relevant := Filter(Filter(achs, IsLocked()), IsRelevantTo(top.kind));
      && (forall x :: x in activity ==> x.count <= top.count)
      && (|relevant| > 0 ==> Recommend(achs, activity, r) == Some(relevant[0])
                             && IsRelevantTo(top.kind)(relevant[0]))
  {
    var available := Filter(achs, IsLocked());
    FilterMembers(achs, IsLocked());
    FilterNone(available, IsNearCompletion());
    var t := FirstMax(activity, CountOf());
    forall x | x in activity
      ensures x.count <= activity[t].count
    {
      var j :| 0 <= j < |activity| && activity[j] == x;
      assert CountOf()(activity[j]) <= CountOf()(activity[t]);
    }
  }
}
