/**
 * The achievements page: the all / unlocked / locked / category filter and
 * the statistics card (unlocked share, and counts per rarity).
 */
module AchievementsPage {
  import opened Common
  import opened AchievementUtils

  function IsUnlocked(): Achievement -> bool { (a: Achievement) => a.isUnlocked }

  function InCategory(c: string): Achievement -> bool { (a: Achievement) => a.category == c }

  /** `filteredAchievements`. */
  function FilterAchievements(achs: seq<Achievement>, f: string): seq<Achievement> {
    if f == "all" then achs
    else if f == "unlocked" then Filter(achs, IsUnlocked())
    else if f == "locked" then Filter(achs, IsLocked())
    else Filter(achs, InCategory(f))
  }

  /**
   * Every filter shows a part of the list in its original order, and the
   * unlocked and locked views split the list between them.
   */
  lemma {:induction false} FiltersPartition(achs: seq<Achievement>, f: string)
    ensures IsSubsequence(FilterAchievements(achs, f), achs)
    ensures |FilterAchievements(achs, "unlocked")| + |FilterAchievements(achs, "locked")| == |achs|
    ensures multiset(FilterAchievements(achs, "unlocked")) + multiset(FilterAchievements(achs, "locked"))
         == multiset(achs)
    ensures forall a :: a in FilterAchievements(achs, "unlocked") <==> a in achs && a.isUnlocked
    ensures forall a :: a in FilterAchievements(achs, "locked") <==> a in achs && !a.isUnlocked
  {
    if f == "all" {
      SubsequenceOfItself(achs);
    } else if f == "unlocked" {
      FilterIsSubsequence(achs, IsUnlocked());
    } else if f == "locked" {
      FilterIsSubsequence(achs, IsLocked());
    } else {
      FilterIsSubsequence(achs, InCategory(f));
    }
    FilterSame(achs, IsLocked(), Not(IsUnlocked()));
    FilterPartition(achs, IsUnlocked());
    FilterMembers(achs, IsUnlocked());
    FilterMembers(achs, IsLocked());
  }

  function UnlockedCount(achs: seq<Achievement>): nat {
    |Filter(achs, IsUnlocked())|
  }

  /** The percentage on the statistics card; with no achievements the source shows NaN. */
  function UnlockedPercentage(achs: seq<Achievement>): (r: int)
    requires |achs| > 0
    ensures 0 <= r <= 100
    ensures UnlockedCount(achs) == |achs| ==> r == 100
    ensures UnlockedCount(achs) == 0 ==> r == 0
    ensures (r as real - 0.5) * |achs| as real <= 100.0 * UnlockedCount(achs) as real
                                                < (r as real + 0.5) * |achs| as real
  {
    var unlocked := UnlockedCount(achs) as real;
    var total := |achs| as real;
    RoundedShare(unlocked, total);
    PercentBounds(unlocked, total);
    RoundWithin(Percent(unlocked, total), 0, 100);
    RoundOfInt(0);
    RoundOfInt(100);
    Round(Percent(unlocked, total))
  }

  function HasRarity(r: Rarity): Achievement -> bool { (a: Achievement) => a.rarity == r }

  function HasRarityUnlocked(r: Rarity): Achievement -> bool {
    (a: Achievement) => a.rarity == r && a.isUnlocked
  }

  /** `rarityStats`: how many achievements of a rarity there are, and how many are unlocked. */
  function RarityCount(achs: seq<Achievement>, r: Rarity): nat { |Filter(achs, HasRarity(r))| }
  function RarityUnlocked(achs: seq<Achievement>, r: Rarity): nat { |Filter(achs, HasRarityUnlocked(r))| }

  /** One achievement counts towards its own rarity only. */
  lemma RarityStep(achs: seq<Achievement>, r: Rarity)
    requires achs != []
    ensures RarityCount(achs, r) == (if achs[0].rarity == r then 1 else 0) + RarityCount(achs[1..], r)
    ensures RarityUnlocked(achs, r)
         == (if achs[0].rarity == r && achs[0].isUnlocked then 1 else 0) + RarityUnlocked(achs[1..], r)
  {
    FilterCount(achs, HasRarity(r));
    FilterCount(achs, HasRarityUnlocked(r));
  }

  /** The five rarity counts add up to the total. */
  lemma {:induction false} RarityCountsAddUp(achs: seq<Achievement>)
    ensures RarityCount(achs, Common) + RarityCount(achs, Uncommon) + RarityCount(achs, Rare)
          + RarityCount(achs, Epic) + RarityCount(achs, Legendary) == |achs|
  {
    if achs != [] {
      RarityCountsAddUp(achs[1..]);
      RarityStep(achs, Common);
      RarityStep(achs, Uncommon);
      RarityStep(achs, Rare);
      RarityStep(achs, Epic);
      RarityStep(achs, Legendary);
    }
  }

  /** The five unlocked counts add up to the unlocked count. */
  lemma {:induction false} RarityUnlockedAddUp(achs: seq<Achievement>)
    ensures RarityUnlocked(achs, Common) + RarityUnlocked(achs, Uncommon) + RarityUnlocked(achs, Rare)
          + RarityUnlocked(achs, Epic) + RarityUnlocked(achs, Legendary) == UnlockedCount(achs)
  {
    if achs != [] {
      RarityUnlockedAddUp(achs[1..]);
      RarityStep(achs, Common);
      RarityStep(achs, Uncommon);
      RarityStep(achs, Rare);
      RarityStep(achs, Epic);
      RarityStep(achs, Legendary);
      FilterCount(achs, IsUnlocked());
    }
  }

  /** No rarity has more unlocked achievements than it has achievements. */
  lemma {:induction false} RarityUnlockedWithin(achs: seq<Achievement>, r: Rarity)
    ensures RarityUnlocked(achs, r) <= RarityCount(achs, r)
  {
    if achs != [] {
      RarityUnlockedWithin(achs[1..], r);
      RarityStep(achs, r);
    }
  }
}
