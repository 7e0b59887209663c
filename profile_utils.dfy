/**
 * Level arithmetic of the profile: every level is a band of 100 XP, the
 * progress through the current band as a whole percentage, the XP still
 * missing, and the badge tier of a level.
 */
module ProfileUtils {
  import opened Common

  /** `calculateNextLevelXP`: the XP at which `level` ends. */
  function NextLevelXP(level: int): int {
    100 * level
  }

  /** `calculateLevelProgress`: the rounded share of the band already earned, clamped. */
  function LevelProgress(xp: real, level: int): (r: int)
    ensures 0 <= r <= 100
    ensures xp <= NextLevelXP(level - 1) as real ==> r == 0
    ensures xp >= NextLevelXP(level) as real ==> r == 100
  {
    var prev := NextLevelXP(level - 1);
    var required := (NextLevelXP(level) - prev) as real;
    assert required == 100.0;
    var p := Round((xp - prev as real) / required * 100.0);
    if p > 100 then 100 else if p < 0 then 0 else p
  }

  /** `calculateRemainingXP`: what is left of the band, never negative. */
  function RemainingXP(xp: real, level: int): (r: real)
    ensures r >= 0.0
    ensures r == Max(0.0, NextLevelXP(level) as real - xp)
    ensures xp >= NextLevelXP(level) as real ==> r == 0.0
  {
    var prev := NextLevelXP(level - 1);
    var totalRequired := NextLevelXP(level) - prev;
    var currentProgress := xp - prev as real;
    Max(0.0, totalRequired as real - currentProgress)
  }

  /** Every band, for every level, is 100 XP wide. */
  lemma BandIsHundred(level: int)
    ensures NextLevelXP(level) - NextLevelXP(level - 1) == 100
  {
  }

  /** For whole XP inside the band, progress and remaining XP add up to the band. */
  lemma {:induction false} ProgressPlusRemaining(xp: int, level: int)
    requires NextLevelXP(level - 1) <= xp <= NextLevelXP(level)
    ensures LevelProgress(xp as real, level) as real + RemainingXP(xp as real, level) == 100.0
  {
    var k := xp - NextLevelXP(level - 1);
    assert (xp as real - NextLevelXP(level - 1) as real) / 100.0 * 100.0 == k as real;
    RoundOfInt(k);
  }

  datatype BadgeColor = Success | Info | Primary | Secondary | Warning

  datatype Badge = Badge(name: string, icon: string, color: BadgeColor)

  /** `getLevelBadge`. */
  function LevelBadge(level: int): Badge {
    if level < 5 then Badge("Rookie", "🌱", Success)
    else if level < 10 then Badge("Explorer", "🔍", Info)
    else if level < 20 then Badge("Pro", "⚡", Primary)
    else if level < 30 then Badge("Expert", "💎", Secondary)
    else Badge("Master", "👑", Warning)
  }

  /** The tiers from lowest to highest. */
  const Tiers := ["Rookie", "Explorer", "Pro", "Expert", "Master"]

  /** The position of a badge among the tiers; each tier has a distinct color. */
  function Tier(b: Badge): (t: nat)
    ensures t < |Tiers|
  {
    match b.color
    case Success => 0
    case Info => 1
    case Primary => 2
    case Secondary => 3
    case Warning => 4
  }

  /**
   * The badge of a level is the tier whose name it carries, and the lower
   * bounds of the tiers are 5, 10, 20 and 30: a higher level never has a
   * lower tier.
   */
  lemma BadgeTiers(l1: int, l2: int)
    ensures LevelBadge(l1).name == Tiers[Tier(LevelBadge(l1))]
    ensures l1 <= l2 ==> Tier(LevelBadge(l1)) <= Tier(LevelBadge(l2))
    ensures Tier(LevelBadge(l1)) == 0 <==> l1 < 5
    ensures Tier(LevelBadge(l1)) == 1 <==> 5 <= l1 < 10
    ensures Tier(LevelBadge(l1)) == 2 <==> 10 <= l1 < 20
    ensures Tier(LevelBadge(l1)) == 3 <==> 20 <= l1 < 30
    ensures Tier(LevelBadge(l1)) == 4 <==> l1 >= 30
  {
  }
}
