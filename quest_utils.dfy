/**
 * Quests: progress from completed steps, availability at a given instant, and
 * the recommendation of at most three eligible quests ranked by difficulty
 * fit, daily category and expiry.
 */
module QuestUtils {
  import opened Common

  datatype Difficulty = Easy | Medium | Hard | Expert
  datatype Status = Available | InProgress | Completed | Expired | Locked
  datatype Category = Saving | Spending | Budgeting | Investing | Income | Learning | Daily

  datatype QuestStep = QuestStep(id: string, isCompleted: bool)

  /**
   * A quest; instants are integers (milliseconds), an absent date is `None`,
   * and an absent step list is the empty one.
   */
  datatype Quest = Quest(
    id: string,
    category: Category,
    difficulty: Difficulty,
    status: Status,
    rewardCoins: int,
    rewardXp: int,
    expiresAt: Option<int>,
    unlocksAt: Option<int>,
    steps: seq<QuestStep>,
    completedAt: Option<int>)

  function CompletedSteps(q: Quest): nat {
    |Filter(q.steps, (st: QuestStep) => st.isCompleted)|
  }

  /** `calculateQuestProgress`. */
  function QuestProgress(q: Quest): (r: int)
    ensures 0 <= r <= 100
    ensures q.steps == [] ==> (r == 100 <==> q.status == Completed) && (r == 0 <==> q.status != Completed)
    ensures q.steps != [] && CompletedSteps(q) == 0 ==> r == 0
    ensures q.steps != [] && CompletedSteps(q) == |q.steps| ==> r == 100
    ensures q.steps != [] ==>
      (r as real - 0.5) * |q.steps| as real <= 100.0 * CompletedSteps(q) as real
                                             < (r as real + 0.5) * |q.steps| as real
  {
    if q.steps == [] then (if q.status == Completed then 100 else 0)
    else
      var done := CompletedSteps(q);
      var p := Percent(done as real, |q.steps| as real);
      PercentBounds(done as real, |q.steps| as real);
      RoundWithin(p, 0, 100);
      RoundedShare(done as real, |q.steps| as real);
      Round(p)
  }

  /** `isQuestAvailable` at instant `now`. */
  function IsQuestAvailable(q: Quest, now: int): (r: bool)
    ensures r <==> q.status != Locked
                   && (q.unlocksAt.None? || q.unlocksAt.value <= now)
                   && (q.expiresAt.None? || now <= q.expiresAt.value)
  {
    if q.status == Locked then false
    else if q.unlocksAt.Some? && q.unlocksAt.value > now then false
    else if q.expiresAt.Some? && q.expiresAt.value < now then false
    else true
  }

  /** The difficulty the recommendation favours for a user level. */
  function TargetDifficulty(level: int): Difficulty {
    if level >= 30 then Expert
    else if level >= 20 then Hard
    else if level >= 10 then Medium
    else Easy
  }

  lemma TargetDifficultyBands(level: int)
    ensures TargetDifficulty(level) == Easy <==> level < 10
    ensures TargetDifficulty(level) == Medium <==> 10 <= level < 20
    ensures TargetDifficulty(level) == Hard <==> 20 <= level < 30
    ensures TargetDifficulty(level) == Expert <==> 30 <= level
  {
  }

  // ---------------------------------------------------------------------
  // Ranking
  // ---------------------------------------------------------------------

  /**
   * The comparator as a key: 0 before 1 for "difficulty matches", "is daily"
   * and "has an expiry"; the expiry instant last (0 when there is none).
   */
  datatype RankKey = RankKey(fit: int, daily: int, expiring: int, expiry: int)

  function Key(q: Quest, target: Difficulty): RankKey {
    RankKey(
      if q.difficulty == target then 0 else 1,
      if q.category == Daily then 0 else 1,
      if q.expiresAt.Some? then 0 else 1,
      if q.expiresAt.Some? then q.expiresAt.value else 0)
  }

  predicate KeyLess(a: RankKey, b: RankKey) {
    || a.fit < b.fit
    || (a.fit == b.fit && a.daily < b.daily)
    || (a.fit == b.fit && a.daily == b.daily && a.expiring < b.expiring)
    || (a.fit == b.fit && a.daily == b.daily && a.expiring == b.expiring && a.expiry < b.expiry)
  }

  /** `a` goes strictly before `b`: the comparator returns a negative number. */
  predicate Ahead(a: Quest, b: Quest, target: Difficulty) {
    KeyLess(Key(a, target), Key(b, target))
  }

  /** The sign of the source's comparator `(a, b) => ...`. */
  function Compare(a: Quest, b: Quest, target: Difficulty): int {
    if a.difficulty == target && b.difficulty != target then -1
    else if b.difficulty == target && a.difficulty != target then 1
    else if a.category == Daily && b.category != Daily then -1
    else if b.category == Daily && a.category != Daily then 1
    else if a.expiresAt.Some? && b.expiresAt.Some? then a.expiresAt.value - b.expiresAt.value
    else if a.expiresAt.Some? then -1
    else if b.expiresAt.Some? then 1
    else 0
  }

  /** The key order is exactly the comparator's order. */
  lemma CompareIsKeyOrder(a: Quest, b: Quest, target: Difficulty)
    ensures Compare(a, b, target) < 0 <==> Ahead(a, b, target)
    ensures Compare(a, b, target) > 0 <==> Ahead(b, a, target)
  {
  }

  predicate Sorted(s: seq<Quest>, target: Difficulty) {
    forall i, j :: 0 <= i < j < |s| ==> !Ahead(s[j], s[i], target)
  }

  /** The key order is a strict weak order: asymmetric, and "not after" is transitive. */
  lemma KeyOrder(a: RankKey, b: RankKey, c: RankKey)
    ensures KeyLess(a, b) ==> !KeyLess(b, a)
    ensures !KeyLess(b, a) && !KeyLess(c, b) ==> !KeyLess(c, a)
  {
  }

  lemma {:induction false} SortedHead(s: seq<Quest>, target: Difficulty)
    requires Sorted(s, target) && s != []
    ensures forall y :: y in s ==> !Ahead(y, s[0], target)
  {
    forall y | y in s
      ensures !Ahead(y, s[0], target)
    {
      var j :| 0 <= j < |s| && s[j] == y;
      if j == 0 {
        KeyOrder(Key(y, target), Key(y, target), Key(y, target));
      }
    }
  }

  lemma {:induction false} ConsSorted(x: Quest, s: seq<Quest>, target: Difficulty)
    requires Sorted(s, target)
    requires forall y :: y in s ==> !Ahead(y, x, target)
    ensures Sorted([x] + s, target)
  {
    var r := [x] + s;
    forall i, j | 0 <= i < j < |r|
      ensures !Ahead(r[j], r[i], target)
    {
      assert r[j] == s[j - 1];
      if i > 0 {
        assert r[i] == s[i - 1];
      }
    }
  }

  /** The rest of a sorted sequence is sorted. */
  lemma {:induction false} SortedTail(s: seq<Quest>, target: Difficulty)
    requires Sorted(s, target) && s != []
    ensures Sorted(s[1..], target)
  {
    forall i, j | 0 <= i < j < |s[1..]|
      ensures !Ahead(s[1..][j], s[1..][i], target)
    {
      assert s[1..][j] == s[j + 1] && s[1..][i] == s[i + 1];
    }
  }

  /** Inserts `q` before the first quest that does not go strictly before it. */
  function Insert(q: Quest, s: seq<Quest>, target: Difficulty): (r: seq<Quest>)
    ensures multiset(r) == multiset(s) + multiset{q}
    ensures forall y :: y in r ==> y == q || y in s
    ensures Sorted(s, target) ==> Sorted(r, target)
  {
    if s == [] then [q]
    else if Ahead(s[0], q, target) then
      assert s == [s[0]] + s[1..];
      var rest := Insert(q, s[1..], target);
      assert Sorted(s, target) ==> Sorted([s[0]] + rest, target) by {
        if Sorted(s, target) {
          SortedTail(s, target);
          SortedHead(s, target);
          KeyOrder(Key(s[0], target), Key(q, target), Key(q, target));
          ConsSorted(s[0], rest, target);
        }
      }
      [s[0]] + rest
    else
      assert Sorted(s, target) ==> Sorted([q] + s, target) by {
        if Sorted(s, target) {
          SortedHead(s, target);
          assert forall y :: y in s ==> !Ahead(y, q, target) by {
            forall y | y in s
              ensures !Ahead(y, q, target)
            {
              KeyOrder(Key(q, target), Key(s[0], target), Key(y, target));
            }
          }
          ConsSorted(q, s, target);
        }
      }
      [q] + s
  }

  /** The quests of `s` whose rank key is `k` (the comparator ties them with each other), in order. */
  function Ties(s: seq<Quest>, k: RankKey, target: Difficulty): seq<Quest> {
    if s == [] then []
    else (if Key(s[0], target) == k then [s[0]] else []) + Ties(s[1..], k, target)
  }

  /** Two quests with different keys never fall in the same class, so their order there does not matter. */
  lemma TiesSwap(x: Quest, q: Quest, k: RankKey, target: Difficulty)
    requires Key(x, target) != Key(q, target)
    ensures Ties([x], k, target) + Ties([q], k, target) == Ties([q], k, target) + Ties([x], k, target)
  {
    assert [x][1..] == [] && [q][1..] == [];
  }

  /** The class of a sequence with a head in front. */
  lemma TiesCons(x: Quest, s: seq<Quest>, k: RankKey, target: Difficulty)
    ensures Ties([x] + s, k, target) == Ties([x], k, target) + Ties(s, k, target)
  {
    assert ([x] + s)[1..] == s && [x][1..] == [];
  }

  /**
   * Insertion puts `q` in front of every quest tied with it, so among the
   * quests with key `k`, `q` comes first and the others keep their order.
   */
  lemma {:induction false} InsertKeepsTies(q: Quest, s: seq<Quest>, target: Difficulty, k: RankKey)
    ensures Ties(Insert(q, s, target), k, target) == Ties([q], k, target) + Ties(s, k, target)
  {
    if s != [] && Ahead(s[0], q, target) {
      InsertKeepsTies(q, s[1..], target, k);
      var rest := Insert(q, s[1..], target);
      assert Insert(q, s, target) == [s[0]] + rest;
      KeyOrder(Key(s[0], target), Key(q, target), Key(q, target));
      TiesCons(s[0], rest, k, target);
      TiesCons(s[0], s[1..], k, target);
      assert s == [s[0]] + s[1..];
      TiesSwap(s[0], q, k, target);
    } else {
      assert Insert(q, s, target) == [q] + s;
      TiesCons(q, s, k, target);
    }
  }

  /** One insertion step of the sort keeps every class of tied quests in input order. */
  lemma SortKeepsTies(s: seq<Quest>, rest: seq<Quest>, target: Difficulty)
    requires s != []
    requires forall k :: Ties(rest, k, target) == Ties(s[1..], k, target)
    ensures forall k :: Ties(Insert(s[0], rest, target), k, target) == Ties(s, k, target)
  {
    forall k
      ensures Ties(Insert(s[0], rest, target), k, target) == Ties(s, k, target)
    {
      InsertKeepsTies(s[0], rest, target, k);
      TiesCons(s[0], s[1..], k, target);
      assert s == [s[0]] + s[1..];
    }
  }

  /**
   * The stable sort the recommendation applies to the eligible quests: a
   * sorted permutation in which tied quests keep their input order.
   */
  function SortByRank(s: seq<Quest>, target: Difficulty): (r: seq<Quest>)
    ensures multiset(r) == multiset(s) && |r| == |s|
    ensures Sorted(r, target)
    ensures forall k :: Ties(r, k, target) == Ties(s, k, target)
  {
    if s == [] then []
    else
      assert s == [s[0]] + s[1..];
      var rest := SortByRank(s[1..], target);
      SortKeepsTies(s, rest, target);
      Insert(s[0], rest, target)
  }

  predicate Eligible(q: Quest, now: int) {
    IsQuestAvailable(q, now) && q.status != Completed
  }

  function IsEligible(now: int): Quest -> bool {
    q => Eligible(q, now)
  }

  /** The eligible quests, in input order: exactly those available at `now` and not completed. */
  function EligibleQuests(quests: seq<Quest>, now: int): (r: seq<Quest>)
    ensures forall x :: x in r ==> x in quests && Eligible(x, now)
    ensures forall x :: x in quests && Eligible(x, now) ==> x in r
    ensures IsSubsequence(r, quests)
  {
    FilterMembers(quests, IsEligible(now));
    FilterIsSubsequence(quests, IsEligible(now));
    Filter(quests, IsEligible(now))
  }

  lemma {:induction false} PrefixSorted(s: seq<Quest>, k: nat, target: Difficulty)
    requires Sorted(s, target) && k <= |s|
    ensures Sorted(s[..k], target) && Sorted(s[k..], target)
    ensures forall x :: x in s[..k] ==> x in s
  {
    forall i, j | 0 <= i < j < |s[k..]|
      ensures !Ahead(s[k..][j], s[k..][i], target)
    {
      assert s[k..][j] == s[k + j] && s[k..][i] == s[k + i];
    }
  }

  /** `getRecommendedQuests`: the first three eligible quests in rank order. */
  function RecommendedQuests(quests: seq<Quest>, level: int, now: int): (r: seq<Quest>)
    ensures |r| <= 3
    ensures forall i :: 0 <= i < |r| ==> r[i] in quests && Eligible(r[i], now)
    ensures Sorted(r, TargetDifficulty(level))
  {
    var pool := EligibleQuests(quests, now);
    var sorted := SortByRank(pool, TargetDifficulty(level));
    var k := if |sorted| < 3 then |sorted| else 3;
    PrefixSorted(sorted, k, TargetDifficulty(level));
    SameMembers(sorted, pool);
    assert forall i :: 0 <= i < k ==> sorted[..k][i] in sorted;
    sorted[..k]
  }

  /**
   * The recommendation holds min(3, n) of the n eligible quests, and no
   * eligible quest left out ranks strictly ahead of one that was kept.
   */
  /** In a sorted sequence nothing after position `k` goes strictly before anything up to it. */
  lemma {:induction false} SplitSorted(s: seq<Quest>, k: nat, target: Difficulty)
    requires Sorted(s, target) && k <= |s|
    ensures forall x, y :: x in s[k..] && y in s[..k] ==> !Ahead(x, y, target)
  {
    forall x, y | x in s[k..] && y in s[..k]
      ensures !Ahead(x, y, target)
    {
      var j :| 0 <= j < |s[k..]| && s[k..][j] == x;
      var i :| 0 <= i < |s[..k]| && s[..k][i] == y;
      assert s[k + j] == x && s[i] == y;
    }
  }

  lemma {:induction false} NoExcludedOutranks(quests: seq<Quest>, level: int, now: int)
    ensures var pool := EligibleQuests(quests, now);
      var r := RecommendedQuests(quests, level, now);
      && |r| == (if |pool| < 3 then |pool| else 3)
      && multiset(r) <= multiset(pool)
      && forall x, y :: x in multiset(pool) - multiset(r) && y in r ==> !Ahead(x, y, TargetDifficulty(level))
  {
    var target := TargetDifficulty(level);
    var pool := EligibleQuests(quests, now);
    var sorted := SortByRank(pool, target);
    var k := if |sorted| < 3 then |sorted| else 3;
    var r := RecommendedQuests(quests, level, now);
    var rest := sorted[k..];
    assert r == sorted[..k];
    assert sorted == r + rest;
    assert multiset(pool) - multiset(r) == multiset(rest);
    SplitSorted(sorted, k, target);
  }
}
