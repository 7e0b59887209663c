/**
 * The goals page: each goal card's progress and completion, the summary of
 * all goals (saved, targeted, remaining, overall progress, active count) and
 * the deletion of a goal.
 */
module GoalsPage {
  import opened Common
  import opened GoalUtils

  /** A savings goal; deadline, description, icon and colour only feed the display. */
  datatype Goal = Goal(id: int, name: string, targetAmount: real, currentAmount: real, category: string)

  /** The sample goals the page starts with. */
  const InitialGoals := [
    Goal(1, "Emergency Fund", 10000.0, 5600.0, "emergency"),
    Goal(2, "Dream Vacation", 3000.0, 1200.0, "travel"),
    Goal(3, "New Laptop", 1500.0, 1500.0, "tech"),
    Goal(4, "Down Payment", 50000.0, 12500.0, "home")
  ]

  /** The card's `isCompleted`. */
  predicate IsCompleted(g: Goal) {
    g.currentAmount >= g.targetAmount
  }

  /** The card's progress. */
  function CardProgress(g: Goal): real {
    GoalProgress(g.currentAmount, g.targetAmount)
  }

  /**
   * A card with a positive target and a non-negative saved amount shows 100%
   * exactly when it is completed.
   */
  lemma CardFullIffCompleted(g: Goal)
    requires g.targetAmount > 0.0 && g.currentAmount >= 0.0
    ensures CardProgress(g) == 100.0 <==> IsCompleted(g)
    ensures 0.0 <= CardProgress(g) <= 100.0
  {
    if !IsCompleted(g) {
      var r := CardProgress(g);
      assert r * g.targetAmount == g.currentAmount * 100.0;
      assert g.currentAmount * 100.0 < g.targetAmount * 100.0;
    }
  }

  function SavedOf(): Goal -> real { (g: Goal) => g.currentAmount }
  function TargetOf(): Goal -> real { (g: Goal) => g.targetAmount }

  function TotalSaved(goals: seq<Goal>): real { Sum(goals, SavedOf()) }
  function TotalTarget(goals: seq<Goal>): real { Sum(goals, TargetOf()) }

  /** The "Remaining" figure; negative when the goals are over-funded. */
  function TotalRemaining(goals: seq<Goal>): (r: real)
    ensures r + TotalSaved(goals) == TotalTarget(goals)
  {
    TotalTarget(goals) - TotalSaved(goals)
  }

  /** `overallProgress`: the goal progress of the totals. */
  function OverallProgress(goals: seq<Goal>): (r: real)
    ensures 0.0 <= r <= 100.0
    ensures TotalTarget(goals) <= 0.0 ==> r == 0.0
  {
    GoalProgress(TotalSaved(goals), TotalTarget(goals))
  }

  predicate IsActive(g: Goal) {
    g.currentAmount < g.targetAmount
  }

  function Active(): Goal -> bool { (g: Goal) => IsActive(g) }
  function Completed(): Goal -> bool { (g: Goal) => IsCompleted(g) }

  /** The "Active Goals" count. */
  function ActiveCount(goals: seq<Goal>): nat {
    |Filter(goals, Active())|
  }

  /** Every goal is either active or completed, never both. */
  lemma {:induction false} ActivePlusCompleted(goals: seq<Goal>)
    ensures ActiveCount(goals) + |Filter(goals, Completed())| == |goals|
    ensures ActiveCount(goals) == 0 <==> forall g :: g in goals ==> IsCompleted(g)
  {
    FilterSame(goals, Completed(), Not(Active()));
    FilterPartition(goals, Active());
    FilterMembers(goals, Active());
    if forall g :: g in goals ==> IsCompleted(g) {
      FilterNone(goals, Active());
    }
  }

  /** If every goal is completed, the saved total reaches the target total. */
  lemma {:induction false} AllCompletedCoverTarget(goals: seq<Goal>)
    requires forall g :: g in goals ==> IsCompleted(g)
    ensures TotalSaved(goals) >= TotalTarget(goals)
  {
    if goals != [] {
      assert goals[0] in goals;
      assert forall g :: g in goals[1..] ==> g in goals;
      AllCompletedCoverTarget(goals[1..]);
    }
  }

  /** With no active goal left and a positive target total, the overall progress is 100%. */
  lemma NoActiveMeansFull(goals: seq<Goal>)
    requires ActiveCount(goals) == 0 && TotalTarget(goals) > 0.0
    ensures OverallProgress(goals) == 100.0
  {
    ActivePlusCompleted(goals);
    AllCompletedCoverTarget(goals);
  }

  function IdIsNot(id: int): Goal -> bool {
    (g: Goal) => g.id != id
  }

  /** `goals.filter(goal => goal.id !== id)`. */
  function RemoveGoal(goals: seq<Goal>, id: int): seq<Goal> {
    Filter(goals, IdIsNot(id))
  }

  /**
   * Deleting keeps, in order, exactly the goals with another id, and the
   * totals lose exactly the amounts of the removed goals.
   */
  lemma RemoveGoalSelects(goals: seq<Goal>, id: int)
    ensures var r := RemoveGoal(goals, id);
      && IsSubsequence(r, goals)
      && (forall g :: g in r <==> g in goals && g.id != id)
      && TotalSaved(r) + TotalSaved(Filter(goals, Not(IdIsNot(id)))) == TotalSaved(goals)
      && TotalTarget(r) + TotalTarget(Filter(goals, Not(IdIsNot(id)))) == TotalTarget(goals)
  {
    FilterMembers(goals, IdIsNot(id));
    FilterIsSubsequence(goals, IdIsNot(id));
    SumPartition(goals, IdIsNot(id), SavedOf());
    SumPartition(goals, IdIsNot(id), TargetOf());
  }

  class GoalsPage {
    var goals: seq<Goal>

    constructor ()
      ensures goals == InitialGoals
    {
      goals := InitialGoals;
    }

    /** `handleDeleteGoal`. */
    method DeleteGoal(id: int)
      modifies this
      ensures goals == RemoveGoal(old(goals), id)
    {
      goals := RemoveGoal(goals, id);
    }
  }
}
