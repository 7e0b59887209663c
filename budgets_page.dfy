/**
 * The budgets page: the list of budgets with delete, edit-in-place and
 * append, the form that builds the record to save, each card's status color
 * and remaining amount, and the page totals.
 */
module BudgetsPage {
  import opened Common
  import opened BudgetUtils

  /** `budget.color || 'primary'`. */
  function ColorOrDefault(color: string): string {
    if color == "" then "primary" else color
  }

  datatype CardColor = ErrorColor | WarningColor | OwnColor(name: string)

  /**
   * The card's `getStatusColor`. The card divides by the amount unguarded: a
   * zero amount with something spent is an infinite percentage (an error), and
   * with nothing or less spent the comparisons fail and the budget's own color
   * shows.
   */
  function CardStatusColor(b: Budget): (c: CardColor)
    ensures c.OwnColor? ==> c.name == ColorOrDefault(b.color)
    ensures b.amount == 0.0 ==> (c == ErrorColor <==> b.spent > 0.0)
  {
    if b.amount == 0.0 then
      (if b.spent > 0.0 then ErrorColor else OwnColor(ColorOrDefault(b.color)))
    else
      var percentage := Percent(b.spent, b.amount);
      if percentage >= 100.0 then ErrorColor
      else if percentage >= 85.0 then WarningColor
      else OwnColor(ColorOrDefault(b.color))
  }

  /**
   * For a positive amount the card flags the same errors and warnings as the
   * shared status color, and shows an error exactly when nothing remains.
   */
  lemma CardAgreesWithStatus(b: Budget)
    requires b.amount > 0.0
    ensures CardStatusColor(b) == ErrorColor <==> StatusColorOf(Percentage(b.spent, b.amount)) == Error
    ensures CardStatusColor(b) == WarningColor <==> StatusColorOf(Percentage(b.spent, b.amount)) == Warning
    ensures CardStatusColor(b) == ErrorColor <==> Remaining(b.amount, b.spent) <= 0.0
  {
    RemainingMatchesPercentage(b.amount, b.spent);
  }

  /**
   * `BudgetForm.handleSubmit`: nothing when the name or the amount field is
   * empty; otherwise the record to save. `parsed` is the number the amount
   * field parses to and `freshId` stands for `Date.now()`.
   */
  function SubmitBudgetForm(name: string, amountText: string, parsed: real, category: string,
                            editing: Option<Budget>, freshId: int): (r: Option<Budget>)
    ensures r.None? <==> name == "" || amountText == ""
    ensures r.Some? ==> r.value.name == name && r.value.amount == parsed && r.value.category == category
    ensures r.Some? && editing.Some? ==>
      && r.value.spent == editing.value.spent
      && r.value.transactions == editing.value.transactions
      && r.value.color == ColorOrDefault(editing.value.color)
      && (editing.value.id != 0 ==> r.value.id == editing.value.id)
      && (editing.value.id == 0 ==> r.value.id == freshId)
    ensures r.Some? && editing.None? ==>
      r.value.id == freshId && r.value.spent == 0.0 && r.value.transactions == 0 && r.value.color == "primary"
  {
    if name == "" || amountText == "" then None
    else
      Some(Budget(
        if editing.Some? && editing.value.id != 0 then editing.value.id else freshId,
        name,
        parsed,
        if editing.Some? then editing.value.spent else 0.0,
        category,
        if editing.Some? then editing.value.transactions else 0,
        if editing.Some? then ColorOrDefault(editing.value.color) else "primary"))
  }

  function IdIsNot(id: int): Budget -> bool {
    (b: Budget) => b.id != id
  }

  /** `budgets.filter(budget => budget.id !== id)`. */
  function RemoveById(budgets: seq<Budget>, id: int): seq<Budget> {
    Filter(budgets, IdIsNot(id))
  }

  /** `budgets.map(b => b.id === budget.id ? budget : b)`. */
  function ReplaceById(budgets: seq<Budget>, budget: Budget): (r: seq<Budget>)
    ensures |r| == |budgets|
  {
    seq(|budgets|, i requires 0 <= i < |budgets| => if budgets[i].id == budget.id then budget else budgets[i])
  }

  /** Delete keeps, in order, exactly the budgets with another id. */
  lemma RemoveByIdSelects(budgets: seq<Budget>, id: int)
    ensures var r := RemoveById(budgets, id);
      && IsSubsequence(r, budgets)
      && (forall b :: b in r <==> b in budgets && b.id != id)
      && |r| + |Filter(budgets, Not(IdIsNot(id)))| == |budgets|
  {
    FilterMembers(budgets, IdIsNot(id));
    FilterIsSubsequence(budgets, IdIsNot(id));
    FilterPartition(budgets, IdIsNot(id));
  }

  /** Save-while-editing changes the entries with the saved id, and nothing else. */
  lemma ReplaceByIdChangesOnlyThatId(budgets: seq<Budget>, budget: Budget)
    ensures var r := ReplaceById(budgets, budget);
      && (forall i :: 0 <= i < |r| && budgets[i].id != budget.id ==> r[i] == budgets[i])
      && (forall i :: 0 <= i < |r| && budgets[i].id == budget.id ==> r[i] == budget)
      && (forall i :: 0 <= i < |r| ==> r[i].id == budgets[i].id)
  {
  }

  function AmountOfBudget(): Budget -> real { (b: Budget) => b.amount }
  function SpentOfBudget(): Budget -> real { (b: Budget) => b.spent }

  function TotalBudget(budgets: seq<Budget>): real { Sum(budgets, AmountOfBudget()) }
  function TotalSpent(budgets: seq<Budget>): real { Sum(budgets, SpentOfBudget()) }

  /** `totalPercentage`; with no budgeted amount at all the source gets NaN. */
  function TotalPercentage(budgets: seq<Budget>): real
    requires TotalBudget(budgets) != 0.0
  {
    Percent(TotalSpent(budgets), TotalBudget(budgets))
  }

  /**
   * The totals move with the list: appending adds the new budget's amounts,
   * and deleting takes away exactly the amounts of the removed budgets.
   */
  lemma {:induction false} TotalsFollowList(budgets: seq<Budget>, b: Budget, id: int)
    ensures TotalBudget(budgets + [b]) == TotalBudget(budgets) + b.amount
    ensures TotalSpent(budgets + [b]) == TotalSpent(budgets) + b.spent
    ensures TotalBudget(RemoveById(budgets, id)) + TotalBudget(Filter(budgets, Not(IdIsNot(id))))
         == TotalBudget(budgets)
    ensures TotalSpent(RemoveById(budgets, id)) + TotalSpent(Filter(budgets, Not(IdIsNot(id))))
         == TotalSpent(budgets)
  {
    SumAppend(budgets, [b], AmountOfBudget());
    SumAppend(budgets, [b], SpentOfBudget());
    SumPartition(budgets, IdIsNot(id), AmountOfBudget());
    SumPartition(budgets, IdIsNot(id), SpentOfBudget());
  }

  class BudgetsPage {
    var budgets: seq<Budget>
    var isFormOpen: bool
    var editing: Option<Budget>

    constructor (initial: seq<Budget>)
      ensures budgets == initial && !isFormOpen && editing == None
    {
      budgets, isFormOpen, editing := initial, false, None;
    }

    /** `handleOpenForm`. */
    method OpenForm()
      modifies this
      ensures budgets == old(budgets) && isFormOpen && editing == None
    {
      editing := None;
      isFormOpen := true;
    }

    /** `handleEditBudget`. */
    method EditBudget(b: Budget)
      modifies this
      ensures budgets == old(budgets) && isFormOpen && editing == Some(b)
    {
      editing := Some(b);
      isFormOpen := true;
    }

    /** `handleDeleteBudget`. */
    method DeleteBudget(id: int)
      modifies this
      ensures budgets == RemoveById(old(budgets), id)
      ensures isFormOpen == old(isFormOpen) && editing == old(editing)
    {
      budgets := RemoveById(budgets, id);
    }

    /** `handleSaveBudget`: replace while editing, append otherwise; the form closes. */
    method SaveBudget(b: Budget)
      modifies this
      ensures old(editing).Some? ==> budgets == ReplaceById(old(budgets), b)
      ensures old(editing).None? ==> budgets == old(budgets) + [b]
      ensures !isFormOpen && editing == None
    {
      if editing.Some? {
        budgets := ReplaceById(budgets, b);
      } else {
        budgets := budgets + [b];
      }
      isFormOpen := false;
      editing := None;
    }
  }
}
