/**
 * Budgets: the share of a budget spent, its status color and text, the
 * expenses that count against it, rewards for staying under it, and a
 * suggested amount from past spending.
 */
module BudgetUtils {
  import opened Common

  datatype TxKind = Income | Expense

  /** A transaction; its date is a day number. */
  datatype Transaction = Transaction(
    id: int,
    amount: real,
    date: int,
    description: string,
    category: string,
    merchant: string,
    kind: TxKind)

  datatype Budget = Budget(
    id: int,
    name: string,
    amount: real,
    spent: real,
    category: string,
    transactions: int,
    color: string)

  /** `calculatePercentage`: not clamped, and 0 for a budget of no amount. */
  function Percentage(spent: real, amount: real): (r: real)
    ensures amount <= 0.0 ==> r == 0.0
    ensures amount > 0.0 ==> r * amount == spent * 100.0
    ensures amount > 0.0 && spent >= amount ==> r >= 100.0
    ensures amount > 0.0 && 0.0 <= spent <= amount ==> 0.0 <= r <= 100.0
  {
    if amount <= 0.0 then 0.0
    else
      var p := Percent(spent, amount);
      assert p * amount == spent * 100.0;
      assert spent >= amount ==> p >= 100.0 by {
        if spent >= amount { PercentAtLeastHundred(spent, amount); }
      }
      assert 0.0 <= spent <= amount ==> 0.0 <= p <= 100.0 by {
        if 0.0 <= spent <= amount { PercentBounds(spent, amount); }
      }
      p
  }

  datatype StatusColor = Primary | Success | Warning | Error

  /** `getBudgetStatusColor`. */
  function StatusColorOf(percentage: real): StatusColor {
    if percentage >= 100.0 then Error
    else if percentage >= 85.0 then Warning
    else if percentage <= 50.0 then Success
    else Primary
  }

  /** `getBudgetStatusText`. */
  function StatusText(percentage: real): string {
    if percentage >= 100.0 then "Exceeded"
    else if percentage >= 85.0 then "Warning"
    else if percentage >= 70.0 then "Caution"
    else if percentage <= 50.0 then "Good"
    else "On Track"
  }

  function Severity(c: StatusColor): nat {
    match c
    case Success => 0
    case Primary => 1
    case Warning => 2
    case Error => 3
  }

  /**
   * The color never gets less severe as the percentage grows, and the text
   * agrees with it: Exceeded with error, Warning with warning, Good with
   * success, and Caution or On Track with primary.
   */
  lemma StatusColorAndText(p1: real, p2: real)
    ensures p1 <= p2 ==> Severity(StatusColorOf(p1)) <= Severity(StatusColorOf(p2))
    ensures StatusColorOf(p1) == Error <==> StatusText(p1) == "Exceeded"
    ensures StatusColorOf(p1) == Warning <==> StatusText(p1) == "Warning"
    ensures StatusColorOf(p1) == Success <==> StatusText(p1) == "Good"
    ensures StatusColorOf(p1) == Primary <==> StatusText(p1) in {"Caution", "On Track"}
  {
  }

  /** `calculateRemaining`. */
  function Remaining(amount: real, spent: real): real {
    amount - spent
  }

  /** Something of a positive budget remains exactly when less than all of it is spent. */
  lemma RemainingMatchesPercentage(amount: real, spent: real)
    requires amount > 0.0
    ensures Remaining(amount, spent) > 0.0 <==> Percentage(spent, amount) < 100.0
    ensures Remaining(amount, spent) < 0.0 <==> Percentage(spent, amount) > 100.0
    ensures Remaining(amount, spent) <= 0.0 <==> StatusColorOf(Percentage(spent, amount)) == Error
  {
    var p := Percentage(spent, amount);
    assert p * amount == spent * 100.0;
    if p < 100.0 { assert p * amount < 100.0 * amount; }
    if p > 100.0 { assert p * amount > 100.0 * amount; }
    if p == 100.0 { assert spent == amount; }
  }

  /** An expense filed under `category`. */
  function IsBudgetExpense(category: string): Transaction -> bool {
    (t: Transaction) => t.category == category && t.kind == Expense
  }

  /** `getTransactionsForBudget`. */
  function TransactionsForBudget(txs: seq<Transaction>, category: string): seq<Transaction> {
    Filter(txs, IsBudgetExpense(category))
  }

  /** It keeps exactly the expenses of the category, in their original order. */
  lemma TransactionsForBudgetSelects(txs: seq<Transaction>, category: string)
    ensures var r := TransactionsForBudget(txs, category);
      && (forall t :: t in r <==> t in txs && t.category == category && t.kind == Expense)
      && IsSubsequence(r, txs)
  {
    FilterMembers(txs, IsBudgetExpense(category));
    FilterIsSubsequence(txs, IsBudgetExpense(category));
  }

  function AmountOf(): Transaction -> real { (t: Transaction) => t.amount }

  /** `calculateCategorySpending`. */
  function CategorySpending(txs: seq<Transaction>, category: string): real {
    Sum(TransactionsForBudget(txs, category), AmountOf())
  }

  /** Spending over two batches of transactions is the sum of the spending over each. */
  lemma {:induction false} CategorySpendingAppend(a: seq<Transaction>, b: seq<Transaction>, category: string)
    ensures CategorySpending(a + b, category) == CategorySpending(a, category) + CategorySpending(b, category)
  {
    FilterAppend(a, b, IsBudgetExpense(category));
    SumAppend(TransactionsForBudget(a, category), TransactionsForBudget(b, category), AmountOf());
  }

  /** Income, other categories and other transactions do not count. */
  lemma {:induction false} CategorySpendingIgnores(txs: seq<Transaction>, t: Transaction, category: string)
    requires t.category != category || t.kind == Income
    ensures CategorySpending(txs + [t], category) == CategorySpending(txs, category)
  {
    CategorySpendingAppend(txs, [t], category);
    assert TransactionsForBudget([t], category) == [];
  }

  /** `createBudget`, with `id` standing for `Date.now()` and `color` for the optional argument. */
  function CreateBudget(name: string, amount: real, category: string, color: Option<string>, id: int)
    : (b: Budget)
    ensures b.spent == 0.0 && b.transactions == 0
    ensures b.color == (if color.Some? then color.value else "primary")
    ensures b.name == name && b.amount == amount && b.category == category && b.id == id
  {
    Budget(id, name, amount, 0.0, category, 0, color.GetOr("primary"))
  }

  /** `updateBudgetWithTransactions`. */
  function UpdateBudgetWithTransactions(b: Budget, txs: seq<Transaction>): (r: Budget)
    ensures r.spent == CategorySpending(txs, b.category)
    ensures r.transactions == |TransactionsForBudget(txs, b.category)|
    ensures r.(spent := b.spent, transactions := b.transactions) == b
  {
    var relevant := TransactionsForBudget(txs, b.category);
    b.(spent := Sum(relevant, AmountOf()), transactions := |relevant|)
  }

  /** Recomputing from the same transactions changes nothing more. */
  lemma UpdateIdempotent(b: Budget, txs: seq<Transaction>)
    ensures UpdateBudgetWithTransactions(UpdateBudgetWithTransactions(b, txs), txs)
         == UpdateBudgetWithTransactions(b, txs)
  {
  }

  /** `calculateBudgetRewards`. */
  function BudgetRewards(b: Budget): (r: int)
    ensures r in {0, 10, 25, 50}
    ensures b.amount <= 0.0 ==> r == 50
    ensures var p := Percentage(b.spent, b.amount);
      && (r == 50 <==> p <= 80.0)
      && (r == 25 <==> 80.0 < p <= 95.0)
      && (r == 10 <==> 95.0 < p <= 100.0)
      && (r == 0 <==> p > 100.0)
  {
    var percentage := Percentage(b.spent, b.amount);
    if percentage <= 80.0 then 50
    else if percentage <= 95.0 then 25
    else if percentage <= 100.0 then 10
    else 0
  }

  /** Spending more of the same budget never earns more. */
  lemma RewardsNonIncreasing(b: Budget, moreSpent: real)
    requires b.spent <= moreSpent
    ensures BudgetRewards(b.(spent := moreSpent)) <= BudgetRewards(b)
  {
    if b.amount > 0.0 {
      var p1 := Percentage(b.spent, b.amount);
      var p2 := Percentage(moreSpent, b.amount);
      assert p1 * b.amount == b.spent * 100.0 && p2 * b.amount == moreSpent * 100.0;
      var d := p1 - p2;
      assert p1 * b.amount - p2 * b.amount == d * b.amount;
      assert d * b.amount <= 0.0;
      assert d <= 0.0;
    }
  }

  /** `suggestBudget`: the monthly average with a 10% buffer, rounded up. */
  function SuggestBudget(txs: seq<Transaction>, category: string, months: real): (r: int)
    requires months != 0.0 || TransactionsForBudget(txs, category) == []
    ensures TransactionsForBudget(txs, category) == [] ==> r == 0
  {
    var relevant := TransactionsForBudget(txs, category);
    if |relevant| == 0 then 0
    else
      var total := Sum(relevant, AmountOf());
      var averageMonthly := total / months;
      Ceil(averageMonthly * 11.0 / 10.0)
  }

  /**
   * With matching expenses and a positive period, the suggestion is the
   * least whole amount that covers the monthly average plus 10%.
   */
  lemma SuggestCoversAverage(txs: seq<Transaction>, category: string, months: real)
    requires months > 0.0 && TransactionsForBudget(txs, category) != []
    ensures var target := CategorySpending(txs, category) / months * 11.0 / 10.0;
      && SuggestBudget(txs, category, months) as real >= target
      && (SuggestBudget(txs, category, months) - 1) as real < target
  {
  }

  /** The period `suggestBudget` averages over when the caller gives none. */
  const DefaultMonths := 3.0

  /**
   * `suggestBudget(transactions, category)` with the default period of three
   * months: 0 without matching expenses, otherwise the least whole amount
   * covering a third of the category's spending plus 10%.
   */
  function SuggestBudgetDefault(txs: seq<Transaction>, category: string): (r: int)
    ensures TransactionsForBudget(txs, category) == [] ==> r == 0
    ensures TransactionsForBudget(txs, category) != [] ==>
      var target := CategorySpending(txs, category) / 3.0 * 11.0 / 10.0;
      r as real >= target && (r - 1) as real < target
  {
    var r := SuggestBudget(txs, category, DefaultMonths);
    if TransactionsForBudget(txs, category) == [] then r
    else
      SuggestCoversAverage(txs, category, DefaultMonths);
      r
  }
}
