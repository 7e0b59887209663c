/**
 * The transactions page: the search-and-filter predicate over the transaction
 * list, the income, expense and balance of what is shown, and the filter
 * panel whose toggles add or remove a category or a type.
 */
module TransactionsPage {
  import opened Common
  import opened BudgetUtils

  /** The applied filters; an empty date bound is `None`, an empty list imposes nothing. */
  datatype Filters = Filters(start: Option<int>, end: Option<int>, categories: seq<string>, types: seq<TxKind>)

  const NoFilters := Filters(None, None, [], [])

  /** The source's early-return predicate, test by test. */
  predicate Keep(t: Transaction, term: string, f: Filters) {
    if term != "" && !ContainsIgnoringCase(t.description, term) && !ContainsIgnoringCase(t.merchant, term)
    then false
    else if f.start.Some? && t.date < f.start.value then false
    else if f.end.Some? && t.date > f.end.value then false
    else if |f.categories| > 0 && t.category !in f.categories then false
    else if |f.types| > 0 && t.kind !in f.types then false
    else true
  }

  function Keeps(term: string, f: Filters): Transaction -> bool {
    t => Keep(t, term, f)
  }

  /** `filteredTransactions`. */
  function FilterTransactions(txs: seq<Transaction>, term: string, f: Filters): seq<Transaction> {
    Filter(txs, Keeps(term, f))
  }

  /**
   * What is shown is the transactions, in order, that match the search term in
   * their description or merchant (ignoring case), fall within the date bounds
   * and belong to a selected category and type; every such transaction is shown.
   */
  lemma FilterTransactionsSelects(txs: seq<Transaction>, term: string, f: Filters)
    ensures var r := FilterTransactions(txs, term, f);
      && IsSubsequence(r, txs)
      && forall t :: t in r <==>
           && t in txs
           && (term == "" || ContainsIgnoringCase(t.description, term) || ContainsIgnoringCase(t.merchant, term))
           && (f.start.None? || f.start.value <= t.date)
           && (f.end.None? || t.date <= f.end.value)
           && (f.categories == [] || t.category in f.categories)
           && (f.types == [] || t.kind in f.types)
  {
    FilterMembers(txs, Keeps(term, f));
    FilterIsSubsequence(txs, Keeps(term, f));
  }

  /** With no search term and no filters every transaction is shown. */
  lemma NoFiltersKeepsAll(txs: seq<Transaction>)
    ensures FilterTransactions(txs, "", NoFilters) == txs
  {
    FilterAll(txs, Keeps("", NoFilters));
  }

  function IsIncome(): Transaction -> bool { (t: Transaction) => t.kind == Income }
  function IsExpense(): Transaction -> bool { (t: Transaction) => t.kind == Expense }

  function IncomeTotal(shown: seq<Transaction>): real { Sum(Filter(shown, IsIncome()), AmountOf()) }
  function ExpenseTotal(shown: seq<Transaction>): real { Sum(Filter(shown, IsExpense()), AmountOf()) }

  function Balance(shown: seq<Transaction>): real {
    IncomeTotal(shown) - ExpenseTotal(shown)
  }

  /** Each transaction's amount with its sign: positive for income, negative for expense. */
  function Signed(): Transaction -> real { (t: Transaction) => if t.kind == Income then t.amount else -t.amount }

  /**
   * Every shown transaction is counted in exactly one of the two totals, so
   * together they account for all shown amounts, and the balance is the sum of
   * the signed amounts.
   */
  lemma {:induction false} TotalsPartition(shown: seq<Transaction>)
    ensures IncomeTotal(shown) + ExpenseTotal(shown) == Sum(shown, AmountOf())
    ensures Balance(shown) == Sum(shown, Signed())
  {
    FilterSame(shown, IsExpense(), Not(IsIncome()));
    SumPartition(shown, IsIncome(), AmountOf());
    SignedSum(shown);
  }

  lemma {:induction false} SignedSum(s: seq<Transaction>)
    ensures Sum(s, Signed()) == IncomeTotal(s) - ExpenseTotal(s)
  {
    if s != [] {
      SignedSum(s[1..]);
    }
  }

  // ---------------------------------------------------------------------
  // Filter panel
  // ---------------------------------------------------------------------

  /** `v => v !== x`. */
  function Other<T(==)>(x: T): T -> bool {
    (y: T) => y != x
  }

  /** Adds `x` when absent; removes every copy of it when present. */
  function Toggled<T(==,!new)>(s: seq<T>, x: T): (r: seq<T>)
    ensures x in r <==> x !in s
    ensures forall y :: y != x ==> (y in r <==> y in s)
  {
    FilterMembers(s, Other(x));
    if x in s then Filter(s, Other(x)) else s + [x]
  }

  /** Toggling twice restores the selection: exactly, when the value was absent. */
  lemma ToggleTwice<T(!new)>(s: seq<T>, x: T)
    ensures forall y :: y in Toggled(Toggled(s, x), x) <==> y in s
    ensures x !in s ==> Toggled(Toggled(s, x), x) == s
  {
    if x !in s {
      FilterAll(s, Other(x));
      assert Filter(s + [x], Other(x)) == s by {
        FilterAppend(s, [x], Other(x));
      }
    }
  }

  class FilterPanel {
    var start: Option<int>
    var end: Option<int>
    var categories: seq<string>
    var types: seq<TxKind>

    constructor ()
      ensures start == None && end == None && categories == [] && types == []
    {
      start, end, categories, types := None, None, [], [];
    }

    method SetStart(day: Option<int>)
      modifies this
      ensures start == day && end == old(end) && categories == old(categories) && types == old(types)
    {
      start := day;
    }

    method SetEnd(day: Option<int>)
      modifies this
      ensures end == day && start == old(start) && categories == old(categories) && types == old(types)
    {
      end := day;
    }

    /** `handleCategoryToggle`. */
    method ToggleCategory(category: string)
      modifies this
      ensures categories == Toggled(old(categories), category)
      ensures start == old(start) && end == old(end) && types == old(types)
    {
      if category in categories {
        categories := Filter(categories, Other(category));
      } else {
        categories := categories + [category];
      }
    }

    /** `handleTypeToggle`. */
    method ToggleType(kind: TxKind)
      modifies this
      ensures types == Toggled(old(types), kind)
      ensures start == old(start) && end == old(end) && categories == old(categories)
    {
      if kind in types {
        types := Filter(types, Other(kind));
      } else {
        types := types + [kind];
      }
    }

    /** `handleApply`: the filters handed to the page. */
    method Apply() returns (f: Filters)
      ensures f == Filters(start, end, categories, types)
    {
      f := Filters(start, end, categories, types);
    }
  }
}
