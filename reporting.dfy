/**
 * Reporting over the transaction, budget and budget-summary tables: the monthly
 * per-category report, today's spending summary, the list of recent budget
 * periods, the totals of one period, and the recalculation of every summary
 * row's `total_actual`. Dates and timestamps are instants (integers) supplied
 * by the caller; the query filters are predicates over row lists.
 */
module Reporting {
  import opened Common
  import opened JsObject

  type Instant = int

  /** The columns of a `transactions` row that reporting reads. */
  datatype TxRow = TxRow(
    amount: int,
    direction: string,
    status: string,
    happenedAt: Instant,
    categoryName: Option<string>,
    merchant: Option<string>)

  /** A `budgets` row with its joined category name. */
  datatype BudgetRow = BudgetRow(amount: int, month: string, categoryName: Option<string>)

  /** A `budget_performance_summary` row. */
  datatype SummaryRow = SummaryRow(
    userId: string,
    periodStart: Instant,
    periodEnd: Instant,
    categoryType: string,
    totalBudgeted: int,
    totalActual: int)

  // ---------------------------------------------------------------------------
  // Entries: (category name, amount) pairs and their sums
  // ---------------------------------------------------------------------------

  datatype Entry = Entry(name: string, amount: int)

  /** The sum of all amounts. */
  function Total(es: seq<Entry>): int
  {
    if es == [] then 0 else Total(es[..|es| - 1]) + es[|es| - 1].amount
  }

  /** The sum of the amounts booked under `name`. */
  function TotalFor(es: seq<Entry>, name: string): int
  {
    if es == [] then 0
    else TotalFor(es[..|es| - 1], name) + (if es[|es| - 1].name == name then es[|es| - 1].amount else 0)
  }

  function NamesOf(es: seq<Entry>): (r: seq<string>)
    ensures |r| == |es| && forall i :: 0 <= i < |es| ==> r[i] == es[i].name
  {
    seq(|es|, i requires 0 <= i < |es| => es[i].name)
  }

  /** Extending the entries by one raises exactly that entry's name by its amount. */
  lemma TotalForStep(es: seq<Entry>, k: nat)
    requires k < |es|
    ensures es[..k + 1] == es[..k] + [es[k]]
    ensures forall c :: TotalFor(es[..k + 1], c) == TotalFor(es[..k], c) + (if es[k].name == c then es[k].amount else 0)
    ensures NamesOf(es[..k + 1]) == NamesOf(es[..k]) + [es[k].name]
  {
    assert es[..k + 1][..k] == es[..k];
  }

  lemma TotalForAbsent(es: seq<Entry>, name: string)
    requires name !in NamesOf(es)
    ensures TotalFor(es, name) == 0
  {
    if es != [] {
      assert NamesOf(es[..|es| - 1]) == NamesOf(es)[..|es| - 1];
      TotalForAbsent(es[..|es| - 1], name);
    }
  }

  /** The values of `xs` in order of first appearance (insertion order of a JavaScript object's keys). */
  function Dedup(xs: seq<string>): seq<string>
  {
    if xs == [] then []
    else
      var d := Dedup(xs[..|xs| - 1]);
      if xs[|xs| - 1] in d then d else d + [xs[|xs| - 1]]
  }

  /** Deduplication leaves no value twice. */
  lemma {:induction false} DedupDistinct(xs: seq<string>)
    ensures Distinct(Dedup(xs))
  {
    if xs != [] {
      DedupDistinct(xs[..|xs| - 1]);
    }
  }

  /** Deduplication keeps every value and adds none. */
  lemma {:induction false} DedupMembers(xs: seq<string>)
    ensures forall x :: x in Dedup(xs) <==> x in xs
  {
    if xs != [] {
      DedupMembers(xs[..|xs| - 1]);
      assert forall x :: x in xs <==> x in xs[..|xs| - 1] || x == xs[|xs| - 1];
    }
  }

  lemma DedupAppend(xs: seq<string>, x: string)
    ensures Dedup(xs + [x]) == if x in Dedup(xs) then Dedup(xs) else Dedup(xs) + [x]
  {
    assert (xs + [x])[..|xs|] == xs;
  }

  /** Summing the per-name totals over distinct names. */
  function SumFor(names: seq<string>, es: seq<Entry>): int
  {
    if names == [] then 0 else SumFor(names[..|names| - 1], es) + TotalFor(es, names[|names| - 1])
  }

  /** Adding one entry raises the per-name sum by its amount when its name is listed once. */
  lemma {:induction false} SumForAppend(names: seq<string>, es: seq<Entry>, e: Entry)
    requires Distinct(names)
    ensures SumFor(names, es + [e]) == SumFor(names, es) + (if e.name in names then e.amount else 0)
  {
    if names != [] {
      var init := names[..|names| - 1];
      assert (es + [e])[..|es|] == es;
      assert Distinct(init);
      SumForAppend(init, es, e);
      assert e.name in names <==> e.name in init || e.name == names[|names| - 1];
      assert e.name == names[|names| - 1] ==> e.name !in init;
    }
  }

  /**
   * The per-category sums add up to the overall sum whenever the categories are
   * distinct and cover every entry: no amount is counted twice or lost.
   */
  lemma {:induction false} Partition(names: seq<string>, es: seq<Entry>)
    requires Distinct(names)
    requires forall i :: 0 <= i < |es| ==> es[i].name in names
    ensures SumFor(names, es) == Total(es)
  {
    if es == [] {
      ZeroSums(names);
    } else {
      var init := es[..|es| - 1];
      var e := es[|es| - 1];
      assert es == init + [e];
      Partition(names, init);
      SumForAppend(names, init, e);
    }
  }

  lemma {:induction false} ZeroSums(names: seq<string>)
    ensures SumFor(names, []) == 0
  {
    if names != [] {
      ZeroSums(names[..|names| - 1]);
    }
  }

  // ---------------------------------------------------------------------------
  // getMonthlyReport
  // ---------------------------------------------------------------------------

  const Uncategorized: string := "Uncategorized"

  /** `categories?.name || "Uncategorized"`. */
  function CategoryOf(name: Option<string>): string
  {
    OrElse(name, Uncategorized)
  }

  /** The expense query: completed debits with `happened_at` in `[start, end]`. */
  predicate IsExpenseIn(t: TxRow, start: Instant, end: Instant)
  {
    t.direction == "debit" && t.status == "completed" && start <= t.happenedAt <= end
  }

  function Filter(txs: seq<TxRow>, start: Instant, end: Instant): seq<TxRow>
  {
    if txs == [] then []
    else
      var rest := Filter(txs[..|txs| - 1], start, end);
      if IsExpenseIn(txs[|txs| - 1], start, end) then rest + [txs[|txs| - 1]] else rest
  }

  /** The expense query returns exactly the completed debits inside the range. */
  lemma {:induction false} FilterMembers(txs: seq<TxRow>, start: Instant, end: Instant)
    ensures forall t :: t in Filter(txs, start, end) <==> t in txs && IsExpenseIn(t, start, end)
  {
    if txs != [] {
      FilterMembers(txs[..|txs| - 1], start, end);
      assert forall x :: x in txs <==> x in txs[..|txs| - 1] || x == txs[|txs| - 1];
    }
  }

  function ExpenseEntries(txs: seq<TxRow>): (r: seq<Entry>)
    ensures |r| == |txs|
    ensures forall i :: 0 <= i < |txs| ==> r[i] == Entry(CategoryOf(txs[i].categoryName), txs[i].amount)
  {
    seq(|txs|, i requires 0 <= i < |txs| => Entry(CategoryOf(txs[i].categoryName), txs[i].amount))
  }

  /** The expense filter keeps the matching rows of each part, in order and with repeats. */
  lemma {:induction false} FilterAppend(a: seq<TxRow>, b: seq<TxRow>, start: Instant, end: Instant)
    ensures Filter(a + b, start, end) == Filter(a, start, end) + Filter(b, start, end)
    decreases |b|
  {
    if b == [] {
      assert a + b == a;
    } else {
      var init := b[..|b| - 1];
      assert (a + b)[..|a + b| - 1] == a + init;
      assert (a + b)[|a + b| - 1] == b[|b| - 1];
      FilterAppend(a, init, start, end);
    }
  }

  /** A single row is kept exactly when it is a completed debit inside the range. */
  lemma FilterOne(t: TxRow, start: Instant, end: Instant)
    ensures Filter([t], start, end) == if IsExpenseIn(t, start, end) then [t] else []
  {
    assert [t][..0] == [];
  }

  /**
   * The expense query's sum over a range (before any row is dropped for an
   * inherited category name) is what the period statistics report as
   * `totalExpense` for the same range.
   */
  lemma {:induction false} MonthlySpentIsPeriodExpense(txs: seq<TxRow>, start: Instant, end: Instant)
    ensures Total(ExpenseEntries(Filter(txs, start, end))) == ActualFor(txs, "debit", start, end)
  {
    if txs != [] {
      var init := txs[..|txs| - 1];
      var t := txs[|txs| - 1];
      MonthlySpentIsPeriodExpense(init, start, end);
      var f := Filter(init, start, end);
      if IsExpenseIn(t, start, end) {
        var es := ExpenseEntries(f + [t]);
        assert es[..|es| - 1] == ExpenseEntries(f);
      }
    }
  }

  /** The budget query: the rows of one month. */
  function BudgetEntries(budgets: seq<BudgetRow>, month: string): seq<Entry>
  {
    if budgets == [] then []
    else
      var rest := BudgetEntries(budgets[..|budgets| - 1], month);
      var b := budgets[|budgets| - 1];
      if b.month == month then rest + [Entry(CategoryOf(b.categoryName), b.amount)] else rest
  }

  datatype CategoryStat = CategoryStat(spent: int, budget: int, name: string)

  datatype MonthlyReport = MonthlyReport(stats: seq<CategoryStat>, totalSpent: int, totalBudget: int)

  function StatNames(stats: seq<CategoryStat>): (r: seq<string>)
    ensures |r| == |stats| && forall i :: 0 <= i < |stats| ==> r[i] == stats[i].name
  {
    seq(|stats|, i requires 0 <= i < |stats| => stats[i].name)
  }

  /** `reduce((sum, item) => sum + item.spent, 0)`. */
  function SpentTotal(stats: seq<CategoryStat>): int
  {
    if stats == [] then 0 else SpentTotal(stats[..|stats| - 1]) + stats[|stats| - 1].spent
  }

  /** `reduce((sum, item) => sum + item.budget, 0)`. */
  function BudgetTotal(stats: seq<CategoryStat>): int
  {
    if stats == [] then 0 else BudgetTotal(stats[..|stats| - 1]) + stats[|stats| - 1].budget
  }

  lemma {:induction false} SpentTotalIsSum(stats: seq<CategoryStat>, es: seq<Entry>)
    requires forall i :: 0 <= i < |stats| ==> stats[i].spent == TotalFor(es, stats[i].name)
    ensures SpentTotal(stats) == SumFor(StatNames(stats), es)
  {
    if stats != [] {
      var init := stats[..|stats| - 1];
      assert StatNames(init) == StatNames(stats)[..|stats| - 1];
      SpentTotalIsSum(init, es);
    }
  }

  lemma {:induction false} BudgetTotalIsSum(stats: seq<CategoryStat>, es: seq<Entry>)
    requires forall i :: 0 <= i < |stats| ==> stats[i].budget == TotalFor(es, stats[i].name)
    ensures BudgetTotal(stats) == SumFor(StatNames(stats), es)
  {
    if stats != [] {
      var init := stats[..|stats| - 1];
      assert StatNames(init) == StatNames(stats)[..|stats| - 1];
      BudgetTotalIsSum(init, es);
    }
  }

  /** Every entry's name is among the deduplicated names. */
  lemma DedupCovers(es: seq<Entry>, bs: seq<Entry>)
    ensures forall i :: 0 <= i < |es| ==> es[i].name in Dedup(NamesOf(es) + NamesOf(bs))
    ensures forall i :: 0 <= i < |bs| ==> bs[i].name in Dedup(NamesOf(es) + NamesOf(bs))
  {
    var all := NamesOf(es) + NamesOf(bs);
    DedupMembers(all);
    forall i | 0 <= i < |es| ensures es[i].name in all {
      assert all[i] == es[i].name;
    }
    forall i | 0 <= i < |bs| ensures bs[i].name in all {
      assert all[|es| + i] == bs[i].name;
    }
  }

  /** A name that was never tallied has nothing booked under it. */
  lemma AbsentFromBoth(es: seq<Entry>, bs: seq<Entry>, name: string)
    requires name !in Dedup(NamesOf(es) + NamesOf(bs))
    ensures TotalFor(es, name) == 0 && TotalFor(bs, name) == 0
  {
    DedupMembers(NamesOf(es) + NamesOf(bs));
    TotalForAbsent(es, name);
    TotalForAbsent(bs, name);
  }

  /**
   * The entries that reach an own stat of `categoryStats`. For a name that
   * `Object.prototype` defines, the lookup `categoryStats[catName]` finds the
   * inherited member, which is truthy, so no stat is created and the `+=`
   * writes a property of that member instead.
   */
  function Own(es: seq<Entry>): seq<Entry>
  {
    if es == [] then []
    else
      var rest := Own(es[..|es| - 1]);
      if es[|es| - 1].name in InheritedNames then rest else rest + [es[|es| - 1]]
  }

  lemma OwnStep(es: seq<Entry>, k: nat)
    requires k < |es|
    ensures Own(es[..k + 1]) == if es[k].name in InheritedNames then Own(es[..k]) else Own(es[..k]) + [es[k]]
  {
    assert es[..k + 1][..k] == es[..k];
  }

  /** Only entries under inherited names are dropped. */
  lemma {:induction false} OwnMembers(es: seq<Entry>)
    ensures forall e :: e in Own(es) <==> e in es && e.name !in InheritedNames
  {
    if es != [] {
      var init := es[..|es| - 1];
      OwnMembers(init);
      assert forall e :: e in es <==> e in init || e == es[|es| - 1];
    }
  }

  /** Without inherited names every entry is kept, in order. */
  lemma {:induction false} OwnOfPlainNames(es: seq<Entry>)
    requires forall i :: 0 <= i < |es| ==> es[i].name !in InheritedNames
    ensures Own(es) == es
  {
    if es != [] {
      OwnOfPlainNames(es[..|es| - 1]);
    }
  }

  /** An expense booked under `constructor` reaches no stat. */
  lemma OwnDropsInherited(amount: int)
    ensures Own([Entry("constructor", amount)]) == []
  {
    assert [Entry("constructor", amount)][..0] == [];
  }

  /**
   * When no expense in the range is booked under an inherited name, the
   * monthly report's `totalSpent` is the period statistics' `totalExpense`.
   */
  lemma MonthlyTotalIsPeriodExpense(txs: seq<TxRow>, start: Instant, end: Instant)
    requires forall t :: t in txs && IsExpenseIn(t, start, end) ==> CategoryOf(t.categoryName) !in InheritedNames
    ensures Total(Own(ExpenseEntries(Filter(txs, start, end)))) == ActualFor(txs, "debit", start, end)
  {
    var f := Filter(txs, start, end);
    FilterMembers(txs, start, end);
    assert forall i :: 0 <= i < |f| ==> f[i] in f;
    OwnOfPlainNames(ExpenseEntries(f));
    MonthlySpentIsPeriodExpense(txs, start, end);
  }

  /** A debit of 10 under `constructor` counts in the period statistics but not in the monthly total. */
  lemma InheritedExpenseDiverges(at: Instant)
    ensures var txs := [TxRow(10, "debit", "completed", at, Some("constructor"), None)];
      Total(Own(ExpenseEntries(Filter(txs, at, at)))) == 0 && ActualFor(txs, "debit", at, at) == 10
  {
    var txs := [TxRow(10, "debit", "completed", at, Some("constructor"), None)];
    assert txs[..0] == [];
    assert Filter(txs, at, at) == txs;
    OwnDropsInherited(10);
  }

  /** No own key of the stats is a name `Object.prototype` defines. */
  predicate OwnKeysOnly(categoryStats: map<string, CategoryStat>)
  {
    forall c :: c in categoryStats ==> c !in InheritedNames
  }

  /** The stats keyed by category name, and the keys in insertion order. */
  ghost predicate Tally(categoryStats: map<string, CategoryStat>, order: seq<string>, es: seq<Entry>, bs: seq<Entry>)
  {
    && order == Dedup(NamesOf(es) + NamesOf(bs))
    && (forall c :: c in categoryStats <==> c in order)
    && (forall c :: c in categoryStats ==> categoryStats[c] == CategoryStat(TotalFor(es, c), TotalFor(bs, c), c))
  }

  /** `categoryStats[catName] ??= {spent: 0, budget: 0, name: catName}`. */
  function Ensure(categoryStats: map<string, CategoryStat>, name: string): (r: map<string, CategoryStat>)
    ensures name in r
  {
    if name in categoryStats then categoryStats else categoryStats[name := CategoryStat(0, 0, name)]
  }

  /** The key order after `name` is looked up: a new name is appended. */
  function Register(order: seq<string>, categoryStats: map<string, CategoryStat>, name: string): seq<string>
  {
    if name in categoryStats then order else order + [name]
  }

  /** `categoryStats[catName].spent += amount` after the entry is ensured. */
  function AddSpent(categoryStats: map<string, CategoryStat>, e: Entry): map<string, CategoryStat>
  {
    var m := Ensure(categoryStats, e.name);
    m[e.name := m[e.name].(spent := m[e.name].spent + e.amount)]
  }

  /** `categoryStats[catName].budget += amount` after the entry is ensured. */
  function AddBudget(categoryStats: map<string, CategoryStat>, e: Entry): map<string, CategoryStat>
  {
    var m := Ensure(categoryStats, e.name);
    m[e.name := m[e.name].(budget := m[e.name].budget + e.amount)]
  }

  /** One expense: the key order grows by the category when it is new, and the keys follow the order. */
  lemma ExpenseKeys(categoryStats: map<string, CategoryStat>, order: seq<string>, es: seq<Entry>, k: nat)
    requires k < |es| && Tally(categoryStats, order, es[..k], [])
    ensures Register(order, categoryStats, es[k].name) == Dedup(NamesOf(es[..k + 1]) + NamesOf([]))
    ensures forall c :: c in AddSpent(categoryStats, es[k]) <==> c in Register(order, categoryStats, es[k].name)
  {
    TotalForStep(es, k);
    assert NamesOf(es[..k]) + NamesOf([]) == NamesOf(es[..k]);
    assert NamesOf(es[..k + 1]) + NamesOf([]) == NamesOf(es[..k + 1]);
    DedupAppend(NamesOf(es[..k]), es[k].name);
  }

  /** One expense: only its own category's `spent` changes, and it grows by the amount. */
  lemma ExpenseValues(categoryStats: map<string, CategoryStat>, order: seq<string>, es: seq<Entry>, k: nat)
    requires k < |es| && Tally(categoryStats, order, es[..k], [])
    ensures forall c :: c in AddSpent(categoryStats, es[k]) ==>
      AddSpent(categoryStats, es[k])[c] == CategoryStat(TotalFor(es[..k + 1], c), TotalFor([], c), c)
  {
    var e := es[k];
    var m := Ensure(categoryStats, e.name);
    var m' := AddSpent(categoryStats, e);
    TotalForStep(es, k);
    if e.name !in categoryStats {
      AbsentFromBoth(es[..k], [], e.name);
    }
    assert m[e.name] == CategoryStat(TotalFor(es[..k], e.name), 0, e.name);
    forall c | c in m' ensures m'[c] == CategoryStat(TotalFor(es[..k + 1], c), TotalFor([], c), c) {
      if c != e.name {
        assert m'[c] == categoryStats[c];
      }
    }
  }

  /** One expense: its category is created when new, then its `spent` grows by the amount. */
  lemma ExpenseStep(categoryStats: map<string, CategoryStat>, order: seq<string>, es: seq<Entry>, k: nat)
    requires k < |es| && Tally(categoryStats, order, es[..k], [])
    ensures Tally(AddSpent(categoryStats, es[k]), Register(order, categoryStats, es[k].name), es[..k + 1], [])
  {
    ExpenseKeys(categoryStats, order, es, k);
    ExpenseValues(categoryStats, order, es, k);
  }

  /** One budget: the key order grows by the category when it is new, and the keys follow the order. */
  lemma BudgetKeys(categoryStats: map<string, CategoryStat>, order: seq<string>, es: seq<Entry>, bs: seq<Entry>, k: nat)
    requires k < |bs| && Tally(categoryStats, order, es, bs[..k])
    ensures Register(order, categoryStats, bs[k].name) == Dedup(NamesOf(es) + NamesOf(bs[..k + 1]))
    ensures forall c :: c in AddBudget(categoryStats, bs[k]) <==> c in Register(order, categoryStats, bs[k].name)
  {
    var b := bs[k];
    TotalForStep(bs, k);
    assert NamesOf(es) + NamesOf(bs[..k + 1]) == (NamesOf(es) + NamesOf(bs[..k])) + [b.name];
    DedupAppend(NamesOf(es) + NamesOf(bs[..k]), b.name);
  }

  /** One budget: only its own category's `budget` changes, and it grows by the amount. */
  lemma BudgetValues(categoryStats: map<string, CategoryStat>, order: seq<string>, es: seq<Entry>, bs: seq<Entry>, k: nat)
    requires k < |bs| && Tally(categoryStats, order, es, bs[..k])
    ensures forall c :: c in AddBudget(categoryStats, bs[k]) ==>
      AddBudget(categoryStats, bs[k])[c] == CategoryStat(TotalFor(es, c), TotalFor(bs[..k + 1], c), c)
  {
    var b := bs[k];
    var m := Ensure(categoryStats, b.name);
    var m' := AddBudget(categoryStats, b);
    TotalForStep(bs, k);
    if b.name !in categoryStats {
      AbsentFromBoth(es, bs[..k], b.name);
    }
    assert m[b.name] == CategoryStat(TotalFor(es, b.name), TotalFor(bs[..k], b.name), b.name);
    forall c | c in m' ensures m'[c] == CategoryStat(TotalFor(es, c), TotalFor(bs[..k + 1], c), c) {
      if c != b.name {
        assert m'[c] == categoryStats[c];
      }
    }
  }

  /** One budget: its category is created when new, then its `budget` grows by the amount. */
  lemma BudgetStep(categoryStats: map<string, CategoryStat>, order: seq<string>, es: seq<Entry>, bs: seq<Entry>, k: nat)
    requires k < |bs| && Tally(categoryStats, order, es, bs[..k])
    ensures Tally(AddBudget(categoryStats, bs[k]), Register(order, categoryStats, bs[k].name), es, bs[..k + 1])
  {
    BudgetKeys(categoryStats, order, es, bs, k);
    BudgetValues(categoryStats, order, es, bs, k);
  }

  /** Adding to a category whose name is not inherited keeps every key free of inherited names. */
  lemma AddKeepsOwnKeys(categoryStats: map<string, CategoryStat>, e: Entry)
    requires OwnKeysOnly(categoryStats) && e.name !in InheritedNames
    ensures OwnKeysOnly(AddSpent(categoryStats, e)) && OwnKeysOnly(AddBudget(categoryStats, e))
  {
    assert forall c :: c in AddSpent(categoryStats, e) ==> c in categoryStats || c == e.name;
    assert forall c :: c in AddBudget(categoryStats, e) ==> c in categoryStats || c == e.name;
  }

  /** One expense of the loop: an inherited name changes nothing, any other is tallied. */
  lemma ExpenseOwnStep(categoryStats: map<string, CategoryStat>, order: seq<string>, es: seq<Entry>, k: nat)
    requires k < |es| && Tally(categoryStats, order, Own(es[..k]), []) && OwnKeysOnly(categoryStats)
    ensures es[k].name in InheritedNames ==> Tally(categoryStats, order, Own(es[..k + 1]), [])
    ensures es[k].name !in InheritedNames ==>
      && Tally(AddSpent(categoryStats, es[k]), Register(order, categoryStats, es[k].name), Own(es[..k + 1]), [])
      && OwnKeysOnly(AddSpent(categoryStats, es[k]))
  {
    OwnStep(es, k);
    if es[k].name !in InheritedNames {
      var done := Own(es[..k]) + [es[k]];
      assert done[..|done| - 1] == Own(es[..k]);
      assert done[..|done|] == done == Own(es[..k + 1]);
      ExpenseStep(categoryStats, order, done, |done| - 1);
      AddKeepsOwnKeys(categoryStats, es[k]);
    }
  }

  /** One budget of the loop: an inherited name changes nothing, any other is tallied. */
  lemma BudgetOwnStep(categoryStats: map<string, CategoryStat>, order: seq<string>, es: seq<Entry>, bs: seq<Entry>, k: nat)
    requires k < |bs| && Tally(categoryStats, order, es, Own(bs[..k])) && OwnKeysOnly(categoryStats)
    ensures bs[k].name in InheritedNames ==> Tally(categoryStats, order, es, Own(bs[..k + 1]))
    ensures bs[k].name !in InheritedNames ==>
      && Tally(AddBudget(categoryStats, bs[k]), Register(order, categoryStats, bs[k].name), es, Own(bs[..k + 1]))
      && OwnKeysOnly(AddBudget(categoryStats, bs[k]))
  {
    OwnStep(bs, k);
    if bs[k].name !in InheritedNames {
      var done := Own(bs[..k]) + [bs[k]];
      assert done[..|done| - 1] == Own(bs[..k]);
      assert done[..|done|] == done == Own(bs[..k + 1]);
      BudgetStep(categoryStats, order, es, done, |done| - 1);
      AddKeepsOwnKeys(categoryStats, bs[k]);
    }
  }

  /**
   * The `forEach` callback for one expense row, on the object `categoryStats`
   * whose own keys in insertion order are `order`.
   */
  method ExpenseCallback(stats0: map<string, CategoryStat>, order0: seq<string>, e: Entry)
      returns (categoryStats: map<string, CategoryStat>, order: seq<string>)
    requires OwnKeysOnly(stats0)
    ensures e.name in InheritedNames ==> categoryStats == stats0 && order == order0
    ensures e.name !in InheritedNames ==>
      categoryStats == AddSpent(stats0, e) && order == Register(order0, stats0, e.name)
  {
    categoryStats, order := stats0, order0;
    // `!categoryStats[catName]`: neither an own stat nor an inherited member
    if !(e.name in categoryStats || e.name in InheritedNames) {
      categoryStats := categoryStats[e.name := CategoryStat(0, 0, e.name)];
      order := order + [e.name];
    }
    // on an inherited member the `+=` writes a property of that member
    if e.name in categoryStats {
      var stat := categoryStats[e.name];
      categoryStats := categoryStats[e.name := stat.(spent := stat.spent + e.amount)];
    }
  }

  /**
   * `expenses?.forEach(...)`: each expense adds to its category's `spent`,
   * creating it at zero when `categoryStats[catName]` finds neither an own
   * stat nor an inherited member.
   */
  method SumExpenses(es: seq<Entry>) returns (categoryStats: map<string, CategoryStat>, order: seq<string>)
    ensures Tally(categoryStats, order, Own(es), [])
    ensures OwnKeysOnly(categoryStats)
  {
    categoryStats := map[];
    order := [];
    assert es[..0] == [];
    assert NamesOf(Own(es[..0])) + NamesOf([]) == [];
    for k := 0 to |es|
      invariant Tally(categoryStats, order, Own(es[..k]), [])
      invariant OwnKeysOnly(categoryStats)
    {
      ExpenseOwnStep(categoryStats, order, es, k);
      categoryStats, order := ExpenseCallback(categoryStats, order, es[k]);
    }
    assert es[..|es|] == es;
  }

  /**
   * The `forEach` callback for one budget row, on the object `categoryStats`
   * whose own keys in insertion order are `order`.
   */
  method BudgetCallback(stats0: map<string, CategoryStat>, order0: seq<string>, b: Entry)
      returns (categoryStats: map<string, CategoryStat>, order: seq<string>)
    requires OwnKeysOnly(stats0)
    ensures b.name in InheritedNames ==> categoryStats == stats0 && order == order0
    ensures b.name !in InheritedNames ==>
      categoryStats == AddBudget(stats0, b) && order == Register(order0, stats0, b.name)
  {
    categoryStats, order := stats0, order0;
    // `!categoryStats[catName]`: neither an own stat nor an inherited member
    if !(b.name in categoryStats || b.name in InheritedNames) {
      categoryStats := categoryStats[b.name := CategoryStat(0, 0, b.name)];
      order := order + [b.name];
    }
    // on an inherited member the `+=` writes a property of that member
    if b.name in categoryStats {
      var stat := categoryStats[b.name];
      categoryStats := categoryStats[b.name := stat.(budget := stat.budget + b.amount)];
    }
  }

  /** `budgets?.forEach(...)`: each budget adds to its category's `budget` in the same way. */
  method SumBudgets(es: seq<Entry>, bs: seq<Entry>, stats0: map<string, CategoryStat>, order0: seq<string>)
      returns (categoryStats: map<string, CategoryStat>, order: seq<string>)
    requires Tally(stats0, order0, es, [])
    requires OwnKeysOnly(stats0)
    ensures Tally(categoryStats, order, es, Own(bs))
    ensures OwnKeysOnly(categoryStats)
  {
    categoryStats, order := stats0, order0;
    assert bs[..0] == [];
    for k := 0 to |bs|
      invariant Tally(categoryStats, order, es, Own(bs[..k]))
      invariant OwnKeysOnly(categoryStats)
    {
      BudgetOwnStep(categoryStats, order, es, bs, k);
      categoryStats, order := BudgetCallback(categoryStats, order, bs[k]);
    }
    assert bs[..|bs|] == bs;
  }

  /** `Object.values(categoryStats)` when `Object.values` visits the keys in the order `keys`. */
  function Values(categoryStats: map<string, CategoryStat>, keys: seq<string>): (r: seq<CategoryStat>)
    requires forall i :: 0 <= i < |keys| ==> keys[i] in categoryStats
    ensures |r| == |keys| && forall i :: 0 <= i < |keys| ==> r[i] == categoryStats[keys[i]]
  {
    seq(|keys|, i requires 0 <= i < |keys| => categoryStats[keys[i]])
  }

  /**
   * The values of a finished tally: one stat per tallied name in `Object.values`
   * order, each with its own sums, and over all of them every amount once.
   */
  lemma ValuesOfTally(categoryStats: map<string, CategoryStat>, order: seq<string>, es: seq<Entry>, bs: seq<Entry>)
    requires Tally(categoryStats, order, es, bs)
    ensures forall i :: 0 <= i < |KeyOrder(order)| ==> KeyOrder(order)[i] in categoryStats
    ensures var stats := Values(categoryStats, KeyOrder(order));
      && StatNames(stats) == KeyOrder(order)
      && (forall i :: 0 <= i < |stats| ==>
            stats[i].spent == TotalFor(es, stats[i].name) && stats[i].budget == TotalFor(bs, stats[i].name))
      && SpentTotal(stats) == Total(es)
      && BudgetTotal(stats) == Total(bs)
  {
    var keys := KeyOrder(order);
    KeyOrderPermutes(order);
    DedupDistinct(NamesOf(es) + NamesOf(bs));
    assert forall i :: 0 <= i < |keys| ==> keys[i] in order;
    var stats := Values(categoryStats, keys);
    assert StatNames(stats) == keys;
    SpentTotalIsSum(stats, es);
    BudgetTotalIsSum(stats, bs);
    DedupCovers(es, bs);
    Partition(keys, es);
    Partition(keys, bs);
  }

  /**
   * `getMonthlyReport` for the month `[start, end]` whose budget key is `month`.
   * A failed query contributes no rows, as `data?.forEach` does.
   */
  method GetMonthlyReport(txs: seq<TxRow>, budgets: seq<BudgetRow>, start: Instant, end: Instant, month: string,
                          expensesFail: bool, budgetsFail: bool)
      returns (r: MonthlyReport)
    ensures
      var es := Own(if expensesFail then [] else ExpenseEntries(Filter(txs, start, end)));
      var bs := Own(if budgetsFail then [] else BudgetEntries(budgets, month));
      // one stat per category name, in the order `Object.values` visits the keys
      // inserted by first appearance over expenses then budgets
      && StatNames(r.stats) == KeyOrder(Dedup(NamesOf(es) + NamesOf(bs)))
      // each category's spent and budget are the sums of its rows
      && (forall i :: 0 <= i < |r.stats| ==>
            r.stats[i].spent == TotalFor(es, r.stats[i].name) && r.stats[i].budget == TotalFor(bs, r.stats[i].name))
      // the totals are the sums of all expense and all budget amounts
      && r.totalSpent == Total(es)
      && r.totalBudget == Total(bs)
  {
    var allEs := if expensesFail then [] else ExpenseEntries(Filter(txs, start, end));
    var allBs := if budgetsFail then [] else BudgetEntries(budgets, month);
    var es, bs := Own(allEs), Own(allBs);

    var categoryStats, order := SumExpenses(allEs);
    categoryStats, order := SumBudgets(es, allBs, categoryStats, order);

    ValuesOfTally(categoryStats, order, es, bs);
    var stats := Values(categoryStats, KeyOrder(order));
    r := MonthlyReport(stats, SpentTotal(stats), BudgetTotal(stats));
  }

  // ---------------------------------------------------------------------------
  // getTodaySummary
  // ---------------------------------------------------------------------------

  /** One summary line: category (or "Uncat"), amount, and the merchant as a template interpolates it. */
  datatype SummaryLine = SummaryLine(category: string, amount: int, merchant: string)

  function LineOf(t: TxRow): SummaryLine
  {
    SummaryLine(OrElse(t.categoryName, "Uncat"), t.amount, match t.merchant case None => "null" case Some(m) => m)
  }

  function TxTotal(txs: seq<TxRow>): int
  {
    if txs == [] then 0 else TxTotal(txs[..|txs| - 1]) + txs[|txs| - 1].amount
  }

  /** `txs?.forEach(...)` in `getTodaySummary`: the running total and one line per row, in order. */
  method SumToday(today: seq<TxRow>) returns (total: int, lines: seq<SummaryLine>)
    ensures total == TxTotal(today)
    ensures |lines| == |today| && forall i :: 0 <= i < |today| ==> lines[i] == LineOf(today[i])
  {
    total := 0;
    lines := [];
    for k := 0 to |today|
      invariant total == TxTotal(today[..k])
      invariant |lines| == k && forall i :: 0 <= i < k ==> lines[i] == LineOf(today[i])
    {
      assert today[..k + 1][..k] == today[..k];
      total := total + today[k].amount;
      lines := lines + [LineOf(today[k])];
    }
    assert today[..|today|] == today;
  }

  /** `getTodaySummary` for the day `[start, end]`: the running total and one line per transaction. */
  method GetTodaySummary(txs: seq<TxRow>, start: Instant, end: Instant, queryFails: bool)
      returns (total: int, lines: seq<SummaryLine>)
    ensures var today := if queryFails then [] else Filter(txs, start, end);
      && total == TxTotal(today)
      && |lines| == |today|
      && forall i :: 0 <= i < |today| ==> lines[i] == LineOf(today[i])
  {
    var today := if queryFails then [] else Filter(txs, start, end);
    total, lines := SumToday(today);
  }

  // ---------------------------------------------------------------------------
  // getAvailablePeriods
  // ---------------------------------------------------------------------------

  datatype Period = Period(start: Instant, end: Instant)

  function PeriodOf(row: SummaryRow): Period
  {
    Period(row.periodStart, row.periodEnd)
  }

  function Starts(ps: seq<Period>): (r: seq<Instant>)
    ensures |r| == |ps| && forall i :: 0 <= i < |ps| ==> r[i] == ps[i].start
  {
    seq(|ps|, i requires 0 <= i < |ps| => ps[i].start)
  }

  /** The first row of each distinct start date, in row order. */
  function FirstPerStart(rows: seq<SummaryRow>): seq<Period>
  {
    if rows == [] then []
    else
      var d := FirstPerStart(rows[..|rows| - 1]);
      var row := rows[|rows| - 1];
      if row.periodStart in Starts(d) then d else d + [PeriodOf(row)]
  }

  /** No start date is listed twice. */
  lemma {:induction false} FirstPerStartDistinct(rows: seq<SummaryRow>)
    ensures Distinct(Starts(FirstPerStart(rows)))
  {
    if rows != [] {
      var d := FirstPerStart(rows[..|rows| - 1]);
      var row := rows[|rows| - 1];
      FirstPerStartDistinct(rows[..|rows| - 1]);
      if row.periodStart !in Starts(d) {
        assert Starts(d + [PeriodOf(row)]) == Starts(d) + [row.periodStart];
      }
    }
  }

  /** Every row's start date is listed. */
  lemma {:induction false} FirstPerStartCovers(rows: seq<SummaryRow>)
    ensures forall i :: 0 <= i < |rows| ==> rows[i].periodStart in Starts(FirstPerStart(rows))
  {
    if rows != [] {
      var init := rows[..|rows| - 1];
      var d := FirstPerStart(init);
      var row := rows[|rows| - 1];
      FirstPerStartCovers(init);
      assert forall i :: 0 <= i < |init| ==> rows[i] == init[i];
      if row.periodStart !in Starts(d) {
        assert Starts(d + [PeriodOf(row)]) == Starts(d) + [row.periodStart];
      }
    }
  }

  /** Every listed period is that of the first row with its start date. */
  lemma {:induction false} FirstPerStartFirst(rows: seq<SummaryRow>)
    ensures forall q :: q in FirstPerStart(rows) ==>
      exists i :: 0 <= i < |rows| && q == PeriodOf(rows[i]) &&
        forall j :: 0 <= j < i ==> rows[j].periodStart != q.start
  {
    if rows != [] {
      var init := rows[..|rows| - 1];
      var d := FirstPerStart(init);
      var row := rows[|rows| - 1];
      FirstPerStartFirst(init);
      assert forall i :: 0 <= i < |init| ==> rows[i] == init[i];
      if row.periodStart !in Starts(d) {
        FirstPerStartCovers(init);
        assert forall j :: 0 <= j < |init| ==> rows[j].periodStart != row.periodStart;
      }
    }
  }

  /** `slice(0, 5)`. */
  function Take5(ps: seq<Period>): (r: seq<Period>)
    ensures |r| == (if |ps| < 5 then |ps| else 5) && r == ps[..|r|]
  {
    if |ps| <= 5 then ps else ps[..5]
  }

  /**
   * `getAvailablePeriods` over the query's rows (already in `period_start_date`
   * descending order): a failed query gives no periods.
   */
  method GetAvailablePeriods(rows: seq<SummaryRow>, queryFails: bool) returns (r: seq<Period>)
    ensures queryFails ==> r == []
    ensures !queryFails ==> r == Take5(FirstPerStart(rows))
  {
    if queryFails {
      return [];
    }
    var seen: set<Instant> := {};
    var uniquePeriods: seq<Period> := [];
    for k := 0 to |rows|
      invariant uniquePeriods == FirstPerStart(rows[..k])
      invariant forall x :: x in seen <==> x in Starts(uniquePeriods)
    {
      var p := rows[k];
      assert rows[..k + 1][..k] == rows[..k];
      if p.periodStart !in seen {
        seen := seen + {p.periodStart};
        assert Starts(uniquePeriods + [PeriodOf(p)]) == Starts(uniquePeriods) + [p.periodStart];
        uniquePeriods := uniquePeriods + [PeriodOf(p)];
      }
    }
    assert rows[..|rows|] == rows;
    r := Take5(uniquePeriods);
  }

  // ---------------------------------------------------------------------------
  // getPeriodStats
  // ---------------------------------------------------------------------------

  /** The sum of `total_budgeted` over the summary rows of one period and one category type. */
  function BudgetedFor(rows: seq<SummaryRow>, start: Instant, end: Instant, categoryType: string): int
  {
    if rows == [] then 0
    else
      var row := rows[|rows| - 1];
      BudgetedFor(rows[..|rows| - 1], start, end, categoryType)
      + (if row.periodStart == start && row.periodEnd == end && row.categoryType == categoryType
         then row.totalBudgeted else 0)
  }

  /** The sum of the completed transactions of one direction with `happened_at` in `[start, end]`. */
  function ActualFor(txs: seq<TxRow>, direction: string, start: Instant, end: Instant): int
  {
    if txs == [] then 0
    else
      var t := txs[|txs| - 1];
      ActualFor(txs[..|txs| - 1], direction, start, end)
      + (if t.direction == direction && t.status == "completed" && start <= t.happenedAt <= end
         then t.amount else 0)
  }

  datatype PeriodStats =
    | Stats(start: Instant, end: Instant, totalExpense: int, totalIncome: int, net: int,
            budgetedExpense: int, budgetedIncome: int)
    | StatsError(message: string)

  /** `getPeriodStats`: budgeted and actual totals of one period, or the transaction query's error. */
  method GetPeriodStats(summary: seq<SummaryRow>, txs: seq<TxRow>, start: Instant, end: Instant,
                        budgetFails: bool, txError: Option<string>)
      returns (r: PeriodStats)
    ensures txError.Some? <==> r.StatsError?
    ensures txError.Some? ==> r.message == "Transaction query failed: " + txError.value
    ensures txError.None? ==>
      && r.start == start && r.end == end
      && r.totalExpense == ActualFor(txs, "debit", start, end)
      && r.totalIncome == ActualFor(txs, "credit", start, end)
      && r.net == r.totalIncome - r.totalExpense
      && r.budgetedExpense == (if budgetFails then 0 else BudgetedFor(summary, start, end, "expense"))
      && r.budgetedIncome == (if budgetFails then 0 else BudgetedFor(summary, start, end, "income"))
  {
    var budgetedExpense := 0;
    var budgetedIncome := 0;
    if !budgetFails {
      for k := 0 to |summary|
        invariant budgetedExpense == BudgetedFor(summary[..k], start, end, "expense")
        invariant budgetedIncome == BudgetedFor(summary[..k], start, end, "income")
      {
        assert summary[..k + 1][..k] == summary[..k];
        var row := summary[k];
        if row.periodStart == start && row.periodEnd == end {
          if row.categoryType == "expense" { budgetedExpense := budgetedExpense + row.totalBudgeted; }
          if row.categoryType == "income" { budgetedIncome := budgetedIncome + row.totalBudgeted; }
        }
      }
      assert summary[..|summary|] == summary;
    }

    if txError.Some? {
      return StatsError("Transaction query failed: " + txError.value);
    }

    var totalExpense := 0;
    var totalIncome := 0;
    for k := 0 to |txs|
      invariant totalExpense == ActualFor(txs[..k], "debit", start, end)
      invariant totalIncome == ActualFor(txs[..k], "credit", start, end)
    {
      assert txs[..k + 1][..k] == txs[..k];
      var t := txs[k];
      if t.status == "completed" && start <= t.happenedAt <= end {
        if t.direction == "debit" {
          totalExpense := totalExpense + t.amount;
        } else if t.direction == "credit" {
          totalIncome := totalIncome + t.amount;
        }
      }
    }
    assert txs[..|txs|] == txs;
    r := Stats(start, end, totalExpense, totalIncome, totalIncome - totalExpense, budgetedExpense, budgetedIncome);
  }

  /** Transactions of any other direction count towards neither total. */
  lemma {:induction false} OtherDirectionsIgnored(txs: seq<TxRow>, t: TxRow, start: Instant, end: Instant)
    requires t.direction != "debit" && t.direction != "credit"
    ensures ActualFor(txs + [t], "debit", start, end) == ActualFor(txs, "debit", start, end)
    ensures ActualFor(txs + [t], "credit", start, end) == ActualFor(txs, "credit", start, end)
  {
    assert (txs + [t])[..|txs|] == txs;
  }

  // ---------------------------------------------------------------------------
  // recalculateAllSummaries
  // ---------------------------------------------------------------------------

  /** `type === 'expense' ? 'debit' : 'credit'`. */
  function DirectionFor(categoryType: string): string
  {
    if categoryType == "expense" then "debit" else "credit"
  }

  /** The actual total a summary row should carry: its direction's completed transactions in its period. */
  function RowActual(txs: seq<TxRow>, row: SummaryRow): int
  {
    ActualFor(txs, DirectionFor(row.categoryType), row.periodStart, row.periodEnd)
  }

  /** Rows that the update's four `.eq` filters select. */
  predicate SameKey(a: SummaryRow, b: SummaryRow)
  {
    a.userId == b.userId && a.periodStart == b.periodStart && a.periodEnd == b.periodEnd &&
    a.categoryType == b.categoryType
  }

  /** The update: `total_actual` of every row with `key`'s key set to `actual`; nothing else changes. */
  function ApplyUpdate(table: seq<SummaryRow>, key: SummaryRow, actual: int): (r: seq<SummaryRow>)
    ensures |r| == |table|
    ensures forall i :: 0 <= i < |table| ==>
      r[i] == if SameKey(table[i], key) then table[i].(totalActual := actual) else table[i]
  {
    seq(|table|, i requires 0 <= i < |table| =>
      if SameKey(table[i], key) then table[i].(totalActual := actual) else table[i])
  }

  /** Each update sets the actual outright: of two updates of one key, the later alone counts. */
  lemma ApplyUpdateLastWins(table: seq<SummaryRow>, key: SummaryRow, a: int, b: int)
    ensures ApplyUpdate(ApplyUpdate(table, key, a), key, b) == ApplyUpdate(table, key, b)
  {
    var once := ApplyUpdate(table, key, a);
    forall i | 0 <= i < |table| ensures ApplyUpdate(once, key, b)[i] == ApplyUpdate(table, key, b)[i] {
      assert SameKey(once[i], key) == SameKey(table[i], key);
    }
  }

  /** Updates of different keys touch different rows, so their order does not matter. */
  lemma ApplyUpdateCommutes(table: seq<SummaryRow>, k1: SummaryRow, a: int, k2: SummaryRow, b: int)
    requires !SameKey(k1, k2)
    ensures ApplyUpdate(ApplyUpdate(table, k1, a), k2, b) == ApplyUpdate(ApplyUpdate(table, k2, b), k1, a)
  {
    var x := ApplyUpdate(ApplyUpdate(table, k1, a), k2, b);
    var y := ApplyUpdate(ApplyUpdate(table, k2, b), k1, a);
    forall i | 0 <= i < |table| ensures x[i] == y[i] {
      assert SameKey(ApplyUpdate(table, k1, a)[i], k2) == SameKey(table[i], k2);
      assert SameKey(ApplyUpdate(table, k2, b)[i], k1) == SameKey(table[i], k1);
    }
  }

  /**
   * The table after the first `k` iterations over the snapshot: iteration `i`
   * writes 0 when its transaction read failed (`|| 0`) and writes nothing when
   * its update failed.
   */
  function Replay(table: seq<SummaryRow>, snapshot: seq<SummaryRow>, txs: seq<TxRow>,
                  readFails: set<nat>, updateFails: set<nat>, k: nat): seq<SummaryRow>
    requires k <= |snapshot|
  {
    if k == 0 then table
    else
      var before := Replay(table, snapshot, txs, readFails, updateFails, k - 1);
      var row := snapshot[k - 1];
      if k - 1 in updateFails then before
      else ApplyUpdate(before, row, if k - 1 in readFails then 0 else RowActual(txs, row))
  }

  datatype RecalcResult = RecalcCount(count: nat) | RecalcError(message: string)

  /** The `budget_performance_summary` table. */
  class SummaryTable {
    var rows: seq<SummaryRow>

    constructor (initial: seq<SummaryRow>)
      ensures rows == initial
    {
      rows := initial;
    }

    /**
     * `recalculateAllSummaries`: for each row read, sum its period's actuals and
     * write them to every row with its key; `count` is the number of rows read.
     */
    method RecalculateAll(txs: seq<TxRow>, readError: Option<string>, txReadFails: set<nat>, updateFails: set<nat>)
        returns (r: RecalcResult)
      modifies this
      ensures readError.Some? ==> r == RecalcError(readError.value) && rows == old(rows)
      ensures readError.None? ==>
        r == RecalcCount(|old(rows)|) &&
        rows == Replay(old(rows), old(rows), txs, txReadFails, updateFails, |old(rows)|)
    {
      if readError.Some? {
        return RecalcError(readError.value);
      }
      var snapshot := rows;
      var count := 0;
      for k := 0 to |snapshot|
        invariant count == k
        invariant rows == Replay(snapshot, snapshot, txs, txReadFails, updateFails, k)
      {
        var row := snapshot[k];
        var totalActual := if k in txReadFails then 0 else RowActual(txs, row);
        if k !in updateFails {
          rows := ApplyUpdate(rows, row, totalActual);
        }
        count := count + 1;
      }
      r := RecalcCount(count);
    }
  }

  /** Updates change only `total_actual`: keys and budgets stay as they were. */
  lemma {:induction false} ReplayKeepsKeys(table: seq<SummaryRow>, snapshot: seq<SummaryRow>, txs: seq<TxRow>,
                                           readFails: set<nat>, updateFails: set<nat>, k: nat)
    requires k <= |snapshot|
    ensures var t := Replay(table, snapshot, txs, readFails, updateFails, k);
      |t| == |table| &&
      forall i :: 0 <= i < |table| ==> t[i] == table[i].(totalActual := t[i].totalActual)
  {
    if k > 0 {
      ReplayKeepsKeys(table, snapshot, txs, readFails, updateFails, k - 1);
    }
  }

  /**
   * Without faults, after `k` iterations every row whose key was among the
   * first `k` rows read carries its correct actual total, and every other row
   * is untouched.
   */
  lemma {:induction false} ReplayCorrect(table: seq<SummaryRow>, snapshot: seq<SummaryRow>, txs: seq<TxRow>, k: nat)
    requires k <= |snapshot|
    ensures var t := Replay(table, snapshot, txs, {}, {}, k);
      |t| == |table| &&
      forall i :: 0 <= i < |table| ==>
        if exists j :: 0 <= j < k && SameKey(table[i], snapshot[j])
        then t[i] == table[i].(totalActual := RowActual(txs, table[i]))
        else t[i] == table[i]
  {
    ReplayKeepsKeys(table, snapshot, txs, {}, {}, k);
    if k > 0 {
      ReplayCorrect(table, snapshot, txs, k - 1);
      ReplayKeepsKeys(table, snapshot, txs, {}, {}, k - 1);
      var before := Replay(table, snapshot, txs, {}, {}, k - 1);
      var t := Replay(table, snapshot, txs, {}, {}, k);
      var row := snapshot[k - 1];
      forall i | 0 <= i < |table|
        ensures if exists j :: 0 <= j < k && SameKey(table[i], snapshot[j])
                then t[i] == table[i].(totalActual := RowActual(txs, table[i]))
                else t[i] == table[i]
      {
        assert before[i] == table[i].(totalActual := before[i].totalActual);
        if SameKey(table[i], row) {
          assert RowActual(txs, row) == RowActual(txs, table[i]);
        } else {
          assert (exists j :: 0 <= j < k && SameKey(table[i], snapshot[j])) <==>
                 (exists j :: 0 <= j < k - 1 && SameKey(table[i], snapshot[j]));
        }
      }
    }
  }

  /** A fault-free run over the table's own rows leaves every row with its correct actual total. */
  lemma RecalcAllCorrect(table: seq<SummaryRow>, txs: seq<TxRow>)
    ensures var t := Replay(table, table, txs, {}, {}, |table|);
      |t| == |table| &&
      forall i :: 0 <= i < |table| ==> t[i] == table[i].(totalActual := RowActual(txs, table[i]))
  {
    ReplayCorrect(table, table, txs, |table|);
    ReplayKeepsKeys(table, table, txs, {}, {}, |table|);
    forall i | 0 <= i < |table|
      ensures exists j :: 0 <= j < |table| && SameKey(table[i], table[j])
    {
      assert SameKey(table[i], table[i]);
    }
  }

  /** Recalculating twice without faults gives the same table as recalculating once. */
  lemma RecalcIdempotent(table: seq<SummaryRow>, txs: seq<TxRow>)
    ensures var once := Replay(table, table, txs, {}, {}, |table|);
      Replay(once, once, txs, {}, {}, |once|) == once
  {
    var once := Replay(table, table, txs, {}, {}, |table|);
    RecalcAllCorrect(table, txs);
    RecalcAllCorrect(once, txs);
    var twice := Replay(once, once, txs, {}, {}, |once|);
    forall i | 0 <= i < |once| ensures twice[i] == once[i] {
      assert RowActual(txs, once[i]) == RowActual(txs, table[i]);
    }
  }

  /**
   * After a fault-free recalculation every expense row carries the
   * `totalExpense` that `GetPeriodStats` reports for its period (its ensures
   * give that total as `ActualFor(txs, "debit", ...)`), and every income row
   * the `totalIncome`.
   */
  lemma RecalcAgreesWithPeriodStats(table: seq<SummaryRow>, txs: seq<TxRow>)
    ensures var t := Replay(table, table, txs, {}, {}, |table|);
      |t| == |table| &&
      forall i :: 0 <= i < |table| ==>
        && (table[i].categoryType == "expense" ==>
              t[i].totalActual == ActualFor(txs, "debit", table[i].periodStart, table[i].periodEnd))
        && (table[i].categoryType == "income" ==>
              t[i].totalActual == ActualFor(txs, "credit", table[i].periodStart, table[i].periodEnd))
  {
    RecalcAllCorrect(table, txs);
  }
}
