/**
 * The aggregation engine (src/lib/utils.ts): filtering by period, the
 * income/expense summary, the per-category expense breakdown and the
 * spending-limit banner.
 */
module Aggregation {
  import opened Wrappers
  import opened FinanceTypes

  const MS_PER_DAY: int := 86400000

  /**
   * The local wall clock when a view is computed: the timestamp `now`,
   * milliseconds since local midnight, and the day of the month, as
   * `Date`'s getters report them.
   */
  datatype Clock = Clock(now: int, msSinceMidnight: int, dayOfMonth: int)

  predicate ValidClock(c: Clock) {
    0 <= c.msSinceMidnight < MS_PER_DAY && 1 <= c.dayOfMonth <= 31
  }

  // ---------------------------------------------------------------------
  // Period filter

  /**
   * The lower bound of a period: local midnight today, the same time seven
   * days ago, or midnight on the first of the current month.
   */
  function PeriodStart(p: Period, c: Clock): (start: int)
    requires ValidClock(c)
    ensures start <= c.now
  {
    match p
    case Day => c.now - c.msSinceMidnight
    case Week => c.now - 7 * MS_PER_DAY
    case Month => c.now - c.msSinceMidnight - (c.dayOfMonth - 1) * MS_PER_DAY
  }

  /**
   * How the three bounds relate: today started less than a day ago, the
   * week bound lies before today's midnight, and the month bound is a
   * whole number of days (fewer than 31) before today's midnight.
   */
  lemma PeriodBoundsNest(c: Clock)
    requires ValidClock(c)
    ensures c.now - MS_PER_DAY < PeriodStart(Day, c) <= c.now
    ensures PeriodStart(Week, c) < PeriodStart(Day, c)
    ensures PeriodStart(Month, c) <= PeriodStart(Day, c)
    ensures (PeriodStart(Day, c) - PeriodStart(Month, c)) % MS_PER_DAY == 0
    ensures PeriodStart(Day, c) - PeriodStart(Month, c) < 31 * MS_PER_DAY
  {
    var k := c.dayOfMonth - 1;
    assert PeriodStart(Day, c) - PeriodStart(Month, c) == k * MS_PER_DAY;
  }

  /** `transactions.filter(t => new Date(t.date) >= start)`, one element at a time. */
  function DatedFrom(ts: seq<Transaction>, start: int): seq<Transaction> {
    if ts == [] then []
    else DatedFrom(ts[..|ts| - 1], start) + (if ts[|ts| - 1].date >= start then [ts[|ts| - 1]] else [])
  }

  /** `filterTransactionsByPeriod` */
  function FilterTransactionsByPeriod(ts: seq<Transaction>, p: Period, c: Clock): seq<Transaction>
    requires ValidClock(c)
  {
    DatedFrom(ts, PeriodStart(p, c))
  }

  /** `r` is `s` with some elements left out and the rest in their order. */
  ghost predicate IsSubsequence<T>(r: seq<T>, s: seq<T>)
    decreases |s|
  {
    || r == []
    || (&& s != []
        && (|| (r[|r| - 1] == s[|s| - 1] && IsSubsequence(r[..|r| - 1], s[..|s| - 1]))
            || IsSubsequence(r, s[..|s| - 1])))
  }

  lemma {:induction false} DatedFromSpec(ts: seq<Transaction>, start: int)
    ensures IsSubsequence(DatedFrom(ts, start), ts)
    ensures forall t :: t in DatedFrom(ts, start) <==> t in ts && t.date >= start
  {
    if ts != [] {
      var n := |ts| - 1;
      DatedFromSpec(ts[..n], start);
      assert ts == ts[..n] + [ts[n]];
      var r := DatedFrom(ts, start);
      if ts[n].date >= start {
        assert r == DatedFrom(ts[..n], start) + [ts[n]];
        assert r[..|r| - 1] == DatedFrom(ts[..n], start);
      } else {
        assert r == DatedFrom(ts[..n], start) + [];
        assert r == DatedFrom(ts[..n], start);
      }
    }
  }

  lemma {:induction false} DatedFromAppend(a: seq<Transaction>, b: seq<Transaction>, start: int)
    ensures DatedFrom(a + b, start) == DatedFrom(a, start) + DatedFrom(b, start)
    decreases |b|
  {
    if b == [] {
      assert a + b == a;
    } else {
      var n := |b| - 1;
      assert (a + b)[..|a + b| - 1] == a + b[..n];
      DatedFromAppend(a, b[..n], start);
    }
  }

  /**
   * The period filter keeps exactly the transactions dated at or after the
   * period's start, in their original order, and distributes over
   * concatenation.
   */
  lemma FilterByPeriodSpec(ts: seq<Transaction>, more: seq<Transaction>, p: Period, c: Clock)
    requires ValidClock(c)
    ensures IsSubsequence(FilterTransactionsByPeriod(ts, p, c), ts)
    ensures forall t :: t in FilterTransactionsByPeriod(ts, p, c) <==> t in ts && t.date >= PeriodStart(p, c)
    ensures FilterTransactionsByPeriod(ts + more, p, c)
         == FilterTransactionsByPeriod(ts, p, c) + FilterTransactionsByPeriod(more, p, c)
  {
    DatedFromSpec(ts, PeriodStart(p, c));
    DatedFromAppend(ts, more, PeriodStart(p, c));
  }

  /** Everything in today's view is in this month's view. */
  lemma DayViewWithinMonthView(ts: seq<Transaction>, c: Clock)
    requires ValidClock(c)
    ensures forall t :: t in FilterTransactionsByPeriod(ts, Day, c) ==> t in FilterTransactionsByPeriod(ts, Month, c)
    ensures forall t :: t in FilterTransactionsByPeriod(ts, Day, c) ==> t in FilterTransactionsByPeriod(ts, Week, c)
  {
    PeriodBoundsNest(c);
    DatedFromSpec(ts, PeriodStart(Day, c));
    DatedFromSpec(ts, PeriodStart(Week, c));
    DatedFromSpec(ts, PeriodStart(Month, c));
  }

  // ---------------------------------------------------------------------
  // Summary

  /** `reduce((sum, t) => sum + t.amount, 0)`, folding from the left. */
  function SumAmounts(ts: seq<Transaction>): real {
    if ts == [] then 0.0 else SumAmounts(ts[..|ts| - 1]) + ts[|ts| - 1].amount
  }

  lemma {:induction false} SumAmountsAppend(a: seq<Transaction>, b: seq<Transaction>)
    ensures SumAmounts(a + b) == SumAmounts(a) + SumAmounts(b)
    decreases |b|
  {
    if b == [] {
      assert a + b == a;
    } else {
      assert (a + b)[..|a + b| - 1] == a + b[..|b| - 1];
      SumAmountsAppend(a, b[..|b| - 1]);
    }
  }

  /** `transactions.filter(t => t.type === kind)`, one element at a time. */
  function OfKind(ts: seq<Transaction>, kind: TransactionType): seq<Transaction> {
    if ts == [] then []
    else OfKind(ts[..|ts| - 1], kind) + (if ts[|ts| - 1].kind == kind then [ts[|ts| - 1]] else [])
  }

  lemma {:induction false} OfKindAppend(a: seq<Transaction>, b: seq<Transaction>, kind: TransactionType)
    ensures OfKind(a + b, kind) == OfKind(a, kind) + OfKind(b, kind)
    decreases |b|
  {
    if b == [] {
      assert a + b == a;
    } else {
      var n := |b| - 1;
      assert (a + b)[..|a + b| - 1] == a + b[..n];
      OfKindAppend(a, b[..n], kind);
    }
  }

  lemma {:induction false} OfKindIdempotent(ts: seq<Transaction>, kind: TransactionType)
    ensures OfKind(OfKind(ts, kind), kind) == OfKind(ts, kind)
  {
    if ts != [] {
      var n := |ts| - 1;
      OfKindIdempotent(ts[..n], kind);
      var tail := if ts[n].kind == kind then [ts[n]] else [];
      OfKindAppend(OfKind(ts[..n], kind), tail, kind);
      if tail != [] {
        assert OfKind(tail, kind) == OfKind([], kind) + [ts[n]] by {
          assert tail[..0] == [];
        }
      }
    }
  }

  /** `SumAmounts` of a list with one more element at the end. */
  lemma SumAmountsSnoc(ts: seq<Transaction>, t: Transaction)
    ensures SumAmounts(ts + [t]) == SumAmounts(ts) + t.amount
  {
    assert (ts + [t])[..|ts|] == ts;
  }

  /** Income and expense sums split the sum of all amounts between them. */
  lemma {:induction false} IncomeAndExpensesPartition(ts: seq<Transaction>)
    ensures SumAmounts(OfKind(ts, Income)) + SumAmounts(OfKind(ts, Expense)) == SumAmounts(ts)
  {
    if ts != [] {
      var n := |ts| - 1;
      IncomeAndExpensesPartition(ts[..n]);
      if ts[n].kind == Income {
        assert OfKind(ts, Income) == OfKind(ts[..n], Income) + [ts[n]];
        assert OfKind(ts, Expense) == OfKind(ts[..n], Expense) + [];
        assert OfKind(ts[..n], Expense) + [] == OfKind(ts[..n], Expense);
        SumAmountsSnoc(OfKind(ts[..n], Income), ts[n]);
      } else {
        assert OfKind(ts, Expense) == OfKind(ts[..n], Expense) + [ts[n]];
        assert OfKind(ts, Income) == OfKind(ts[..n], Income) + [];
        assert OfKind(ts[..n], Income) + [] == OfKind(ts[..n], Income);
        SumAmountsSnoc(OfKind(ts[..n], Expense), ts[n]);
      }
    }
  }

  function Min(a: real, b: real): real {
    if a <= b then a else b
  }

  /** `calculateFinancialSummary` */
  function CalculateFinancialSummary(ts: seq<Transaction>, monthlyGoal: Option<real>): (s: FinancialSummary)
    ensures s.balance == s.totalIncome - s.totalExpenses
    ensures s.monthlyGoalProgress <= 100.0
    ensures !Truthy(monthlyGoal) ==> s.monthlyGoalProgress == 0.0
  {
    var income := SumAmounts(OfKind(ts, Income));
    var expenses := SumAmounts(OfKind(ts, Expense));
    var balance := income - expenses;
    var progress := if Truthy(monthlyGoal) then Min(balance / monthlyGoal.value * 100.0, 100.0) else 0.0;
    FinancialSummary(income, expenses, balance, progress)
  }

  /**
   * The totals are the income and expense sums, and together they account
   * for every amount in the list; summaries of two lists add up.
   */
  lemma SummaryTotals(ts: seq<Transaction>, more: seq<Transaction>, goal: Option<real>)
    ensures CalculateFinancialSummary(ts, goal).totalIncome + CalculateFinancialSummary(ts, goal).totalExpenses
         == SumAmounts(ts)
    ensures CalculateFinancialSummary(ts + more, goal).balance
         == CalculateFinancialSummary(ts, goal).balance + CalculateFinancialSummary(more, goal).balance
  {
    IncomeAndExpensesPartition(ts);
    OfKindAppend(ts, more, Income);
    OfKindAppend(ts, more, Expense);
    SumAmountsAppend(OfKind(ts, Income), OfKind(more, Income));
    SumAmountsAppend(OfKind(ts, Expense), OfKind(more, Expense));
  }

  /**
   * With a positive goal, progress is capped at exactly 100 once the
   * balance reaches the goal, is proportional below it, and has no lower
   * floor: a deficit gives a negative progress.
   */
  lemma GoalProgressBands(ts: seq<Transaction>, goal: real)
    requires goal > 0.0
    ensures var s := CalculateFinancialSummary(ts, Some(goal));
      && (s.monthlyGoalProgress == 100.0 <==> s.balance >= goal)
      && (s.balance < goal ==> s.monthlyGoalProgress == s.balance / goal * 100.0)
      && (s.monthlyGoalProgress < 0.0 <==> s.balance < 0.0)
  {
    var s := CalculateFinancialSummary(ts, Some(goal));
    var b := s.balance;
    if b >= goal {
      assert b / goal >= 1.0;
    } else {
      assert b / goal < 1.0;
      assert b / goal * 100.0 < 100.0;
    }
    assert b < 0.0 <==> b / goal < 0.0;
  }

  // ---------------------------------------------------------------------
  // Category breakdown

  /** One entry of the insertion-ordered `Map<string, number>`. */
  datatype CategoryTotal = CategoryTotal(name: string, amount: real)

  function Names(m: seq<CategoryTotal>): (r: seq<string>)
    ensures |r| == |m|
  {
    seq(|m|, i requires 0 <= i < |m| => m[i].name)
  }

  /** `categoryMap.set(name, (categoryMap.get(name) || 0) + amount)` */
  function Accumulate(m: seq<CategoryTotal>, name: string, amount: real): seq<CategoryTotal> {
    if m == [] then [CategoryTotal(name, amount)]
    else if m[0].name == name then [CategoryTotal(name, m[0].amount + amount)] + m[1..]
    else [m[0]] + Accumulate(m[1..], name, amount)
  }

  /** The map built by the `forEach` over the expenses, one element at a time. */
  function GroupByCategory(ts: seq<Transaction>): seq<CategoryTotal> {
    if ts == [] then []
    else Accumulate(GroupByCategory(ts[..|ts| - 1]), ts[|ts| - 1].category, ts[|ts| - 1].amount)
  }

  /** The value the map holds for `name`, 0 when absent. */
  function AmountOf(m: seq<CategoryTotal>, name: string): real {
    if m == [] then 0.0 else if m[0].name == name then m[0].amount else AmountOf(m[1..], name)
  }

  function TotalOf(m: seq<CategoryTotal>): real {
    if m == [] then 0.0 else m[0].amount + TotalOf(m[1..])
  }

  function Categories(ts: seq<Transaction>): (r: seq<string>)
    ensures |r| == |ts|
  {
    seq(|ts|, i requires 0 <= i < |ts| => ts[i].category)
  }

  /** The distinct elements of `s` in the order of their first occurrence. */
  function FirstSeen(s: seq<string>): seq<string> {
    if s == [] then []
    else
      var d := FirstSeen(s[..|s| - 1]);
      if s[|s| - 1] in d then d else d + [s[|s| - 1]]
  }

  /** The sum of the amounts of the transactions in category `name`. */
  function SumOfCategory(ts: seq<Transaction>, name: string): real {
    if ts == [] then 0.0
    else SumOfCategory(ts[..|ts| - 1], name) + (if ts[|ts| - 1].category == name then ts[|ts| - 1].amount else 0.0)
  }

  lemma {:induction false} FirstSeenSpec(s: seq<string>)
    ensures NoDuplicates(FirstSeen(s))
    ensures forall x :: x in FirstSeen(s) <==> x in s
  {
    if s != [] {
      FirstSeenSpec(s[..|s| - 1]);
      assert s == s[..|s| - 1] + [s[|s| - 1]];
    }
  }

  /** Adding to a name already present keeps the names; a new name goes at the end. */
  lemma {:induction false} AccumulateNames(m: seq<CategoryTotal>, name: string, amount: real)
    ensures Names(Accumulate(m, name, amount)) == if name in Names(m) then Names(m) else Names(m) + [name]
  {
    if m != [] {
      AccumulateNames(m[1..], name, amount);
      var r := Accumulate(m, name, amount);
      assert Names(m) == [m[0].name] + Names(m[1..]);
      if m[0].name == name {
        assert r[1..] == m[1..];
        assert Names(r) == [name] + Names(m[1..]);
      } else {
        assert r[1..] == Accumulate(m[1..], name, amount);
        assert Names(r) == [m[0].name] + Names(r[1..]);
      }
    }
  }

  /** Only the value of `name` changes, by `amount`. */
  lemma {:induction false} AccumulateAmounts(m: seq<CategoryTotal>, name: string, amount: real)
    ensures forall k :: AmountOf(Accumulate(m, name, amount), k) == AmountOf(m, k) + (if k == name then amount else 0.0)
  {
    if m != [] {
      AccumulateAmounts(m[1..], name, amount);
    }
  }

  /** The values grow by `amount` in total. */
  lemma {:induction false} AccumulateTotal(m: seq<CategoryTotal>, name: string, amount: real)
    ensures TotalOf(Accumulate(m, name, amount)) == TotalOf(m) + amount
  {
    if m != [] {
      AccumulateTotal(m[1..], name, amount);
    }
  }

  /** The grouped map has one entry per distinct category, in first-seen order. */
  lemma {:induction false} GroupByCategoryNames(ts: seq<Transaction>)
    ensures Names(GroupByCategory(ts)) == FirstSeen(Categories(ts))
  {
    if ts != [] {
      var n := |ts| - 1;
      var g := GroupByCategory(ts[..n]);
      var cs := Categories(ts);
      var c := ts[n].category;
      GroupByCategoryNames(ts[..n]);
      assert cs[..n] == Categories(ts[..n]);
      var d := FirstSeen(cs[..n]);
      assert Names(g) == d;
      AccumulateNames(g, c, ts[n].amount);
      assert GroupByCategory(ts) == Accumulate(g, c, ts[n].amount);
      assert cs[n] == c;
      assert FirstSeen(cs) == if c in d then d else d + [c];
    }
  }

  /** Each entry of the grouped map holds its category's sum. */
  lemma {:induction false} GroupByCategoryAmounts(ts: seq<Transaction>)
    ensures forall k :: AmountOf(GroupByCategory(ts), k) == SumOfCategory(ts, k)
  {
    if ts != [] {
      var n := |ts| - 1;
      GroupByCategoryAmounts(ts[..n]);
      AccumulateAmounts(GroupByCategory(ts[..n]), ts[n].category, ts[n].amount);
    }
  }

  /** The entries of the grouped map add up to the sum of all amounts. */
  lemma {:induction false} GroupByCategoryTotal(ts: seq<Transaction>)
    ensures TotalOf(GroupByCategory(ts)) == SumAmounts(ts)
  {
    if ts != [] {
      var n := |ts| - 1;
      GroupByCategoryTotal(ts[..n]);
      AccumulateTotal(GroupByCategory(ts[..n]), ts[n].category, ts[n].amount);
    }
  }

  /** Looking a name up in a map whose names are distinct finds its entry. */
  lemma {:induction false} AmountOfAt(m: seq<CategoryTotal>, i: nat)
    requires i < |m|
    requires NoDuplicates(Names(m))
    ensures AmountOf(m, m[i].name) == m[i].amount
  {
    if i > 0 {
      assert Names(m)[0] != Names(m)[i];
      assert NoDuplicates(Names(m[1..])) by {
        assert forall j :: 0 <= j < |m| - 1 ==> Names(m[1..])[j] == Names(m)[j + 1];
      }
      AmountOfAt(m[1..], i - 1);
    }
  }

  const COLORS: seq<string> := [
    "#D4AF37", "#B8860B", "#DAA520", "#FFD700", "#F4A460",
    "#CD853F", "#DEB887", "#F5DEB3", "#FFEBCD", "#FFF8DC"
  ]

  /** The `map` callback: name, amount, share of the expenses and colour by index. */
  function CategoryEntry(g: CategoryTotal, index: nat, totalExpenses: real): CategoryData {
    CategoryData(
      g.name,
      g.amount,
      if totalExpenses > 0.0 then g.amount / totalExpenses * 100.0 else 0.0,
      COLORS[index % |COLORS|])
  }

  function Entries(groups: seq<CategoryTotal>, totalExpenses: real): (r: seq<CategoryData>)
    ensures |r| == |groups|
  {
    seq(|groups|, i requires 0 <= i < |groups| => CategoryEntry(groups[i], i, totalExpenses))
  }

  /** `getCategoryData`, as a value. */
  function CategoryBreakdown(ts: seq<Transaction>): seq<CategoryData> {
    var expenses := OfKind(ts, Expense);
    Entries(GroupByCategory(expenses), SumAmounts(expenses))
  }

  /** `getCategoryData`: the `forEach` that fills the map, then the indexed `map`. */
  method GetCategoryData(ts: seq<Transaction>) returns (r: seq<CategoryData>)
    ensures r == CategoryBreakdown(ts)
  {
    var expenses := OfKind(ts, Expense);
    var totalExpenses := SumAmounts(expenses);
    var categoryMap: seq<CategoryTotal> := [];
    var i := 0;
    while i < |expenses|
      invariant 0 <= i <= |expenses|
      invariant categoryMap == GroupByCategory(expenses[..i])
    {
      assert expenses[..i + 1][..i] == expenses[..i];
      categoryMap := Accumulate(categoryMap, expenses[i].category, expenses[i].amount);
      i := i + 1;
    }
    assert expenses[..i] == expenses;
    r := Entries(categoryMap, totalExpenses);
  }

  /** The map entries a breakdown was built from: each entry's name and amount. */
  function Totals(r: seq<CategoryData>): (m: seq<CategoryTotal>)
    ensures |m| == |r|
  {
    seq(|r|, i requires 0 <= i < |r| => CategoryTotal(r[i].name, r[i].amount))
  }

  /** The names of the breakdown's entries, in order. */
  function EntryNames(r: seq<CategoryData>): (ns: seq<string>)
    ensures |ns| == |r|
  {
    Names(Totals(r))
  }

  function SumPercentages(r: seq<CategoryData>): real {
    if r == [] then 0.0 else r[0].percentage + SumPercentages(r[1..])
  }

  function SumEntryAmounts(r: seq<CategoryData>): real {
    if r == [] then 0.0 else r[0].amount + SumEntryAmounts(r[1..])
  }

  /**
   * The breakdown has one entry per distinct expense category in
   * first-seen order (income is ignored); each entry's amount is that
   * category's expense sum, its percentage the share of total expenses (0
   * when they are not positive), and its colour the palette entry at its
   * index modulo 10.
   */
  lemma CategoryBreakdownSpec(ts: seq<Transaction>)
    ensures var r := CategoryBreakdown(ts);
      var expenses := OfKind(ts, Expense);
      var total := SumAmounts(expenses);
      && EntryNames(r) == FirstSeen(Categories(expenses))
      && NoDuplicates(EntryNames(r))
      && (forall i :: 0 <= i < |r| ==> r[i].amount == SumOfCategory(expenses, r[i].name))
      && (forall i :: 0 <= i < |r| ==>
            r[i].percentage == (if total > 0.0 then r[i].amount / total * 100.0 else 0.0))
      && (forall i :: 0 <= i < |r| ==> r[i].color == COLORS[i % 10])
      && CategoryBreakdown(OfKind(ts, Expense)) == r
  {
    CategoryBreakdownNames(ts);
    CategoryBreakdownAmounts(ts);
    OfKindIdempotent(ts, Expense);
  }

  /** One entry per distinct expense category, in first-seen order. */
  lemma CategoryBreakdownNames(ts: seq<Transaction>)
    ensures var expenses := OfKind(ts, Expense);
      && EntryNames(CategoryBreakdown(ts)) == FirstSeen(Categories(expenses))
      && NoDuplicates(EntryNames(CategoryBreakdown(ts)))
  {
    var expenses := OfKind(ts, Expense);
    GroupByCategoryNames(expenses);
    FirstSeenSpec(Categories(expenses));
    assert Totals(CategoryBreakdown(ts)) == GroupByCategory(expenses);
  }

  /** Each entry's amount is its category's expense sum. */
  lemma CategoryBreakdownAmounts(ts: seq<Transaction>)
    ensures var r := CategoryBreakdown(ts);
      forall i :: 0 <= i < |r| ==> r[i].amount == SumOfCategory(OfKind(ts, Expense), r[i].name)
  {
    var expenses := OfKind(ts, Expense);
    var groups := GroupByCategory(expenses);
    var r := CategoryBreakdown(ts);
    GroupByCategoryNames(expenses);
    GroupByCategoryAmounts(expenses);
    FirstSeenSpec(Categories(expenses));
    forall i | 0 <= i < |r|
      ensures r[i].amount == SumOfCategory(expenses, r[i].name)
    {
      AmountOfAt(groups, i);
    }
  }

  lemma {:induction false} EntriesTotals(groups: seq<CategoryTotal>, total: real)
    requires total > 0.0
    ensures SumEntryAmounts(Entries(groups, total)) == TotalOf(groups)
    ensures SumPercentages(Entries(groups, total)) == TotalOf(groups) / total * 100.0
    decreases |groups|
  {
    if groups != [] {
      // Entries(groups[1..]) is Entries(groups)[1..] up to the colour index,
      // so the sums are taken over a shifted palette; colours do not enter them.
      var rest := Entries(groups[1..], total);
      var all := Entries(groups, total);
      EntriesTotals(groups[1..], total);
      assert SumPercentages(all[1..]) == SumPercentages(rest) by { ShiftedSums(all[1..], rest); }
      assert SumEntryAmounts(all[1..]) == SumEntryAmounts(rest) by { ShiftedSums(all[1..], rest); }
      assert groups[0].amount / total * 100.0 + TotalOf(groups[1..]) / total * 100.0
          == (groups[0].amount + TotalOf(groups[1..])) / total * 100.0;
    }
  }

  lemma {:induction false} ShiftedSums(a: seq<CategoryData>, b: seq<CategoryData>)
    requires |a| == |b|
    requires forall i :: 0 <= i < |a| ==> a[i].amount == b[i].amount && a[i].percentage == b[i].percentage
    ensures SumPercentages(a) == SumPercentages(b)
    ensures SumEntryAmounts(a) == SumEntryAmounts(b)
  {
    if a != [] {
      ShiftedSums(a[1..], b[1..]);
    }
  }

  /**
   * The entry amounts add up to the total expenses, and when those are
   * positive the percentages add up to exactly 100.
   */
  lemma CategoryBreakdownTotals(ts: seq<Transaction>)
    ensures SumEntryAmounts(CategoryBreakdown(ts)) == SumAmounts(OfKind(ts, Expense))
    ensures SumAmounts(OfKind(ts, Expense)) > 0.0 ==> SumPercentages(CategoryBreakdown(ts)) == 100.0
  {
    var expenses := OfKind(ts, Expense);
    var total := SumAmounts(expenses);
    GroupByCategoryTotal(expenses);
    if total > 0.0 {
      EntriesTotals(GroupByCategory(expenses), total);
      assert TotalOf(GroupByCategory(expenses)) / total == 1.0;
    } else {
      EntryAmountsAnyTotal(GroupByCategory(expenses), total);
    }
  }

  lemma {:induction false} EntryAmountsAnyTotal(groups: seq<CategoryTotal>, total: real)
    ensures SumEntryAmounts(Entries(groups, total)) == TotalOf(groups)
    decreases |groups|
  {
    if groups != [] {
      var rest := Entries(groups[1..], total);
      var all := Entries(groups, total);
      EntryAmountsAnyTotal(groups[1..], total);
      ShiftedAmounts(all[1..], rest);
    }
  }

  lemma {:induction false} ShiftedAmounts(a: seq<CategoryData>, b: seq<CategoryData>)
    requires |a| == |b|
    requires forall i :: 0 <= i < |a| ==> a[i].amount == b[i].amount
    ensures SumEntryAmounts(a) == SumEntryAmounts(b)
  {
    if a != [] {
      ShiftedAmounts(a[1..], b[1..]);
    }
  }

  // ---------------------------------------------------------------------
  // Spending-limit banner

  /** `shouldShowAlert` */
  function ShouldShowAlert(ts: seq<Transaction>, alertLimit: Option<real>, c: Clock): bool
    requires ValidClock(c)
  {
    if !Truthy(alertLimit) then false
    else SumAmounts(OfKind(FilterTransactionsByPeriod(ts, Month, c), Expense)) > alertLimit.value
  }

  /**
   * The banner shows iff a non-zero limit is set and this month's expenses,
   * as the month summary reports them, exceed it strictly.
   */
  lemma ShouldShowAlertSpec(ts: seq<Transaction>, alertLimit: Option<real>, goal: Option<real>, c: Clock)
    requires ValidClock(c)
    ensures ShouldShowAlert(ts, alertLimit, c) <==>
      alertLimit.Some? && alertLimit.value != 0.0 &&
      CalculateFinancialSummary(FilterTransactionsByPeriod(ts, Month, c), goal).totalExpenses > alertLimit.value
  {
  }

  /** Recording a further non-negative expense never hides the banner. */
  lemma {:induction false} ShouldShowAlertMonotone(ts: seq<Transaction>, t: Transaction, alertLimit: Option<real>, c: Clock)
    requires ValidClock(c)
    requires t.amount >= 0.0
    requires ShouldShowAlert(ts, alertLimit, c)
    ensures ShouldShowAlert([t] + ts, alertLimit, c)
  {
    var start := PeriodStart(Month, c);
    DatedFromAppend([t], ts, start);
    OfKindAppend(DatedFrom([t], start), DatedFrom(ts, start), Expense);
    SumAmountsAppend(OfKind(DatedFrom([t], start), Expense), OfKind(DatedFrom(ts, start), Expense));
    var head := OfKind(DatedFrom([t], start), Expense);
    assert head == [] || head == [t];
    if head == [t] {
      assert [t][..0] == [];
    }
  }
}
