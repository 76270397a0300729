/**
 * The rule engines inside the Dashboard component
 * (src/components/Dashboard.tsx), lifted out of their React closures with
 * explicit inputs: recurring-expense reminders, smart spending and goal
 * alerts, the large-expense alert, the savings credit on income, goal
 * editing, integration status changes and the month-on-month trend.
 *
 * `Date.now()` is the parameter `now` (milliseconds), also used as the
 * alert timestamp. Numbers the source renders with `toFixed(0)` or
 * `formatCurrency` are rendered by a caller-supplied formatter.
 */
module DashboardRules {
  import opened Wrappers
  import opened FinanceTypes
  import opened JsText
  import Aggregation
  import CivilCalendar
  import AutoCategorize

  const MS_PER_DAY: int := 86400000

  datatype AlertType = SpendingLimit | GoalAchieved | UnusualExpense | RecurringDue | BudgetWarning

  datatype Priority = Low | Medium | High

  datatype Alert = Alert(
    id: string,
    kind: AlertType,
    message: string,
    amount: Option<real>,
    category: Option<string>,
    timestamp: int,
    isRead: bool,
    priority: Priority)

  datatype Goal = Goal(
    id: string,
    name: string,
    targetAmount: real,
    currentAmount: real,
    deadline: string,
    category: string,
    createdAt: int)

  /** `nextDate` is the day number of its `YYYY-MM-DD` string (days since 1970-01-01). */
  datatype RecurringExpense = RecurringExpense(
    id: string,
    description: string,
    amount: real,
    category: string,
    frequency: CivilCalendar.Frequency,
    nextDate: int,
    isActive: bool)

  // ---------------------------------------------------------------------
  // Recurring-expense reminders (`processRecurringExpenses`)

  /**
   * `Math.ceil((nextDate - today) / day)` where the date string parses as
   * midnight UTC: the whole days, rounded up, until the expense is due.
   */
  function DaysUntil(nextDate: int, now: int): (days: int)
    ensures (days - 1) * MS_PER_DAY < nextDate * MS_PER_DAY - now <= days * MS_PER_DAY
  {
    -((now - nextDate * MS_PER_DAY) / MS_PER_DAY)
  }

  /** An active expense due within the next three days (today included) gets a reminder. */
  predicate IsDue(e: RecurringExpense, now: int) {
    var days := DaysUntil(e.nextDate, now);
    e.isActive && 0 <= days <= 3
  }

  /** Due means: falling at most three days ahead and less than a day behind. */
  lemma DueWindow(e: RecurringExpense, now: int)
    ensures IsDue(e, now) <==>
      e.isActive && -MS_PER_DAY < e.nextDate * MS_PER_DAY - now <= 3 * MS_PER_DAY
  {
    var days := DaysUntil(e.nextDate, now);
    var diff := e.nextDate * MS_PER_DAY - now;
    if -MS_PER_DAY < diff <= 3 * MS_PER_DAY {
      assert (days - 1) * MS_PER_DAY < 3 * MS_PER_DAY;
      assert -MS_PER_DAY < days * MS_PER_DAY;
    }
  }

  function DayWord(days: int): string {
    if days == 1 then "dia" else "dias"
  }

  function RecurringAlert(e: RecurringExpense, now: int): Alert
    requires IsDue(e, now)
  {
    var days := DaysUntil(e.nextDate, now);
    Alert("recurring_" + e.id + "_" + IntToString(now), RecurringDue,
          "Lembrete: " + e.description + " vence em " + NatToString(days) + " " + DayWord(days),
          Some(e.amount), Some(e.category), now, false, High)
  }

  /**
   * The reminders `processRecurringExpenses` prepends, newest first: the
   * reminder of a later expense in the list ends up in front.
   */
  function RecurringAlerts(es: seq<RecurringExpense>, now: int): seq<Alert> {
    if es == [] then []
    else
      var n := |es| - 1;
      (if IsDue(es[n], now) then [RecurringAlert(es[n], now)] else []) + RecurringAlerts(es[..n], now)
  }

  /** One more expense: its reminder, if due, goes in front of the earlier expenses' reminders. */
  lemma RecurringAlertsStep(es: seq<RecurringExpense>, i: int, now: int, rest: seq<Alert>)
    requires 0 <= i < |es|
    ensures IsDue(es[i], now) ==>
      RecurringAlerts(es[..i + 1], now) + rest == [RecurringAlert(es[i], now)] + (RecurringAlerts(es[..i], now) + rest)
    ensures !IsDue(es[i], now) ==> RecurringAlerts(es[..i + 1], now) + rest == RecurringAlerts(es[..i], now) + rest
  {
    assert es[..i + 1][..i] == es[..i];
  }

  /** Every reminder is a high-priority, unread `recurring_due` alert of a due expense. */
  lemma {:induction false} RecurringAlertsSound(es: seq<RecurringExpense>, now: int)
    ensures forall a :: a in RecurringAlerts(es, now) ==>
      exists i :: 0 <= i < |es| && IsDue(es[i], now) && a == RecurringAlert(es[i], now)
    ensures forall a :: a in RecurringAlerts(es, now) ==> a.kind == RecurringDue && a.priority == High && !a.isRead
  {
    if es != [] {
      var n := |es| - 1;
      var prefix := es[..n];
      RecurringAlertsSound(prefix, now);
      var head := if IsDue(es[n], now) then [RecurringAlert(es[n], now)] else [];
      assert RecurringAlerts(es, now) == head + RecurringAlerts(prefix, now);
      forall a | a in RecurringAlerts(es, now)
        ensures exists i :: 0 <= i < |es| && IsDue(es[i], now) && a == RecurringAlert(es[i], now)
      {
        if a !in head {
          var i :| 0 <= i < |prefix| && IsDue(prefix[i], now) && a == RecurringAlert(prefix[i], now);
          assert prefix[i] == es[i];
        }
      }
    }
  }

  /** Every due expense gets its reminder; with none due there are none. */
  lemma {:induction false} RecurringAlertsComplete(es: seq<RecurringExpense>, now: int)
    ensures forall i :: 0 <= i < |es| && IsDue(es[i], now) ==> RecurringAlert(es[i], now) in RecurringAlerts(es, now)
    ensures (forall i :: 0 <= i < |es| ==> !IsDue(es[i], now)) ==> RecurringAlerts(es, now) == []
  {
    if es != [] {
      var n := |es| - 1;
      var prefix := es[..n];
      RecurringAlertsComplete(prefix, now);
      var head := if IsDue(es[n], now) then [RecurringAlert(es[n], now)] else [];
      assert RecurringAlerts(es, now) == head + RecurringAlerts(prefix, now);
      forall i | 0 <= i < |es| && IsDue(es[i], now)
        ensures RecurringAlert(es[i], now) in RecurringAlerts(es, now)
      {
        if i < n {
          assert prefix[i] == es[i];
          assert RecurringAlert(es[i], now) in RecurringAlerts(prefix, now);
        } else {
          assert i == n && head == [RecurringAlert(es[n], now)];
        }
      }
      if forall i :: 0 <= i < |es| ==> !IsDue(es[i], now) {
        assert forall i :: 0 <= i < |prefix| ==> prefix[i] == es[i];
      }
    }
  }

  // ---------------------------------------------------------------------
  // Smart alerts (`generateSmartAlerts`)

  const DEFAULT_SPENDING_LIMIT: real := 3000.0

  /** `user.monthlyGoal || 3000`: never zero, so the percentage is always defined. */
  function MonthlyLimit(monthlyGoal: Option<real>): (limit: real)
    ensures limit != 0.0
    ensures !Truthy(monthlyGoal) ==> limit == DEFAULT_SPENDING_LIMIT
    ensures Truthy(monthlyGoal) ==> limit == monthlyGoal.value
  {
    if Truthy(monthlyGoal) then monthlyGoal.value else DEFAULT_SPENDING_LIMIT
  }

  function MonthlyExpenses(ts: seq<Transaction>): real {
    Aggregation.SumAmounts(Aggregation.OfKind(ts, Expense))
  }

  function SpendingPercentage(ts: seq<Transaction>, monthlyGoal: Option<real>): real {
    MonthlyExpenses(ts) / MonthlyLimit(monthlyGoal) * 100.0
  }

  /** The spending alert, when spending is past 80% of the limit; `pct` renders the percentage. */
  function SpendingAlert(ts: seq<Transaction>, monthlyGoal: Option<real>, now: int, pct: real -> string): Option<Alert> {
    var percentage := SpendingPercentage(ts, monthlyGoal);
    if percentage > 80.0 then
      Some(Alert("spending_" + IntToString(now), SpendingLimit,
                 "Atenção! Você já gastou " + pct(percentage) + "% do seu limite mensal",
                 Some(MonthlyExpenses(ts)), None, now, false,
                 if percentage > 100.0 then High else Medium))
    else None
  }

  /** Comparing a ratio with a positive denominator is comparing the numerator with the scaled bound. */
  lemma {:induction false} RatioCompare(x: real, d: real, c: real)
    requires d > 0.0
    ensures x / d > c <==> x > c * d
    ensures x / d >= c <==> x >= c * d
    ensures x / d < c <==> x < c * d
  {
    var q := x / d;
    assert x == q * d;
    assert q * d - c * d == (q - c) * d;
  }

  /**
   * With a positive limit (the goal, or 3000 without one) the alert fires
   * exactly when the period's expenses, as the summary totals them, pass
   * 80% of the limit, and it is high-priority exactly when they pass the
   * limit itself.
   */
  lemma SpendingAlertSpec(ts: seq<Transaction>, monthlyGoal: Option<real>, now: int, pct: real -> string)
    requires MonthlyLimit(monthlyGoal) > 0.0
    ensures var expenses := Aggregation.CalculateFinancialSummary(ts, monthlyGoal).totalExpenses;
      var limit := MonthlyLimit(monthlyGoal);
      var alert := SpendingAlert(ts, monthlyGoal, now, pct);
      && (alert.Some? <==> expenses > 0.8 * limit)
      && (alert.Some? ==> alert.value.kind == SpendingLimit && alert.value.amount == Some(expenses))
      && (alert.Some? ==> (alert.value.priority == High <==> expenses > limit))
      && (alert.Some? ==> (alert.value.priority == Medium <==> expenses <= limit))
  {
    var expenses := MonthlyExpenses(ts);
    var limit := MonthlyLimit(monthlyGoal);
    assert Aggregation.CalculateFinancialSummary(ts, monthlyGoal).totalExpenses == expenses;
    var q := expenses / limit;
    assert SpendingPercentage(ts, monthlyGoal) == q * 100.0;
    RatioCompare(expenses, limit, 0.8);
    RatioCompare(expenses, limit, 1.0);
    assert q * 100.0 > 80.0 <==> expenses > 0.8 * limit;
    assert q * 100.0 > 100.0 <==> expenses > limit;
  }

  /**
   * `currentAmount / targetAmount * 100`; `None` when the target is zero,
   * where JavaScript yields an infinity or `NaN` that fails the band test.
   */
  function GoalProgress(g: Goal): Option<real> {
    if g.targetAmount == 0.0 then None else Some(g.currentAmount / g.targetAmount * 100.0)
  }

  predicate InGoalBand(g: Goal) {
    var progress := GoalProgress(g);
    progress.Some? && 25.0 <= progress.value < 30.0
  }

  function GoalAlert(g: Goal, now: int, pct: real -> string): Alert
    requires InGoalBand(g)
  {
    Alert("goal_" + g.id + "_" + IntToString(now), GoalAchieved,
          "Parabéns! Você atingiu " + pct(GoalProgress(g).value) + "% da meta \"" + g.name + "\"",
          None, None, now, false, Medium)
  }

  /** A goal alert is raised exactly for goals with 25% to 30% (exclusive) of the target saved. */
  lemma GoalBandSpec(g: Goal)
    ensures g.targetAmount == 0.0 ==> !InGoalBand(g)
    ensures g.targetAmount > 0.0 ==>
      (InGoalBand(g) <==> 0.25 * g.targetAmount <= g.currentAmount < 0.3 * g.targetAmount)
  {
    if g.targetAmount > 0.0 {
      RatioCompare(g.currentAmount, g.targetAmount, 0.25);
      RatioCompare(g.currentAmount, g.targetAmount, 0.3);
    }
  }

  /** The goal alerts, newest first, as the `goals.forEach` prepends them. */
  function GoalAlerts(gs: seq<Goal>, now: int, pct: real -> string): seq<Alert> {
    if gs == [] then []
    else
      var n := |gs| - 1;
      (if InGoalBand(gs[n]) then [GoalAlert(gs[n], now, pct)] else []) + GoalAlerts(gs[..n], now, pct)
  }

  /** One more goal: its alert, if any, goes in front of the earlier goals' alerts. */
  lemma GoalAlertsStep(gs: seq<Goal>, i: int, now: int, pct: real -> string, rest: seq<Alert>)
    requires 0 <= i < |gs|
    ensures InGoalBand(gs[i]) ==>
      GoalAlerts(gs[..i + 1], now, pct) + rest == [GoalAlert(gs[i], now, pct)] + (GoalAlerts(gs[..i], now, pct) + rest)
    ensures !InGoalBand(gs[i]) ==> GoalAlerts(gs[..i + 1], now, pct) + rest == GoalAlerts(gs[..i], now, pct) + rest
  {
    assert gs[..i + 1][..i] == gs[..i];
  }

  /** One goal alert per goal in the band, each a medium-priority `goal_achieved` alert. */
  lemma {:induction false} GoalAlertsSpec(gs: seq<Goal>, now: int, pct: real -> string)
    ensures forall a :: a in GoalAlerts(gs, now, pct) ==> a.kind == GoalAchieved && a.priority == Medium
    ensures forall i :: 0 <= i < |gs| && InGoalBand(gs[i]) ==> GoalAlert(gs[i], now, pct) in GoalAlerts(gs, now, pct)
    ensures forall a :: a in GoalAlerts(gs, now, pct) ==>
      exists i :: 0 <= i < |gs| && InGoalBand(gs[i]) && a == GoalAlert(gs[i], now, pct)
  {
    if gs != [] {
      var n := |gs| - 1;
      var prefix := gs[..n];
      GoalAlertsSpec(prefix, now, pct);
      var head := if InGoalBand(gs[n]) then [GoalAlert(gs[n], now, pct)] else [];
      assert GoalAlerts(gs, now, pct) == head + GoalAlerts(prefix, now, pct);
      forall i | 0 <= i < |gs| && InGoalBand(gs[i])
        ensures GoalAlert(gs[i], now, pct) in GoalAlerts(gs, now, pct)
      {
        if i < n {
          assert prefix[i] == gs[i];
        }
      }
      forall a | a in GoalAlerts(gs, now, pct)
        ensures exists i :: 0 <= i < |gs| && InGoalBand(gs[i]) && a == GoalAlert(gs[i], now, pct)
      {
        if a !in head {
          var i :| 0 <= i < |prefix| && InGoalBand(prefix[i]) && a == GoalAlert(prefix[i], now, pct);
          assert prefix[i] == gs[i];
        }
      }
    }
  }

  function OptionToSeq<T>(x: Option<T>): seq<T> {
    if x.Some? then [x.value] else []
  }

  // ---------------------------------------------------------------------
  // Adding a transaction from the dashboard (`handleAddTransaction`)

  const UNUSUAL_EXPENSE_THRESHOLD: real := 500.0
  const SAVINGS_CATEGORY: string := "Poupança"

  /** The category sent: auto-filled only when auto-categorization is on and none was chosen. */
  function FinalCategory(autoCategorization: bool, category: string, description: string, kind: TransactionType): string {
    if autoCategorization && category == "" then
      AutoCategorize.AutoCategorizeTransaction(description, kind)
    else category
  }

  predicate IsUnusualExpense(amount: real, kind: TransactionType) {
    amount > UNUSUAL_EXPENSE_THRESHOLD && kind == Expense
  }

  function UnusualExpenseAlert(id: string, description: string, amount: real, category: string,
                               now: int, currency: real -> string): Alert {
    Alert(id, UnusualExpense, "Gasto alto detectado: " + description + " - " + currency(amount),
          Some(amount), Some(category), now, false, Medium)
  }

  /** Credits `saving` to every goal of the savings category; the rest are untouched. */
  function CreditSavings(gs: seq<Goal>, saving: real): (r: seq<Goal>)
    ensures |r| == |gs|
    ensures forall i :: 0 <= i < |gs| && gs[i].category != SAVINGS_CATEGORY ==> r[i] == gs[i]
    ensures forall i :: 0 <= i < |gs| && gs[i].category == SAVINGS_CATEGORY ==>
      r[i] == gs[i].(currentAmount := gs[i].currentAmount + saving)
  {
    if gs == [] then []
    else
      var g := gs[0];
      [if g.category == SAVINGS_CATEGORY then g.(currentAmount := g.currentAmount + saving) else g]
        + CreditSavings(gs[1..], saving)
  }

  function SavingsGoalCount(gs: seq<Goal>): nat {
    if gs == [] then 0 else (if gs[0].category == SAVINGS_CATEGORY then 1 else 0) + SavingsGoalCount(gs[1..])
  }

  function TotalSaved(gs: seq<Goal>): real {
    if gs == [] then 0.0 else gs[0].currentAmount + TotalSaved(gs[1..])
  }

  /** The total saved across goals grows by the saving once per savings goal. */
  lemma {:induction false} CreditSavingsTotal(gs: seq<Goal>, saving: real)
    ensures TotalSaved(CreditSavings(gs, saving)) == TotalSaved(gs) + saving * (SavingsGoalCount(gs) as real)
  {
    if gs != [] {
      CreditSavingsTotal(gs[1..], saving);
      var r := CreditSavings(gs, saving);
      assert r[1..] == CreditSavings(gs[1..], saving);
    }
  }

  // ---------------------------------------------------------------------
  // Goal editing (`handleSaveEditGoal`)

  /** The goal form; `targetAmount` is the text typed in. */
  datatype GoalForm = GoalForm(name: string, targetAmount: string, deadline: string, category: string)

  const EMPTY_GOAL_FORM: GoalForm := GoalForm("", "", "", "")

  /** Every field filled in (a non-empty string is truthy). */
  predicate FormComplete(f: GoalForm) {
    f.name != "" && f.targetAmount != "" && f.deadline != "" && f.category != ""
  }

  /**
   * Rewrites the goals with the given id from the form; `target` is the
   * form's amount as `parseFloat` reads it.
   */
  function EditGoal(gs: seq<Goal>, id: string, f: GoalForm, target: real): (r: seq<Goal>)
    ensures |r| == |gs|
    ensures forall i :: 0 <= i < |gs| && gs[i].id != id ==> r[i] == gs[i]
    ensures forall i :: 0 <= i < |gs| && gs[i].id == id ==>
      && r[i].name == f.name && r[i].targetAmount == target
      && r[i].deadline == f.deadline && r[i].category == f.category
      && r[i].id == id && r[i].currentAmount == gs[i].currentAmount && r[i].createdAt == gs[i].createdAt
  {
    if gs == [] then []
    else
      var g := gs[0];
      [if g.id == id then g.(name := f.name, targetAmount := target, deadline := f.deadline, category := f.category) else g]
        + EditGoal(gs[1..], id, f, target)
  }

  /** Saving the same edit twice is saving it once. */
  lemma EditGoalIdempotent(gs: seq<Goal>, id: string, f: GoalForm, target: real)
    ensures EditGoal(EditGoal(gs, id, f, target), id, f, target) == EditGoal(gs, id, f, target)
  {
    var once := EditGoal(gs, id, f, target);
    var twice := EditGoal(once, id, f, target);
    assert |twice| == |once|;
    forall i | 0 <= i < |once|
      ensures twice[i] == once[i]
    {
    }
  }

  // ---------------------------------------------------------------------
  // Integrations (`handleAPIIntegration`)

  /** `'connected' | 'available' | 'error'` */
  datatype IntegrationStatus = Connected | Available | Failed

  datatype APIIntegration = APIIntegration(
    id: string,
    name: string,
    description: string,
    status: IntegrationStatus,
    lastSync: Option<int>)

  /** `integrations.find(i => i.id === id)` */
  function FindIntegration(xs: seq<APIIntegration>, id: string): (r: Option<APIIntegration>)
    ensures r.None? <==> forall i :: 0 <= i < |xs| ==> xs[i].id != id
    ensures r.Some? ==> r.value.id == id
    ensures r.Some? ==> exists i :: 0 <= i < |xs| && xs[i] == r.value && (forall j :: 0 <= j < i ==> xs[j].id != id)
  {
    if xs == [] then None
    else if xs[0].id == id then Some(xs[0])
    else
      var r := FindIntegration(xs[1..], id);
      assert forall i :: 0 < i < |xs| ==> xs[i] == xs[1..][i - 1];
      r
  }

  /** Marks every integration with the id connected, synced at `now`. */
  function Connect(xs: seq<APIIntegration>, id: string, now: int): (r: seq<APIIntegration>)
    ensures |r| == |xs|
    ensures forall i :: 0 <= i < |xs| ==>
      r[i] == if xs[i].id == id then xs[i].(status := Connected, lastSync := Some(now)) else xs[i]
  {
    if xs == [] then []
    else
      [if xs[0].id == id then xs[0].(status := Connected, lastSync := Some(now)) else xs[0]]
        + Connect(xs[1..], id, now)
  }

  /** Refreshes the sync time of every integration with the id. */
  function Resync(xs: seq<APIIntegration>, id: string, now: int): (r: seq<APIIntegration>)
    ensures |r| == |xs|
    ensures forall i :: 0 <= i < |xs| ==>
      r[i] == if xs[i].id == id then xs[i].(lastSync := Some(now)) else xs[i]
  {
    if xs == [] then []
    else
      [if xs[0].id == id then xs[0].(lastSync := Some(now)) else xs[0]]
        + Resync(xs[1..], id, now)
  }

  /** The integrations after clicking the one with the id: the first such decides. */
  function AfterIntegrationClick(xs: seq<APIIntegration>, id: string, now: int): seq<APIIntegration> {
    match FindIntegration(xs, id)
    case None => xs
    case Some(found) =>
      if found.status == Available then Connect(xs, id, now)
      else if found.status == Connected then Resync(xs, id, now)
      else xs
  }

  /**
   * An unknown id or an integration in error changes nothing; otherwise
   * the integrations with the id end up connected and synced at `now`
   * (an available one connects, a connected one stays connected), and
   * the others are untouched.
   */
  lemma IntegrationClickSpec(xs: seq<APIIntegration>, id: string, now: int)
    ensures var r := AfterIntegrationClick(xs, id, now);
      && |r| == |xs|
      && (FindIntegration(xs, id).None? ==> r == xs)
      && (FindIntegration(xs, id).Some? && FindIntegration(xs, id).value.status == Failed ==> r == xs)
      && (forall i :: 0 <= i < |xs| && xs[i].id != id ==> r[i] == xs[i])
      && (FindIntegration(xs, id).Some? && FindIntegration(xs, id).value.status == Available ==>
            forall i :: 0 <= i < |xs| && xs[i].id == id ==>
              r[i] == xs[i].(status := Connected, lastSync := Some(now)))
      && (FindIntegration(xs, id).Some? && FindIntegration(xs, id).value.status == Connected ==>
            forall i :: 0 <= i < |xs| && xs[i].id == id ==>
              r[i] == xs[i].(lastSync := Some(now)))
  {
  }

  // ---------------------------------------------------------------------
  // Trend analysis (`generateTrendAnalysis`)

  datatype TrendPoint = TrendPoint(month: string, income: real, expenses: real, balance: real)

  /** A JavaScript number as far as the trend needs it. */
  datatype JsNumber = Finite(value: real) | PosInfinity | NegInfinity | NaN

  /** `(current - previous) / previous * 100` in IEEE arithmetic. */
  function PercentChange(current: real, previous: real): JsNumber {
    if previous != 0.0 then Finite((current - previous) / previous * 100.0)
    else if current > 0.0 then PosInfinity
    else if current < 0.0 then NegInfinity
    else NaN
  }

  predicate IsNegative(x: JsNumber) {
    x == NegInfinity || (x.Finite? && x.value < 0.0)
  }

  datatype Trend = Decreasing | Increasing

  datatype TrendAnalysis = TrendAnalysis(expenseChange: JsNumber, incomeChange: JsNumber, trend: Trend)

  /** `null` with fewer than two months of data; otherwise the last month against the one before. */
  function GenerateTrendAnalysis(data: seq<TrendPoint>): (r: Option<TrendAnalysis>)
    ensures r.None? <==> |data| < 2
  {
    if |data| < 2 then None
    else
      var last, previous := data[|data| - 1], data[|data| - 2];
      var expenseChange := PercentChange(last.expenses, previous.expenses);
      Some(TrendAnalysis(expenseChange, PercentChange(last.income, previous.income),
                         if IsNegative(expenseChange) then Decreasing else Increasing))
  }

  /**
   * With positive spending in the month before, the trend is "decreasing"
   * exactly when spending went down; from zero it is "decreasing" only for
   * a negative total, and an unchanged zero counts as "increasing".
   */
  lemma TrendSpec(data: seq<TrendPoint>)
    requires |data| >= 2
    ensures var last, previous := data[|data| - 1].expenses, data[|data| - 2].expenses;
      var t := GenerateTrendAnalysis(data).value.trend;
      && (previous > 0.0 ==> (t == Decreasing <==> last < previous))
      && (previous < 0.0 ==> (t == Decreasing <==> last > previous))
      && (previous == 0.0 ==> (t == Decreasing <==> last < 0.0))
  {
    var last, previous := data[|data| - 1].expenses, data[|data| - 2].expenses;
    if previous != 0.0 {
      var q := (last - previous) / previous;
      assert previous > 0.0 ==> (q < 0.0 <==> last - previous < 0.0);
      assert previous < 0.0 ==> (q < 0.0 <==> last - previous > 0.0);
    }
  }
}
