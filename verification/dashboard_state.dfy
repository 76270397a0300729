/**
 * The Dashboard component's own state (src/components/Dashboard.tsx) and
 * the handlers that rewrite it: the add-transaction form and its dialog,
 * goals, recurring expenses, alerts and integrations, the goal being
 * edited with its form, the recurring-expense form and the feature
 * switches. Adding a transaction goes through the
 * application shell of `UseFinanceApp`.
 */
module DashboardState {
  import opened Wrappers
  import opened FinanceTypes
  import opened DashboardRules
  import CivilCalendar
  import UseFinanceApp

  /** The recurring-expense form; `amount` is the text typed in. */
  datatype RecurringForm = RecurringForm(
    description: string, amount: string, category: string, frequency: CivilCalendar.Frequency)

  const EMPTY_RECURRING_FORM: RecurringForm := RecurringForm("", "", "", CivilCalendar.Monthly)

  /** The add-transaction form: the type, and the amount, category, description and date as typed in. */
  datatype TransactionForm = TransactionForm(
    kind: TransactionType, amount: string, category: string, description: string, date: string)

  /** The add form as it opens: an expense, blank fields, and `today` as the date. */
  function BlankTransactionForm(kind: TransactionType, today: string): TransactionForm {
    TransactionForm(kind, "", "", "", today)
  }

  const SAVINGS_SHARE: real := 0.1

  class Dashboard {
    var goals: seq<Goal>
    var recurringExpenses: seq<RecurringExpense>
    var alerts: seq<Alert>
    var apiIntegrations: seq<APIIntegration>
    var addForm: TransactionForm
    var showAddTransaction: bool
    var editingGoal: Option<Goal>
    var goalForm: GoalForm
    var recurringForm: RecurringForm
    var autoCategorization: bool
    var smartAlerts: bool

    /**
     * The state before any effect runs: empty lists, blank forms (the add
     * form an expense dated `today`, its dialog closed), every feature on.
     */
    constructor (today: string)
      ensures addForm == BlankTransactionForm(Expense, today) && !showAddTransaction
      ensures goals == [] && recurringExpenses == [] && alerts == [] && apiIntegrations == []
      ensures editingGoal == None && goalForm == EMPTY_GOAL_FORM && recurringForm == EMPTY_RECURRING_FORM
      ensures autoCategorization && smartAlerts
    {
      addForm := BlankTransactionForm(Expense, today);
      showAddTransaction := false;
      goals := [];
      recurringExpenses := [];
      alerts := [];
      apiIntegrations := [];
      editingGoal := None;
      goalForm := EMPTY_GOAL_FORM;
      recurringForm := EMPTY_RECURRING_FORM;
      autoCategorization := true;
      smartAlerts := true;
    }

    /** Puts the alert, if there is one, in front of the others. */
    method PushAlert(a: Option<Alert>)
      modifies this`alerts
      ensures alerts == OptionToSeq(a) + old(alerts)
    {
      if a.Some? {
        alerts := [a.value] + alerts;
      }
    }

    /**
     * `processRecurringExpenses`: for each active expense due within three
     * days, in list order, a reminder is put in front of the alerts.
     */
    method ProcessRecurringExpenses(now: int)
      modifies this`alerts
      ensures alerts == RecurringAlerts(recurringExpenses, now) + old(alerts)
    {
      var es := recurringExpenses;
      var i := 0;
      while i < |es|
        invariant 0 <= i <= |es|
        invariant alerts == RecurringAlerts(es[..i], now) + old(alerts)
      {
        RecurringAlertsStep(es, i, now, old(alerts));
        if IsDue(es[i], now) {
          PushAlert(Some(RecurringAlert(es[i], now)));
        }
        i := i + 1;
      }
      assert es[..|es|] == es;
    }

    /**
     * `generateSmartAlerts` over the period's transactions: the spending
     * alert, if any, goes in front first, then each goal alert in goal
     * order.
     */
    method GenerateSmartAlerts(filtered: seq<Transaction>, monthlyGoal: Option<real>, now: int, pct: real -> string)
      modifies this`alerts
      ensures alerts == GoalAlerts(goals, now, pct) + (OptionToSeq(SpendingAlert(filtered, monthlyGoal, now, pct)) + old(alerts))
    {
      var spending := SpendingAlert(filtered, monthlyGoal, now, pct);
      PushAlert(spending);
      ghost var base := alerts;
      var gs := goals;
      var i := 0;
      while i < |gs|
        invariant 0 <= i <= |gs|
        invariant alerts == GoalAlerts(gs[..i], now, pct) + base
      {
        GoalAlertsStep(gs, i, now, pct, base);
        if InGoalBand(gs[i]) {
          PushAlert(Some(GoalAlert(gs[i], now, pct)));
        }
        i := i + 1;
      }
      assert gs[..|gs|] == gs;
      assert base == OptionToSeq(spending) + old(alerts);
    }

    /**
     * `handleAddTransaction`: refused when the user may not add; otherwise
     * the transaction is added with its category auto-filled if asked for.
     * After a successful add the form clears (the type is kept, the date
     * becomes `today`) and its dialog closes, a large expense raises an
     * alert (smart alerts on), and an income credits a tenth of its amount
     * to every savings goal. `amount` is `parseFloat` of the typed amount
     * and `date` the typed date as the transaction stores it.
     */
    method HandleAddTransaction(app: UseFinanceApp.FinanceApp, amount: real, date: int, today: string,
                                freshId: string, alertId: string, now: int, currency: real -> string)
      returns (added: bool)
      modifies app`transactions, app`user, this`alerts, this`goals, this`addForm, this`showAddTransaction
      ensures added == UseFinanceApp.CanAddTransaction(old(app.user), now)
      ensures var form := old(addForm);
        var category := FinalCategory(autoCategorization, form.category, form.description, form.kind);
        var input := UseFinanceApp.TransactionInput(form.kind, amount, category, form.description, date);
        && (added ==> app.transactions == [UseFinanceApp.Stamped(input, freshId, now)] + old(app.transactions))
        && (added ==> app.user == UseFinanceApp.AfterAddition(old(app.user)))
        && (alerts == if added && smartAlerts && IsUnusualExpense(amount, form.kind)
                      then [UnusualExpenseAlert(alertId, form.description, amount, category, now, currency)] + old(alerts)
                      else old(alerts))
        && (goals == if added && form.kind == Income then CreditSavings(old(goals), amount * SAVINGS_SHARE) else old(goals))
      ensures added ==> addForm == BlankTransactionForm(old(addForm).kind, today) && !showAddTransaction
      ensures !added ==> app.transactions == old(app.transactions) && app.user == old(app.user)
      ensures !added ==> addForm == old(addForm) && showAddTransaction == old(showAddTransaction)
      ensures old(app.Valid()) ==> app.Valid()
    {
      if !UseFinanceApp.CanAddTransaction(app.user, now) {
        return false;
      }
      var form := addForm;
      var category := FinalCategory(autoCategorization, form.category, form.description, form.kind);
      var input := UseFinanceApp.TransactionInput(form.kind, amount, category, form.description, date);
      added := app.AddTransaction(input, freshId, now);
      if added {
        addForm := BlankTransactionForm(form.kind, today);
        showAddTransaction := false;
        if smartAlerts && IsUnusualExpense(amount, form.kind) {
          alerts := [UnusualExpenseAlert(alertId, form.description, amount, category, now, currency)] + alerts;
        }
        if form.kind == Income {
          goals := CreditSavings(goals, amount * SAVINGS_SHARE);
        }
      }
    }

    /** `handleAPIIntegration` */
    method HandleAPIIntegration(id: string, now: int)
      modifies this`apiIntegrations
      ensures apiIntegrations == AfterIntegrationClick(old(apiIntegrations), id, now)
    {
      apiIntegrations := AfterIntegrationClick(apiIntegrations, id, now);
    }

    /**
     * `handleSaveEditGoal`: with a goal being edited and every form field
     * filled in, the goals with its id take the form's values (`target` is
     * the form's amount as `parseFloat` reads it), then the edit ends and
     * the form clears; otherwise nothing changes.
     */
    method HandleSaveEditGoal(target: real)
      modifies this`goals, this`editingGoal, this`goalForm
      ensures old(editingGoal).Some? && FormComplete(old(goalForm)) ==>
        && goals == EditGoal(old(goals), old(editingGoal).value.id, old(goalForm), target)
        && editingGoal == None && goalForm == EMPTY_GOAL_FORM
      ensures !(old(editingGoal).Some? && FormComplete(old(goalForm))) ==>
        goals == old(goals) && editingGoal == old(editingGoal) && goalForm == old(goalForm)
    {
      if editingGoal.Some? && FormComplete(goalForm) {
        goals := EditGoal(goals, editingGoal.value.id, goalForm, target);
        editingGoal := None;
        goalForm := EMPTY_GOAL_FORM;
      }
    }

    /**
     * `handleCreateRecurringExpense`: with description, amount and category
     * filled in, appends an active expense first due one period after
     * `today`, the local calendar date (`amount` is the form's amount as
     * `parseFloat` reads it), and clears the form. The first due date
     * always lies after today.
     */
    method HandleCreateRecurringExpense(today: CivilCalendar.Date, freshId: string, amount: real)
      requires CivilCalendar.ValidDate(today)
      modifies this`recurringExpenses, this`recurringForm
      ensures var f := old(recurringForm);
        f.description != "" && f.amount != "" && f.category != "" ==>
          && recurringExpenses == old(recurringExpenses) + [RecurringExpense(
               freshId, f.description, amount, f.category, f.frequency,
               CivilCalendar.DayNumber(CivilCalendar.NextOccurrence(today, f.frequency)), true)]
          && recurringExpenses[|recurringExpenses| - 1].nextDate > CivilCalendar.DayNumber(today)
          && recurringForm == EMPTY_RECURRING_FORM
      ensures var f := old(recurringForm);
        !(f.description != "" && f.amount != "" && f.category != "") ==>
          recurringExpenses == old(recurringExpenses) && recurringForm == old(recurringForm)
    {
      var f := recurringForm;
      if f.description != "" && f.amount != "" && f.category != "" {
        var next := CivilCalendar.NextOccurrence(today, f.frequency);
        CivilCalendar.NextOccurrenceIsLater(today, f.frequency);
        recurringExpenses := recurringExpenses + [RecurringExpense(
          freshId, f.description, amount, f.category, f.frequency, CivilCalendar.DayNumber(next), true)];
        recurringForm := EMPTY_RECURRING_FORM;
      }
    }
  }
}
