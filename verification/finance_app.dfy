/**
 * The application state shell of src/hooks/useFinanceApp.ts: the signed-in
 * user, the transaction list, the current view, the plan-confirmation
 * dialog and the success banner, together with the trial entitlement
 * rules (a trial lasts 7 whole days or 4 transactions, whichever comes
 * first).
 *
 * `Date.now()` is the parameter `now` (milliseconds) and `generateId()` is
 * the parameter `freshId`. The trial start date is kept as the timestamp its
 * ISO string denotes; `None` stands for a missing date, which the source
 * turns into an invalid `Date` whose arithmetic yields `NaN`.
 */
module UseFinanceApp {
  import opened Wrappers
  import opened FinanceTypes
  import JsText
  import Aggregation

  const MS_PER_DAY: int := 86400000
  const TRIAL_DAYS: int := 7
  const TRIAL_TRANSACTION_LIMIT: int := 4
  const DEFAULT_MONTHLY_GOAL: real := 5000.0
  const DEFAULT_ALERT_LIMIT: real := 3000.0

  function Max(a: int, b: int): int {
    if a < b then b else a
  }

  function MinInt(a: int, b: int): int {
    if a < b then a else b
  }

  // ---------------------------------------------------------------------
  // Trial entitlement (pure queries over the state)

  /** `user.trialTransactionCount || 0` */
  function TrialCount(u: User): int {
    u.trialTransactionCount.GetOr(0)
  }

  /**
   * `Math.floor((now - start) / day)`; `None` is the `NaN` of a missing
   * start date. Dafny's `/` by a positive divisor rounds down, as
   * `Math.floor` does.
   */
  function DaysSinceStart(u: User, now: int): Option<int> {
    match u.trialStartDate
    case None => None
    case Some(start) => Some((now - start) / MS_PER_DAY)
  }

  predicate OnTrial(user: Option<User>) {
    user.Some? && user.value.plan == Some(Trial)
  }

  /** `isTrialExpired` (a `NaN` day count compares false). */
  predicate IsTrialExpired(user: Option<User>, now: int) {
    if !OnTrial(user) then false
    else
      var days := DaysSinceStart(user.value, now);
      (days.Some? && days.value >= TRIAL_DAYS) || TrialCount(user.value) >= TRIAL_TRANSACTION_LIMIT
  }

  /** `canAddTransaction` */
  predicate CanAddTransaction(user: Option<User>, now: int) {
    if user.None? then false
    else if user.value.plan != Some(Trial) then true
    else !IsTrialExpired(user, now)
  }

  /** What `getRemainingTrialInfo` returns; `remainingDays` is `None` for `NaN`. */
  datatype TrialInfo = TrialInfo(remainingDays: Option<int>, remainingTransactions: int, isExpired: bool)

  /** `getRemainingTrialInfo`: `null` unless the user is on the trial plan. */
  function GetRemainingTrialInfo(user: Option<User>, now: int): (info: Option<TrialInfo>)
    ensures info.Some? <==> OnTrial(user)
    ensures info.Some? ==>
      && info.value.remainingTransactions >= 0
      && (info.value.remainingDays.Some? ==> info.value.remainingDays.value >= 0)
      && info.value.isExpired == IsTrialExpired(user, now)
  {
    if !OnTrial(user) then None
    else
      var u := user.value;
      var days := DaysSinceStart(u, now);
      Some(TrialInfo(
        if days.Some? then Some(Max(0, TRIAL_DAYS - days.value)) else None,
        Max(0, TRIAL_TRANSACTION_LIMIT - TrialCount(u)),
        IsTrialExpired(user, now)))
  }

  /**
   * The summary a trial user sees agrees with the expiry rule: the trial is
   * over exactly when no days or no transactions remain, and a transaction
   * may be added exactly when it is not over.
   */
  lemma RemainingTrialInfoSpec(user: Option<User>, now: int)
    requires OnTrial(user)
    ensures var info := GetRemainingTrialInfo(user, now).value;
      && (info.isExpired <==> (info.remainingDays == Some(0) || info.remainingTransactions == 0))
      && (CanAddTransaction(user, now) <==> !info.isExpired)
  {
  }

  /** Without a user nobody may add; on any plan but the trial anybody may. */
  lemma CanAddTransactionOutsideTrial(user: Option<User>, now: int)
    requires !OnTrial(user)
    ensures CanAddTransaction(user, now) <==> user.Some?
    ensures !IsTrialExpired(user, now)
  {
  }

  lemma {:induction false} DaysMonotone(a: int, b: int)
    requires a <= b
    ensures a / MS_PER_DAY <= b / MS_PER_DAY
  {
  }

  /** Once expired, a trial stays expired as time passes. */
  lemma {:induction false} TrialExpiryMonotone(user: Option<User>, now: int, later: int)
    requires now <= later
    requires IsTrialExpired(user, now)
    ensures IsTrialExpired(user, later)
    ensures !CanAddTransaction(user, later)
  {
    var u := user.value;
    if u.trialStartDate.Some? {
      DaysMonotone(now - u.trialStartDate.value, later - u.trialStartDate.value);
    }
  }

  /** The remaining days shown to a trial user never grow as time passes. */
  lemma {:induction false} RemainingDaysNonIncreasing(user: Option<User>, now: int, later: int)
    requires OnTrial(user)
    requires now <= later
    requires user.value.trialStartDate.Some?
    ensures var before := GetRemainingTrialInfo(user, now).value.remainingDays;
      var after := GetRemainingTrialInfo(user, later).value.remainingDays;
      before.Some? && after.Some? && after.value <= before.value
  {
    var s := user.value.trialStartDate.value;
    DaysMonotone(now - s, later - s);
  }

  // ---------------------------------------------------------------------
  // User records built by the operations

  /** `email.split('@')[0]`, the display name `login` derives. */
  function NameFromEmail(email: string): (name: string)
    ensures JsText.StartsWith(email, name) && '@' !in name
    ensures |name| < |email| ==> email[|name|] == '@'
    ensures '@' !in email ==> name == email
  {
    JsText.SplitFirstPiece(email, '@');
    if '@' !in email then JsText.SplitFirstPieceWhole(email, '@'); JsText.Split(email, '@')[0]
    else JsText.Split(email, '@')[0]
  }

  /** The user `login` and `register` create: a fresh trial with the default goal and limit. */
  function NewTrialUser(id: string, name: string, email: string, now: int): User {
    User(id, name, email, Some(DEFAULT_MONTHLY_GOAL), Some(DEFAULT_ALERT_LIMIT),
         Some(Trial), Some(now), Some(0))
  }

  /** The user after a successful `addTransaction`: a trial user's count rises by one. */
  function AfterAddition(user: Option<User>): (r: Option<User>)
    ensures r.Some? <==> user.Some?
    ensures OnTrial(r) <==> OnTrial(user)
    ensures OnTrial(user) ==> TrialCount(r.value) == TrialCount(user.value) + 1
    ensures OnTrial(user) ==> r.value == user.value.(trialTransactionCount := r.value.trialTransactionCount)
    ensures !OnTrial(user) ==> r == user
  {
    if OnTrial(user) then
      Some(user.value.(trialTransactionCount := Some(TrialCount(user.value) + 1)))
    else user
  }

  /** The user `subscribeToPlan` leaves: the plan set, the trial fields cleared. */
  function Subscribed(u: User, planId: PaidPlan): User {
    u.(plan := Some(planId), trialStartDate := None, trialTransactionCount := None)
  }

  /** The user `startFreeTrial` leaves: back on the trial, counting from zero. */
  function WithFreshTrial(u: User, now: int): User {
    u.(plan := Some(Trial), trialStartDate := Some(now), trialTransactionCount := Some(0))
  }

  /** A subscriber is never held back by the trial rules. */
  lemma SubscriptionLiftsTrialLimits(u: User, planId: PaidPlan, now: int)
    ensures !IsTrialExpired(Some(Subscribed(u, planId)), now)
    ensures CanAddTransaction(Some(Subscribed(u, planId)), now)
    ensures GetRemainingTrialInfo(Some(Subscribed(u, planId)), now).None?
  {
  }

  /**
   * A trial that has just started (by `login`, `register` or
   * `startFreeTrial`) shows 7 days and 4 transactions left, admits an
   * addition, and is over 7 days later whatever the count.
   */
  lemma {:induction false} FreshTrialInfo(u: User, now: int, later: int)
    requires u.plan == Some(Trial) && u.trialStartDate == Some(now) && u.trialTransactionCount == Some(0)
    requires later >= now + TRIAL_DAYS * MS_PER_DAY
    ensures GetRemainingTrialInfo(Some(u), now) == Some(TrialInfo(Some(7), 4, false))
    ensures CanAddTransaction(Some(u), now)
    ensures IsTrialExpired(Some(u), later) && !CanAddTransaction(Some(u), later)
  {
    DaysMonotone(TRIAL_DAYS * MS_PER_DAY, later - now);
  }

  /** A `Partial<User>`: `None` leaves a field alone, `Some(v)` overwrites it. */
  datatype UserPatch = UserPatch(
    id: Option<string>,
    name: Option<string>,
    email: Option<string>,
    monthlyGoal: Option<Option<real>>,
    alertLimit: Option<Option<real>>,
    plan: Option<Option<Plan>>,
    trialStartDate: Option<Option<int>>,
    trialTransactionCount: Option<Option<int>>)

  const EMPTY_PATCH: UserPatch := UserPatch(None, None, None, None, None, None, None, None)

  /** `{ ...user, ...updates }` */
  function ApplyPatch(u: User, p: UserPatch): User {
    User(p.id.GetOr(u.id), p.name.GetOr(u.name), p.email.GetOr(u.email),
         p.monthlyGoal.GetOr(u.monthlyGoal), p.alertLimit.GetOr(u.alertLimit),
         p.plan.GetOr(u.plan), p.trialStartDate.GetOr(u.trialStartDate),
         p.trialTransactionCount.GetOr(u.trialTransactionCount))
  }

  /** Spreading an empty patch changes nothing; spreading a patch twice is spreading it once. */
  lemma ApplyPatchLaws(u: User, p: UserPatch)
    ensures ApplyPatch(u, EMPTY_PATCH) == u
    ensures ApplyPatch(ApplyPatch(u, p), p) == ApplyPatch(u, p)
    ensures p.monthlyGoal.Some? ==> ApplyPatch(u, p).monthlyGoal == p.monthlyGoal.value
    ensures p.monthlyGoal.None? ==> ApplyPatch(u, p).monthlyGoal == u.monthlyGoal
  {
  }

  /** `prev.filter(t => t.id !== id)` */
  function WithoutId(ts: seq<Transaction>, id: string): seq<Transaction> {
    if ts == [] then []
    else
      var n := |ts| - 1;
      WithoutId(ts[..n], id) + (if ts[n].id != id then [ts[n]] else [])
  }

  /**
   * Deleting keeps, in their order, exactly the transactions with a
   * different id.
   */
  lemma {:induction false} WithoutIdSpec(ts: seq<Transaction>, id: string)
    ensures Aggregation.IsSubsequence(WithoutId(ts, id), ts)
    ensures forall t :: t in WithoutId(ts, id) <==> t in ts && t.id != id
  {
    if ts != [] {
      var n := |ts| - 1;
      WithoutIdSpec(ts[..n], id);
      assert ts == ts[..n] + [ts[n]];
      var r := WithoutId(ts, id);
      if ts[n].id != id {
        assert r == WithoutId(ts[..n], id) + [ts[n]];
        assert r[..|r| - 1] == WithoutId(ts[..n], id);
      } else {
        assert r == WithoutId(ts[..n], id) + [];
        assert r == WithoutId(ts[..n], id);
      }
    }
  }

  // ---------------------------------------------------------------------
  // Replaying additions

  /**
   * How many of a run of `addTransaction` calls, made at the given times,
   * are admitted, each admitted call updating the user as the hook does.
   */
  function AdmittedAdditions(user: Option<User>, times: seq<int>): nat
    decreases |times|
  {
    if times == [] then 0
    else if CanAddTransaction(user, times[0]) then 1 + AdmittedAdditions(AfterAddition(user), times[1..])
    else AdmittedAdditions(user, times[1..])
  }

  /** A trial admits no more additions than it has transactions left, whenever they are made. */
  lemma {:induction false} TrialAdmitsAtMostRemaining(user: Option<User>, times: seq<int>)
    requires OnTrial(user)
    ensures AdmittedAdditions(user, times) <= Max(0, TRIAL_TRANSACTION_LIMIT - TrialCount(user.value))
    decreases |times|
  {
    if times != [] {
      if CanAddTransaction(user, times[0]) {
        TrialAdmitsAtMostRemaining(AfterAddition(user), times[1..]);
      } else {
        TrialAdmitsAtMostRemaining(user, times[1..]);
      }
    }
  }

  /** A freshly started trial admits at most four additions. */
  lemma FreshTrialAdmitsAtMostFour(u: User, times: seq<int>)
    requires u.plan == Some(Trial) && u.trialTransactionCount == Some(0)
    ensures AdmittedAdditions(Some(u), times) <= 4
  {
    TrialAdmitsAtMostRemaining(Some(u), times);
  }

  /**
   * Within its first seven days a trial admits exactly as many additions as
   * it has transactions left (or as are attempted, if fewer).
   */
  lemma {:induction false} TrialWithinWeekAdmitsExactly(user: Option<User>, times: seq<int>)
    requires OnTrial(user) && user.value.trialStartDate.Some?
    requires forall i :: 0 <= i < |times| ==>
      times[i] < user.value.trialStartDate.value + TRIAL_DAYS * MS_PER_DAY
    ensures AdmittedAdditions(user, times) ==
      MinInt(|times|, Max(0, TRIAL_TRANSACTION_LIMIT - TrialCount(user.value)))
    decreases |times|
  {
    if times != [] {
      var s := user.value.trialStartDate.value;
      DaysMonotone(times[0] - s, TRIAL_DAYS * MS_PER_DAY - 1);
      assert (TRIAL_DAYS * MS_PER_DAY - 1) / MS_PER_DAY == 6;
      var rest := times[1..];
      assert forall i :: 0 <= i < |rest| ==> rest[i] == times[i + 1];
      if CanAddTransaction(user, times[0]) {
        TrialWithinWeekAdmitsExactly(AfterAddition(user), rest);
      } else {
        TrialWithinWeekAdmitsExactly(user, rest);
      }
    }
  }

  // ---------------------------------------------------------------------
  // The state

  datatype View = DashboardView | ReportsView | SettingsView | PlansView | LoginView | RegisterView

  datatype PlanConfirmation = PlanConfirmation(show: bool, planId: Option<PaidPlan>, planName: string, planPrice: real)

  const HIDDEN_CONFIRMATION: PlanConfirmation := PlanConfirmation(false, None, "", 0.0)

  datatype SuccessMessage = SuccessMessage(show: bool, message: string)

  const NO_MESSAGE: SuccessMessage := SuccessMessage(false, "")

  const TRIAL_STARTED_MESSAGE: string := "Modo de teste ativado! Você tem 7 dias ou 4 lançamentos."

  function SubscribedMessage(planName: string): string {
    "Plano " + planName + " ativo com sucesso!"
  }

  /** `Omit<Transaction, 'id' | 'createdAt'>` */
  datatype TransactionInput = TransactionInput(
    kind: TransactionType, amount: real, category: string, description: string, date: int)

  function Stamped(input: TransactionInput, id: string, now: int): Transaction {
    Transaction(id, input.kind, input.amount, input.category, input.description, input.date, now)
  }

  class FinanceApp {
    var user: Option<User>
    var transactions: seq<Transaction>
    var currentPeriod: Period
    var isAuthenticated: bool
    var currentView: View
    var planConfirmation: PlanConfirmation
    var successMessage: SuccessMessage

    /** The signed-in flag is set exactly when there is a user. */
    predicate Valid()
      reads this
    {
      isAuthenticated <==> user.Some?
    }

    /** The initial state: nobody signed in, no transactions, the month view, the login page. */
    constructor ()
      ensures Valid()
      ensures user == None && transactions == [] && currentPeriod == Month
      ensures !isAuthenticated && currentView == LoginView
      ensures planConfirmation == HIDDEN_CONFIRMATION && successMessage == NO_MESSAGE
    {
      user := None;
      transactions := [];
      currentPeriod := Month;
      isAuthenticated := false;
      currentView := LoginView;
      planConfirmation := HIDDEN_CONFIRMATION;
      successMessage := NO_MESSAGE;
    }

    /** `login`: a simulated sign-in that always yields a fresh trial user named after the email. */
    method Login(email: string, password: string, freshId: string, now: int)
      modifies this`user, this`isAuthenticated, this`currentView
      ensures user == Some(NewTrialUser(freshId, NameFromEmail(email), email, now))
      ensures isAuthenticated && currentView == DashboardView
      ensures Valid()
      ensures CanAddTransaction(user, now)
    {
      user := Some(NewTrialUser(freshId, NameFromEmail(email), email, now));
      isAuthenticated := true;
      currentView := DashboardView;
    }

    /** `register`: like `login`, with the given name. */
    method Register(name: string, email: string, password: string, freshId: string, now: int)
      modifies this`user, this`isAuthenticated, this`currentView
      ensures user == Some(NewTrialUser(freshId, name, email, now))
      ensures isAuthenticated && currentView == DashboardView
      ensures Valid()
      ensures CanAddTransaction(user, now)
    {
      user := Some(NewTrialUser(freshId, name, email, now));
      isAuthenticated := true;
      currentView := DashboardView;
    }

    /** `logout`: the transactions stay. */
    method Logout()
      modifies this`user, this`isAuthenticated, this`currentView
      ensures user == None && !isAuthenticated && currentView == LoginView
      ensures Valid()
    {
      user := None;
      isAuthenticated := false;
      currentView := LoginView;
    }

    /**
     * `addTransaction`: refused (and nothing changes) unless the user may
     * add; otherwise the stamped transaction goes in front and a trial
     * user's count rises by one.
     */
    method AddTransaction(input: TransactionInput, freshId: string, now: int) returns (ok: bool)
      modifies this`transactions, this`user
      ensures ok == CanAddTransaction(old(user), now)
      ensures ok ==> transactions == [Stamped(input, freshId, now)] + old(transactions)
      ensures ok ==> user == AfterAddition(old(user))
      ensures !ok ==> transactions == old(transactions) && user == old(user)
      ensures old(Valid()) ==> Valid()
      ensures old(Valid()) && !old(isAuthenticated) ==> !ok
    {
      if !CanAddTransaction(user, now) {
        return false;
      }
      transactions := [Stamped(input, freshId, now)] + transactions;
      if OnTrial(user) {
        user := AfterAddition(user);
      }
      return true;
    }

    /** `updateUser`: spreads the patch over the user, if there is one. */
    method UpdateUser(patch: UserPatch)
      modifies this`user
      ensures user == (if old(user).Some? then Some(ApplyPatch(old(user).value, patch)) else None)
      ensures old(Valid()) ==> Valid()
    {
      if user.Some? {
        user := Some(ApplyPatch(user.value, patch));
      }
    }

    /** `deleteTransaction` */
    method DeleteTransaction(id: string)
      modifies this`transactions
      ensures transactions == WithoutId(old(transactions), id)
      ensures forall t :: t in transactions <==> t in old(transactions) && t.id != id
    {
      WithoutIdSpec(transactions, id);
      transactions := WithoutId(transactions, id);
    }

    /** `showPlanConfirmationModal` */
    method ShowPlanConfirmationModal(planId: PaidPlan, planName: string, planPrice: real)
      modifies this`planConfirmation
      ensures planConfirmation == PlanConfirmation(true, Some(planId), planName, planPrice)
    {
      planConfirmation := PlanConfirmation(true, Some(planId), planName, planPrice);
    }

    /** `hidePlanConfirmationModal` */
    method HidePlanConfirmationModal()
      modifies this`planConfirmation
      ensures planConfirmation == HIDDEN_CONFIRMATION
    {
      planConfirmation := HIDDEN_CONFIRMATION;
    }

    /** `subscribeToPlan`: a signed-in user moves to the plan and leaves the trial. */
    method SubscribeToPlan(planId: PaidPlan)
      modifies this`user
      ensures user == (if old(user).Some? then Some(Subscribed(old(user).value, planId)) else None)
      ensures old(Valid()) ==> Valid()
      ensures user.Some? ==> forall now :: CanAddTransaction(user, now) && GetRemainingTrialInfo(user, now).None?
    {
      if user.Some? {
        user := Some(Subscribed(user.value, planId));
      }
    }

    /**
     * `confirmSubscription`: with a plan chosen in the dialog, subscribes to
     * it, closes the dialog and announces the plan by the name the dialog
     * showed; with none, does nothing.
     */
    method ConfirmSubscription()
      modifies this`user, this`planConfirmation, this`successMessage
      ensures old(planConfirmation.planId).None? ==>
        user == old(user) && planConfirmation == old(planConfirmation) && successMessage == old(successMessage)
      ensures old(planConfirmation.planId).Some? ==>
        && user == (if old(user).Some? then Some(Subscribed(old(user).value, old(planConfirmation.planId).value)) else None)
        && planConfirmation == HIDDEN_CONFIRMATION
        && successMessage == SuccessMessage(true, SubscribedMessage(old(planConfirmation.planName)))
      ensures old(Valid()) ==> Valid()
    {
      if planConfirmation.planId.Some? {
        var chosen := planConfirmation;
        SubscribeToPlan(chosen.planId.value);
        HidePlanConfirmationModal();
        successMessage := SuccessMessage(true, SubscribedMessage(chosen.planName));
      }
    }

    /** `startFreeTrial`: only a signed-in user who is not already on the trial restarts it. */
    method StartFreeTrial(now: int)
      modifies this`user, this`successMessage
      ensures old(user).Some? && !OnTrial(old(user)) ==>
        && user == Some(WithFreshTrial(old(user).value, now))
        && successMessage == SuccessMessage(true, TRIAL_STARTED_MESSAGE)
      ensures !(old(user).Some? && !OnTrial(old(user))) ==>
        user == old(user) && successMessage == old(successMessage)
      ensures old(Valid()) ==> Valid()
    {
      if user.Some? && user.value.plan != Some(Trial) {
        user := Some(WithFreshTrial(user.value, now));
        successMessage := SuccessMessage(true, TRIAL_STARTED_MESSAGE);
      }
    }
  }
}
