# MindCash core, modelled in Dafny

MindCash is a personal-finance web app written in TypeScript and React. This
project models the parts of it that decide something. Each part's
behaviour is written as Dafny functions, methods and classes, and the
properties the app relies on are proved about them:

- **Aggregation engine** (`Aggregation`, src/lib/utils.ts):
  - the period filter;
  - the income/expense summary with capped goal progress;
  - the per-category expense breakdown in first-seen order, with shares and colours that cycle every ten entries;
  - the spending-limit banner.
- **Application shell** (`UseFinanceApp`, src/hooks/useFinanceApp.ts):
  - the signed-in user, the transaction list, the view, the plan dialog and the success banner, as the class `FinanceApp`;
  - the trial rules: 7 whole days or 4 transactions, whichever comes first.
- **Dashboard rule engines** (src/components/Dashboard.tsx):
  - keyword auto-categorization (`AutoCategorize`);
  - recurring-due, spending, goal-band and large-expense alerts, each put in front of the alert list;
  - the 10% savings credit on income;
  - goal editing by id and integration status changes;
  - the month-on-month trend (`DashboardRules`);
  - the dashboard's own state and handlers as the class `DashboardState.Dashboard`;
  - next-occurrence dates of recurring expenses, on a proleptic Gregorian calendar (`CivilCalendar`);
  - the CSV export layout (`CsvExport`).
- **Local account store** (`LocalAuth`, src/lib/local-auth.ts):
  - `localStorage` is an abstract key-to-record map held in the class `LocalAuthService`;
  - sign-up with ordered validation and case-insensitive duplicate rejection;
  - sign-in by hash equality;
  - a seven-day session dropped lazily when found expired.
- **Utilities** (src/utils/index.ts):
  - `StringUtils`: capitalize, initials, truncate, slugify;
  - `NumberUtils.Clamp`;
  - `ValidationUtils`: the e-mail pattern and the ordered password-error list;
  - `DateUtils`: the `getTimeAgo` buckets.
- **Route gating** (`Middleware`, middleware.ts): the redirect decision.
- **Paginated read** (`ApiRead`, src/lib/api.ts): the query built by `ApiService.read` and its pagination block.
- **Data model** (`FinanceTypes`, src/lib/types.ts): transactions, users, periods, the category lists and the plans.

Two modules carry shared pieces:

- `Wrappers` holds `Option`.
- `JsText` holds the JavaScript string operations the code uses: `split`, `join`, `startsWith`, `includes`, case mapping and `String(n)`.

Conventions:

- Amounts are exact `real`s.
- Timestamps are integer milliseconds.
- `Date.now()`, fresh ids and tokens are parameters.
- Values the source renders with `toFixed`, `formatCurrency` or `formatDate` are rendered by formatter parameters.

The code keeps no per-email record of used trials: `login` and `register` always start a fresh trial, and e-mail uniqueness is enforced only by `LocalAuthService.signUp`.

The class methods state their whole new state. Each is tied to a specification function, and the listed lemmas prove what the source promises about that function. For example, `Dashboard.ProcessRecurringExpenses` leaves `RecurringAlerts(...) + old(alerts)`, and `RecurringAlertsSound` / `RecurringAlertsComplete` say which alerts that function holds.

## Model

| member | source | states |
|---|---|---|
| FinanceTypes.CategoryListsWellFormed | src/lib/types.ts:47-65 | both category lists are duplicate-free and end with `Outros` |
| FinanceTypes.SubscriptionPlansWellFormed | src/lib/types.ts:67-108 | three plans, Essencial, Pro and Premium in that order, with distinct ids and strictly rising prices |
| Aggregation.PeriodStart | src/lib/utils.ts:29-44 | the start bound of every period lies at or before now |
| Aggregation.PeriodBoundsNest | src/lib/utils.ts:32-44 | the day bound is today's midnight (less than a day ago); the week bound is before it; the month bound is a whole number of days, fewer than 31, before it |
| Aggregation.DatedFromSpec | src/lib/utils.ts:46-48 | the date filter keeps an order-preserving subsequence holding exactly the transactions dated at or after the bound |
| Aggregation.DatedFromAppend | src/lib/utils.ts:46-48 | the date filter distributes over concatenation |
| Aggregation.FilterByPeriodSpec | src/lib/utils.ts:28-49 | `filterTransactionsByPeriod` keeps, in order, exactly the transactions dated at or after the period's start, and distributes over concatenation |
| Aggregation.DayViewWithinMonthView | src/lib/utils.ts:32-48 | every transaction in today's view is also in this month's and this week's views |
| Aggregation.SumAmountsAppend | src/lib/utils.ts:52-58 | the amount sum of a concatenation is the sum of the sums |
| Aggregation.OfKindAppend | src/lib/utils.ts:52-57 | the type filter distributes over concatenation |
| Aggregation.OfKindIdempotent | src/lib/utils.ts:72 | filtering by type twice is filtering once |
| Aggregation.IncomeAndExpensesPartition | src/lib/utils.ts:52-58 | income and expense sums together add up to the sum of all amounts |
| Aggregation.CalculateFinancialSummary | src/lib/utils.ts:51-69 | balance is income minus expenses; goal progress never exceeds 100 and is 0 without a truthy goal |
| Aggregation.SummaryTotals | src/lib/utils.ts:52-60 | the totals account for every amount, and the balances of two lists add up |
| Aggregation.GoalProgressBands | src/lib/utils.ts:61 | with a positive goal, progress is exactly 100 iff the balance reaches the goal, proportional below it, and negative iff the balance is |
| Aggregation.FirstSeenSpec | src/lib/utils.ts:75-80 | first-seen order lists each category once and every category that occurs |
| Aggregation.AccumulateNames | src/lib/utils.ts:78-79 | `Map.set` on a present key keeps the key order; a new key goes at the end |
| Aggregation.AccumulateAmounts | src/lib/utils.ts:78-79 | `Map.set(k, get(k) + amount)` changes only `k`'s value, by `amount` |
| Aggregation.AccumulateTotal | src/lib/utils.ts:78-79 | the map's values grow by `amount` in total |
| Aggregation.GroupByCategoryNames | src/lib/utils.ts:75-80 | the grouped map has one key per distinct category, in first-seen order |
| Aggregation.GroupByCategoryAmounts | src/lib/utils.ts:75-80 | each key holds its category's amount sum |
| Aggregation.GroupByCategoryTotal | src/lib/utils.ts:75-80 | the map's values add up to the sum of all amounts |
| Aggregation.GetCategoryData | src/lib/utils.ts:71-93 | the `forEach` and indexed `map` compute `CategoryBreakdown` |
| Aggregation.CategoryBreakdownSpec | src/lib/utils.ts:71-92 | one entry per distinct expense category in first-seen order, income ignored; amount is the category sum; percentage is the share of total expenses (0 when not positive); colour is `COLORS[i % 10]` |
| Aggregation.CategoryBreakdownNames | src/lib/utils.ts:72-87 | entry names are the distinct expense categories in first-seen order |
| Aggregation.CategoryBreakdownAmounts | src/lib/utils.ts:75-89 | each entry's amount is its category's expense sum |
| Aggregation.CategoryBreakdownTotals | src/lib/utils.ts:73-90 | entry amounts add up to total expenses; with positive expenses the percentages add up to 100 |
| Aggregation.ShouldShowAlertSpec | src/lib/utils.ts:95-102 | the banner shows iff a non-zero limit is set and the month's expenses exceed it strictly |
| Aggregation.ShouldShowAlertMonotone | src/lib/utils.ts:98-102 | recording a further non-negative transaction never hides the banner |
| UseFinanceApp.GetRemainingTrialInfo | src/hooks/useFinanceApp.ts:81-94 | null exactly off the trial; remaining days and transactions are never negative; `isExpired` is `isTrialExpired` |
| UseFinanceApp.RemainingTrialInfoSpec | src/hooks/useFinanceApp.ts:65-94 | a trial is expired iff no days or no transactions remain, and a transaction may be added iff it is not expired |
| UseFinanceApp.CanAddTransactionOutsideTrial | src/hooks/useFinanceApp.ts:65-79 | off the trial, adding is allowed iff there is a user, and the trial is never expired |
| UseFinanceApp.TrialExpiryMonotone | src/hooks/useFinanceApp.ts:65-73 | an expired trial stays expired, and adding stays refused, as time passes |
| UseFinanceApp.RemainingDaysNonIncreasing | src/hooks/useFinanceApp.ts:84-86 | the remaining days never grow as time passes |
| UseFinanceApp.NameFromEmail | src/hooks/useFinanceApp.ts:100 | the name is the e-mail's prefix before its first `@` (all of it without one) |
| UseFinanceApp.AfterAddition | src/hooks/useFinanceApp.ts:154-159 | a trial user's count rises by one and nothing else changes; other users are untouched |
| UseFinanceApp.SubscriptionLiftsTrialLimits | src/hooks/useFinanceApp.ts:210-219 | after subscribing, the trial is never expired, adding is always allowed and no trial info is shown |
| UseFinanceApp.FreshTrialInfo | src/hooks/useFinanceApp.ts:81-94 | a trial just started shows 7 days and 4 transactions left, admits an addition, and is expired 7 days later |
| UseFinanceApp.ApplyPatchLaws | src/hooks/useFinanceApp.ts:164-168 | spreading an empty patch changes nothing, spreading twice equals spreading once, and a patched field takes the patch's value |
| UseFinanceApp.WithoutIdSpec | src/hooks/useFinanceApp.ts:170-172 | deleting keeps, in order, exactly the transactions with a different id |
| UseFinanceApp.TrialAdmitsAtMostRemaining | src/hooks/useFinanceApp.ts:140-161 | any run of additions admits at most the remaining transaction count |
| UseFinanceApp.FreshTrialAdmitsAtMostFour | src/hooks/useFinanceApp.ts:140-161 | a trial starting from count 0 admits at most four additions |
| UseFinanceApp.TrialWithinWeekAdmitsExactly | src/hooks/useFinanceApp.ts:140-161 | within the first seven days exactly min(attempts, remaining) additions are admitted |
| UseFinanceApp.FinanceApp.constructor | src/hooks/useFinanceApp.ts:8-30 | the initial state: no user, no transactions, the month period, the login view, dialog and banner hidden |
| UseFinanceApp.FinanceApp.Login | src/hooks/useFinanceApp.ts:96-112 | the user becomes a fresh trial user named after the e-mail, signed in, on the dashboard |
| UseFinanceApp.FinanceApp.Register | src/hooks/useFinanceApp.ts:114-130 | the user becomes a fresh trial user with the given name, signed in, on the dashboard |
| UseFinanceApp.FinanceApp.Logout | src/hooks/useFinanceApp.ts:132-138 | no user, signed out, login view; the transactions stay |
| UseFinanceApp.FinanceApp.AddTransaction | src/hooks/useFinanceApp.ts:140-162 | refused, changing nothing, iff adding is not allowed; otherwise exactly the stamped transaction is put in front, and a trial user's count rises by one; a consistent state that is signed out never adds |
| UseFinanceApp.FinanceApp.UpdateUser | src/hooks/useFinanceApp.ts:164-168 | a signed-in user gets the patch spread over it; without a user nothing changes |
| UseFinanceApp.FinanceApp.DeleteTransaction | src/hooks/useFinanceApp.ts:170-172 | exactly the transactions with another id remain, in order |
| UseFinanceApp.FinanceApp.ShowPlanConfirmationModal | src/hooks/useFinanceApp.ts:174-181 | the dialog is shown with the chosen plan |
| UseFinanceApp.FinanceApp.HidePlanConfirmationModal | src/hooks/useFinanceApp.ts:183-190 | the dialog is hidden and cleared |
| UseFinanceApp.FinanceApp.ConfirmSubscription | src/hooks/useFinanceApp.ts:192-208 | with a chosen plan: subscribe, hide the dialog, announce the plan by name; otherwise nothing changes |
| UseFinanceApp.FinanceApp.SubscribeToPlan | src/hooks/useFinanceApp.ts:210-219 | the plan is set and the trial fields cleared, after which adding is always allowed |
| UseFinanceApp.FinanceApp.StartFreeTrial | src/hooks/useFinanceApp.ts:221-241 | only a signed-in user not on the trial restarts it at count 0 and gets the announcement; otherwise nothing changes |
| AutoCategorize.AnyContainedSpec | src/components/Dashboard.tsx:476-478 | a keyword group matches iff one of its keywords occurs in the text |
| AutoCategorize.FirstMatchSpec | src/components/Dashboard.tsx:474-512 | the result is group i's category iff group i matches and no earlier group does; `Outros` when none matches |
| AutoCategorize.FirstMatchRange | src/components/Dashboard.tsx:474-512 | the result is always one of the groups' categories or `Outros` |
| AutoCategorize.AutoCategorizeRange | src/components/Dashboard.tsx:476-511 | expenses land in {Alimentação, Transporte, Moradia, Entretenimento, Saúde, Compras, Outros}, income in {Salário, Freelance, Investimentos, Vendas, Outros} |
| AutoCategorize.MercadoLivreIsFood | src/components/Dashboard.tsx:476 | any description mentioning "mercado livre" is filed under Alimentação, because "mercado" is checked first |
| AutoCategorize.ShoppingNeedsAnotherKeyword | src/components/Dashboard.tsx:501-502 | an expense filed under Compras always mentions one of the other five Compras keywords, so "mercado livre" never decides |
| CivilCalendar.AddMonth | src/components/Dashboard.tsx:844 | `setMonth(getMonth() + 1)` keeps the day and yields a month in 1..12 |
| CivilCalendar.NextOccurrenceOffset | src/components/Dashboard.tsx:843-846 | weekly schedules 7 days ahead, monthly the current month's length (28 to 31), yearly 365 or 366 |
| CivilCalendar.NextOccurrenceIsLater | src/components/Dashboard.tsx:860-869 | the next occurrence is never today, so the "first occurrence is today" branch cannot run |
| CsvExport.RowLines | src/components/Dashboard.tsx:635 | one line per transaction, in order, of its values joined by commas |
| CsvExport.EmptyExport | src/components/Dashboard.tsx:633-636 | nothing to export gives the empty text, since the header comes from the first row's keys |
| CsvExport.HeaderLine | src/components/Dashboard.tsx:610-616 | the header line has no line break and splits back into the five column names |
| CsvExport.CleanRowLines | src/components/Dashboard.tsx:635 | with clean fields, no transaction line has a line break, and each splits back into its row |
| CsvExport.CsvRoundTrip | src/components/Dashboard.tsx:633-636 | without commas or line breaks in the fields, the text splits into the header and one line per transaction, each splitting back into exactly that transaction's values |
| CsvExport.CommaInDescriptionAddsColumn | src/components/Dashboard.tsx:635 | without quoting, a description holding a comma makes its line split into six fields, not five |
| DashboardRules.DaysUntil | src/components/Dashboard.tsx:521-522 | the result is the whole days until the due date, rounded up (`Math.ceil`) |
| DashboardRules.DueWindow | src/components/Dashboard.tsx:518-525 | an expense is due iff it is active and its date is at most three days ahead and less than a day behind |
| DashboardRules.RecurringAlertsStep | src/components/Dashboard.tsx:520-537 | one more expense puts its reminder, if due, in front of the earlier expenses' reminders |
| DashboardRules.RecurringAlertsSound | src/components/Dashboard.tsx:525-536 | every reminder is the high-priority unread `recurring_due` alert of a due expense |
| DashboardRules.RecurringAlertsComplete | src/components/Dashboard.tsx:518-537 | every due expense gets its reminder; with none due there are none |
| DashboardRules.MonthlyLimit | src/components/Dashboard.tsx:547 | the limit is the truthy goal, else 3000, and never zero |
| DashboardRules.SpendingAlertSpec | src/components/Dashboard.tsx:543-562 | with a positive limit, the alert fires iff expenses exceed 80% of it, and it is high-priority iff they exceed the limit, medium otherwise |
| DashboardRules.GoalBandSpec | src/components/Dashboard.tsx:566-567 | a goal is in the alert band iff 25% ≤ saved/target < 30%; never with a zero target |
| DashboardRules.GoalAlertsStep | src/components/Dashboard.tsx:565-578 | one more goal puts its alert, if any, in front of the earlier goals' alerts |
| DashboardRules.GoalAlertsSpec | src/components/Dashboard.tsx:565-578 | exactly the goals in the band get an alert, each a medium-priority `goal_achieved` one |
| DashboardRules.CreditSavings | src/components/Dashboard.tsx:920-926 | exactly the `Poupança` goals gain the saving; all other goals are unchanged |
| DashboardRules.CreditSavingsTotal | src/components/Dashboard.tsx:920-926 | the total saved grows by the saving once per savings goal |
| DashboardRules.EditGoal | src/components/Dashboard.tsx:823-833 | goals with the id take the form's name, target, deadline and category and keep id, current amount and creation time; the others are unchanged |
| DashboardRules.EditGoalIdempotent | src/components/Dashboard.tsx:823-833 | saving the same edit twice equals saving it once |
| DashboardRules.FindIntegration | src/components/Dashboard.tsx:746 | `find` returns the first integration with the id, and none iff no integration has it |
| DashboardRules.Connect | src/components/Dashboard.tsx:751-755 | integrations with the id become connected and synced now; the others are unchanged |
| DashboardRules.Resync | src/components/Dashboard.tsx:759-763 | integrations with the id get the sync time now; the others are unchanged |
| DashboardRules.IntegrationClickSpec | src/components/Dashboard.tsx:745-766 | an unknown id or an integration in error changes nothing; an available one connects; a connected one stays connected with a fresh sync; others are untouched |
| DashboardRules.GenerateTrendAnalysis | src/components/Dashboard.tsx:582-599 | null exactly with fewer than two months of data |
| DashboardRules.TrendSpec | src/components/Dashboard.tsx:587-593 | with positive spending the month before, the trend is decreasing iff spending fell; from zero, only for a negative total |
| DashboardState.Dashboard.constructor | src/components/Dashboard.tsx:168-206 | empty lists, blank forms (the add form an expense dated today, its dialog closed), every feature switch on |
| DashboardState.Dashboard.PushAlert | src/components/Dashboard.tsx:536 | `setAlerts(prev => [a, ...prev])`: the alert goes in front |
| DashboardState.Dashboard.ProcessRecurringExpenses | src/components/Dashboard.tsx:516-539 | the alerts become the due reminders, newest first, in front of the old alerts |
| DashboardState.Dashboard.GenerateSmartAlerts | src/components/Dashboard.tsx:542-579 | the spending alert, if any, is put in front first, then each goal alert in goal order |
| DashboardState.Dashboard.HandleAddTransaction | src/components/Dashboard.tsx:873-929 | refused, with nothing changed, iff adding is not allowed. Otherwise: the category is auto-filled only when the switch is on and the field empty; exactly one `unusual_expense` alert is put in front iff smart alerts are on and an expense exceeds 500; income credits 10% to the savings goals; the add form clears (type kept, date reset to today) and its dialog closes |
| DashboardState.Dashboard.HandleAPIIntegration | src/components/Dashboard.tsx:745-766 | the integrations become `AfterIntegrationClick` of the old ones |
| DashboardState.Dashboard.HandleSaveEditGoal | src/components/Dashboard.tsx:820-837 | with a goal being edited and a complete form, the goal is edited, the edit ends and the form clears; otherwise nothing changes |
| DashboardState.Dashboard.HandleCreateRecurringExpense | src/components/Dashboard.tsx:840-871 | with a complete form, one active expense due one period later (always after today) is appended and the form clears; otherwise nothing changes |
| LocalAuth.HashPassword | src/lib/local-auth.ts:35-37 | a hash exists iff every character fits in one byte (where `btoa` does not throw) |
| LocalAuth.HashInjective | src/lib/local-auth.ts:35-37 | different passwords never share a hash |
| LocalAuth.VerifyOwnHash | src/lib/local-auth.ts:40-42 | a password verifies against its own hash and no other password does |
| LocalAuth.FindByEmail | src/lib/local-auth.ts:120 | returns the first user with the e-mail ignoring case, and none iff there is no such user |
| LocalAuth.FindByEmailUnique | src/lib/local-auth.ts:174 | when stored e-mails are distinct ignoring case, any account whose e-mail matches is the one `find` returns, so sign-in's first match is the only match |
| LocalAuth.FindByEmailAppend | src/lib/local-auth.ts:137 | appending a user leaves earlier lookups unchanged and makes a new e-mail findable |
| LocalAuth.LiveSession | src/lib/local-auth.ts:60-77 | a session returned is not past its expiry time |
| LocalAuth.SignUpCheck | src/lib/local-auth.ts:96-115 | the checks fail in order: missing e-mail or password, no `@`, fewer than 6 UTF-16 units; both directions for each message |
| LocalAuth.SignUpSpecProperties | src/lib/local-auth.ts:93-158 | a rejection changes nothing; sign-up succeeds iff the three checks pass, the e-mail is new (ignoring case) and every password character fits in one byte, and a wider character gets the unexpected-error message; a taken e-mail is rejected as duplicate; success appends exactly one user with the lower-cased e-mail and the password's hash, and opens a seven-day session |
| LocalAuth.SignUpKeepsEmailsDistinct | src/lib/local-auth.ts:117-138 | sign-up keeps the stored e-mails distinct ignoring case |
| LocalAuth.SignInSpecProperties | src/lib/local-auth.ts:161-208 | success iff the first account with the e-mail has the password's hash; an unknown e-mail and a wrong password get the same error; a failure changes nothing |
| LocalAuth.SignUpThenSignIn | src/lib/local-auth.ts:93-208 | an account just created can be signed into with the same credentials at any later time |
| LocalAuth.SessionLifetime | src/lib/local-auth.ts:68-85 | a session opened at t is live through t + 7 days inclusive and expired one millisecond later |
| LocalAuth.LocalAuthService.SaveSession | src/lib/local-auth.ts:80-90 | stores a session expiring seven days from now and leaves the users alone |
| LocalAuth.LocalAuthService.SignUp | src/lib/local-auth.ts:93-158 | answer and new storage are `SignUpSpec` of the old storage; keeps the store valid |
| LocalAuth.LocalAuthService.SignIn | src/lib/local-auth.ts:161-208 | answer and new storage are `SignInSpec` of the old storage; keeps the store valid |
| LocalAuth.LocalAuthService.SignOut | src/lib/local-auth.ts:211-224 | removes the session key, keeps the users, and no session is live afterwards |
| LocalAuth.LocalAuthService.GetCurrentSession | src/lib/local-auth.ts:60-77 | returns the live session and deletes an expired one |
| LocalAuth.LocalAuthService.GetCurrentUser | src/lib/local-auth.ts:227-236 | the public view of the live session's user, or none; an expired session is deleted and all else kept |
| LocalAuth.LocalAuthService.IsAuthenticated | src/lib/local-auth.ts:239-241 | true iff a live session exists; an expired session is deleted and all else kept |
| StringUtils.Capitalize | src/utils/index.ts:77-79 | first character upper-cased (a leading ß becomes "SS", one character longer), the rest lower-cased; the first character is never a lower-case letter |
| StringUtils.CapitalizeIdempotent | src/utils/index.ts:77-79 | capitalizing twice equals capitalizing once iff the string is empty or does not start with ß ("ß" gives "SS", which gives "Ss") |
| StringUtils.SliceEnd | src/utils/index.ts:107 | `slice(0, end)`'s end: `end` when in range, counted from the back when negative |
| StringUtils.Truncate | src/utils/index.ts:105-108 | a string that fits is unchanged; otherwise the first `length` characters plus `...`, of length `length + 3` |
| StringUtils.TruncateBounds | src/utils/index.ts:105-108 | for a non-negative length the result is at most three longer and is the input or a prefix of it plus `...` |
| StringUtils.FirstsOfSplit | src/utils/index.ts:94-97 | the first characters of the space-separated words are exactly the word-start characters |
| StringUtils.Initials | src/utils/index.ts:93-100 | at most two characters, none an ASCII or Latin-1 lower-case letter |
| StringUtils.InitialsSpec | src/utils/index.ts:93-100 | the initials are the first two characters of the upper-cased word starts, each from the upper-case mapping of a character at a word start |
| StringUtils.InitialsOfSharpS | src/utils/index.ts:93-100 | a leading ß fills both initials: `getInitials("ß x")` is "SS" |
| StringUtils.KeepSlugChars | src/utils/index.ts:129 | only word characters, white space and dashes stay |
| StringUtils.SlugifyIsSlug | src/utils/index.ts:125-132 | a slug has only lower-case letters, digits and dashes, no double dash and no dash at either end |
| StringUtils.SlugifyOfSlug | src/utils/index.ts:125-132 | slugifying a slug leaves it unchanged |
| StringUtils.SlugifyIdempotent | src/utils/index.ts:125-132 | slugifying twice equals slugifying once |
| NumberUtils.Clamp | src/utils/index.ts:176-178 | with min ≤ max the result lies in [min, max], is the input when it lies there and the nearer bound otherwise; with min > max it is max |
| NumberUtils.ClampIdempotent | src/utils/index.ts:176-178 | clamping twice equals clamping once |
| ValidationUtils.ValidEmailHasShape | src/utils/index.ts:185-188 | a string the one-pass test accepts splits as local `@` domain `.` suffix |
| ValidationUtils.IsValidEmailSpec | src/utils/index.ts:185-188 | accepted iff the string is three non-empty parts without white space or `@`, as local `@` domain `.` suffix |
| ValidationUtils.ErrorsUpToSpec | src/utils/index.ts:197-217 | among the first k rules, a rule's message is listed iff the rule is broken |
| ValidationUtils.ErrorsUpToEmpty | src/utils/index.ts:197-220 | the list for the first k rules is empty iff none of them is broken |
| ValidationUtils.PasswordErrorsSpec | src/utils/index.ts:197-220 | a rule's message is reported iff the password breaks it; no message iff it breaks none |
| ValidationUtils.ValidatePassword | src/utils/index.ts:193-223 | the errors are the messages of the broken rules in the order length, upper-case, lower-case, digit, special; valid iff there are none |
| DateUtils.GetTimeAgo | src/utils/index.ts:40-70 | `now` exactly under 60 s outside the oldest bucket; otherwise the bucket's count followed by `m`, `h`, `d` or `w`; the formatted date in the oldest bucket |
| DateUtils.TimeAgoBucketSpec | src/utils/index.ts:43-69 | fixed windows of elapsed whole seconds: minutes, hours, days and weeks by floor division, each count between 1 and one less than the next unit |
| DateUtils.TimeAgoMonotone | src/utils/index.ts:40-70 | a later clock never moves a moment into a more recent bucket |
| Middleware.SomePrefixSpec | middleware.ts:34-40 | `routes.some(startsWith)` holds iff some route is a prefix of the path |
| Middleware.Decide | middleware.ts:5-57 | a redirect goes only to `/auth/signin` or `/dashboard` |
| Middleware.RouteClasses | middleware.ts:31-40 | protected iff the path starts with `/dashboard`, `/profile` or `/settings`; auth route iff it starts with `/auth/signin` or `/auth/signup` |
| Middleware.RouteClassesDisjoint | middleware.ts:31-40 | no path is both protected and an auth route |
| Middleware.DecideSpec | middleware.ts:13-56 | without both variables, or when the lookup fails, the request passes. A protected path without a session goes to sign-in, an auth route with a session goes to the dashboard, and everything else passes |
| Middleware.RedirectsFollowSession | middleware.ts:42-50 | a visitor with a session is never sent to sign in; one without is never sent to the dashboard |
| ApiRead.FilterConstraints | src/lib/api.ts:133-137 | one equality per filter entry, in order |
| ApiRead.BuildQuery | src/lib/api.ts:130-156 | the query is the filters in order, then search, sort and range, each when asked for |
| ApiRead.RefinementsShape | src/lib/api.ts:140-156 | the later constraints hold no equality, and include a range iff page and limit are truthy, as the last one |
| ApiRead.QueryShape | src/lib/api.ts:133-156 | the query starts with one equality per filter entry and has a range iff page and limit are truthy, then as its last constraint |
| ApiRead.PageRangesTile | src/lib/api.ts:152-156 | a page range covers exactly `limit` rows, and consecutive pages meet without gap or overlap |
| ApiRead.CeilDiv | src/lib/api.ts:170 | `Math.ceil(a / b)` for integers: the least r with a ≤ r·b (for positive b) |
| ApiRead.PaginationSpec | src/lib/api.ts:167-182 | total is a truthy count, else 0; page is a truthy page, else 1; limit is a truthy limit, else 10; totalPages is the least page count holding all rows; hasNext iff rows run past this page; hasPrev iff page > 1 |
| ApiRead.EmptyTable | src/lib/api.ts:167-182 | no rows gives zero pages, and without parameters neither next nor previous |
| ApiRead.ReadErrors | src/lib/api.ts:158-191 | a backend error passes its message on, an exception gives the fixed message, and only a successful answer carries the rows |

## Left out

- Floating point: amounts and ratios are exact reals, so rounding, `NaN` from `parseFloat` of bad input and the infinities of a zero divisor are not modelled. The exceptions are the trend's percent change and a missing trial start date, whose `NaN` is modelled as `None`.
- Time zones and daylight saving time: the local wall clock of the period filter is an input (`Aggregation.Clock`), and `YYYY-MM-DD` dates parse as midnight UTC.
- DashboardState.Dashboard.HandleCreateRecurringExpense: stores the local calendar date of the next occurrence. The program steps the local date and time and stores the UTC date of the result (`toISOString`), which is one day later whenever the local time plus the UTC offset passes midnight.
- Unicode: case mapping covers ASCII and Latin-1 (ß upper-cases to "SS", ÿ to Ÿ and µ to Greek capital Mu, and those two capitals lower-case back to ÿ and μ); letters outside ASCII and Latin-1 are left unchanged, except Ÿ and Μ (so, for instance, Ł, Œ and Š are not lower-cased, and e-mails differing only in the case of such letters count as different); regular-expression classes are their ASCII meaning.
- StringUtils.Truncate: counts characters, not UTF-16 code units, so strings with characters outside the Basic Multilingual Plane are not modelled.
- StringUtils.Initials: counts characters, not UTF-16 code units, as `Truncate` does; the source's `charAt(0)` and `slice(0, 2)` split a character outside the Basic Multilingual Plane into surrogate halves, which the model does not.
- Randomness and the clock: `generateId`, `StringUtils.generateId`, the token generator and `Date.now()` become parameters.
- Formatting: `formatCurrency`, `formatDate`, `toFixed`, `format(date, 'MMM dd')`, `NumberUtils.formatNumber` and the other formatters become string-valued parameters or are left out.
- Side effects without state: `alert()` dialogs, `setTimeout` hiding of the success banner, `window.open` checkout, the CSV blob download.
- The excel/pdf branches of `handleExport`, automatic and manual backups, and the random insight generator.
- The trend prediction (`lastMonthData.expenses * (1 + change/100)`): only the null and sign-of-change logic is modelled.
- `LocalAuthService.onAuthStateChange`: a polling listener over `setInterval`.
- JSON shape errors beyond unparsable text: a stored value that parses but has the wrong shape is not modelled.
- The `catch` of `signOut`: `removeItem` on the modelled map cannot throw.
- The middleware's `config.matcher`: the framework applies it before the middleware runs.
- The other `ApiService` methods and the Supabase client, which is code outside this repository.
- `ApiService.read` with a page or limit that is not an integer: the model takes integers.
- Object key order of `filters`: the filter entries are a sequence in the order `Object.entries` yields them.
- `localStorage` persistence of the app shell and the dashboard (load/save effects): only the account store keeps its storage, as a map.
- `StringUtils.toTitleCase`, `ValidationUtils.isValidUrl`, `LocalStorageUtils` and `DateUtils.formatDate`/`formatRelativeTime`/`formatSmart` are outside the modelled core.
- Presentation: every React component's rendering.
- DashboardState.Dashboard.ProcessRecurringExpenses / GenerateSmartAlerts: the rules are modelled over the lists they read. The mount effect of Dashboard.tsx:218-468 is not modelled: its seeding of goals, recurring expenses, alerts, trend data and integrations, and the `expenseAutomation` and `smartAlerts` switches. That effect is the only caller of both operations, and because its dependency list is empty it passes them the first render's empty `recurringExpenses` and `goals`; in the program no recurring reminder or goal alert is ever raised, and only the spending alert can fire.
