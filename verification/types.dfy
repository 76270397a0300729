/**
 * The data model shared by every other module (src/lib/types.ts):
 * transactions, users, plans, periods and the fixed category lists.
 * Amounts are exact reals; dates and timestamps are milliseconds.
 */
module FinanceTypes {
  import opened Wrappers

  /** A transaction's `type` is exactly `income` or `expense`. */
  datatype TransactionType = Income | Expense

  datatype Transaction = Transaction(
    id: string,
    kind: TransactionType,
    amount: real,
    category: string,
    description: string,
    date: int,        // the transaction's day, as a timestamp
    createdAt: int)

  /** A user's plan, when present, is one of these four. */
  datatype Plan = Trial | Essencial | Pro | Premium

  /** The plans that can be bought (`Plan.id`). */
  type PaidPlan = p: Plan | p != Trial witness Essencial

  datatype User = User(
    id: string,
    name: string,
    email: string,
    monthlyGoal: Option<real>,
    alertLimit: Option<real>,
    plan: Option<Plan>,
    trialStartDate: Option<int>,        // None also stands for a date that does not parse
    trialTransactionCount: Option<int>)

  datatype CategoryData = CategoryData(name: string, amount: real, percentage: real, color: string)

  datatype FinancialSummary = FinancialSummary(
    totalIncome: real,
    totalExpenses: real,
    balance: real,
    monthlyGoalProgress: real)

  datatype SubscriptionPlan = SubscriptionPlan(
    id: PaidPlan,
    name: string,
    price: real,
    icon: string,
    highlight: bool,
    features: seq<string>)

  /** The period a dashboard view covers. */
  datatype Period = Day | Week | Month

  const EXPENSE_CATEGORIES: seq<string> := [
    "Alimentação", "Transporte", "Moradia", "Saúde", "Educação",
    "Entretenimento", "Compras", "Investimentos", "Outros"
  ]

  const INCOME_CATEGORIES: seq<string> := [
    "Salário", "Freelance", "Investimentos", "Vendas", "Outros"
  ]

  const SUBSCRIPTION_PLANS: seq<SubscriptionPlan> := [
    SubscriptionPlan(Essencial, "Plano Essencial", 9.90, "🪙", false, [
      "Até 50 lançamentos mensais",
      "Dashboard básico com saldo e despesas",
      "Relatórios simples e alertas de gastos",
      "Ideal para quem está começando"
    ]),
    SubscriptionPlan(Pro, "Plano Pro", 19.90, "💼", true, [
      "Lançamentos ilimitados",
      "Dashboard completo com gráficos",
      "Relatórios mensais detalhados",
      "Metas de economia e comparativos",
      "Suporte via chat dentro do app",
      "Melhor custo-benefício"
    ]),
    SubscriptionPlan(Premium, "Plano Premium", 39.90, "👑", false, [
      "Tudo do Pro + exportação de dados (CSV)",
      "Relatórios avançados e insights automáticos",
      "Personalização visual (tema dourado completo)",
      "Acesso antecipado a novas funções",
      "Experiência exclusiva e ilimitada"
    ])
  ]

  /** JavaScript truthiness of an optional number (`undefined` and `0` are falsy; NaN is not modelled). */
  predicate Truthy(x: Option<real>) {
    x.Some? && x.value != 0.0
  }

  predicate NoDuplicates<T(==)>(s: seq<T>) {
    forall i, j :: 0 <= i < j < |s| ==> s[i] != s[j]
  }

  /** Both category lists are duplicate-free and end with the catch-all `Outros`. */
  lemma CategoryListsWellFormed()
    ensures NoDuplicates(EXPENSE_CATEGORIES) && EXPENSE_CATEGORIES[|EXPENSE_CATEGORIES| - 1] == "Outros"
    ensures NoDuplicates(INCOME_CATEGORIES) && INCOME_CATEGORIES[|INCOME_CATEGORIES| - 1] == "Outros"
  {
  }

  /**
   * The plans on sale have distinct ids covering every paid plan, and the
   * price rises strictly from Essencial to Pro to Premium.
   */
  lemma SubscriptionPlansWellFormed()
    ensures |SUBSCRIPTION_PLANS| == 3
    ensures forall i, j :: 0 <= i < j < |SUBSCRIPTION_PLANS| ==>
      SUBSCRIPTION_PLANS[i].id != SUBSCRIPTION_PLANS[j].id &&
      SUBSCRIPTION_PLANS[i].price < SUBSCRIPTION_PLANS[j].price
    ensures SUBSCRIPTION_PLANS[0].id == Essencial && SUBSCRIPTION_PLANS[1].id == Pro && SUBSCRIPTION_PLANS[2].id == Premium
  {
  }
}
