/**
 * Keyword auto-categorization of a transaction description
 * (`autoCategorizeTrasaction` in src/components/Dashboard.tsx): the
 * description is lower-cased, keyword groups are tried in a fixed order,
 * and the first group with a keyword occurring in the description names
 * the category; `Outros` when none does.
 */
module AutoCategorize {
  import opened FinanceTypes
  import opened JsText

  /** One keyword group: the category it yields and its keywords. */
  datatype Rule = Rule(category: string, keywords: seq<string>)

  const EXPENSE_RULES: seq<Rule> := [
    Rule("Alimentação", ["mercado", "supermercado", "comida", "restaurante", "lanche",
                         "padaria", "açougue", "feira", "delivery"]),
    Rule("Transporte", ["uber", "gasolina", "ônibus", "metro", "taxi", "combustível",
                        "estacionamento", "pedágio"]),
    Rule("Moradia", ["aluguel", "condomínio", "iptu", "água", "luz", "gás", "internet", "telefone"]),
    Rule("Entretenimento", ["netflix", "cinema", "jogo", "spotify", "show", "teatro", "bar", "festa"]),
    Rule("Saúde", ["farmácia", "médico", "hospital", "dentista", "exame", "remédio",
                   "academia", "plano de saúde"]),
    Rule("Compras", ["roupa", "sapato", "shopping", "loja", "amazon", "mercado livre"])
  ]

  const INCOME_RULES: seq<Rule> := [
    Rule("Salário", ["salário", "trabalho", "empresa"]),
    Rule("Freelance", ["freelance", "extra", "consultoria"]),
    Rule("Investimentos", ["investimento", "dividendo", "juros"]),
    Rule("Vendas", ["venda", "produto"])
  ]

  const FALLBACK: string := "Outros"

  /** Some keyword of the list occurs in the text. */
  predicate AnyContained(text: string, keywords: seq<string>) {
    |keywords| > 0 && (Contains(text, keywords[0]) || AnyContained(text, keywords[1..]))
  }

  /** The category of the first rule that matches, or `Outros`. */
  function FirstMatch(text: string, rules: seq<Rule>): string {
    if rules == [] then FALLBACK
    else if AnyContained(text, rules[0].keywords) then rules[0].category
    else FirstMatch(text, rules[1..])
  }

  /** `autoCategorizeTrasaction(description, type)` */
  function AutoCategorizeTransaction(description: string, kind: TransactionType): string {
    FirstMatch(Lower(description), if kind == Expense then EXPENSE_RULES else INCOME_RULES)
  }

  /** `AnyContained` holds exactly when some listed keyword occurs. */
  lemma {:induction false} AnyContainedSpec(text: string, keywords: seq<string>)
    ensures AnyContained(text, keywords) <==> exists k :: 0 <= k < |keywords| && Contains(text, keywords[k])
  {
    if |keywords| > 0 {
      AnyContainedSpec(text, keywords[1..]);
      if exists k :: 0 <= k < |keywords| && Contains(text, keywords[k]) {
        var k :| 0 <= k < |keywords| && Contains(text, keywords[k]);
        if k > 0 {
          assert keywords[1..][k - 1] == keywords[k];
        }
      }
      if AnyContained(text, keywords[1..]) {
        var k :| 0 <= k < |keywords[1..]| && Contains(text, keywords[1..][k]);
        assert keywords[k + 1] == keywords[1..][k];
      }
    }
  }

  /**
   * First-match semantics: the result is the category of rule `i` exactly
   * when rule `i` matches and no earlier rule does, and it is `Outros` when
   * no rule matches.
   */
  lemma {:induction false} FirstMatchSpec(text: string, rules: seq<Rule>)
    ensures (forall i :: 0 <= i < |rules| ==> !AnyContained(text, rules[i].keywords)) ==>
      FirstMatch(text, rules) == FALLBACK
    ensures forall i ::
      (0 <= i < |rules| && AnyContained(text, rules[i].keywords) &&
       (forall j :: 0 <= j < i ==> !AnyContained(text, rules[j].keywords)))
      ==> FirstMatch(text, rules) == rules[i].category
  {
    if rules != [] {
      FirstMatchSpec(text, rules[1..]);
      forall i | 0 <= i < |rules| && AnyContained(text, rules[i].keywords) &&
        (forall j :: 0 <= j < i ==> !AnyContained(text, rules[j].keywords))
        ensures FirstMatch(text, rules) == rules[i].category
      {
        if i > 0 {
          assert !AnyContained(text, rules[0].keywords);
          assert rules[1..][i - 1] == rules[i];
          forall j | 0 <= j < i - 1
            ensures !AnyContained(text, rules[1..][j].keywords)
          {
            assert rules[1..][j] == rules[j + 1];
          }
        }
      }
      if forall i :: 0 <= i < |rules| ==> !AnyContained(text, rules[i].keywords) {
        forall i | 0 <= i < |rules[1..]|
          ensures !AnyContained(text, rules[1..][i].keywords)
        {
          assert rules[1..][i] == rules[i + 1];
        }
      }
    }
  }

  /** The result is always one of the rule categories or `Outros`. */
  lemma {:induction false} FirstMatchRange(text: string, rules: seq<Rule>)
    ensures FirstMatch(text, rules) == FALLBACK ||
      exists i :: 0 <= i < |rules| && FirstMatch(text, rules) == rules[i].category
  {
    if rules != [] && !AnyContained(text, rules[0].keywords) {
      FirstMatchRange(text, rules[1..]);
      if FirstMatch(text, rules[1..]) != FALLBACK {
        var i :| 0 <= i < |rules[1..]| && FirstMatch(text, rules[1..]) == rules[1..][i].category;
        assert rules[i + 1] == rules[1..][i];
      }
    }
  }

  /**
   * An expense is filed under one of Alimentação, Transporte, Moradia,
   * Entretenimento, Saúde, Compras or Outros, an income under one of
   * Salário, Freelance, Investimentos, Vendas or Outros; either way the
   * result is a category the add-transaction form offers for that type.
   */
  lemma AutoCategorizeRange(description: string, kind: TransactionType)
    ensures var r := AutoCategorizeTransaction(description, kind);
      && (kind == Expense ==>
            r in {"Alimentação", "Transporte", "Moradia", "Entretenimento", "Saúde", "Compras", "Outros"}
            && r in EXPENSE_CATEGORIES)
      && (kind == Income ==> r in INCOME_CATEGORIES)
  {
    FirstMatchRange(Lower(description), EXPENSE_RULES);
    FirstMatchRange(Lower(description), INCOME_RULES);
  }

  /**
   * Every description mentioning "mercado livre" is filed under
   * Alimentação: "mercado", checked first, occurs in it.
   */
  lemma MercadoLivreIsFood(description: string)
    requires Contains(Lower(description), "mercado livre")
    ensures AutoCategorizeTransaction(description, Expense) == "Alimentação"
  {
    ContainsPrefix(Lower(description), "mercado livre", "mercado");
    assert Contains(Lower(description), EXPENSE_RULES[0].keywords[0]);
  }

  /**
   * Hence the Compras keyword "mercado livre" never decides: an expense
   * filed under Compras always mentions one of the other five Compras
   * keywords.
   */
  lemma ShoppingNeedsAnotherKeyword(description: string)
    requires AutoCategorizeTransaction(description, Expense) == "Compras"
    ensures AnyContained(Lower(description), ["roupa", "sapato", "shopping", "loja", "amazon"])
  {
    var text := Lower(description);
    FirstMatchSpec(text, EXPENSE_RULES);
    if !AnyContained(text, EXPENSE_RULES[5].keywords) {
      // Compras did not match, so the result is another category.
      assert false;
    }
    AnyContainedSpec(text, EXPENSE_RULES[5].keywords);
    AnyContainedSpec(text, ["roupa", "sapato", "shopping", "loja", "amazon"]);
    var k :| 0 <= k < 6 && Contains(text, EXPENSE_RULES[5].keywords[k]);
    if k == 5 {
      MercadoLivreIsFood(description);
      assert false;
    }
    assert EXPENSE_RULES[5].keywords[k] == ["roupa", "sapato", "shopping", "loja", "amazon"][k];
  }
}
