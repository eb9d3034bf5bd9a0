/**
 * The client's in-memory store of budget categories and investments
 * (AppProvider). Each edit computes a new list with spread, `map` or
 * `filter` and stores it through the state setter; here the two lists are
 * fields of a class and the setters are assignments.
 */
module AppContext {
  import opened Common
  import opened KeyedLists

  /**
   * A flat budget category with its own stored `spent` figure. The type
   * declares `spent` a number, but an object stored without the property
   * is still accepted at run time, so here it is `None` when missing.
   */
  datatype BudgetCategory = BudgetCategory(id: string, name: string, budget: real, spent: Option<real>)

  /** `Omit<BudgetCategory, 'id'>`: what `addBudgetCategory` spreads into the new entry. */
  datatype CategoryDraft = CategoryDraft(name: string, budget: real, spent: Option<real>) {
    /** `{ ...draft, id }` */
    function WithId(id: string): (c: BudgetCategory)
      ensures c.id == id && c.name == name && c.budget == budget && c.spent == spent
    {
      BudgetCategory(id, name, budget, spent)
    }
  }

  datatype InvestmentType = Stock | ETF | MutualFund | Bond | Cryptocurrency | RealEstate | Retirement | OtherType

  datatype Investment = Investment(
    id: string,
    name: string,
    ticker: string,
    kind: InvestmentType,
    value: real,
    initialInvestment: real,
    returnPercentage: real)

  /** `Omit<Investment, 'id'>`: what the form submits. */
  datatype InvestmentDraft = InvestmentDraft(
    name: string,
    ticker: string,
    kind: InvestmentType,
    value: real,
    initialInvestment: real,
    returnPercentage: real)
  {
    /** `{ ...draft, id }` */
    function WithId(id: string): (i: Investment)
      ensures i.id == id && i.name == name && i.ticker == ticker && i.kind == kind
      ensures i.value == value && i.initialInvestment == initialInvestment && i.returnPercentage == returnPercentage
    {
      Investment(id, name, ticker, kind, value, initialInvestment, returnPercentage)
    }
  }

  function CategoryIdOf(c: BudgetCategory): string { c.id }
  function InvestmentIdOf(i: Investment): string { i.id }

  /** The mock data the provider starts from. */
  const InitialBudgetCategories: seq<BudgetCategory> := [
    BudgetCategory("1", "Housing", 1200.0, Some(1000.0)),
    BudgetCategory("2", "Food", 500.0, Some(350.0)),
    BudgetCategory("3", "Transportation", 300.0, Some(250.0)),
    BudgetCategory("4", "Entertainment", 200.0, Some(150.0)),
    BudgetCategory("5", "Utilities", 250.0, Some(220.0))
  ]

  const InitialInvestments: seq<Investment> := [
    Investment("1", "Apple Inc.", "AAPL", Stock, 5000.0, 4000.0, 25.0),
    Investment("2", "S&P 500 ETF", "SPY", ETF, 10000.0, 9000.0, 11.11),
    Investment("3", "Bitcoin", "BTC", Cryptocurrency, 3000.0, 2000.0, 50.0),
    Investment("4", "401(k)", "N/A", Retirement, 50000.0, 45000.0, 11.11)
  ]

  /** Five categories and four investments, each list with pairwise-distinct ids. */
  lemma InitialDataShape()
    ensures |InitialBudgetCategories| == 5 && DistinctKeys(InitialBudgetCategories, CategoryIdOf)
    ensures |InitialInvestments| == 4 && DistinctKeys(InitialInvestments, InvestmentIdOf)
  {
  }

  /** Adding with an id no entry uses keeps the ids distinct; `Date.now()` gives no such guarantee by itself. */
  lemma AddKeepsIdsDistinct(s: seq<BudgetCategory>, draft: CategoryDraft, now: string)
    requires DistinctKeys(s, CategoryIdOf)
    requires !HasKey(s, CategoryIdOf, now)
    ensures DistinctKeys(s + [draft.WithId(now)], CategoryIdOf)
  {
    DistinctAppend(s, CategoryIdOf, draft.WithId(now));
  }

  /** After a delete no entry carries the id, and with distinct ids exactly one entry went. */
  lemma DeleteRemovesId<T>(s: seq<T>, idOf: T -> string, id: string)
    ensures !HasKey(RemoveKey(s, idOf, id), idOf, id)
    ensures DistinctKeys(s, idOf) && HasKey(s, idOf, id) ==> |RemoveKey(s, idOf, id)| == |s| - 1
  {
    if DistinctKeys(s, idOf) && HasKey(s, idOf, id) {
      var i := FirstIndex(s, idOf, id).value;
      DistinctFirstIndexUnique(s, idOf, id);
      RemoveKeyUnique(s, idOf, id, i);
    }
  }

  class AppProvider {
    var budgetCategories: seq<BudgetCategory>
    var investments: seq<Investment>

    constructor ()
      ensures budgetCategories == InitialBudgetCategories
      ensures investments == InitialInvestments
    {
      budgetCategories := InitialBudgetCategories;
      investments := InitialInvestments;
    }

    /** `setBudgetCategories([...budgetCategories, { ...category, id: Date.now().toString() }])`; `now` is that string. */
    method AddBudgetCategory(category: CategoryDraft, now: string)
      modifies this
      ensures budgetCategories == old(budgetCategories) + [category.WithId(now)]
      ensures investments == old(investments)
    {
      var newCategory := category.WithId(now);
      budgetCategories := budgetCategories + [newCategory];
    }

    method UpdateBudgetCategory(category: BudgetCategory)
      modifies this
      ensures budgetCategories == ReplaceWhere(old(budgetCategories), CategoryIdOf, category.id, category)
      ensures investments == old(investments)
    {
      budgetCategories := ReplaceWhere(budgetCategories, CategoryIdOf, category.id, category);
    }

    method DeleteBudgetCategory(id: string)
      modifies this
      ensures budgetCategories == RemoveKey(old(budgetCategories), CategoryIdOf, id)
      ensures investments == old(investments)
    {
      budgetCategories := RemoveKey(budgetCategories, CategoryIdOf, id);
    }

    method AddInvestment(investment: InvestmentDraft, now: string)
      modifies this
      ensures investments == old(investments) + [investment.WithId(now)]
      ensures budgetCategories == old(budgetCategories)
    {
      var newInvestment := investment.WithId(now);
      investments := investments + [newInvestment];
    }

    method UpdateInvestment(investment: Investment)
      modifies this
      ensures investments == ReplaceWhere(old(investments), InvestmentIdOf, investment.id, investment)
      ensures budgetCategories == old(budgetCategories)
    {
      investments := ReplaceWhere(investments, InvestmentIdOf, investment.id, investment);
    }

    method DeleteInvestment(id: string)
      modifies this
      ensures investments == RemoveKey(old(investments), InvestmentIdOf, id)
      ensures budgetCategories == old(budgetCategories)
    {
      investments := RemoveKey(investments, InvestmentIdOf, id);
    }
  }
}
