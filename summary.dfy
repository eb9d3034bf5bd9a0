/**
 * The summary calculator shared by the Budget and Home screens: the
 * `reduce` totals over a month's categories and items, a category's spent
 * amount, and the colour band of a percentage. Sums fold from the left, as
 * `reduce((sum, x) => sum + x, 0)` does.
 */
module Summary {
  import opened Common
  import opened KeyedLists
  import opened MonthlyBudgetModel

  /** `categories.reduce((sum, c) => sum + c.budget, 0)` */
  function SumBudgets(cs: seq<MonthlyCategory>): real {
    if cs == [] then 0.0 else SumBudgets(cs[..|cs| - 1]) + cs[|cs| - 1].budget
  }

  /** `items.reduce((sum, item) => sum + item.amount, 0)` */
  function SumAmounts(items: seq<BudgetItem>): real {
    if items == [] then 0.0 else SumAmounts(items[..|items| - 1]) + items[|items| - 1].amount
  }

  /** `items.filter(i => i.categoryName === name)` */
  function ItemsIn(items: seq<BudgetItem>, name: string): (r: seq<BudgetItem>)
    ensures |r| <= |items|
    ensures forall i :: 0 <= i < |r| ==> r[i] in items && r[i].categoryName == name
    ensures forall i :: 0 <= i < |items| && items[i].categoryName == name ==> items[i] in r
  {
    if items == [] then []
    else
      var last := items[|items| - 1];
      ItemsIn(items[..|items| - 1], name) + (if last.categoryName == name then [last] else [])
  }

  /** A category's spent amount: the amounts of the items filed under its name. */
  function CategorySpent(items: seq<BudgetItem>, name: string): real {
    SumAmounts(ItemsIn(items, name))
  }

  /** getMonthSummary / HomeScreen: the total budget, 0 when no month is loaded. */
  function TotalBudget(mb: Option<MonthlyBudget>): (r: real)
    ensures mb.None? ==> r == 0.0
    ensures mb.Some? && mb.value.categories == [] ==> r == 0.0
  {
    if mb.None? then 0.0 else SumBudgets(mb.value.categories)
  }

  /** getMonthSummary / HomeScreen: the total spent over all categories, 0 when no month is loaded. */
  function TotalSpent(mb: Option<MonthlyBudget>): (r: real)
    ensures mb.None? ==> r == 0.0
    ensures mb.Some? && mb.value.items == [] ==> r == 0.0
  {
    if mb.None? then 0.0 else SumAmounts(mb.value.items)
  }

  /** The summary's "Remaining" line. */
  function Remaining(mb: Option<MonthlyBudget>): (r: real)
    ensures r + TotalSpent(mb) == TotalBudget(mb)
    ensures r < 0.0 <==> TotalSpent(mb) > TotalBudget(mb)
  {
    TotalBudget(mb) - TotalSpent(mb)
  }

  /** Colour of a progress bar for a percentage (Home and BudgetCategories screens). */
  datatype Band = Green | Orange | Red

  function BandOf(percentage: real): (b: Band)
    ensures b == Red <==> percentage > 90.0
    ensures b == Orange <==> 75.0 < percentage <= 90.0
    ensures b == Green <==> percentage <= 75.0
  {
    if percentage > 90.0 then Red else if percentage > 75.0 then Orange else Green
  }

  /** The band never moves towards green as the percentage grows. */
  lemma BandMonotone(p: real, q: real)
    requires p <= q
    ensures BandOf(p) == Red ==> BandOf(q) == Red
    ensures BandOf(p) == Orange ==> BandOf(q) != Green
  {
  }

  /** For a percentage `p` of `part` in `whole > 0`: red past 90% of the whole, green up to 75%. */
  lemma BandOfShare(part: real, whole: real, p: real)
    requires whole > 0.0 && p * whole == part * 100.0
    ensures BandOf(p) == Red <==> part * 10.0 > whole * 9.0
    ensures BandOf(p) == Green <==> part * 4.0 <= whole * 3.0
  {
    AboveIffScaledAbove(p, 90.0, whole, part * 100.0);
    AboveIffScaledAbove(p, 75.0, whole, part * 100.0);
  }

  /** With `x * b == xb` and `b > 0`: `x > c` exactly when `xb > c * b`. */
  lemma AboveIffScaledAbove(x: real, c: real, b: real, xb: real)
    requires b > 0.0 && x * b == xb
    ensures x > c <==> xb > c * b
  {
    if x > c {
      assert (x - c) * b > 0.0;
      assert (x - c) * b == xb - c * b;
    } else {
      assert (c - x) * b >= 0.0;
      assert (c - x) * b == c * b - xb;
    }
  }

  // ---------------------------------------------------------------------
  // Sums over category lists.

  lemma SumBudgetsSingle(x: MonthlyCategory)
    ensures SumBudgets([x]) == x.budget
  {
  }

  lemma {:induction false} SumBudgetsAppend(a: seq<MonthlyCategory>, b: seq<MonthlyCategory>)
    ensures SumBudgets(a + b) == SumBudgets(a) + SumBudgets(b)
  {
    if b == [] {
      assert a + b == a;
    } else {
      var b' := b[..|b| - 1];
      assert (a + b)[..|a + b| - 1] == a + b';
      SumBudgetsAppend(a, b');
    }
  }

  /** Adding a category raises the total budget by exactly its budget. */
  lemma SumBudgetsPush(s: seq<MonthlyCategory>, x: MonthlyCategory)
    ensures SumBudgets(s + [x]) == SumBudgets(s) + x.budget
  {
    assert (s + [x])[..|s|] == s;
  }

  /** Replacing the category at `k` moves the total budget by the change in its budget. */
  lemma SumBudgetsUpdateAt(s: seq<MonthlyCategory>, k: nat, x: MonthlyCategory)
    requires k < |s|
    ensures SumBudgets(s[k := x]) == SumBudgets(s) - s[k].budget + x.budget
  {
    var a, b := s[..k], s[k + 1..];
    SplitAt(s, k);
    UpdateSplitAt(s, k, x);
    SumBudgetsAppend(a, [x] + b);
    SumBudgetsAppend([x], b);
    SumBudgetsAppend(a, [s[k]] + b);
    SumBudgetsAppend([s[k]], b);
    SumBudgetsSingle(x);
    SumBudgetsSingle(s[k]);
  }


  /** Removing the category at `k` lowers the total budget by exactly its budget. */
  lemma SumBudgetsRemoveAt(s: seq<MonthlyCategory>, k: nat)
    requires k < |s|
    ensures SumBudgets(s[..k] + s[k + 1..]) == SumBudgets(s) - s[k].budget
  {
    var a, b := s[..k], s[k + 1..];
    SplitAt(s, k);
    SumBudgetsAppend(a, [s[k]] + b);
    SumBudgetsAppend([s[k]], b);
    SumBudgetsAppend(a, b);
    SumBudgetsSingle(s[k]);
  }


  // ---------------------------------------------------------------------
  // Sums over item lists: the facts the ledger relies on.

  lemma {:induction false} SumAmountsAppend(a: seq<BudgetItem>, b: seq<BudgetItem>)
    ensures SumAmounts(a + b) == SumAmounts(a) + SumAmounts(b)
  {
    if b == [] {
      assert a + b == a;
    } else {
      var b' := b[..|b| - 1];
      assert (a + b)[..|a + b| - 1] == a + b';
      SumAmountsAppend(a, b');
    }
  }

  lemma SumAmountsSingle(x: BudgetItem)
    ensures SumAmounts([x]) == x.amount
  {
  }

  /** Appending an item raises the total by exactly its amount. */
  lemma SumAmountsPush(s: seq<BudgetItem>, x: BudgetItem)
    ensures SumAmounts(s + [x]) == SumAmounts(s) + x.amount
  {
    assert (s + [x])[..|s|] == s;
  }

  /** Removing the item at `k` lowers the total by exactly its amount. */
  lemma SumAmountsRemoveAt(s: seq<BudgetItem>, k: nat)
    requires k < |s|
    ensures SumAmounts(s[..k] + s[k + 1..]) == SumAmounts(s) - s[k].amount
  {
    var a, b := s[..k], s[k + 1..];
    SplitAt(s, k);
    SumAmountsAppend(a, [s[k]] + b);
    SumAmountsAppend([s[k]], b);
    SumAmountsAppend(a, b);
    SumAmountsSingle(s[k]);
  }


  /** Replacing the item at `k` moves the total by the change in its amount. */
  lemma SumAmountsUpdateAt(s: seq<BudgetItem>, k: nat, x: BudgetItem)
    requires k < |s|
    ensures SumAmounts(s[k := x]) == SumAmounts(s) - s[k].amount + x.amount
  {
    var a, b := s[..k], s[k + 1..];
    SplitAt(s, k);
    UpdateSplitAt(s, k, x);
    SumAmountsAppend(a, [x] + b);
    SumAmountsAppend([x], b);
    SumAmountsAppend(a, [s[k]] + b);
    SumAmountsAppend([s[k]], b);
    SumAmountsSingle(x);
    SumAmountsSingle(s[k]);
  }


  predicate NonNegativeAmounts(items: seq<BudgetItem>) {
    forall i :: 0 <= i < |items| ==> items[i].amount >= 0.0
  }

  lemma {:induction false} SumAmountsNonNegative(items: seq<BudgetItem>)
    requires NonNegativeAmounts(items)
    ensures SumAmounts(items) >= 0.0
  {
    if items != [] {
      SumAmountsNonNegative(items[..|items| - 1]);
    }
  }

  /** With amounts that are not negative, no category has spent more than the month as a whole. */
  lemma {:induction false} CategorySpentAtMostTotal(items: seq<BudgetItem>, name: string)
    requires NonNegativeAmounts(items)
    ensures 0.0 <= CategorySpent(items, name) <= SumAmounts(items)
  {
    if items != [] {
      var init := items[..|items| - 1];
      var last := items[|items| - 1];
      CategorySpentAtMostTotal(init, name);
      CategorySpentStep(init, last, name);
      assert items == init + [last];
    }
  }

  /** Spent of a category after one more item: that item counts only if it is filed under the name. */
  lemma CategorySpentStep(s: seq<BudgetItem>, x: BudgetItem, name: string)
    ensures CategorySpent(s + [x], name) == CategorySpent(s, name) + (if x.categoryName == name then x.amount else 0.0)
  {
    var t := s + [x];
    assert t[..|t| - 1] == s && t[|t| - 1] == x;
    if x.categoryName == name {
      assert ItemsIn(t, name) == ItemsIn(s, name) + [x];
      SumAmountsPush(ItemsIn(s, name), x);
    } else {
      assert ItemsIn(t, name) == ItemsIn(s, name) + [];
      assert ItemsIn(s, name) + [] == ItemsIn(s, name);
    }
  }

  // ---------------------------------------------------------------------
  // Spent per category against the month's total.

  /** Sum of the spent amounts of the given categories. */
  function SpentOverCategories(items: seq<BudgetItem>, cs: seq<MonthlyCategory>): real {
    if cs == [] then 0.0
    else SpentOverCategories(items, cs[..|cs| - 1]) + CategorySpent(items, cs[|cs| - 1].name)
  }

  /** Items whose categoryName matches no category of the month ("orphaned" after a category edit). */
  function Orphaned(items: seq<BudgetItem>, cs: seq<MonthlyCategory>): seq<BudgetItem> {
    if items == [] then []
    else
      var last := items[|items| - 1];
      Orphaned(items[..|items| - 1], cs) + (if HasKey(cs, CategoryNameOf, last.categoryName) then [] else [last])
  }

  /**
   * With distinct category names, the month's total spent is split exactly
   * between its categories' spent amounts and the orphaned items.
   */
  lemma {:induction false} SpentPartition(items: seq<BudgetItem>, cs: seq<MonthlyCategory>)
    requires DistinctKeys(cs, CategoryNameOf)
    ensures SumAmounts(items) == SpentOverCategories(items, cs) + SumAmounts(Orphaned(items, cs))
  {
    if items == [] {
      SpentOverNoItems(cs);
    } else {
      var init := items[..|items| - 1];
      var last := items[|items| - 1];
      assert items == init + [last];
      SpentPartition(init, cs);
      SpentOverStep(init, last, cs);
      if !HasKey(cs, CategoryNameOf, last.categoryName) {
        SumAmountsPush(Orphaned(init, cs), last);
      } else {
        assert Orphaned(items, cs) == Orphaned(init, cs) + [];
        assert Orphaned(init, cs) + [] == Orphaned(init, cs);
      }
    }
  }

  lemma {:induction false} SpentOverNoItems(cs: seq<MonthlyCategory>)
    ensures SpentOverCategories([], cs) == 0.0
  {
    if cs != [] {
      SpentOverNoItems(cs[..|cs| - 1]);
    }
  }

  /** One more item adds its amount to the categories' sum when (and only when) one category carries its name. */
  lemma {:induction false} SpentOverStep(s: seq<BudgetItem>, x: BudgetItem, cs: seq<MonthlyCategory>)
    requires DistinctKeys(cs, CategoryNameOf)
    ensures SpentOverCategories(s + [x], cs)
         == SpentOverCategories(s, cs) + (if HasKey(cs, CategoryNameOf, x.categoryName) then x.amount else 0.0)
  {
    if cs != [] {
      var init := cs[..|cs| - 1];
      var c := cs[|cs| - 1];
      DistinctSplitLast(cs, CategoryNameOf);
      HasKeySplitLast(cs, CategoryNameOf, x.categoryName);
      SpentOverStep(s, x, init);
      CategorySpentStep(s, x, c.name);
    }
  }
}
