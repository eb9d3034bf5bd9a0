/** The Home dashboard: the month's spent percentage and its bar and the three most recent items; its portfolio totals and return are the ones InvestmentsScreen defines. */
module HomeScreen {
  import opened Common
  import opened MonthlyBudgetModel
  import opened Summary
  import opened ItemOrder

  const RecentCount: nat := 3

  /** `totalBudget > 0 ? (totalSpent / totalBudget) * 100 : 0` */
  function SpentPercentage(mb: Option<MonthlyBudget>): (p: real)
    ensures TotalBudget(mb) <= 0.0 ==> p == 0.0
    ensures TotalBudget(mb) > 0.0 ==> p * TotalBudget(mb) == TotalSpent(mb) * 100.0
  {
    var budget := TotalBudget(mb);
    if budget > 0.0 then (TotalSpent(mb) / budget) * 100.0 else 0.0
  }

  /** The bar's width in percent: `Math.min(spentPercentage, 100)`. */
  function ProgressWidth(p: real): (w: real)
    ensures w <= 100.0
    ensures p <= 100.0 ==> w == p
    ensures p > 100.0 ==> w == 100.0
  {
    Min(p, 100.0)
  }

  /** The budget bar turns red once more than 90% of the budget is spent, and stays green up to 75%. */
  lemma BudgetBarBand(mb: Option<MonthlyBudget>)
    requires TotalBudget(mb) > 0.0
    ensures BandOf(SpentPercentage(mb)) == Red <==> TotalSpent(mb) * 10.0 > TotalBudget(mb) * 9.0
    ensures BandOf(SpentPercentage(mb)) == Green <==> TotalSpent(mb) * 4.0 <= TotalBudget(mb) * 3.0
  {
    BandOfShare(TotalSpent(mb), TotalBudget(mb), SpentPercentage(mb));
  }

  /** The full bar: the width reaches 100 exactly when the month is spent out. */
  lemma FullBarWhenSpentOut(mb: Option<MonthlyBudget>)
    requires TotalBudget(mb) > 0.0
    ensures ProgressWidth(SpentPercentage(mb)) == 100.0 <==> TotalSpent(mb) >= TotalBudget(mb)
  {
    var p := SpentPercentage(mb);
    AboveIffScaledAbove(p, 100.0, TotalBudget(mb), TotalSpent(mb) * 100.0);
    AboveIffScaledAbove(p, 99.0, TotalBudget(mb), TotalSpent(mb) * 100.0);
    if p < 100.0 {
      AboveIffScaledAbove(100.0, p, TotalBudget(mb), 100.0 * TotalBudget(mb));
    }
  }

  /** "Recent Transactions": the three most recent items of the month. */
  function RecentItems(mb: Option<MonthlyBudget>): (r: seq<BudgetItem>)
    ensures mb.None? ==> r == []
    ensures mb.Some? ==> |r| == if |mb.value.items| < RecentCount then |mb.value.items| else RecentCount
    ensures DateDescending(r)
    ensures mb.Some? ==> multiset(r) <= multiset(mb.value.items)
    ensures mb.Some? && r != [] ==>
      forall x | x in multiset(mb.value.items) - multiset(r) :: x.date <= r[|r| - 1].date
  {
    if mb.None? then []
    else
      var sorted := SortByDateDesc(mb.value.items);
      var r := Take(sorted, RecentCount);
      assert sorted == r + sorted[|r|..];
      assert multiset(sorted) == multiset(r) + multiset(sorted[|r|..]);
      if r != [] then
        LeftOutNotMoreRecent(sorted, |r|);
        r
      else
        r
  }
}
