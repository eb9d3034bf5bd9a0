/**
 * Most-recent-first ordering of a month's items, as both item lists show
 * them: `[...items].sort((a, b) => date(b) - date(a))`. The sort works on a
 * copy, so it is a function of the stored list. The contracts fix the
 * result up to the order of items with equal dates.
 */
module ItemOrder {
  import opened MonthlyBudgetModel

  predicate DateDescending(s: seq<BudgetItem>) {
    forall i, j :: 0 <= i < j < |s| ==> s[i].date >= s[j].date
  }

  /** Prefixing an entry at least as recent as the head keeps the order. */
  lemma ConsDescending(y: BudgetItem, t: seq<BudgetItem>)
    requires DateDescending(t)
    requires t != [] ==> t[0].date <= y.date
    ensures DateDescending([y] + t)
  {
    var r := [y] + t;
    forall i, j | 0 <= i < j < |r| ensures r[i].date >= r[j].date {
      if i == 0 {
        assert r[j] == t[j - 1];
        assert t[j - 1].date <= t[0].date;
      } else {
        assert r[i] == t[i - 1] && r[j] == t[j - 1];
      }
    }
  }

  /** Dropping the most recent entry keeps the order. */
  lemma TailDescending(s: seq<BudgetItem>)
    requires DateDescending(s) && s != []
    ensures DateDescending(s[1..])
    ensures s == [s[0]] + s[1..]
  {
    var t := s[1..];
    forall i, j | 0 <= i < j < |t| ensures t[i].date >= t[j].date {
      assert t[i] == s[i + 1] && t[j] == s[j + 1];
    }
  }

  /** Places `x` before the first entry that is not more recent than it. */
  function Insert(x: BudgetItem, s: seq<BudgetItem>): (r: seq<BudgetItem>)
    requires DateDescending(s)
    ensures |r| == |s| + 1
    ensures r[0] == x || (s != [] && r[0] == s[0])
    ensures DateDescending(r)
    ensures multiset(r) == multiset(s) + multiset{x}
  {
    if s == [] then [x]
    else if s[0].date <= x.date then
      ConsDescending(x, s);
      [x] + s
    else
      TailDescending(s);
      var rest := Insert(x, s[1..]);
      ConsDescending(s[0], rest);
      assert multiset([s[0]] + rest) == multiset{s[0]} + multiset(s[1..]) + multiset{x};
      [s[0]] + rest
  }

  function SortByDateDesc(s: seq<BudgetItem>): (r: seq<BudgetItem>)
    ensures DateDescending(r)
    ensures multiset(r) == multiset(s)
    ensures |r| == |s|
  {
    if s == [] then []
    else
      assert s == [s[0]] + s[1..];
      Insert(s[0], SortByDateDesc(s[1..]))
  }

  /** The first `n` entries (`slice(0, n)`). */
  function Take(s: seq<BudgetItem>, n: nat): (r: seq<BudgetItem>)
    ensures |r| == if n <= |s| then n else |s|
    ensures r == s[..|r|]
    ensures DateDescending(s) ==> DateDescending(r)
  {
    if n <= |s| then s[..n] else s
  }

  /** In a most-recent-first list, nothing after the first `k` entries is more recent than the `k`-th. */
  lemma LeftOutNotMoreRecent(s: seq<BudgetItem>, k: nat)
    requires DateDescending(s) && 0 < k <= |s|
    ensures forall x | x in multiset(s) - multiset(s[..k]) :: x.date <= s[k - 1].date
  {
    assert s == s[..k] + s[k..];
    assert multiset(s) - multiset(s[..k]) == multiset(s[k..]);
    forall x | x in multiset(s[k..]) ensures x.date <= s[k - 1].date {
      var j :| 0 <= j < |s[k..]| && s[k..][j] == x;
      assert s[k + j] == x;
    }
  }
}
