/**
 * List operations that address entries by a key (an id or a name): the
 * `find`, `filter` and `map` idioms that the routes, the client context and
 * the screens all use on their arrays. The key is passed as a function so
 * that one definition serves every record type.
 */
module KeyedLists {
  import opened Common

  /** No two entries share a key. */
  predicate DistinctKeys<T, K(==)>(s: seq<T>, key: T -> K) {
    forall i, j :: 0 <= i < j < |s| ==> key(s[i]) != key(s[j])
  }

  /** Some entry has key `k`. */
  predicate HasKey<T, K(==)>(s: seq<T>, key: T -> K, k: K) {
    exists i :: 0 <= i < |s| && key(s[i]) == k
  }

  /** Index of the FIRST entry whose key is `k` (`Array.prototype.find`, Mongoose `findOne`, `DocumentArray.id`). */
  function FirstIndex<T, K(==)>(s: seq<T>, key: T -> K, k: K): (r: Option<nat>)
    ensures r.Some? ==> r.value < |s| && key(s[r.value]) == k
    ensures r.Some? ==> forall j :: 0 <= j < r.value ==> key(s[j]) != k
    ensures r.None? <==> forall j :: 0 <= j < |s| ==> key(s[j]) != k
  {
    if s == [] then None
    else if key(s[0]) == k then Some(0)
    else match FirstIndex(s[1..], key, k)
      case None => None
      case Some(i) => Some(i + 1)
  }

  /** Every entry whose key is `k` removed, the rest kept in order (`filter(x => key(x) !== k)`, Mongoose `pull`). */
  function RemoveKey<T, K(==)>(s: seq<T>, key: T -> K, k: K): (r: seq<T>)
    ensures |r| <= |s|
    ensures forall i :: 0 <= i < |r| ==> r[i] in s && key(r[i]) != k
    ensures forall i :: 0 <= i < |s| && key(s[i]) != k ==> s[i] in r
  {
    if s == [] then []
    else if key(s[0]) == k then RemoveKey(s[1..], key, k)
    else [s[0]] + RemoveKey(s[1..], key, k)
  }

  /** Every entry whose key is `k` replaced by `x`, the rest untouched (`map(y => key(y) === k ? x : y)`). */
  function ReplaceWhere<T, K(==)>(s: seq<T>, key: T -> K, k: K, x: T): (r: seq<T>)
    ensures |r| == |s|
    ensures forall i :: 0 <= i < |s| && key(s[i]) == k ==> r[i] == x
    ensures forall i :: 0 <= i < |s| && key(s[i]) != k ==> r[i] == s[i]
  {
    seq(|s|, i requires 0 <= i < |s| => if key(s[i]) == k then x else s[i])
  }

  /** Filtering distributes over concatenation: the order of the kept entries is the original order. */
  lemma {:induction false} RemoveKeyAppend<T, K>(a: seq<T>, b: seq<T>, key: T -> K, k: K)
    ensures RemoveKey(a + b, key, k) == RemoveKey(a, key, k) + RemoveKey(b, key, k)
  {
    if a == [] {
      assert a + b == b;
    } else {
      assert (a + b)[1..] == a[1..] + b;
      RemoveKeyAppend(a[1..], b, key, k);
    }
  }

  /** Filtering out a key no entry has changes nothing. */
  lemma {:induction false} RemoveKeyAbsent<T, K>(s: seq<T>, key: T -> K, k: K)
    requires forall i :: 0 <= i < |s| ==> key(s[i]) != k
    ensures RemoveKey(s, key, k) == s
  {
    if s != [] {
      RemoveKeyAbsent(s[1..], key, k);
    }
  }

  // ---------------------------------------------------------------------
  // Cutting a list around one position.

  /** A list is its prefix, the entry at `k` and its suffix. */
  lemma SplitAt<T>(s: seq<T>, k: nat)
    requires k < |s|
    ensures s == s[..k] + ([s[k]] + s[k + 1..])
  {
  }

  /** Overwriting position `k` is the same cut with the new entry in the middle. */
  lemma UpdateSplitAt<T>(s: seq<T>, k: nat, x: T)
    requires k < |s|
    ensures s[k := x] == s[..k] + ([x] + s[k + 1..])
  {
  }

  /** When exactly one entry, at index `i`, has key `k`, filtering removes just that entry. */
  lemma RemoveKeyUnique<T, K>(s: seq<T>, key: T -> K, k: K, i: nat)
    requires i < |s| && key(s[i]) == k
    requires forall j :: 0 <= j < |s| && j != i ==> key(s[j]) != k
    ensures RemoveKey(s, key, k) == s[..i] + s[i + 1..]
    ensures |RemoveKey(s, key, k)| == |s| - 1
  {
    var a, b := s[..i], s[i + 1..];
    SplitAt(s, i);
    RemoveKeyAppend(a, [s[i]] + b, key, k);
    RemoveKeyAppend([s[i]], b, key, k);
    forall j | 0 <= j < |a| ensures key(a[j]) != k {
      assert a[j] == s[j];
    }
    RemoveKeyAbsent(a, key, k);
    forall j | 0 <= j < |b| ensures key(b[j]) != k {
      assert b[j] == s[i + 1 + j];
    }
    RemoveKeyAbsent(b, key, k);
    assert RemoveKey([s[i]], key, k) == RemoveKey([s[i]][1..], key, k);
    assert [s[i]][1..] == [];
  }

  /** With distinct keys the entry found by key is the only one carrying it. */
  lemma DistinctFirstIndexUnique<T, K>(s: seq<T>, key: T -> K, k: K)
    requires DistinctKeys(s, key)
    requires FirstIndex(s, key, k).Some?
    ensures forall j :: 0 <= j < |s| && j != FirstIndex(s, key, k).value ==> key(s[j]) != k
  {
  }

  /** Appending an entry with a key not yet used keeps the keys distinct. */
  lemma DistinctAppend<T, K>(s: seq<T>, key: T -> K, x: T)
    requires DistinctKeys(s, key)
    requires forall i :: 0 <= i < |s| ==> key(s[i]) != key(x)
    ensures DistinctKeys(s + [x], key)
  {
  }

  /** With distinct keys, looking up the key of entry `i` finds entry `i`. */
  lemma DistinctFirstIndexAt<T, K>(s: seq<T>, key: T -> K, i: nat)
    requires DistinctKeys(s, key) && i < |s|
    ensures FirstIndex(s, key, key(s[i])) == Some(i)
  {
    assert FirstIndex(s, key, key(s[i])).Some?;
  }

  /** Overwriting an entry with one of the same key keeps the keys distinct. */
  lemma OverwriteKeepsDistinct<T, K>(s: seq<T>, key: T -> K, i: nat, x: T)
    requires DistinctKeys(s, key) && i < |s| && key(x) == key(s[i])
    ensures DistinctKeys(s[i := x], key)
  {
    var t := s[i := x];
    forall a, b | 0 <= a < b < |t| ensures key(t[a]) != key(t[b]) {
      assert key(t[a]) == key(s[a]) && key(t[b]) == key(s[b]);
    }
  }

  /** A key occurs in a non-empty list exactly when it occurs before the last entry or in it. */
  lemma HasKeySplitLast<T, K>(s: seq<T>, key: T -> K, k: K)
    requires s != []
    ensures HasKey(s, key, k) <==> HasKey(s[..|s| - 1], key, k) || key(s[|s| - 1]) == k
  {
    var init := s[..|s| - 1];
    if HasKey(s, key, k) {
      var j :| 0 <= j < |s| && key(s[j]) == k;
      if j < |init| {
        assert init[j] == s[j];
      }
    }
    if HasKey(init, key, k) {
      var j :| 0 <= j < |init| && key(init[j]) == k;
      assert s[j] == init[j];
    }
  }

  /** With distinct keys, the last entry's key does not occur before it, and the entries before it are distinct too. */
  lemma DistinctSplitLast<T, K>(s: seq<T>, key: T -> K)
    requires DistinctKeys(s, key) && s != []
    ensures DistinctKeys(s[..|s| - 1], key)
    ensures !HasKey(s[..|s| - 1], key, key(s[|s| - 1]))
  {
    var init := s[..|s| - 1];
    forall j | 0 <= j < |init| ensures key(init[j]) != key(s[|s| - 1]) {
      assert init[j] == s[j];
    }
  }

  /** Filtering keeps the keys distinct. */
  lemma {:induction false} DistinctRemoveKey<T, K>(s: seq<T>, key: T -> K, k: K)
    requires DistinctKeys(s, key)
    ensures DistinctKeys(RemoveKey(s, key, k), key)
  {
    if s != [] {
      DistinctRemoveKey(s[1..], key, k);
      var rest := RemoveKey(s[1..], key, k);
      if key(s[0]) != k {
        forall i | 0 <= i < |rest| ensures key(rest[i]) != key(s[0]) {
          var j :| 0 <= j < |s[1..]| && s[1..][j] == rest[i];
          assert s[j + 1] == rest[i];
        }
        assert RemoveKey(s, key, k) == [s[0]] + rest;
      }
    }
  }

  /** Replacing by a key no entry has changes nothing (updating an unknown id is a no-op). */
  lemma ReplaceWhereAbsent<T, K>(s: seq<T>, key: T -> K, k: K, x: T)
    requires forall i :: 0 <= i < |s| ==> key(s[i]) != k
    ensures ReplaceWhere(s, key, k, x) == s
  {
  }

  /** With distinct keys, replacing by the key of entry `i` overwrites that entry alone. */
  lemma ReplaceWhereUnique<T, K>(s: seq<T>, key: T -> K, i: nat, x: T)
    requires DistinctKeys(s, key) && i < |s|
    ensures ReplaceWhere(s, key, key(s[i]), x) == s[i := x]
  {
    var r := ReplaceWhere(s, key, key(s[i]), x);
    forall j | 0 <= j < |s| ensures r[j] == s[i := x][j] {
      if j != i {
        assert key(s[j]) != key(s[i]);
      }
    }
  }

  /** Two lists that have an entry with key `k` at the same positions give the same first index. */
  lemma {:induction false} FirstIndexSameMatches<T, K>(s: seq<T>, t: seq<T>, key: T -> K, k: K)
    requires |s| == |t|
    requires forall j :: 0 <= j < |s| ==> (key(s[j]) == k <==> key(t[j]) == k)
    ensures FirstIndex(s, key, k) == FirstIndex(t, key, k)
  {
    if s != [] {
      assert key(s[0]) == k <==> key(t[0]) == k;
      FirstIndexSameMatches(s[1..], t[1..], key, k);
    }
  }

  /** The first index in `s + [x]`: the one in `s` if there is one, else `x`'s position if `x` has the key. */
  lemma FirstIndexPush<T, K>(s: seq<T>, x: T, key: T -> K, k: K)
    ensures FirstIndex(s + [x], key, k) ==
      match FirstIndex(s, key, k)
      case Some(i) => Some(i)
      case None => if key(x) == k then Some(|s|) else None
  {
    var t := s + [x];
    assert forall j :: 0 <= j < |s| ==> t[j] == s[j];
    assert t[|s|] == x;
  }
}
