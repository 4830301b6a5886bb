/** `DataFrame.sort_values(by=[...], ascending=[...])` followed by `iloc[0]`,
    as both recommenders use it. Each row is given a key, one real per sort
    column, with ascending columns negated so that every column sorts in
    descending order; a multi-column sort in pandas is a stable lexicographic
    sort, modelled here as a stable insertion sort. */
module Ranking {

  /** Key `a` sorts strictly before key `b`: lexicographically greater. */
  predicate Above(a: seq<real>, b: seq<real>)
    decreases |a|
  {
    |a| > 0 && |b| > 0 && (a[0] > b[0] || (a[0] == b[0] && Above(a[1..], b[1..])))
  }

  lemma {:induction false} AboveIrreflexive(a: seq<real>)
    ensures !Above(a, a)
    decreases |a|
  {
    if |a| > 0 { AboveIrreflexive(a[1..]); }
  }

  lemma {:induction false} AboveTransitive(a: seq<real>, b: seq<real>, c: seq<real>)
    requires Above(a, b) && Above(b, c)
    ensures Above(a, c)
    decreases |a|
  {
    if a[0] == b[0] && b[0] == c[0] { AboveTransitive(a[1..], b[1..], c[1..]); }
  }

  /** Between keys of one width, "not above" is transitive: the order is a
      total preorder, which is what makes "first in sorted order" well defined. */
  lemma {:induction false} NotAboveTransitive(a: seq<real>, b: seq<real>, c: seq<real>)
    requires |a| == |b| == |c|
    requires !Above(a, b) && !Above(b, c)
    ensures !Above(a, c)
    decreases |a|
  {
    if |a| > 0 && a[0] == b[0] && b[0] == c[0] {
      NotAboveTransitive(a[1..], b[1..], c[1..]);
    }
  }

  lemma {:induction false} AboveAsymmetric(a: seq<real>, b: seq<real>)
    requires Above(a, b)
    ensures !Above(b, a)
    decreases |a|
  {
    if a[0] == b[0] { AboveAsymmetric(a[1..], b[1..]); }
  }

  /** All keys have the same number of columns. */
  ghost predicate Uniform<T(!new)>(key: T -> seq<real>, width: nat) {
    forall x :: |key(x)| == width
  }

  /** No later row sorts strictly before an earlier one. */
  ghost predicate Ordered<T>(s: seq<T>, key: T -> seq<real>) {
    forall i, j :: 0 <= i < j < |s| ==> !Above(key(s[j]), key(s[i]))
  }

  /** Inserts `x` before the first row that does not sort strictly before it,
      so rows that tie with `x` stay after it. */
  function Insert<T>(x: T, ys: seq<T>, key: T -> seq<real>): seq<T>
    decreases |ys|
  {
    if |ys| == 0 || !Above(key(ys[0]), key(x)) then [x] + ys
    else [ys[0]] + Insert(x, ys[1..], key)
  }

  /** The rows in sorted order; rows with equal keys keep their input order. */
  function SortDesc<T>(s: seq<T>, key: T -> seq<real>): seq<T>
    decreases |s|
  {
    if |s| == 0 then [] else Insert(s[0], SortDesc(s[1..], key), key)
  }

  /** The row that `sorted.iloc[0]` yields: the first row that no row sorts
      strictly before. */
  function FirstBestIndex<T(!new)>(s: seq<T>, key: T -> seq<real>, ghost width: nat): (k: nat)
    requires |s| > 0 && Uniform(key, width)
    ensures k < |s|
    ensures forall i :: 0 <= i < |s| ==> !Above(key(s[i]), key(s[k]))
    ensures forall i :: 0 <= i < k ==> Above(key(s[k]), key(s[i]))
    decreases |s|
  {
    if |s| == 1 then
      AboveIrreflexive(key(s[0]));
      0
    else
      var k := 1 + FirstBestIndex(s[1..], key, width);
      assert forall i :: 1 <= i < |s| ==> !Above(key(s[i]), key(s[k])) by {
        forall i | 1 <= i < |s| ensures !Above(key(s[i]), key(s[k])) {
          assert s[i] == s[1..][i - 1];
        }
      }
      if Above(key(s[k]), key(s[0])) then
        assert forall i :: 0 <= i < k ==> Above(key(s[k]), key(s[i])) by {
          forall i | 1 <= i < k ensures Above(key(s[k]), key(s[i])) {
            assert s[i] == s[1..][i - 1];
          }
        }
        AboveAsymmetric(key(s[k]), key(s[0]));
        k
      else
        forall i | 0 <= i < |s| ensures !Above(key(s[i]), key(s[0])) {
          if i == 0 {
            AboveIrreflexive(key(s[0]));
          } else {
            NotAboveTransitive(key(s[i]), key(s[k]), key(s[0]));
          }
        }
        0
  }

  lemma {:induction false} InsertCount<T>(x: T, ys: seq<T>, key: T -> seq<real>)
    ensures multiset(Insert(x, ys, key)) == multiset{x} + multiset(ys)
    decreases |ys|
  {
    if |ys| > 0 && Above(key(ys[0]), key(x)) {
      InsertCount(x, ys[1..], key);
      assert ys == [ys[0]] + ys[1..];
    }
  }

  /** All_Candidates is a permutation of the candidates. */
  lemma {:induction false} SortIsPermutation<T>(s: seq<T>, key: T -> seq<real>)
    ensures multiset(SortDesc(s, key)) == multiset(s)
    decreases |s|
  {
    if |s| > 0 {
      SortIsPermutation(s[1..], key);
      InsertCount(s[0], SortDesc(s[1..], key), key);
      assert s == [s[0]] + s[1..];
    }
  }

  lemma {:induction false} InsertOrdered<T(!new)>(x: T, ys: seq<T>, key: T -> seq<real>, width: nat)
    requires Uniform(key, width) && Ordered(ys, key)
    ensures Ordered(Insert(x, ys, key), key)
    decreases |ys|
  {
    var r := Insert(x, ys, key);
    if |ys| == 0 {
    } else if !Above(key(ys[0]), key(x)) {
      forall i, j | 0 <= i < j < |r| ensures !Above(key(r[j]), key(r[i])) {
        if i == 0 && j > 1 {
          // r[j] == ys[j - 1], which is not above ys[0], which is not above x
          NotAboveTransitive(key(ys[j - 1]), key(ys[0]), key(x));
        }
      }
    } else {
      InsertOrdered(x, ys[1..], key, width);
      var tail := Insert(x, ys[1..], key);
      InsertCount(x, ys[1..], key);
      forall j | 1 <= j < |r| ensures !Above(key(r[j]), key(r[0])) {
        assert r[j] == tail[j - 1];
        assert r[j] in multiset(tail);
        if r[j] == x {
          AboveAsymmetric(key(ys[0]), key(x));
        } else {
          assert r[j] in multiset(ys[1..]);
          var m :| 0 <= m < |ys[1..]| && ys[1..][m] == r[j];
          assert ys[m + 1] == r[j];
        }
      }
    }
  }

  /** All_Candidates is in sorted order. */
  lemma {:induction false} SortIsOrdered<T(!new)>(s: seq<T>, key: T -> seq<real>, width: nat)
    requires Uniform(key, width)
    ensures Ordered(SortDesc(s, key), key)
    decreases |s|
  {
    if |s| > 0 {
      SortIsOrdered(s[1..], key, width);
      InsertOrdered(s[0], SortDesc(s[1..], key), key, width);
    }
  }

  /** `sorted.iloc[0]` is the first row that no other row sorts strictly
      before: the sort is stable. */
  lemma {:induction false} SortHeadIsFirstBest<T(!new)>(s: seq<T>, key: T -> seq<real>, width: nat)
    requires |s| > 0 && Uniform(key, width)
    ensures |SortDesc(s, key)| == |s|
    ensures SortDesc(s, key)[0] == s[FirstBestIndex(s, key, width)]
    decreases |s|
  {
    SortIsPermutation(s, key);
    assert |multiset(SortDesc(s, key))| == |multiset(s)|;
    if |s| > 1 {
      SortHeadIsFirstBest(s[1..], key, width);
    }
  }
}
