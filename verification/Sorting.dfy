/**
 The stable sort that the code calls as `sorted` and `list.sort`, written as an insertion
 sort, and the facts about it that the other modules use.
 */
module Sorting {
  import opened Prelude

  ghost predicate TotalPreorder<T(!new)>(le: (T, T) -> bool) {
    && (forall x, y :: le(x, y) || le(y, x))
    && (forall x, y, z :: le(x, y) && le(y, z) ==> le(x, z))
  }

  ghost predicate SortedBy<T>(s: seq<T>, le: (T, T) -> bool) {
    forall i, j | 0 <= i < j < |s| :: le(s[i], s[j])
  }

  /** Inserts `x` behind every element that is not greater. */
  function Insert<T>(s: seq<T>, x: T, le: (T, T) -> bool): seq<T> {
    if |s| == 0 || le(s[|s| - 1], x) then s + [x]
    else Insert(s[..|s| - 1], x, le) + [s[|s| - 1]]
  }

  function StableSort<T>(s: seq<T>, le: (T, T) -> bool): seq<T> {
    if |s| == 0 then [] else Insert(StableSort(s[..|s| - 1], le), s[|s| - 1], le)
  }

  lemma {:induction false} InsertKeepsElements<T>(s: seq<T>, x: T, le: (T, T) -> bool)
    ensures multiset(Insert(s, x, le)) == multiset(s) + multiset{x}
  {
    if |s| > 0 && !le(s[|s| - 1], x) {
      InsertKeepsElements(s[..|s| - 1], x, le);
      assert s == s[..|s| - 1] + [s[|s| - 1]];
    }
  }

  lemma {:induction false} InsertSorted<T(!new)>(s: seq<T>, x: T, le: (T, T) -> bool)
    requires TotalPreorder(le) && SortedBy(s, le)
    ensures SortedBy(Insert(s, x, le), le)
  {
    if |s| == 0 {
    } else if le(s[|s| - 1], x) {
    } else {
      var init, last := s[..|s| - 1], s[|s| - 1];
      InsertSorted(init, x, le);
      InsertKeepsElements(init, x, le);
      forall i | 0 <= i < |Insert(init, x, le)| ensures le(Insert(init, x, le)[i], last) {
        assert Insert(init, x, le)[i] in multiset(init) + multiset{x};
      }
    }
  }

  /** Sorting permutes its input and puts it in order. */
  lemma {:induction false} SortIsSortedPermutation<T(!new)>(s: seq<T>, le: (T, T) -> bool)
    requires TotalPreorder(le)
    ensures multiset(StableSort(s, le)) == multiset(s)
    ensures SortedBy(StableSort(s, le), le)
  {
    if |s| > 0 {
      SortIsSortedPermutation(s[..|s| - 1], le);
      InsertKeepsElements(StableSort(s[..|s| - 1], le), s[|s| - 1], le);
      InsertSorted(StableSort(s[..|s| - 1], le), s[|s| - 1], le);
      assert s == s[..|s| - 1] + [s[|s| - 1]];
    }
  }

  lemma InsertAtEnd<T>(s: seq<T>, x: T, le: (T, T) -> bool)
    requires |s| > 0 ==> le(s[|s| - 1], x)
    ensures Insert(s, x, le) == s + [x]
  {
  }

  /** A sequence already in order is left alone. */
  lemma {:induction false} SortOfSorted<T>(s: seq<T>, le: (T, T) -> bool)
    requires SortedBy(s, le)
    ensures StableSort(s, le) == s
  {
    hide Insert;
    if |s| > 0 {
      var n := |s| - 1;
      SortOfSorted(s[..n], le);
      InsertAtEnd(s[..n], s[n], le);
      assert s == s[..n] + [s[n]];
    }
  }

  lemma SortLength<T(!new)>(s: seq<T>, le: (T, T) -> bool)
    requires TotalPreorder(le)
    ensures |StableSort(s, le)| == |s|
  {
    SortIsSortedPermutation(s, le);
    assert |multiset(s)| == |multiset(StableSort(s, le))|;
  }

  /** Filtering keeps whatever order there is. */
  lemma {:induction false} KeepKeepsOrder<T>(s: seq<T>, p: T -> bool, le: (T, T) -> bool)
    requires SortedBy(s, le)
    ensures SortedBy(Keep(s, p), le)
  {
    if |s| > 0 {
      var n := |s| - 1;
      KeepKeepsOrder(s[..n], p, le);
      forall x | x in Keep(s[..n], p) ensures le(x, s[n]) {
        KeepMember(s[..n], p, x);
      }
      var kept := Keep(s, p);
      forall i, j | 0 <= i < j < |kept| ensures le(kept[i], kept[j]) {
        if j == |Keep(s[..n], p)| {
          assert Keep(s[..n], p)[i] in Keep(s[..n], p);
        }
      }
    }
  }

  /** How tuples of numbers compare: by the first position at which they differ. */
  predicate LexLe(a: seq<real>, b: seq<real>) {
    if |a| == 0 then true
    else if |b| == 0 then false
    else if a[0] != b[0] then a[0] < b[0]
    else LexLe(a[1..], b[1..])
  }

  lemma LexLeAt(x: seq<real>, y: seq<real>, i: nat)
    requires i < |x| == |y|
    ensures LexLe(x[i..], y[i..]) <==> if x[i] != y[i] then x[i] < y[i] else LexLe(x[i + 1..], y[i + 1..])
  {
    assert x[i..][1..] == x[i + 1..] && y[i..][1..] == y[i + 1..];
  }

  lemma {:induction false} LexTotal(a: seq<real>, b: seq<real>)
    ensures LexLe(a, b) || LexLe(b, a)
  {
    if |a| > 0 && |b| > 0 {
      LexTotal(a[1..], b[1..]);
    }
  }

  lemma {:induction false} LexTransitive(a: seq<real>, b: seq<real>, c: seq<real>)
    requires LexLe(a, b) && LexLe(b, c)
    ensures LexLe(a, c)
  {
    if |a| > 0 && a[0] == b[0] && b[0] == c[0] {
      LexTransitive(a[1..], b[1..], c[1..]);
    }
  }

  function ByKey<T>(key: T -> seq<real>): (T, T) -> bool {
    (x: T, y: T) => LexLe(key(x), key(y))
  }

  lemma ByKeyOrders<T(!new)>(key: T -> seq<real>)
    ensures TotalPreorder(ByKey(key))
  {
    forall x: T, y: T ensures ByKey(key)(x, y) || ByKey(key)(y, x) {
      LexTotal(key(x), key(y));
    }
    forall x: T, y: T, z: T | ByKey(key)(x, y) && ByKey(key)(y, z) ensures ByKey(key)(x, z) {
      LexTransitive(key(x), key(y), key(z));
    }
  }
}
