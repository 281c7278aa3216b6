/** Dropping repeats by key: a loop with a set of the keys seen so far keeps the first of every key. */
module Dedupe {
  import opened Sorting

  function Keys<T>(s: seq<T>, key: T -> int): set<int> {
    if |s| == 0 then {} else Keys(s[..|s| - 1], key) + {key(s[|s| - 1])}
  }

  /** The elements whose key is neither in `seen` nor carried by an earlier element. */
  function Deduped<T>(s: seq<T>, key: T -> int, seen: set<int>): seq<T> {
    if |s| == 0 then []
    else
      var init, last := s[..|s| - 1], s[|s| - 1];
      Deduped(init, key, seen) + (if key(last) in seen + Keys(init, key) then [] else [last])
  }

  lemma {:induction false} KeysMeaning<T>(s: seq<T>, key: T -> int, k: int)
    ensures k in Keys(s, key) <==> exists i :: 0 <= i < |s| && key(s[i]) == k
  {
    if |s| > 0 {
      KeysMeaning(s[..|s| - 1], key, k);
      if k in Keys(s[..|s| - 1], key) {
        var i :| 0 <= i < |s| - 1 && key(s[..|s| - 1][i]) == k;
        assert key(s[i]) == k;
      }
    }
  }

  lemma {:induction false} KeysSplit<T>(a: seq<T>, b: seq<T>, key: T -> int)
    ensures Keys(a + b, key) == Keys(a, key) + Keys(b, key)
  {
    if |b| == 0 {
      assert a + b == a;
    } else {
      assert (a + b)[..|a + b| - 1] == a + b[..|b| - 1];
      KeysSplit(a, b[..|b| - 1], key);
    }
  }

  lemma {:induction false} DedupedSplits<T>(a: seq<T>, b: seq<T>, key: T -> int, seen: set<int>)
    ensures Deduped(a + b, key, seen) == Deduped(a, key, seen) + Deduped(b, key, seen + Keys(a, key))
  {
    if |b| == 0 {
      assert a + b == a;
    } else {
      var init := b[..|b| - 1];
      assert (a + b)[..|a + b| - 1] == a + init;
      DedupedSplits(a, init, key, seen);
      KeysSplit(a, init, key);
    }
  }

  ghost predicate FirstOfItsKey<T(!new)>(s: seq<T>, key: T -> int, x: T) {
    exists i :: 0 <= i < |s| && s[i] == x && forall j | 0 <= j < i :: key(s[j]) != key(x)
  }

  /** What is left is the first element of every key, each once. */
  lemma {:induction false} DedupedMeaning<T(!new)>(s: seq<T>, key: T -> int, x: T)
    ensures x in Deduped(s, key, {}) <==> FirstOfItsKey(s, key, x)
    ensures forall i, j | 0 <= i < j < |Deduped(s, key, {})| ::
            key(Deduped(s, key, {})[i]) != key(Deduped(s, key, {})[j])
  {
    if |s| > 0 {
      var n := |s| - 1;
      DedupedMeaning(s[..n], key, x);
      FirstUnlessRepeated(s, key, x);
      KeysMeaning(s[..n], key, key(s[n]));
      forall y | y in Deduped(s[..n], key, {}) ensures key(y) in Keys(s[..n], key) {
        DedupedMeaning(s[..n], key, y);
        KeysMeaning(s[..n], key, key(y));
      }
    }
  }

  lemma FirstUnlessRepeated<T(!new)>(s: seq<T>, key: T -> int, x: T)
    requires |s| > 0
    ensures FirstOfItsKey(s, key, x) <==>
              || FirstOfItsKey(s[..|s| - 1], key, x)
              || (x == s[|s| - 1] && key(x) !in Keys(s[..|s| - 1], key))
  {
    hide Keys;
    var n := |s| - 1;
    KeysMeaning(s[..n], key, key(x));
    if FirstOfItsKey(s, key, x) {
      var i :| 0 <= i < |s| && s[i] == x && forall j | 0 <= j < i :: key(s[j]) != key(x);
      if i < n {
        assert s[..n][i] == x;
      }
    }
    if FirstOfItsKey(s[..n], key, x) {
      var i :| 0 <= i < n && s[..n][i] == x && forall j | 0 <= j < i :: key(s[..n][j]) != key(x);
      assert s[i] == x && forall j | 0 <= j < i :: key(s[j]) == key(s[..n][j]);
    }
    if x == s[n] && key(x) !in Keys(s[..n], key) {
      forall j | 0 <= j < n ensures key(s[j]) != key(x) {
        assert s[..n][j] == s[j];
      }
    }
  }

  /** Nothing is dropped when all keys are new and distinct. */
  lemma {:induction false} DistinctKept<T>(s: seq<T>, key: T -> int, seen: set<int>)
    requires forall i, j | 0 <= i < j < |s| :: key(s[i]) < key(s[j])
    requires forall i | 0 <= i < |s| :: key(s[i]) !in seen
    ensures Deduped(s, key, seen) == s
  {
    if |s| > 0 {
      DistinctKept(s[..|s| - 1], key, seen);
      KeysMeaning(s[..|s| - 1], key, key(s[|s| - 1]));
    }
  }

  /** Nothing is left when every key was seen. */
  lemma {:induction false} RepeatsDropped<T>(s: seq<T>, key: T -> int, seen: set<int>)
    requires forall i | 0 <= i < |s| :: key(s[i]) in seen
    ensures Deduped(s, key, seen) == [] && Keys(s, key) <= seen
  {
    if |s| > 0 {
      RepeatsDropped(s[..|s| - 1], key, seen);
    }
  }

  lemma {:induction false} DedupedMember<T>(s: seq<T>, key: T -> int, seen: set<int>, x: T)
    ensures x in Deduped(s, key, seen) ==> x in s
  {
    if |s| > 0 {
      DedupedMember(s[..|s| - 1], key, seen, x);
    }
  }

  lemma {:induction false} DedupedKeepsOrder<T>(s: seq<T>, key: T -> int, seen: set<int>, le: (T, T) -> bool)
    requires SortedBy(s, le)
    ensures SortedBy(Deduped(s, key, seen), le)
  {
    if |s| > 0 {
      var n := |s| - 1;
      var init := Deduped(s[..n], key, seen);
      DedupedKeepsOrder(s[..n], key, seen, le);
      forall x | x in init ensures le(x, s[n]) {
        DedupedMember(s[..n], key, seen, x);
      }
      var all := Deduped(s, key, seen);
      forall i, j | 0 <= i < j < |all| ensures le(all[i], all[j]) {
        if j == |init| {
          assert init[i] in init;
        }
      }
    }
  }

  lemma {:induction false} UnseenDoesNotMatter<T>(s: seq<T>, key: T -> int, seen: set<int>)
    requires forall i | 0 <= i < |s| :: key(s[i]) !in seen
    ensures Deduped(s, key, seen) == Deduped(s, key, {})
    ensures |s| > 0 ==> |Deduped(s, key, {})| > 0 && Deduped(s, key, {})[0] == s[0]
  {
    if |s| > 0 {
      UnseenDoesNotMatter(s[..|s| - 1], key, seen);
    }
  }
}
