/**
 Types and arithmetic shared by every module: optional and failing results, real-valued
 minimum, maximum and absolute value, and sums over sequences together with the fact that
 a sum does not depend on the order of its terms.
 */
module Prelude {

  datatype Option<+T> = None | Some(value: T)

  /** The exceptions the modelled code raises. */
  datatype Error =
    | NonPositivePrice
    | NonPositiveQty
    | UnsupportedOrderType

  datatype Result<+T> = Ok(value: T) | Err(error: Error) {
    predicate IsFailure() {
      Err?
    }

    function PropagateFailure<U>(): Result<U>
      requires Err?
    {
      Err(error)
    }

    function Extract(): T
      requires Ok?
    {
      value
    }
  }

  // The guard 1e-8 used throughout the code against division by zero.
  const TINY: real := 0.00000001

  function Max(a: real, b: real): real {
    if a < b then b else a
  }

  function Min(a: real, b: real): real {
    if b < a then b else a
  }

  function Abs(a: real): real {
    if a < 0.0 then -a else a
  }

  function MinInt(a: int, b: int): int {
    if b < a then b else a
  }

  function MaxInt(a: int, b: int): int {
    if a < b then b else a
  }

  /** Sum of `f` over `s`, added up from the left as a loop does. */
  function SumBy<T>(s: seq<T>, f: T -> real): real {
    if |s| == 0 then 0.0 else SumBy(s[..|s| - 1], f) + f(s[|s| - 1])
  }

  lemma {:induction false} SumByAppend<T>(a: seq<T>, b: seq<T>, f: T -> real)
    ensures SumBy(a + b, f) == SumBy(a, f) + SumBy(b, f)
  {
    if |b| == 0 {
      assert a + b == a;
    } else {
      assert (a + b)[..|a + b| - 1] == a + b[..|b| - 1];
      SumByAppend(a, b[..|b| - 1], f);
    }
  }

  lemma {:induction false} SumByRemove<T>(s: seq<T>, i: nat, f: T -> real)
    requires i < |s|
    ensures SumBy(s, f) == SumBy(s[..i] + s[i + 1..], f) + f(s[i])
  {
    assert s == s[..i] + ([s[i]] + s[i + 1..]);
    SumByAppend(s[..i], [s[i]] + s[i + 1..], f);
    SumByAppend([s[i]], s[i + 1..], f);
    SumByAppend(s[..i], s[i + 1..], f);
    assert SumBy([s[i]], f) == SumBy([s[i]][..0], f) + f(s[i]);
  }

  /** A sum over a permutation is the same sum. */
  lemma {:induction false} SumByPermutation<T>(a: seq<T>, b: seq<T>, f: T -> real)
    requires multiset(a) == multiset(b)
    ensures SumBy(a, f) == SumBy(b, f)
    decreases |a|
  {
    assert |a| == |multiset(a)| == |multiset(b)| == |b|;
    if |a| > 0 {
      var x := a[|a| - 1];
      assert a == a[..|a| - 1] + [x];
      assert x in multiset(b);
      var i :| 0 <= i < |b| && b[i] == x;
      assert b == b[..i] + [x] + b[i + 1..];
      assert multiset(b) == multiset(b[..i] + b[i + 1..]) + multiset{x};
      assert multiset(a[..|a| - 1]) == multiset(a) - multiset{x};
      SumByRemove(b, i, f);
      SumByPermutation(a[..|a| - 1], b[..i] + b[i + 1..], f);
    }
  }

  lemma {:induction false} SumByExtensional<T>(s: seq<T>, f: T -> real, g: T -> real)
    requires forall x :: x in s ==> f(x) == g(x)
    ensures SumBy(s, f) == SumBy(s, g)
  {
    if |s| > 0 {
      SumByExtensional(s[..|s| - 1], f, g);
    }
  }

  lemma {:induction false} SumByPlus<T>(s: seq<T>, f: T -> real, g: T -> real, h: T -> real)
    requires forall x :: x in s ==> h(x) == f(x) + g(x)
    ensures SumBy(s, h) == SumBy(s, f) + SumBy(s, g)
  {
    if |s| > 0 {
      SumByPlus(s[..|s| - 1], f, g, h);
    }
  }

  /** The elements of `s` that satisfy `p`, in order: a list comprehension with a condition. */
  function Keep<T>(s: seq<T>, p: T -> bool): seq<T> {
    if |s| == 0 then []
    else Keep(s[..|s| - 1], p) + (if p(s[|s| - 1]) then [s[|s| - 1]] else [])
  }

  lemma {:induction false} KeepSplits<T>(a: seq<T>, b: seq<T>, p: T -> bool)
    ensures Keep(a + b, p) == Keep(a, p) + Keep(b, p)
  {
    if |b| == 0 {
      assert a + b == a;
    } else {
      assert (a + b)[..|a + b| - 1] == a + b[..|b| - 1];
      KeepSplits(a, b[..|b| - 1], p);
    }
  }

  lemma KeepSnoc<T>(s: seq<T>, x: T, p: T -> bool)
    ensures Keep(s + [x], p) == Keep(s, p) + (if p(x) then [x] else [])
  {
    assert (s + [x])[..|s|] == s;
  }

  lemma {:induction false} KeepAll<T>(s: seq<T>, p: T -> bool)
    requires forall i | 0 <= i < |s| :: p(s[i])
    ensures Keep(s, p) == s
  {
    if |s| > 0 {
      KeepAll(s[..|s| - 1], p);
    }
  }

  lemma {:induction false} KeepNone<T>(s: seq<T>, p: T -> bool)
    requires forall i | 0 <= i < |s| :: !p(s[i])
    ensures Keep(s, p) == []
  {
    if |s| > 0 {
      KeepNone(s[..|s| - 1], p);
    }
  }

  /** When `p` holds on one stretch of `s` and nowhere else, that stretch is kept. */
  lemma {:induction false} KeepStretch<T>(s: seq<T>, p: T -> bool, a: nat, b: nat)
    requires a <= b <= |s|
    requires forall i | a <= i < b :: p(s[i])
    requires forall i | 0 <= i < a || b <= i < |s| :: !p(s[i])
    ensures Keep(s, p) == s[a..b]
  {
    if a == b {
      KeepNone(s, p);
    } else {
      var n := |s| - 1;
      if b < |s| {
        KeepStretch(s[..n], p, a, b);
        assert s[..n][a..b] == s[a..b];
      } else {
        KeepStretch(s[..n], p, a, n);
        assert s[..n][a..n] == s[a..n];
        assert s[a..b] == s[a..n] + [s[n]];
      }
    }
  }

  lemma {:induction false} KeepMember<T>(s: seq<T>, p: T -> bool, x: T)
    ensures x in Keep(s, p) <==> x in s && p(x)
  {
    if |s| > 0 {
      KeepMember(s[..|s| - 1], p, x);
    }
  }

  lemma {:induction false} KeepSame<T>(s: seq<T>, p: T -> bool, q: T -> bool)
    requires forall x | x in s :: p(x) == q(x)
    ensures Keep(s, p) == Keep(s, q)
  {
    if |s| > 0 {
      KeepSame(s[..|s| - 1], p, q);
    }
  }

  /** Splitting a condition into two that exclude each other splits the sum over what is kept. */
  lemma {:induction false} KeepDisjointSum<T>(s: seq<T>, p: T -> bool, q: T -> bool, either: T -> bool, f: T -> real)
    requires forall x | x in s :: (either(x) <==> p(x) || q(x)) && !(p(x) && q(x))
    ensures SumBy(Keep(s, either), f) == SumBy(Keep(s, p), f) + SumBy(Keep(s, q), f)
  {
    if |s| > 0 {
      var init, x := s[..|s| - 1], s[|s| - 1];
      KeepDisjointSum(init, p, q, either, f);
      SumBySnoc(Keep(init, either), x, f);
      SumBySnoc(Keep(init, p), x, f);
      SumBySnoc(Keep(init, q), x, f);
      assert Keep(init, p) + [] == Keep(init, p) && Keep(init, q) + [] == Keep(init, q)
          && Keep(init, either) + [] == Keep(init, either);
    }
  }

  lemma SumBySnoc<T>(s: seq<T>, x: T, f: T -> real)
    ensures SumBy(s + [x], f) == SumBy(s, f) + f(x)
  {
    assert (s + [x])[..|s|] == s;
  }

  lemma {:induction false} KeepTwice<T>(s: seq<T>, p: T -> bool, q: T -> bool, both: T -> bool)
    requires forall x | x in s :: both(x) <==> p(x) && q(x)
    ensures Keep(Keep(s, p), q) == Keep(s, both)
  {
    if |s| > 0 {
      var init, x := s[..|s| - 1], s[|s| - 1];
      KeepTwice(init, p, q, both);
      KeepSplits(Keep(init, p), if p(x) then [x] else [], q);
      assert [x][..0] == [];
    }
  }

  /** The greater and the smaller of two numbers, and the size of one. */
  lemma Extremes(a: real, b: real, m: int, n: int)
    ensures Max(a, b) >= a && Max(a, b) >= b && (Max(a, b) == a || Max(a, b) == b)
    ensures Min(a, b) <= a && Min(a, b) <= b && (Min(a, b) == a || Min(a, b) == b)
    ensures Abs(a) >= 0.0 && (Abs(a) == a || Abs(a) == -a)
    ensures MaxInt(m, n) >= m && MaxInt(m, n) >= n && (MaxInt(m, n) == m || MaxInt(m, n) == n)
    ensures MinInt(m, n) <= m && MinInt(m, n) <= n && (MinInt(m, n) == m || MinInt(m, n) == n)
  {
  }
}
