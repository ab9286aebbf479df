/** Sums over sequences, and the counting facts the ledgers need. */
module Folds {

  function Sum<T>(xs: seq<T>, f: T -> int): int {
    if xs == [] then 0 else Sum(xs[..|xs| - 1], f) + f(xs[|xs| - 1])
  }

  lemma SumPush<T>(xs: seq<T>, x: T, f: T -> int)
    ensures Sum(xs + [x], f) == Sum(xs, f) + f(x)
  {
    assert (xs + [x])[..|xs|] == xs;
  }

  lemma {:induction false} SumConcat<T>(xs: seq<T>, ys: seq<T>, f: T -> int)
    ensures Sum(xs + ys, f) == Sum(xs, f) + Sum(ys, f)
  {
    if ys == [] {
      assert xs + ys == xs;
    } else {
      SumConcat(xs, ys[..|ys| - 1], f);
      assert (xs + ys)[..|xs + ys| - 1] == xs + ys[..|ys| - 1];
    }
  }

  lemma {:induction false} SumUpdate<T>(xs: seq<T>, i: nat, x: T, f: T -> int)
    requires i < |xs|
    ensures Sum(xs[i := x], f) == Sum(xs, f) - f(xs[i]) + f(x)
  {
    var n := |xs| - 1;
    if i == n {
      assert xs[i := x][..n] == xs[..n];
    } else {
      SumUpdate(xs[..n], i, x, f);
      assert xs[i := x][..n] == xs[..n][i := x];
    }
  }

  /** Pointwise comparison lifts to sums. */
  lemma {:induction false} SumMonotone<S, T>(xs: seq<S>, ys: seq<T>, f: S -> int, g: T -> int)
    requires |xs| == |ys|
    requires forall i :: 0 <= i < |xs| ==> f(xs[i]) <= g(ys[i])
    ensures Sum(xs, f) <= Sum(ys, g)
  {
    if xs != [] {
      SumMonotone(xs[..|xs| - 1], ys[..|ys| - 1], f, g);
    }
  }

  lemma {:induction false} SumZero<T>(xs: seq<T>, f: T -> int)
    requires forall i :: 0 <= i < |xs| ==> f(xs[i]) == 0
    ensures Sum(xs, f) == 0
  {
    if xs != [] {
      SumZero(xs[..|xs| - 1], f);
    }
  }

  lemma {:induction false} SumAtLeast<T>(xs: seq<T>, i: nat, f: T -> int)
    requires i < |xs|
    requires forall j :: 0 <= j < |xs| ==> f(xs[j]) >= 0
    ensures Sum(xs, f) >= f(xs[i])
  {
    SumMonotone(xs[..|xs| - 1], xs[..|xs| - 1], (x: T) => 0, f);
    SumZero(xs[..|xs| - 1], (x: T) => 0);
    if i < |xs| - 1 {
      SumAtLeast(xs[..|xs| - 1], i, f);
    }
  }

  /** A 0/1-valued sum counts the positions where the value is 1. */
  lemma {:induction false} SumCountsPositions<T>(xs: seq<T>, f: T -> int, s: set<nat>)
    requires forall i :: 0 <= i < |xs| ==> f(xs[i]) == 0 || f(xs[i]) == 1
    requires forall i: nat :: i in s <==> i < |xs| && f(xs[i]) == 1
    ensures Sum(xs, f) == |s|
  {
    if xs == [] {
      assert s == {};
    } else {
      var n: nat := |xs| - 1;
      if n in s {
        SumCountsPositions(xs[..n], f, s - {n});
      } else {
        SumCountsPositions(xs[..n], f, s);
      }
    }
  }

  /** An injection of one finite set into another bounds its size. */
  lemma {:induction false} InjectionBounds(a: set<nat>, b: set<nat>, f: nat -> nat)
    requires forall x :: x in a ==> f(x) in b
    requires forall x, y :: x in a && y in a && f(x) == f(y) ==> x == y
    ensures |a| <= |b|
  {
    if a != {} {
      var x :| x in a;
      InjectionBounds(a - {x}, b - {f(x)}, f);
    }
  }

  /** The sum of f over 0, 1, ..., n - 1. */
  function Spread(n: nat, f: nat -> int): int {
    if n == 0 then 0 else Spread(n - 1, f) + f(n - 1)
  }

  lemma {:induction false} SpreadSame(n: nat, f: nat -> int, g: nat -> int)
    requires forall c :: 0 <= c < n ==> f(c) == g(c)
    ensures Spread(n, f) == Spread(n, g)
  {
    if n > 0 {
      SpreadSame(n - 1, f, g);
    }
  }

  /** Adding v at one place adds v to the whole. */
  lemma {:induction false} SpreadBump(n: nat, k: nat, v: int, f: nat -> int, g: nat -> int)
    requires k < n && forall c :: 0 <= c < n ==> g(c) == f(c) + if c == k then v else 0
    ensures Spread(n, g) == Spread(n, f) + v
  {
    if k == n - 1 {
      SpreadSame(n - 1, f, g);
    } else {
      SpreadBump(n - 1, k, v, f, g);
    }
  }

  lemma {:induction false} SpreadZero(n: nat, f: nat -> int)
    requires forall c :: 0 <= c < n ==> f(c) == 0
    ensures Spread(n, f) == 0
  {
    if n > 0 {
      SpreadZero(n - 1, f);
    }
  }

  /** A sum over rows is the sum over their owners of each owner's part. */
  lemma {:induction false} SumByOwner<T>(xs: seq<T>, n: nat, f: T -> int, owner: T -> nat, part: nat -> (T -> int))
    requires forall i :: 0 <= i < |xs| ==> owner(xs[i]) < n
    requires forall c: nat, i :: 0 <= i < |xs| ==> part(c)(xs[i]) == if owner(xs[i]) == c then f(xs[i]) else 0
    ensures Sum(xs, f) == Spread(n, (c: nat) => Sum(xs, part(c)))
  {
    var g := (c: nat) => Sum(xs, part(c));
    if xs == [] {
      forall c: nat | c < n ensures g(c) == 0 {
        assert Sum(xs, part(c)) == 0;
      }
      SpreadZero(n, g);
    } else {
      var earlier, last := xs[..|xs| - 1], xs[|xs| - 1];
      var h := (c: nat) => Sum(earlier, part(c));
      SumByOwner(earlier, n, f, owner, part);
      SpreadSame(n, h, (c: nat) => Sum(earlier, part(c)));
      forall c: nat | c < n ensures g(c) == h(c) + if c == owner(last) then f(last) else 0 {
        assert Sum(xs, part(c)) == Sum(earlier, part(c)) + part(c)(last);
      }
      SpreadBump(n, owner(last), f(last), h, g);
    }
  }
}
