/** Facts about finite sets that every model below needs: cardinalities of
    comprehensions that differ in one element, sums over a set, and the
    cycle hidden in a finite set whose every member has a keeper inside. */
module Finite {

  /** The number of truths, as the counting invariants use it. */
  function Bit(b: bool): (n: nat) { if b then 1 else 0 }

  lemma CardDrop<T>(a: set<T>, x: T, b: set<T>)
    requires x in a && b == a - {x}
    ensures |b| == |a| - 1
  {
  }

  lemma {:induction false} CardSubset<T>(a: set<T>, b: set<T>)
    requires a <= b
    ensures |a| <= |b|
  {
    assert b == a + (b - a);
  }

  /** Some member. */
  ghost function Pick<T>(S: set<T>): (x: T)
    requires S != {}
    ensures x in S
  {
    var x :| x in S; x
  }

  /** A set that grows inside a universe leaves fewer outside. */
  lemma {:induction false} Grows<T>(U: set<T>, S: set<T>, N: set<T>)
    requires S <= N <= U && S != N
    ensures |U - N| < |U - S|
  {
    var y := Pick(N - S);
    CardSubset(U - N, U - S - {y});
  }

  /** A sum over a set, taken in any order. */
  ghost function Sum<T(!new)>(s: set<T>, f: T -> int): (r: int)
  {
    if s == {} then 0 else var x :| x in s; f(x) + Sum(s - {x}, f)
  }

  /** Any member can be taken out first. */
  lemma {:induction false} SumSplit<T(!new)>(s: set<T>, f: T -> int, x: T)
    requires x in s
    ensures Sum(s, f) == f(x) + Sum(s - {x}, f)
    decreases |s|
  {
    var y :| y in s && Sum(s, f) == f(y) + Sum(s - {y}, f);
    if y != x {
      SumSplit(s - {y}, f, x);
      SumSplit(s - {x}, f, y);
      assert s - {y} - {x} == s - {x} - {y};
    }
  }

  lemma {:induction false} SumCongruent<T(!new)>(s: set<T>, f: T -> int, g: T -> int)
    requires forall x :: x in s ==> f(x) == g(x)
    ensures Sum(s, f) == Sum(s, g)
    decreases |s|
  {
    if s != {} {
      var x :| x in s;
      SumSplit(s, f, x);
      SumSplit(s, g, x);
      SumCongruent(s - {x}, f, g);
    }
  }

  /** Changing the summand at one member changes the sum by the difference. */
  lemma {:induction false} SumUpdate<T(!new)>(s: set<T>, f: T -> int, g: T -> int, x: T)
    requires x in s
    requires forall y :: y in s && y != x ==> f(y) == g(y)
    ensures Sum(s, g) == Sum(s, f) - f(x) + g(x)
  {
    SumSplit(s, f, x);
    SumSplit(s, g, x);
    SumCongruent(s - {x}, f, g);
  }

  lemma {:induction false} SumPlus<T(!new)>(s: set<T>, f: T -> int, g: T -> int, h: T -> int)
    requires forall x :: x in s ==> f(x) == g(x) + h(x)
    ensures Sum(s, f) == Sum(s, g) + Sum(s, h)
    decreases |s|
  {
    if s != {} {
      var x := Pick(s);
      SumSplit(s, f, x);
      SumSplit(s, g, x);
      SumSplit(s, h, x);
      SumPlus(s - {x}, f, g, h);
    }
  }

  /** Counting the members of H. */
  lemma {:induction false} SumIndicator<T(!new)>(s: set<T>, H: set<T>, f: T -> int)
    requires forall x :: x in s ==> f(x) == Bit(x in H)
    ensures Sum(s, f) == |s * H|
    decreases |s|
  {
    if s == {} {
      assert s * H == {};
    } else {
      var x := Pick(s);
      SumSplit(s, f, x);
      SumIndicator(s - {x}, H, f);
      if x in H { CardDrop(s * H, x, (s - {x}) * H); }
      else { assert s * H == (s - {x}) * H; }
    }
  }

  lemma {:induction false} SumMonotone<T(!new)>(s: set<T>, f: T -> int, g: T -> int)
    requires forall x :: x in s ==> f(x) <= g(x)
    ensures Sum(s, f) <= Sum(s, g)
    decreases |s|
  {
    if s != {} {
      var x :| x in s;
      SumSplit(s, f, x);
      SumSplit(s, g, x);
      SumMonotone(s - {x}, f, g);
    }
  }

  lemma {:induction false} SumNonNegative<T(!new)>(s: set<T>, f: T -> int)
    requires forall x :: x in s ==> 0 <= f(x)
    ensures 0 <= Sum(s, f)
    decreases |s|
  {
    if s != {} {
      var x :| x in s;
      SumSplit(s, f, x);
      SumNonNegative(s - {x}, f);
    }
  }

  /** A sum of non-negative summands bounds each of them. */
  lemma {:induction false} SumAtLeast<T(!new)>(s: set<T>, f: T -> int, x: T)
    requires x in s && forall y :: y in s ==> 0 <= f(y)
    ensures f(x) <= Sum(s, f)
  {
    SumSplit(s, f, x);
    SumNonNegative(s - {x}, f);
  }

  ghost function SumSeq(s: seq<int>): (n: int) { if s == [] then 0 else s[0] + SumSeq(s[1..]) }

  /** c lists distinct members, each kept by the next and the last by the first. */
  ghost predicate GenuineCycle<T>(c: seq<T>, keeps: set<(T, T)>)
  {
    && |c| > 0
    && (forall i, j :: 0 <= i < j < |c| ==> c[i] != c[j])
    && (forall i, k :: 0 <= i < k < |c| && k == i + 1 ==> (c[k], c[i]) in keeps)
    && (c[0], c[|c| - 1]) in keeps
  }

  /** p leads from its first element to x along keeps. */
  ghost predicate KeepPath<T>(p: seq<T>, x: T, keeps: set<(T, T)>)
  {
    && |p| > 0 && p[|p| - 1] == x
    && forall i, k :: 0 <= i < k < |p| && k == i + 1 ==> (p[i], p[k]) in keeps
  }

  /** Membership under a name of its own, so that SelfKept is used one member
      at a time. */
  ghost predicate Member<T>(y: T, s: set<T>) { y in s }

  /** Every member of s is kept by a member of s. */
  ghost predicate SelfKept<T(!new)>(s: set<T>, keeps: set<(T, T)>)
  {
    forall y {:trigger Member(y, s)} :: Member(y, s) ==> exists x :: x in s && (x, y) in keeps
  }

  /** Each entry is a distinct member of s, kept by the entry after it. */
  ghost predicate KeeperChain<T>(s: set<T>, keeps: set<(T, T)>, back: seq<T>)
  {
    && |back| > 0
    && (forall i :: 0 <= i < |back| ==> back[i] in s)
    && (forall i, k :: 0 <= i < k < |back| ==> back[i] != back[k])
    && (forall i, k :: 0 <= i < k < |back| && k == i + 1 ==> (back[k], back[i]) in keeps)
  }

  lemma {:induction false} ChainExtends<T(!new)>(s: set<T>, keeps: set<(T, T)>, back: seq<T>)
    returns (full: seq<T>, j: nat)
    requires SelfKept(s, keeps) && KeeperChain(s, keeps, back)
    ensures KeeperChain(s, keeps, full) && full[0] == back[0]
    ensures j < |full| && (full[j], full[|full| - 1]) in keeps
    decreases |s| - |back|
  {
    var last := back[|back| - 1];
    assert Member(last, s);
    var k :| k in s && (k, last) in keeps;
    DistinctBound(back, s);
    if k in back {
      full := back;
      j :| 0 <= j < |back| && back[j] == k;
    } else {
      DistinctBound(back + [k], s);
      full, j := ChainExtends(s, keeps, back + [k]);
    }
  }

  /** Following keepers inside a finite set must close: each member hangs off
      a cycle of distinct keepers. */
  lemma {:induction false} KeeperChainCloses<T(!new)>(s: set<T>, keeps: set<(T, T)>, t: T)
    returns (cycle: seq<T>, path: seq<T>)
    requires t in s && SelfKept(s, keeps)
    ensures GenuineCycle(cycle, keeps) && (forall x :: x in cycle ==> x in s)
    ensures KeepPath(path, t, keeps) && path[0] == cycle[0]
  {
    var back, j := ChainExtends(s, keeps, [t]);
    cycle := back[j..];
    path := seq(j + 1, i requires 0 <= i <= j => back[j - i]);
    forall i, k | 0 <= i < k < |path| && k == i + 1 ensures (path[i], path[k]) in keeps {
      assert (back[j - i], back[j - k]) in keeps;
    }
  }

  lemma {:induction false} DistinctBound<T>(q: seq<T>, s: set<T>)
    requires forall i, k :: 0 <= i < k < |q| ==> q[i] != q[k]
    requires forall i :: 0 <= i < |q| ==> q[i] in s
    ensures |q| <= |s|
  {
    if |q| > 0 {
      DistinctBound(q[1..], s - {q[0]});
    }
  }
}
