/** Small things more than one module needs. */
module Basics {

  datatype Option<T> = None | Some(value: T)

  predicate Distinct<T(==)>(xs: seq<T>) {
    forall i, j :: 0 <= i < j < |xs| ==> xs[i] != xs[j]
  }

  lemma {:induction false} DistinctCounts<T>(xs: seq<T>, x: T)
    requires Distinct(xs)
    ensures multiset(xs)[x] == if x in xs then 1 else 0
  {
    if xs != [] {
      var init, last := xs[..|xs| - 1], xs[|xs| - 1];
      assert xs == init + [last];
      DistinctCounts(init, x);
    }
  }

  lemma SameMembers<T>(xs: seq<T>, ys: seq<T>)
    requires Distinct(xs) && Distinct(ys) && forall x :: x in xs <==> x in ys
    ensures multiset(xs) == multiset(ys)
  {
    forall x ensures multiset(xs)[x] == multiset(ys)[x] {
      DistinctCounts(xs, x);
      DistinctCounts(ys, x);
    }
  }

  lemma MembersOf<T>(xs: seq<T>, ys: seq<T>)
    requires multiset(xs) == multiset(ys)
    ensures forall x :: x in xs <==> x in ys
  {
    forall x ensures x in xs <==> x in ys {
      assert x in xs <==> x in multiset(xs);
      assert x in ys <==> x in multiset(ys);
    }
  }

  /** How many elements have the property. */
  ghost function Tally<T>(xs: seq<T>, p: T -> bool): nat {
    if xs == [] then 0 else Tally(xs[..|xs| - 1], p) + if p(xs[|xs| - 1]) then 1 else 0
  }

  ghost function SumOver<T>(xs: seq<T>, f: T -> int): int {
    if xs == [] then 0 else SumOver(xs[..|xs| - 1], f) + f(xs[|xs| - 1])
  }

  /** One element taken out of both sides of a rearrangement. */
  lemma TakeOne<T>(a: seq<T>, b: seq<T>) returns (before: seq<T>, after: seq<T>)
    requires a != [] && multiset(a) == multiset(b)
    ensures b == before + [a[|a| - 1]] + after && multiset(a[..|a| - 1]) == multiset(before + after)
  {
    var x, rest := a[|a| - 1], a[..|a| - 1];
    assert a == rest + [x];
    assert x in multiset(b);
    var i :| 0 <= i < |b| && b[i] == x;
    before, after := b[..i], b[i + 1..];
    assert b == before + [x] + after;
    assert multiset(before + [x] + after) == multiset(before + after) + multiset{x};
    assert multiset(rest + [x]) == multiset(rest) + multiset{x};
    assert multiset(rest) == multiset(rest + [x]) - multiset{x};
  }

  lemma AtLeast(d: nat, k: nat)
    requires k >= 1
    ensures d * k >= d
  {
  }

  /** Quotient and remainder are unique. */
  lemma DivisionIsUnique(d: nat, p: int, r: int, q: int, t: int)
    requires 0 <= r < d && 0 <= t < d && d * p + r == d * q + t
    ensures p == q && r == t
  {
    if p < q {
      assert d * (q - p) == d * q - d * p;
      AtLeast(d, q - p);
    } else if q < p {
      assert d * (p - q) == d * p - d * q;
      AtLeast(d, p - q);
    }
  }

  /** White space as Go's unicode.IsSpace has it. */
  predicate IsSpace(c: char) {
    var n := c as int;
    || 9 <= n <= 13 || n == 0x20 || n == 0x85 || n == 0xA0 || n == 0x1680 || 0x2000 <= n <= 0x200A
    || n == 0x2028 || n == 0x2029 || n == 0x202F || n == 0x205F || n == 0x3000
  }
}
