/** Names in the order of Go's sort.Strings, by code point: the order of the steps in a document and
    of the files a descriptor set is read in.  */
module NameOrder {
  import opened Basics

  predicate NotAfter(a: string, b: string) {
    a == [] || (b != [] && (a[0] < b[0] || (a[0] == b[0] && NotAfter(a[1..], b[1..]))))
  }

  lemma {:induction false} OrderIsTotal(a: string, b: string)
    ensures NotAfter(a, b) || NotAfter(b, a)
  {
    if a != [] && b != [] && a[0] == b[0] { OrderIsTotal(a[1..], b[1..]); }
  }

  lemma {:induction false} OrderIsAntisymmetric(a: string, b: string)
    requires NotAfter(a, b) && NotAfter(b, a)
    ensures a == b
  {
    if a != [] {
      OrderIsAntisymmetric(a[1..], b[1..]);
      assert a == [a[0]] + a[1..] && b == [b[0]] + b[1..];
    }
  }

  lemma {:induction false} OrderIsTransitive(a: string, b: string, c: string)
    requires NotAfter(a, b) && NotAfter(b, c)
    ensures NotAfter(a, c)
  {
    if a != [] && a[0] == b[0] && b[0] == c[0] { OrderIsTransitive(a[1..], b[1..], c[1..]); }
  }

  /** The order of a dictionary: a name comes first if it begins the other, or has the smaller character
      where they first differ. */
  lemma {:induction false} NotAfterMeans(a: string, b: string)
    ensures NotAfter(a, b) <==> a <= b || exists k :: FirstDiffersAt(a, b, k) && a[k] < b[k]
  {
    if a != [] && b != [] {
      if a[0] == b[0] {
        NotAfterMeans(a[1..], b[1..]);
        assert a == [a[0]] + a[1..] && b == [b[0]] + b[1..];
        if k :| FirstDiffersAt(a[1..], b[1..], k) && a[1..][k] < b[1..][k] {
          assert a[..k + 1] == [a[0]] + a[1..][..k] && b[..k + 1] == [b[0]] + b[1..][..k];
          assert FirstDiffersAt(a, b, k + 1);
        }
        if k :| FirstDiffersAt(a, b, k) && a[k] < b[k] {
          assert k > 0;
          assert a[1..][..k - 1] == a[..k][1..] && b[1..][..k - 1] == b[..k][1..];
          assert FirstDiffersAt(a[1..], b[1..], k - 1);
        }
      } else {
        assert FirstDiffersAt(a, b, 0);
        forall k ensures FirstDiffersAt(a, b, k) ==> k <= 0 { StartAlike(a, b, k); }
      }
    }
  }

  lemma StartAlike(a: string, b: string, k: int)
    requires a != [] && b != []
    ensures FirstDiffersAt(a, b, k) && k > 0 ==> a[0] == b[0]
  {
    if FirstDiffersAt(a, b, k) && k > 0 { assert a[..k][0] == b[..k][0]; }
  }

  predicate FirstDiffersAt(a: string, b: string, k: int) {
    0 <= k < |a| && k < |b| && a[..k] == b[..k] && a[k] != b[k]
  }

  predicate InOrder(names: seq<string>) {
    forall i, j :: 0 <= i < j < |names| ==> NotAfter(names[i], names[j])
  }

  /** Where a name belongs: behind all that are not after it. */
  function Inserted(names: seq<string>, name: string): seq<string> {
    if names == [] || NotAfter(names[|names| - 1], name) then names + [name]
    else Inserted(names[..|names| - 1], name) + [names[|names| - 1]]
  }

  function Sorted(names: seq<string>): seq<string> {
    if names == [] then [] else Inserted(Sorted(names[..|names| - 1]), names[|names| - 1])
  }

  lemma {:induction false} InsertedIs(names: seq<string>, name: string)
    requires InOrder(names)
    ensures multiset(Inserted(names, name)) == multiset(names) + multiset{name}
    ensures InOrder(Inserted(names, name))
  {
    hide NotAfter;
    if names != [] {
      var init, last := names[..|names| - 1], names[|names| - 1];
      assert names == init + [last];
      if NotAfter(last, name) {
        forall i | 0 <= i < |init| ensures NotAfter(names[i], name) { OrderIsTransitive(names[i], last, name); }
      } else {
        OrderIsTotal(name, last);
        InsertedIs(init, name);
        var r := Inserted(init, name);
        forall i | 0 <= i < |r| ensures NotAfter(r[i], last) {
          assert r[i] in multiset(init) + multiset{name};
          if r[i] != name { assert r[i] in init; }
        }
      }
    }
  }

  /** Sorting keeps the names and puts them in order. */
  lemma {:induction false} SortedIs(names: seq<string>)
    ensures multiset(Sorted(names)) == multiset(names) && InOrder(Sorted(names))
  {
    hide Inserted;
    if names != [] {
      var init, last := names[..|names| - 1], names[|names| - 1];
      assert names == init + [last];
      SortedIs(init);
      InsertedIs(Sorted(init), last);
    }
  }

  /** There is one ordered list of given names, whatever algorithm found it. */
  lemma {:induction false} OrderIsUnique(a: seq<string>, b: seq<string>)
    requires InOrder(a) && InOrder(b) && multiset(a) == multiset(b)
    ensures a == b
  {
    hide NotAfter;
    assert |multiset(a)| == |a| && |multiset(b)| == |b|;
    if a != [] {
      var n := |a| - 1;
      MembersOf(a, b);
      assert a[n] in b && b[n] in a;
      LastIsGreatest(a, b[n]);
      LastIsGreatest(b, a[n]);
      OrderIsAntisymmetric(a[n], b[n]);
      WithoutLast(a);
      WithoutLast(b);
      OrderIsUnique(a[..n], b[..n]);
    }
  }

  lemma WithoutLast(names: seq<string>)
    requires names != []
    ensures multiset(names[..|names| - 1]) == multiset(names) - multiset{names[|names| - 1]}
  {
    assert names == names[..|names| - 1] + [names[|names| - 1]];
  }

  lemma LastIsGreatest(names: seq<string>, name: string)
    requires InOrder(names) && name in names
    ensures NotAfter(name, names[|names| - 1])
  {
    OrderIsTotal(name, name);
  }

  /** A list of keys and its sorting hold the same names, each once. */
  lemma SortedKeys(names: seq<string>)
    requires Distinct(names)
    ensures Distinct(Sorted(names)) && forall name :: name in Sorted(names) <==> name in names
  {
    SortedIs(names);
    MembersOf(Sorted(names), names);
    var r := Sorted(names);
    forall i, j | 0 <= i < j < |r| ensures r[i] != r[j] {
      if r[i] == r[j] { Twice(r, i, j); DistinctCounts(names, r[i]); }
    }
  }

  lemma Twice(xs: seq<string>, i: nat, j: nat)
    requires i < j < |xs| && xs[i] == xs[j]
    ensures multiset(xs)[xs[i]] >= 2
  {
    assert xs == xs[..i] + [xs[i]] + xs[i + 1..j] + [xs[j]] + xs[j + 1..];
  }

  method SortNames(names: seq<string>) returns (r: seq<string>)
    ensures r == Sorted(names)
  {
    r := [];
    for k := 0 to |names|
      invariant r == Sorted(names[..k])
    {
      assert names[..k + 1][..k] == names[..k];
      r := Inserted(r, names[k]);
    }
    assert names[..|names|] == names;
  }

  /** The keys of a Go map, read off in any order and sorted. */
  method KeysInOrder(keys: set<string>) returns (names: seq<string>)
    ensures Distinct(names) && InOrder(names) && forall name :: name in names <==> name in keys
  {
    var listed, left := [], keys;
    while left != {}
      invariant left <= keys && Distinct(listed)
      invariant forall name :: name in listed <==> name in keys && name !in left
      decreases left
    {
      var name :| name in left;
      listed := listed + [name];
      left := left - {name};
    }
    names := SortNames(listed);
    SortedIs(listed);
    SortedKeys(listed);
  }
}
