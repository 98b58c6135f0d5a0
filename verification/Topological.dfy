/** Ordering of proto files by their imports (`topological` in internal/protocol/grpc/grpc.go):
    a depth-first walk that places a file after everything it imports.  */
module Topological {
  import opened Basics
  import NameOrder

  /** A descriptor set: every file present, with the names it imports. */
  type Files = map<string, seq<string>>

  /** Imports that are not in the set do not count. */
  predicate Imports(files: Files, a: string, b: string) {
    a in files && b in files && b in files[a]
  }

  ghost predicate IsChain(files: Files, p: seq<string>) {
    forall i :: 0 <= i < |p| - 1 ==> Imports(files, p[i], p[i + 1])
  }

  ghost predicate IsCycle(files: Files, p: seq<string>) {
    |p| >= 2 && p[0] == p[|p| - 1] && IsChain(files, p)
  }

  ghost predicate HasCycle(files: Files) {
    exists p :: IsCycle(files, p)
  }

  /** Every file listed is present and comes after everything it imports. */
  ghost predicate InOrder(files: Files, ordered: seq<string>) {
    && (forall k :: 0 <= k < |ordered| ==> ordered[k] in files)
    && (forall k, d :: 0 <= k < |ordered| && Imports(files, ordered[k], d) ==> d in ordered[..k])
  }

  class Sorter {
    const files: Files
    var placed: set<string>
    var path: set<string>
    var ordered: seq<string>
    ghost var stack: seq<string>  // the files on the path, outermost first

    ghost predicate Valid()
      reads this
    {
      && Distinct(ordered) && InOrder(files, ordered)
      && (forall name :: name in placed <==> name in ordered)
      && IsChain(files, stack)
      && (forall name :: name in path <==> name in stack)
      && placed !! path && path <= files.Keys
    }

    constructor (files: Files)
      ensures Valid() && this.files == files && ordered == [] && path == {} && stack == []
    {
      this.files := files;
      placed, path, ordered, stack := {}, {}, [], [];
    }

    /** Places the file and everything it imports, or finds a cycle. */
    method Visit(name: string) returns (ok: bool)
      requires Valid()
      requires stack != [] ==> name !in files || Imports(files, stack[|stack| - 1], name)
      modifies this
      ensures ok ==> Valid() && path == old(path) && stack == old(stack)
      ensures ok ==> old(ordered) <= ordered && old(placed) <= placed && (name in files ==> name in placed)
      ensures !ok ==> HasCycle(files)
      decreases files.Keys - path
    {
      if name in placed || name !in files {
        return true;
      }
      if name in path {
        ClosesACycle(files, stack, name);
        return false;
      }
      ghost var outer, outerPath := stack, path;
      path := path + {name};
      stack := stack + [name];
      StillAChain(files, outer, name);
      var dependencies := files[name];
      for k := 0 to |dependencies|
        invariant Valid() && path == outerPath + {name} && stack == outer + [name]
        invariant old(ordered) <= ordered && old(placed) <= placed
        invariant forall j :: 0 <= j < k && dependencies[j] in files ==> dependencies[j] in placed
      {
        ok := Visit(dependencies[k]);
        if !ok {
          return false;
        }
      }
      path := path - {name};
      stack := outer;
      placed := placed + {name};
      PlacedLast(files, ordered, name);
      ordered := ordered + [name];
      ok := true;
    }
  }

  lemma ClosesACycle(files: Files, stack: seq<string>, name: string)
    requires IsChain(files, stack) && name in stack && Imports(files, stack[|stack| - 1], name)
    ensures HasCycle(files)
  {
    var i :| 0 <= i < |stack| && stack[i] == name;
    assert IsCycle(files, stack[i..] + [name]);
  }

  lemma StillAChain(files: Files, stack: seq<string>, name: string)
    requires IsChain(files, stack) && (stack != [] ==> Imports(files, stack[|stack| - 1], name))
    ensures IsChain(files, stack + [name])
  {
  }

  lemma PlacedLast(files: Files, ordered: seq<string>, name: string)
    requires InOrder(files, ordered) && Distinct(ordered) && name in files && name !in ordered
    requires forall d :: Imports(files, name, d) ==> d in ordered
    ensures InOrder(files, ordered + [name]) && Distinct(ordered + [name])
  {
    var more := ordered + [name];
    forall k, d | 0 <= k < |more| && Imports(files, more[k], d) ensures d in more[..k] {
      assert more[..k] == ordered[..k];
    }
  }

  /** On success every file is listed exactly once, after all it imports; and it fails exactly when
      the imports among the files present contain a cycle. */
  method Sorted(files: Files) returns (r: Option<seq<string>>)
    ensures r.Some? <==> !HasCycle(files)
    ensures r.Some? ==> Distinct(r.value) && InOrder(files, r.value)
    ensures r.Some? ==> forall name :: name in r.value <==> name in files
  {
    var names := NameOrder.KeysInOrder(files.Keys);
    var sorter := new Sorter(files);
    for k := 0 to |names|
      invariant sorter.Valid() && sorter.files == files && sorter.path == {} && sorter.stack == []
      invariant forall j :: 0 <= j < k ==> names[j] in sorter.placed
    {
      assert names[k] in names;
      var ok := sorter.Visit(names[k]);
      if !ok {
        return None;
      }
    }
    forall name ensures name in sorter.ordered <==> name in files {
      if name in files { assert name in names; }
      if name in sorter.ordered { assert name in sorter.placed; }
    }
    OrderedHasNoCycle(files, sorter.ordered);
    r := Some(sorter.ordered);
  }

  /** Along imports the place in the list only goes down. */
  lemma {:induction false} ChainGoesDown(files: Files, ordered: seq<string>, p: seq<string>, a: nat, b: nat)
    requires InOrder(files, ordered) && Distinct(ordered) && IsChain(files, p) && |p| >= 2
    requires a < |ordered| && b < |ordered| && ordered[a] == p[0] && ordered[b] == p[|p| - 1]
    ensures b < a
  {
    assert Imports(files, p[0], p[1]) && p[1] in ordered[..a];
    var c :| 0 <= c < a && ordered[c] == p[1];
    if |p| == 2 {
      assert b == c;
    } else {
      var rest := p[1..];
      assert IsChain(files, rest);
      ChainGoesDown(files, ordered, rest, c, b);
    }
  }

  lemma {:induction false} OrderedHasNoCycle(files: Files, ordered: seq<string>)
    requires InOrder(files, ordered) && Distinct(ordered) && forall name :: name in files ==> name in ordered
    ensures !HasCycle(files)
  {
    forall p | IsCycle(files, p) ensures false {
      assert Imports(files, p[0], p[1]);
      var a :| 0 <= a < |ordered| && ordered[a] == p[0];
      ChainGoesDown(files, ordered, p, a, a);
    }
  }
}
