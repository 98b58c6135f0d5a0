/** Suggesting the word that was probably meant (internal/text/nearest.go): the two-row edit
    distance, and the choice of the nearest valid word.  Words are compared byte by byte, so a
    `string` here is a sequence of bytes.  */
module EditDistance {

  function Min(a: nat, b: nat): nat { if a <= b then a else b }

  function Cost(x: char, y: char): nat { if x == y then 0 else 1 }

  /** Levenshtein distance: the fewest insertions, deletions and substitutions. */
  function Distance(a: string, b: string): nat
    decreases |a| + |b|
  {
    if a == [] then |b|
    else if b == [] then |a|
    else
      var a', b' := a[..|a| - 1], b[..|b| - 1];
      Min(Min(Distance(a, b') + 1, Distance(a', b) + 1), Distance(a', b') + Cost(a[|a| - 1], b[|b| - 1]))
  }

  /** The row of the table for a prefix of the first word. */
  ghost predicate IsRow(row: array<nat>, a: string, b: string, n: nat)
    reads row
  {
    n <= |b| + 1 == row.Length && forall k :: 0 <= k < n ==> row[k] == Distance(a, b[..k])
  }

  /** One row from the row above it. */
  method FillRow(first: string, second: string, i: nat, previous: array<nat>, current: array<nat>)
    requires 1 <= i <= |first| && previous != current && current.Length == |second| + 1
    requires IsRow(previous, first[..i - 1], second, |second| + 1)
    modifies current
    ensures IsRow(current, first[..i], second, |second| + 1)
  {
    hide Distance;
    FirstCell(first[..i], second);
    current[0] := i;
    for j := 1 to |second| + 1
      invariant IsRow(current, first[..i], second, j)
    {
      var cost := 1;
      if first[i - 1] == second[j - 1] {
        cost := 0;
      }
      NextCell(first[..i], second[..j]);
      assert first[..i][..i - 1] == first[..i - 1] && second[..j][..j - 1] == second[..j - 1];
      current[j] := Min(Min(current[j - 1] + 1, previous[j] + 1), previous[j - 1] + cost);
    }
  }

  lemma FirstCell(a: string, b: string)
    ensures Distance(a, b[..0]) == |a|
  {
  }

  lemma NextCell(a: string, b: string)
    requires a != [] && b != []
    ensures var a', b' := a[..|a| - 1], b[..|b| - 1];
            Distance(a, b)
            == Min(Min(Distance(a, b') + 1, Distance(a', b) + 1), Distance(a', b') + Cost(a[|a| - 1], b[|b| - 1]))
  {
  }

  /** The rows of the table are overwritten; the last one holds the distance. */
  method TwoRowDistance(first: string, second: string) returns (distance: nat)
    ensures distance == Distance(first, second)
  {
    var previous := new nat[|second| + 1](j => 0);
    var current := new nat[|second| + 1](j => 0);
    for j := 0 to |second| + 1
      invariant forall k :: 0 <= k < j ==> previous[k] == k
    {
      previous[j] := j;
    }
    assert first[..0] == [];
    for i := 1 to |first| + 1
      invariant IsRow(previous, first[..i - 1], second, |second| + 1)
    {
      hide Distance;
      FillRow(first, second, i, previous, current);
      forall k | 0 <= k <= |second| {
        previous[k] := current[k];
      }
    }
    assert first[..|first|] == first && second[..|second|] == second;
    distance := previous[|second|];
  }

  // ----- The distance is a metric -----

  lemma {:induction false} DistanceIsSymmetric(a: string, b: string)
    ensures Distance(a, b) == Distance(b, a)
    decreases |a| + |b|
  {
    if a != [] && b != [] {
      DistanceIsSymmetric(a[..|a| - 1], b);
      DistanceIsSymmetric(a, b[..|b| - 1]);
      DistanceIsSymmetric(a[..|a| - 1], b[..|b| - 1]);
    }
  }

  /** At least the difference of the lengths, at most their sum. */
  lemma {:induction false} DistanceWithinLengths(a: string, b: string)
    ensures |a| <= |b| + Distance(a, b) && |b| <= |a| + Distance(a, b) && Distance(a, b) <= |a| + |b|
    decreases |a| + |b|
  {
    if a != [] && b != [] {
      DistanceWithinLengths(a[..|a| - 1], b);
      DistanceWithinLengths(a, b[..|b| - 1]);
      DistanceWithinLengths(a[..|a| - 1], b[..|b| - 1]);
    }
  }

  lemma {:induction false} DistanceToItself(a: string)
    ensures Distance(a, a) == 0
  {
    if a != [] { DistanceToItself(a[..|a| - 1]); }
  }

  lemma {:induction false} DistanceZeroIsEqual(a: string, b: string)
    requires Distance(a, b) == 0
    ensures a == b
    decreases |a| + |b|
  {
    if a != [] && b != [] {
      DistanceZeroIsEqual(a[..|a| - 1], b[..|b| - 1]);
      assert a == a[..|a| - 1] + [a[|a| - 1]] && b == b[..|b| - 1] + [b[|b| - 1]];
    }
  }

  /** One step of any kind at the end costs what it says. */
  lemma DistanceSteps(a: string, b: string)
    requires a != [] && b != []
    ensures var a', b' := a[..|a| - 1], b[..|b| - 1];
            && Distance(a, b) <= Distance(a', b) + 1
            && Distance(a, b) <= Distance(a, b') + 1
            && Distance(a, b) <= Distance(a', b') + Cost(a[|a| - 1], b[|b| - 1])
            && (|| Distance(a, b) == Distance(a', b) + 1
                || Distance(a, b) == Distance(a, b') + 1
                || Distance(a, b) == Distance(a', b') + Cost(a[|a| - 1], b[|b| - 1]))
  {
  }

  /** A detour over any third word is never shorter. */
  lemma {:induction false} TriangleInequality(a: string, b: string, c: string)
    ensures Distance(a, c) <= Distance(a, b) + Distance(b, c)
    decreases |a| + |b| + |c|
  {
    if a == [] || b == [] || c == [] {
      DistanceWithinLengths(a, c);
      DistanceWithinLengths(b, c);
      DistanceWithinLengths(a, b);
    } else {
      var a', b', c' := a[..|a| - 1], b[..|b| - 1], c[..|c| - 1];
      var x, y, z := a[|a| - 1], b[|b| - 1], c[|c| - 1];
      DistanceSteps(a, b);
      DistanceSteps(b, c);
      DistanceSteps(a, c);
      hide Distance;
      if Distance(a, b) == Distance(a', b) + 1 {
        TriangleInequality(a', b, c);
      } else if Distance(b, c) == Distance(b, c') + 1 {
        TriangleInequality(a, b, c');
      } else if Distance(a, b) == Distance(a, b') + 1 {
        if Distance(b, c) == Distance(b', c) + 1 {
          TriangleInequality(a, b', c);
        } else {
          TriangleInequality(a, b', c');
        }
      } else if Distance(b, c) == Distance(b', c) + 1 {
        TriangleInequality(a', b', c);
      } else {
        TriangleInequality(a', b', c');
      }
    }
  }

  // ----- The distance is the least number of edits -----

  /** One character inserted, removed or replaced. */
  ghost predicate Inserts(a: string, b: string) {
    exists i :: 0 <= i < |b| && a == b[..i] + b[i + 1..]
  }

  ghost predicate Replaces(a: string, b: string) {
    |a| == |b| && exists i :: 0 <= i < |a| && b == a[..i] + [b[i]] + a[i + 1..]
  }

  ghost predicate OneEdit(a: string, b: string) { Inserts(a, b) || Inserts(b, a) || Replaces(a, b) }

  /** Words from the first to the last, each one edit from the one before. */
  ghost predicate IsScript(words: seq<string>) {
    words != [] && forall k :: 0 <= k < |words| - 1 ==> OneEdit(words[k], words[k + 1])
  }

  lemma SameEnding(a: string, b: string, c: char)
    ensures Distance(a + [c], b + [c]) <= Distance(a, b)
  {
    DistanceSteps(a + [c], b + [c]);
    assert (a + [c])[..|a|] == a && (b + [c])[..|b|] == b;
  }

  lemma {:induction false} SameEndings(a: string, b: string, rest: string)
    ensures Distance(a + rest, b + rest) <= Distance(a, b)
  {
    hide Distance;
    if rest == [] {
      assert a + rest == a && b + rest == b;
    } else {
      var init, last := rest[..|rest| - 1], rest[|rest| - 1];
      SameEndings(a, b, init);
      SameEnding(a + init, b + init, last);
      assert a + rest == (a + init) + [last] && b + rest == (b + init) + [last];
    }
  }

  lemma InsertedCosts(a: string, c: char)
    ensures Distance(a, a + [c]) <= 1
  {
    DistanceToItself(a);
    assert (a + [c])[..|a|] == a;
    if a == [] {
      DistanceWithinLengths(a, a + [c]);
    } else {
      DistanceSteps(a, a + [c]);
    }
  }

  lemma ReplacedCosts(a: string, c: char, d: char)
    ensures Distance(a + [c], a + [d]) <= 1
  {
    DistanceToItself(a);
    DistanceSteps(a + [c], a + [d]);
    assert (a + [c])[..|a|] == a && (a + [d])[..|a|] == a;
  }

  lemma InsertingCosts(a: string, b: string)
    requires Inserts(a, b)
    ensures Distance(a, b) <= 1
  {
    hide Distance;
    var i :| 0 <= i < |b| && a == b[..i] + b[i + 1..];
    InsertedCosts(b[..i], b[i]);
    SameEndings(b[..i], b[..i] + [b[i]], b[i + 1..]);
    assert b == b[..i] + [b[i]] + b[i + 1..];
  }

  lemma ReplacingCosts(p: string, c: char, d: char, rest: string)
    ensures Distance(p + [c] + rest, p + [d] + rest) <= 1
  {
    hide Distance;
    ReplacedCosts(p, c, d);
    SameEndings(p + [c], p + [d], rest);
  }

  lemma OneEditCosts(a: string, b: string)
    requires OneEdit(a, b)
    ensures Distance(a, b) <= 1
  {
    hide Distance;
    if Replaces(a, b) {
      var i :| 0 <= i < |a| && b == a[..i] + [b[i]] + a[i + 1..];
      assert a == a[..i] + [a[i]] + a[i + 1..];
      ReplacingCosts(a[..i], a[i], b[i], a[i + 1..]);
    } else if Inserts(a, b) {
      InsertingCosts(a, b);
    } else {
      InsertingCosts(b, a);
      DistanceIsSymmetric(a, b);
    }
  }

  /** No script is shorter than the distance. */
  lemma {:induction false} ScriptsAreNotShorter(words: seq<string>)
    requires IsScript(words)
    ensures Distance(words[0], words[|words| - 1]) <= |words| - 1
  {
    hide OneEdit, Distance;
    var n := |words| - 1;
    if n == 0 {
      DistanceToItself(words[0]);
    } else {
      ScriptsAreNotShorter(words[..n]);
      assert OneEdit(words[n - 1], words[n]);
      OneEditCosts(words[n - 1], words[n]);
      TriangleInequality(words[0], words[n - 1], words[n]);
    }
  }

  /** The same character after every word of a script. */
  lemma {:induction false} Extended(words: seq<string>, c: char) returns (r: seq<string>)
    requires IsScript(words)
    ensures IsScript(r) && |r| == |words|
    ensures r[0] == words[0] + [c] && r[|r| - 1] == words[|words| - 1] + [c]
  {
    var n := |words| - 1;
    if n == 0 {
      r := [words[0] + [c]];
    } else {
      var before := Extended(words[..n], c);
      assert OneEdit(words[n - 1], words[n]);
      StillOneEdit(words[n - 1], words[n], c);
      r := before + [words[n] + [c]];
    }
  }

  lemma StillInserts(a: string, b: string, c: char)
    requires Inserts(a, b)
    ensures Inserts(a + [c], b + [c])
  {
    var i :| 0 <= i < |b| && a == b[..i] + b[i + 1..];
    var d := b + [c];
    assert d[..i] == b[..i] && d[i + 1..] == b[i + 1..] + [c];
    assert a + [c] == d[..i] + d[i + 1..];
  }

  lemma StillOneEdit(a: string, b: string, c: char)
    requires OneEdit(a, b)
    ensures OneEdit(a + [c], b + [c])
  {
    if Inserts(a, b) {
      StillInserts(a, b, c);
    } else if Inserts(b, a) {
      StillInserts(b, a, c);
    } else {
      var i :| 0 <= i < |a| && b == a[..i] + [b[i]] + a[i + 1..];
      var d, e := a + [c], b + [c];
      assert d[..i] == a[..i] && d[i + 1..] == a[i + 1..] + [c] && e[i] == b[i];
      assert e == d[..i] + [e[i]] + d[i + 1..];
    }
  }

  /** One more step at the end of a script. */
  lemma OneMore(words: seq<string>, w: string)
    requires IsScript(words) && OneEdit(words[|words| - 1], w)
    ensures IsScript(words + [w])
  {
  }

  lemma EndingsDiffer(a: string, c: char, d: char)
    ensures Inserts(a, a + [c]) && Replaces(a + [c], a + [d])
  {
    var x, y := a + [c], a + [d];
    assert x[..|a|] == a && x[|a| + 1..] == [] && a == x[..|a|] + x[|a| + 1..];
    assert y == x[..|a|] + [y[|a|]] + x[|a| + 1..];
  }

  lemma DistanceToNothing(a: string)
    ensures Distance(a, "") == |a| == Distance("", a)
  {
  }

  /** Which of the three last edits a distance is made of. */
  lemma LastEdit(a: string, b: string)
    requires a != [] || b != []
    ensures || (a != [] && Distance(a, b) == Distance(a[..|a| - 1], b) + 1)
            || (b != [] && Distance(a, b) == Distance(a, b[..|b| - 1]) + 1)
            || (a != [] && b != []
                && Distance(a, b) == Distance(a[..|a| - 1], b[..|b| - 1]) + Cost(a[|a| - 1], b[|b| - 1]))
  {
    if a == [] {
      DistanceToNothing(b);
      DistanceToNothing(b[..|b| - 1]);
    } else if b == [] {
      DistanceToNothing(a);
      DistanceToNothing(a[..|a| - 1]);
    } else {
      DistanceSteps(a, b);
    }
  }

  /** And one is as short: a script of exactly as many edits as the distance. */
  lemma {:induction false} AScriptIsAsShort(a: string, b: string) returns (words: seq<string>)
    ensures IsScript(words) && words[0] == a && words[|words| - 1] == b && |words| - 1 == Distance(a, b)
    decreases |a| + |b|, 1
  {
    if a == [] && b == [] {
      DistanceToItself(a);
      return [a];
    }
    hide OneEdit, Distance;
    LastEdit(a, b);
    if a != [] && Distance(a, b) == Distance(a[..|a| - 1], b) + 1 {
      words := RemovedFirst(a, b);
    } else if b != [] && Distance(a, b) == Distance(a, b[..|b| - 1]) + 1 {
      var c := b[|b| - 1];
      var before := AScriptIsAsShort(a, b[..|b| - 1]);
      assert b == b[..|b| - 1] + [c];
      EndEdits(b[..|b| - 1], c, c);
      words := before + [b];
      OneMore(before, b);
    } else {
      words := ComparedLast(a, b);
    }
  }

  lemma {:induction false} ComparedLast(a: string, b: string) returns (words: seq<string>)
    requires a != [] && b != []
    requires Distance(a, b) == Distance(a[..|a| - 1], b[..|b| - 1]) + Cost(a[|a| - 1], b[|b| - 1])
    ensures IsScript(words) && words[0] == a && words[|words| - 1] == b && |words| - 1 == Distance(a, b)
    decreases |a| + |b|, 0
  {
    hide OneEdit, Distance;
    var c, d := a[|a| - 1], b[|b| - 1];
    assert a == a[..|a| - 1] + [c] && b == b[..|b| - 1] + [d];
    var before := AScriptIsAsShort(a[..|a| - 1], b[..|b| - 1]);
    words := Extended(before, c);
    if c != d {
      EndEdits(b[..|b| - 1], c, d);
      OneMore(words, b);
      words := words + [b];
    }
  }

  lemma EndEdits(a: string, c: char, d: char)
    ensures OneEdit(a, a + [c]) && OneEdit(a + [c], a) && OneEdit(a + [c], a + [d])
  {
    EndingsDiffer(a, c, d);
  }

  lemma {:induction false} RemovedFirst(a: string, b: string) returns (words: seq<string>)
    requires a != [] && Distance(a, b) == Distance(a[..|a| - 1], b) + 1
    ensures IsScript(words) && words[0] == a && words[|words| - 1] == b && |words| - 1 == Distance(a, b)
    decreases |a| + |b|, 0
  {
    hide OneEdit, Distance;
    var before := AScriptIsAsShort(a[..|a| - 1], b);
    assert a == a[..|a| - 1] + [a[|a| - 1]];
    EndEdits(a[..|a| - 1], a[|a| - 1], a[|a| - 1]);
    words := [a] + before;
    forall k | 0 <= k < |words| - 1 ensures OneEdit(words[k], words[k + 1]) {
      if k > 0 { assert OneEdit(before[k - 1], before[k]); }
    }
  }

  // ----- The nearest word -----

  /** How words are lowered is left open, except that only the empty word lowers to nothing. */
  ghost predicate Lowers(lower: string -> string) {
    forall s :: lower(s) == "" <==> s == ""
  }

  const Farthest := 0x4000_0000

  function Tolerance(received: string): nat {
    if |received| <= 4 then 1 else if |received| <= 8 then 2 else 3
  }

  /** One typing error up to four characters, three from nine on, and two in between. */
  lemma {:induction false} ToleranceSteps(received: string)
    ensures Tolerance(received) == 1 <==> |received| < 5
    ensures Tolerance(received) == 2 <==> 5 <= |received| < 9
    ensures Tolerance(received) == 3 <==> 9 <= |received|
  {
  }

  ghost function Apart(lower: string -> string, received: string, candidate: string): nat {
    Distance(lower(received), lower(candidate))
  }

  /** The first of the valid words that none is nearer than. */
  ghost predicate IsNearest(lower: string -> string, received: string, valid: seq<string>, i: int) {
    && 0 <= i < |valid|
    && (forall j :: 0 <= j < |valid| ==> Apart(lower, received, valid[i]) <= Apart(lower, received, valid[j]))
    && (forall j :: 0 <= j < i ==> Apart(lower, received, valid[i]) < Apart(lower, received, valid[j]))
  }

  predicate Begins(lower: string -> string, received: string, candidate: string) {
    lower(received) <= lower(candidate)
  }

  /** The first of the shortest valid words that begin like the one received. */
  ghost predicate IsShortest(lower: string -> string, received: string, valid: seq<string>, i: int) {
    && 0 <= i < |valid| && Begins(lower, received, valid[i])
    && (forall j :: 0 <= j < |valid| && Begins(lower, received, valid[j]) ==> |valid[i]| <= |valid[j]|)
    && (forall j :: 0 <= j < i && Begins(lower, received, valid[j]) ==> |valid[i]| < |valid[j]|)
  }

  method Abbreviation(lower: string -> string, received: string, valid: seq<string>) returns (best: string, found: bool)
    requires Lowers(lower)
    ensures found <==> |received| >= 3 && exists j :: 0 <= j < |valid| && Begins(lower, received, valid[j])
    ensures found ==> exists i :: IsShortest(lower, received, valid, i) && best == valid[i]
    ensures !found ==> best == ""
  {
    if |received| < 3 {
      return "", false;
    }
    best := "";
    ghost var at := 0;
    for k := 0 to |valid|
      invariant best == "" ==> forall j :: 0 <= j < k ==> !Begins(lower, received, valid[j])
      invariant best != "" ==> IsShortest(lower, received, valid[..k], at) && best == valid[at]
    {
      var candidate := valid[k];
      if !Begins(lower, received, candidate) {
        continue;
      }
      assert candidate != "";
      if best == "" || |candidate| < |best| {
        best, at := candidate, k;
      }
    }
    assert valid[..|valid|] == valid;
    found := best != "";
  }

  /** The nearest word is near enough to be the one that was meant. */
  ghost predicate IsMeant(lower: string -> string, received: string, valid: seq<string>, i: int) {
    IsNearest(lower, received, valid, i) && valid[i] != "" && Apart(lower, received, valid[i]) <= Tolerance(received)
  }

  /** The nearest valid word when it is within the tolerance, else the abbreviated one if any. */
  method Closest(lower: string -> string, received: string, valid: seq<string>) returns (word: string, found: bool)
    requires Lowers(lower)
    ensures forall i :: IsMeant(lower, received, valid, i) ==> found && word == valid[i]
    ensures (forall i :: !IsMeant(lower, received, valid, i)) ==>
              (found <==> |received| >= 3 && exists j :: 0 <= j < |valid| && Begins(lower, received, valid[j]))
    ensures (forall i :: !IsMeant(lower, received, valid, i)) && found ==>
              exists i :: IsShortest(lower, received, valid, i) && word == valid[i]
  {
    var best, shortest, at := Nearest(lower, received, valid);
    hide Apart;
    if shortest < Farthest {
      NearestIsUnique(lower, received, valid, at);
    }
    if best != "" && shortest <= Tolerance(received) {
      assert IsMeant(lower, received, valid, at);
      return best, true;
    }
    assert forall i :: !IsMeant(lower, received, valid, i);
    word, found := Abbreviation(lower, received, valid);
  }

  /** The loop over the valid words, keeping the first of the nearest ones seen. */
  method Nearest(lower: string -> string, received: string, valid: seq<string>)
    returns (best: string, shortest: int, ghost at: int)
    ensures shortest < Farthest ==>
              IsNearest(lower, received, valid, at) && best == valid[at] && shortest == Apart(lower, received, best)
    ensures shortest >= Farthest ==>
              best == "" && forall i :: 0 <= i < |valid| ==> Apart(lower, received, valid[i]) >= Farthest
  {
    hide Distance;
    best, shortest, at := "", Farthest, 0;
    for k := 0 to |valid|
      invariant shortest <= Farthest && (shortest == Farthest ==> best == "")
      invariant shortest < Farthest ==>
          0 <= at < k && best == valid[at] && shortest == Apart(lower, received, best)
      invariant forall j :: 0 <= j < k ==> shortest <= Apart(lower, received, valid[j])
      invariant shortest < Farthest ==> forall j :: 0 <= j < at ==> shortest < Apart(lower, received, valid[j])
    {
      var distance := TwoRowDistance(lower(received), lower(valid[k]));
      if distance < shortest {
        best, shortest, at := valid[k], distance, k;
      }
    }
  }

  lemma {:induction false} NearestIsUnique(lower: string -> string, received: string, valid: seq<string>, i: int)
    requires IsNearest(lower, received, valid, i)
    ensures forall j :: IsNearest(lower, received, valid, j) ==> j == i
  {
    hide Distance;
    forall j | IsNearest(lower, received, valid, j) ensures j == i {
      var a, b := Apart(lower, received, valid[i]), Apart(lower, received, valid[j]);
      assert a <= b <= a;
    }
  }
}
