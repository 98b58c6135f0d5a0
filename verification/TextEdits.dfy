/** The text rewrite of the migration (`apply` in internal/scenario/migration.go): positioned edits
    are applied to the lines of the file from the last to the first, so that an earlier edit does
    not move the column of a later one.  Text is a sequence of code points.  */
module TextEdits {

  /** Line and column count from one, as the YAML parser reports them. */
  datatype Edit = Edit(line: int, column: int, from: string, to: string) {
    function Start(): int { column - 1 }
    function End(): int { column - 1 + |from| }
  }

  datatype Change = Change(line: int, from: string, to: string)

  // ----- Lines -----

  function Split(text: string): (lines: seq<string>)
    ensures |lines| >= 1 && forall k :: 0 <= k < |lines| ==> '\n' !in lines[k]
  {
    if text == [] then [""]
    else if text[0] == '\n' then [""] + Split(text[1..])
    else
      var rest := Split(text[1..]);
      [[text[0]] + rest[0]] + rest[1..]
  }

  function Join(lines: seq<string>): string
    requires lines != []
  {
    if |lines| == 1 then lines[0] else lines[0] + "\n" + Join(lines[1..])
  }

  lemma {:induction false} JoinOfSplit(text: string)
    ensures Join(Split(text)) == text
  {
    if text != [] {
      var rest := Split(text[1..]);
      JoinOfSplit(text[1..]);
      if text[0] == '\n' {
        assert Split(text)[1..] == rest;
        assert text == "\n" + text[1..];
      } else {
        assert Split(text)[1..] == rest[1..];
        assert text == [text[0]] + text[1..];
        if |rest| == 1 {
          assert Join(Split(text)) == [text[0]] + rest[0];
        } else {
          assert [text[0]] + rest[0] + "\n" + Join(rest[1..]) == [text[0]] + (rest[0] + "\n" + Join(rest[1..]));
        }
      }
    }
  }

  lemma {:induction false} SplitOfLine(line: string)
    requires '\n' !in line
    ensures Split(line) == [line]
  {
    if line != [] {
      SplitOfLine(line[1..]);
      assert [line[0]] + line[1..] == line;
    }
  }

  lemma {:induction false} SplitAfterLine(line: string, rest: string)
    requires '\n' !in line
    ensures Split(line + "\n" + rest) == [line] + Split(rest)
  {
    var text := line + "\n" + rest;
    if line == [] {
      assert text[1..] == rest;
    } else {
      assert text[1..] == line[1..] + "\n" + rest;
      SplitAfterLine(line[1..], rest);
      assert [line[0]] + line[1..] == line;
    }
  }

  lemma {:induction false} SplitOfJoin(lines: seq<string>)
    requires lines != [] && forall k :: 0 <= k < |lines| ==> '\n' !in lines[k]
    ensures Split(Join(lines)) == lines
  {
    if |lines| == 1 {
      SplitOfLine(lines[0]);
    } else {
      SplitOfJoin(lines[1..]);
      SplitAfterLine(lines[0], Join(lines[1..]));
      assert [lines[0]] + lines[1..] == lines;
    }
  }

  // ----- All edits of a line at once -----

  /** The text of the edit stands where it should. */
  predicate Matches(text: string, e: Edit) {
    0 <= e.Start() && e.End() <= |text| && text[e.Start()..e.End()] == e.from
  }

  /** Edits of one line, from left to right and apart from each other, from position x on. */
  ghost predicate Apart(edits: seq<Edit>, x: int) {
    edits == [] || (x <= edits[0].Start() && Apart(edits[1..], edits[0].End()))
  }

  lemma {:induction false} ApartFurther(edits: seq<Edit>, x: int, y: int)
    requires Apart(edits, x) && y <= x
    ensures Apart(edits, y)
  {
  }

  /** Every matching span replaced at once; the text in between is copied.  Reads from position x. */
  ghost function Replaced(text: string, edits: seq<Edit>, x: nat): string
    requires x <= |text| && Apart(edits, x)
  {
    if edits == [] then text[x..]
    else if Matches(text, edits[0]) then
      text[x..edits[0].Start()] + edits[0].to + Replaced(text, edits[1..], edits[0].End())
    else
      ApartFurther(edits[1..], edits[0].End(), x);
      Replaced(text, edits[1..], x)
  }

  /** Everything before the first edit is copied. */
  lemma {:induction false} CopiedBefore(text: string, edits: seq<Edit>, x: nat, y: nat)
    requires x <= y <= |text| && Apart(edits, y)
    ensures Apart(edits, x)
    ensures Replaced(text, edits, x) == text[x..y] + Replaced(text, edits, y)
  {
    ApartFurther(edits, y, x);
    if edits == [] {
      assert text[x..] == text[x..y] + text[y..];
    } else if Matches(text, edits[0]) {
      CopiedUpToTheEdit(text, edits, x, y);
    } else {
      ApartFurther(edits[1..], edits[0].End(), y);
      ApartFurther(edits[1..], edits[0].End(), x);
      CopiedBefore(text, edits[1..], x, y);
      hide Matches;
    }
  }

  lemma CopiedUpToTheEdit(text: string, edits: seq<Edit>, x: nat, y: nat)
    requires x <= y <= |text| && Apart(edits, y) && edits != [] && Matches(text, edits[0])
    ensures Apart(edits, x)
    ensures Replaced(text, edits, x) == text[x..y] + Replaced(text, edits, y)
  {
    ApartFurther(edits, y, x);
    var s, rest := edits[0].Start(), Replaced(text, edits[1..], edits[0].End());
    assert Replaced(text, edits, x) == text[x..s] + edits[0].to + rest;
    assert Replaced(text, edits, y) == text[y..s] + edits[0].to + rest;
    hide Replaced, Apart;
    ThreeParts(text, x, y, s, edits[0].to, rest);
  }

  lemma ThreeParts(text: string, x: nat, y: nat, s: nat, to: string, rest: string)
    requires x <= y <= s <= |text|
    ensures text[x..s] + to + rest == text[x..y] + (text[y..s] + to + rest)
  {
    assert text[x..s] == text[x..y] + text[y..s];
  }

  /** Edits that begin past the end of the text change nothing. */
  lemma {:induction false} BeyondTheEnd(text: string, edits: seq<Edit>, x: int)
    requires Apart(edits, x) && x > |text|
    ensures Apart(edits, 0) && Replaced(text, edits, 0) == text
  {
    ApartFurther(edits, x, 0);
    if edits != [] {
      BeyondTheEnd(text, edits[1..], edits[0].End());
    }
  }

  /** What the loop does to one line. */
  function Applied(text: string, e: Edit): string {
    if Matches(text, e) then text[..e.Start()] + e.to + text[e.End()..] else text
  }

  /** Applying an edit after those to its right is replacing it together with them: whether it
      matches was not changed by them, and neither was its place. */
  lemma {:induction false} OneMoreToTheLeft(text: string, e: Edit, edits: seq<Edit>)
    requires Apart([e] + edits, 0)
    ensures Apart(edits, 0)
    ensures Matches(Replaced(text, edits, 0), e) <==> Matches(text, e)
    ensures Applied(Replaced(text, edits, 0), e) == Replaced(text, [e] + edits, 0)
  {
    var all, x := [e] + edits, e.End();
    assert all[1..] == edits && all[0] == e;
    ApartFurther(edits, x, 0);
    if x > |text| {
      BeyondTheEnd(text, edits, x);
    } else {
      CopiedBefore(text, edits, 0, x);
      var now := Replaced(text, edits, 0);
      assert now[..x] == text[..x];
      assert now[e.Start()..x] == text[e.Start()..x];
      assert now[x..] == Replaced(text, edits, x);
      assert now[..e.Start()] == text[..e.Start()];
    }
  }

  // ----- All edits of a file -----

  function EditsOn(edits: seq<Edit>, line: int): seq<Edit> {
    if edits == [] then []
    else if edits[0].line == line then [edits[0]] + EditsOn(edits[1..], line)
    else EditsOn(edits[1..], line)
  }

  /** On every line the edits stand from left to right and apart. */
  ghost predicate WellPlaced(edits: seq<Edit>) {
    forall line :: Apart(EditsOn(edits, line), 0)
  }

  lemma TailIsWellPlaced(edits: seq<Edit>)
    requires WellPlaced(edits) && edits != []
    ensures WellPlaced(edits[1..])
  {
    forall line ensures Apart(EditsOn(edits[1..], line), 0) {
      assert Apart(EditsOn(edits, line), 0);
      if edits[0].line == line {
        var all := EditsOn(edits, line);
        assert all[1..] == EditsOn(edits[1..], line);
        ApartFurther(all[1..], all[0].End(), 0);
      }
    }
  }

  predicate Applies(lines: seq<string>, e: Edit) {
    1 <= e.line <= |lines| && Matches(lines[e.line - 1], e)
  }

  /** The file with every matching span of every line replaced at once. */
  ghost function ReplacedLines(lines: seq<string>, edits: seq<Edit>): (r: seq<string>)
    requires WellPlaced(edits)
    ensures |r| == |lines|
    ensures forall i :: 0 <= i < |lines| ==>
              Apart(EditsOn(edits, i + 1), 0) && r[i] == Replaced(lines[i], EditsOn(edits, i + 1), 0)
  {
    seq(|lines|, i requires 0 <= i < |lines| && Apart(EditsOn(edits, i + 1), 0) =>
      Replaced(lines[i], EditsOn(edits, i + 1), 0))
  }

  /** The edits that apply to the file, in document order. */
  ghost function ChangesOf(lines: seq<string>, edits: seq<Edit>): seq<Change> {
    if edits == [] then []
    else if Applies(lines, edits[0])
    then [Change(edits[0].line, edits[0].from, edits[0].to)] + ChangesOf(lines, edits[1..])
    else ChangesOf(lines, edits[1..])
  }

  function AppliedTo(lines: seq<string>, e: Edit): seq<string> {
    if Applies(lines, e) then lines[e.line - 1 := Applied(lines[e.line - 1], e)] else lines
  }

  lemma OneMoreInFront(lines: seq<string>, edits: seq<Edit>)
    requires WellPlaced(edits) && edits != []
    ensures WellPlaced(edits[1..])
    ensures Applies(ReplacedLines(lines, edits[1..]), edits[0]) <==> Applies(lines, edits[0])
    ensures AppliedTo(ReplacedLines(lines, edits[1..]), edits[0]) == ReplacedLines(lines, edits)
  {
    TailIsWellPlaced(edits);
    var e, rest := edits[0], edits[1..];
    var now, then_ := ReplacedLines(lines, rest), ReplacedLines(lines, edits);
    if 1 <= e.line <= |lines| {
      assert EditsOn(edits, e.line) == [e] + EditsOn(rest, e.line);
      OneMoreToTheLeft(lines[e.line - 1], e, EditsOn(rest, e.line));
    }
    forall i | 0 <= i < |lines| ensures AppliedTo(now, e)[i] == then_[i] {
      if i != e.line - 1 { assert EditsOn(edits, i + 1) == EditsOn(rest, i + 1); }
    }
  }

  ghost predicate Backwards(xs: seq<Change>, ys: seq<Change>) {
    |xs| == |ys| && forall k :: 0 <= k < |xs| ==> xs[k] == ys[|ys| - 1 - k]
  }

  lemma {:induction false} SuffixIsWellPlaced(edits: seq<Edit>, k: nat)
    requires WellPlaced(edits) && k <= |edits|
    ensures WellPlaced(edits[k..])
  {
    hide WellPlaced;
    if k == 0 {
      assert edits[0..] == edits;
    } else {
      SuffixIsWellPlaced(edits, k - 1);
      TailIsWellPlaced(edits[k - 1..]);
      assert edits[k - 1..][1..] == edits[k..];
    }
  }

  lemma NothingToReplace(lines: seq<string>)
    ensures WellPlaced([]) && ReplacedLines(lines, []) == lines && ChangesOf(lines, []) == []
  {
    var r := ReplacedLines(lines, []);
    assert forall i :: 0 <= i < |lines| ==> EditsOn([], i + 1) == [] && r[i] == lines[i];
  }

  /** The loop of the source: back to front, skipping what is out of range or does not match. */
  method ApplySorted(lines: seq<string>, edits: seq<Edit>) returns (r: seq<string>, changes: seq<Change>)
    requires WellPlaced(edits)
    ensures r == ReplacedLines(lines, edits)
    ensures changes == ChangesOf(lines, edits)
  {
    hide WellPlaced, ReplacedLines;
    r, changes := lines, [];
    var index := |edits|;
    assert edits[index..] == [];
    NothingToReplace(lines);
    while index > 0
      invariant 0 <= index <= |edits|
      invariant WellPlaced(edits[index..])
      invariant r == ReplacedLines(lines, edits[index..])
      invariant Backwards(changes, ChangesOf(lines, edits[index..]))
    {
      index := index - 1;
      var item := edits[index];
      SuffixIsWellPlaced(edits, index);
      assert edits[index..][1..] == edits[index + 1..] && edits[index..][0] == item;
      OneMoreInFront(lines, edits[index..]);
      if item.line - 1 < 0 || item.line - 1 >= |r| {
        continue;
      }
      var text, start := r[item.line - 1], item.column - 1;
      if start < 0 || start + |item.from| > |text| {
        continue;
      }
      if text[start..start + |item.from|] != item.from {
        continue;
      }
      r := r[item.line - 1 := text[..start] + item.to + text[start + |item.from|..]];
      changes := changes + [Change(item.line, item.from, item.to)];
    }
    assert edits[0..] == edits;
    changes := Reverse(changes);
  }

  method Reverse(xs: seq<Change>) returns (r: seq<Change>)
    ensures Backwards(r, xs)
  {
    r := xs;
    var first, last := 0, |xs| - 1;
    while first < last
      invariant 0 <= first <= |xs| && last == |xs| - 1 - first && |r| == |xs|
      invariant forall k :: first <= k <= last ==> r[k] == xs[k]
      invariant forall k :: 0 <= k < first || last < k < |xs| ==> r[k] == xs[|xs| - 1 - k]
    {
      var was := r;
      r := was[first := was[last]][last := was[first]];
      first, last := first + 1, last - 1;
    }
  }

  // ----- Sorting by position -----

  predicate Before(a: Edit, b: Edit) {
    if a.line != b.line then a.line < b.line else a.column <= b.column
  }

  ghost predicate InOrder(edits: seq<Edit>) {
    forall i, j :: 0 <= i < j < |edits| ==> Before(edits[i], edits[j])
  }

  method SortByPosition(edits: seq<Edit>) returns (sorted: seq<Edit>)
    ensures multiset(sorted) == multiset(edits) && InOrder(sorted)
  {
    sorted := [];
    for k := 0 to |edits|
      invariant multiset(sorted) == multiset(edits[..k]) && InOrder(sorted)
    {
      sorted := Insert(sorted, edits[k]);
      assert edits[..k + 1] == edits[..k] + [edits[k]];
    }
    assert edits[..|edits|] == edits;
  }

  method Insert(sorted: seq<Edit>, e: Edit) returns (r: seq<Edit>)
    requires InOrder(sorted)
    ensures multiset(r) == multiset(sorted) + multiset{e} && InOrder(r)
  {
    var at := |sorted|;
    while at > 0 && !Before(sorted[at - 1], e)
      invariant 0 <= at <= |sorted|
      invariant forall k :: at <= k < |sorted| ==> Before(e, sorted[k])
    {
      at := at - 1;
    }
    forall k | 0 <= k < at ensures Before(sorted[k], e) {
      if k < at - 1 { assert Before(sorted[k], sorted[at - 1]); }
    }
    r := sorted[..at] + [e] + sorted[at..];
    InsertedInOrder(sorted, at, e);
    InsertedSame(sorted, at, e);
  }

  lemma InsertedInOrder(sorted: seq<Edit>, at: nat, e: Edit)
    requires InOrder(sorted) && at <= |sorted|
    requires forall k :: 0 <= k < at ==> Before(sorted[k], e)
    requires forall k :: at <= k < |sorted| ==> Before(e, sorted[k])
    ensures InOrder(sorted[..at] + [e] + sorted[at..])
  {
    hide Before;
    var r := sorted[..at] + [e] + sorted[at..];
    forall i, j | 0 <= i < j < |r| ensures Before(r[i], r[j]) {
      assert r[i] == if i < at then sorted[i] else if i == at then e else sorted[i - 1];
      assert r[j] == if j < at then sorted[j] else if j == at then e else sorted[j - 1];
    }
  }

  lemma InsertedSame(sorted: seq<Edit>, at: nat, e: Edit)
    requires at <= |sorted|
    ensures multiset(sorted[..at] + [e] + sorted[at..]) == multiset(sorted) + multiset{e}
  {
    assert sorted == sorted[..at] + sorted[at..];
  }

  /** Edits of different nodes: each has some text, none begins before the line, none overlap. */
  ghost predicate Disjoint(edits: seq<Edit>) {
    && (forall k :: 0 <= k < |edits| ==> edits[k].from != "" && edits[k].column >= 1)
    && (forall i, j :: 0 <= i < j < |edits| && edits[i].line == edits[j].line ==>
          edits[i].End() <= edits[j].Start() || edits[j].End() <= edits[i].Start())
  }

  lemma {:induction false} EditsOnAre(edits: seq<Edit>, line: int, e: Edit)
    requires e in EditsOn(edits, line)
    ensures e in edits && e.line == line
  {
    if edits[0].line != line || e != edits[0] { EditsOnAre(edits[1..], line, e); }
  }

  /** Sorted, edits that do not overlap stand apart from left to right. */
  lemma {:induction false} SortedIsApart(edits: seq<Edit>, line: int)
    requires InOrder(edits) && Disjoint(edits)
    ensures Apart(EditsOn(edits, line), 0)
    ensures forall x :: (forall k :: 0 <= k < |edits| && edits[k].line == line ==> x <= edits[k].Start()) ==>
              Apart(EditsOn(edits, line), x)
  {
    if edits != [] {
      var rest := edits[1..];
      SortedIsApart(rest, line);
      if edits[0].line == line {
        forall k | 0 <= k < |rest| && rest[k].line == line ensures edits[0].End() <= rest[k].Start() {
          assert rest[k] == edits[k + 1] && Before(edits[0], edits[k + 1]);
        }
        assert Apart(EditsOn(rest, line), edits[0].End());
        assert EditsOn(edits, line)[1..] == EditsOn(rest, line);
      } else {
        assert forall k :: 0 <= k < |rest| ==> rest[k] == edits[k + 1];
      }
    }
  }

  /** Disjointness does not depend on the order the edits were collected in. */
  lemma DisjointAnyOrder(edits: seq<Edit>, sorted: seq<Edit>)
    requires Disjoint(edits) && multiset(sorted) == multiset(edits)
    ensures Disjoint(sorted)
  {
    forall k | 0 <= k < |sorted| ensures sorted[k].from != "" && sorted[k].column >= 1 {
      assert sorted[k] in multiset(edits);
    }
    forall i, j | 0 <= i < j < |sorted| && sorted[i].line == sorted[j].line
      ensures sorted[i].End() <= sorted[j].Start() || sorted[j].End() <= sorted[i].Start()
    {
      TwoOfThem(edits, sorted, i, j);
    }
  }

  lemma TwoOfThem(edits: seq<Edit>, sorted: seq<Edit>, i: nat, j: nat)
    requires Disjoint(edits) && multiset(sorted) == multiset(edits) && i < j < |sorted|
    requires sorted[i].line == sorted[j].line
    ensures sorted[i].End() <= sorted[j].Start() || sorted[j].End() <= sorted[i].Start()
  {
    var a, b := sorted[i], sorted[j];
    var p, q := FindTwo(sorted, edits, i, j);
    if p < q {
      assert edits[p].line == edits[q].line;
    } else {
      assert edits[q].line == edits[p].line;
    }
  }

  /** The list without its i-th element. */
  ghost function Without<T>(xs: seq<T>, i: nat): (r: seq<T>)
    requires i < |xs|
    ensures |r| == |xs| - 1
    ensures forall k :: 0 <= k < i ==> r[k] == xs[k]
    ensures forall k :: i <= k < |r| ==> r[k] == xs[k + 1]
  {
    xs[..i] + xs[i + 1..]
  }

  lemma WithoutOne<T>(xs: seq<T>, i: nat)
    requires i < |xs|
    ensures multiset(Without(xs, i)) == multiset(xs) - multiset{xs[i]}
  {
    assert xs == xs[..i] + [xs[i]] + xs[i + 1..];
    assert multiset(xs) == multiset(Without(xs, i)) + multiset{xs[i]};
  }

  /** Two places of one list have two different places in any rearrangement of it. */
  lemma FindTwo<T>(xs: seq<T>, ys: seq<T>, i: nat, j: nat) returns (p: nat, q: nat)
    requires multiset(xs) == multiset(ys) && i < j < |xs|
    ensures p < |ys| && q < |ys| && p != q && ys[p] == xs[i] && ys[q] == xs[j]
  {
    p := Find(xs, ys, i);
    WithoutOne(ys, p);
    WithoutOne(xs, i);
    var k := Find(Without(xs, i), Without(ys, p), j - 1);
    q := if k < p then k else k + 1;
    assert Without(xs, i)[j - 1] == xs[j] && Without(ys, p)[k] == ys[q];
  }

  lemma Find<T>(xs: seq<T>, ys: seq<T>, i: nat) returns (p: nat)
    requires multiset(xs) == multiset(ys) && i < |xs|
    ensures p < |ys| && ys[p] == xs[i]
  {
    assert xs[i] in multiset(ys);
    p :| 0 <= p < |ys| && ys[p] == xs[i];
  }

  /** The same edits in document order, none overlapping another. */
  ghost predicate IsOrdering(sorted: seq<Edit>, edits: seq<Edit>) {
    multiset(sorted) == multiset(edits) && InOrder(sorted) && WellPlaced(sorted)
  }

  /** Edits collected in any order give the file with every matching span replaced at once, and
      the list of exactly those edits in document order. */
  method Apply(content: string, edits: seq<Edit>) returns (text: string, changes: seq<Change>)
    requires Disjoint(edits)
    ensures exists sorted :: IsOrdering(sorted, edits)
              && text == Join(ReplacedLines(Split(content), sorted)) && changes == ChangesOf(Split(content), sorted)
  {
    hide ReplacedLines, ChangesOf, Disjoint, Join, Split;
    if |edits| == 0 {
      NothingToReplace(Split(content));
      JoinOfSplit(content);
      assert IsOrdering([], edits);
      return content, [];
    }
    var ordered := SortByPosition(edits);
    DisjointAnyOrder(edits, ordered);
    forall line ensures Apart(EditsOn(ordered, line), 0) { SortedIsApart(ordered, line); }
    var lines := Split(content);
    var changed;
    changed, changes := ApplySorted(lines, ordered);
    text := Join(changed);
    assert IsOrdering(ordered, edits);
  }

  // ----- Where an edit lands -----

  /** The edit's text stands on its line after c - 1 characters. */
  predicate StandsAt(lines: seq<string>, e: Edit, before: string, after: string) {
    1 <= e.line <= |lines| && |before| == e.column - 1 && lines[e.line - 1] == before + e.from + after
  }

  /** An edit at line l and column c, both counted from one, replaces the text that stands there, and is
      reported; one whose text does not stand there changes nothing. */
  lemma {:induction false} EditLandsAtItsPosition(lines: seq<string>, e: Edit)
    requires e.column >= 1
    ensures WellPlaced([e])
    ensures forall before, after :: StandsAt(lines, e, before, after) ==>
              && ReplacedLines(lines, [e]) == lines[e.line - 1 := before + e.to + after]
              && ChangesOf(lines, [e]) == [Change(e.line, e.from, e.to)]
    ensures !Applies(lines, e) ==> ReplacedLines(lines, [e]) == lines && ChangesOf(lines, [e]) == []
  {
    assert [e][1..] == [];
    NothingToReplace(lines);
    assert forall line :: EditsOn([e], line) == if e.line == line then [e] else [];
    assert Apart([], 0) && Apart([e], 0);
    OneMoreInFront(lines, [e]);
    hide ReplacedLines, WellPlaced;
    forall before, after | StandsAt(lines, e, before, after)
      ensures Applies(lines, e) && AppliedTo(lines, e) == lines[e.line - 1 := before + e.to + after]
    {
      var text := lines[e.line - 1];
      assert text[..|before|] == before && text[|before|..|before| + |e.from|] == e.from;
      assert text[|before| + |e.from|..] == after;
    }
  }

  // ----- What is kept -----

  lemma {:induction false} ReplacedHasNoBreak(text: string, edits: seq<Edit>, x: nat)
    requires x <= |text| && Apart(edits, x) && '\n' !in text
    requires forall k :: 0 <= k < |edits| ==> '\n' !in edits[k].to
    ensures '\n' !in Replaced(text, edits, x)
  {
    if edits != [] {
      if Matches(text, edits[0]) {
        ReplacedHasNoBreak(text, edits[1..], edits[0].End());
      } else {
        ApartFurther(edits[1..], edits[0].End(), x);
        ReplacedHasNoBreak(text, edits[1..], x);
      }
    }
  }

  /** When no replacement holds a line break, the lines of the result are the lines of the file,
      each with its own edits; a line without edits is the same line. */
  lemma {:induction false} LinesAreKept(content: string, edits: seq<Edit>)
    requires WellPlaced(edits) && forall k :: 0 <= k < |edits| ==> '\n' !in edits[k].to
    ensures Split(Join(ReplacedLines(Split(content), edits))) == ReplacedLines(Split(content), edits)
    ensures |ReplacedLines(Split(content), edits)| == |Split(content)|
    ensures forall i :: 0 <= i < |Split(content)| && EditsOn(edits, i + 1) == [] ==>
              ReplacedLines(Split(content), edits)[i] == Split(content)[i]
  {
    var lines := Split(content);
    var r := ReplacedLines(lines, edits);
    forall i | 0 <= i < |r| ensures '\n' !in r[i] {
      var own := EditsOn(edits, i + 1);
      forall k | 0 <= k < |own| ensures '\n' !in own[k].to { EditsOnAre(edits, i + 1, own[k]); }
      ReplacedHasNoBreak(lines[i], own, 0);
    }
    SplitOfJoin(r);
  }
}
