/** The weighted mix (internal/scenario/mix.go, stepsOf in internal/engine/executor.go).

    Each iteration runs one alternative, chosen by its position in a cycle and not drawn.  Copy c
    of an alternative of share s sits at position (c + 1/2) * total / s, and the cycle is the list
    of all copies in order of position.  Positions are exact rationals.  */
module WeightedMix {
  import opened Basics

  datatype Slot = Slot(step: nat, copy: nat)

  function Sum(xs: seq<nat>): nat {
    if xs == [] then 0 else Sum(xs[..|xs| - 1]) + xs[|xs| - 1]
  }

  predicate HasMix(weights: seq<nat>) {
    exists i :: 0 <= i < |weights| && weights[i] > 0
  }

  // ----- Greatest common divisor -----

  ghost predicate Divides(d: nat, x: nat) {
    exists q: nat :: d * q == x
  }

  function Gcd(a: nat, b: nat): nat
    decreases b
  {
    if b == 0 then a else Gcd(b, a % b)
  }

  method GreatestCommonDivisor(first: nat, second: nat) returns (d: nat)
    ensures d == Gcd(first, second)
  {
    var a, b := first, second;
    while b != 0
      invariant Gcd(a, b) == Gcd(first, second)
    {
      a, b := b, a % b;
    }
    d := a;
  }

  function GcdAll(weights: seq<nat>): nat {
    if weights == [] then 0 else Gcd(GcdAll(weights[..|weights| - 1]), weights[|weights| - 1])
  }

  lemma GcdOfFirst(weights: seq<nat>)
    requires weights != []
    ensures GcdAll(weights[..1]) == weights[0]
  {
    var w := weights[0];
    assert weights[..1][..0] == [];
    assert GcdAll(weights[..1]) == Gcd(0, w);
    if w > 0 {
      assert 0 % w == 0;
      assert Gcd(0, w) == Gcd(w, 0);
    }
  }

  lemma DividesCombination(d: nat, x: nat, y: nat, k: nat)
    requires Divides(d, x) && Divides(d, y)
    ensures Divides(d, x * k + y)
  {
    var p: nat :| d * p == x;
    var q: nat :| d * q == y;
    assert d * (p * k + q) == x * k + y;
  }

  lemma {:induction false} GcdDivides(a: nat, b: nat)
    ensures Divides(Gcd(a, b), a) && Divides(Gcd(a, b), b)
    decreases b
  {
    if b == 0 {
      assert a * 1 == a && a * 0 == 0;
    } else {
      GcdDivides(b, a % b);
      DividesCombination(Gcd(a, b), b, a % b, a / b);
    }
  }

  lemma {:induction false} GcdPositive(a: nat, b: nat)
    requires a > 0 || b > 0
    ensures Gcd(a, b) > 0
    decreases b
  {
    if b != 0 { GcdPositive(b, a % b); }
  }

  lemma RemainderIs(x: nat, d: nat, q: nat, r: nat)
    requires d > 0 && x == d * q + r && r < d
    ensures x % d == r && x / d == q
  {
    DivisionIsUnique(d, x / d, x % d, q, r);
  }

  lemma ScaleParts(c: nat, a: nat, b: nat, q: nat, r: nat)
    requires c > 0 && r < b && a == b * q + r
    ensures c * a == (c * b) * q + c * r && c * r < c * b
  {
    assert c * (b - r) >= c by { AtLeast(c, b - r); }
    assert c * (b - r) == c * b - c * r;
  }

  lemma ScaledRemainder(c: nat, a: nat, b: nat, x: nat, y: nat)
    requires c > 0 && b > 0 && x == c * a && y == c * b
    ensures y > 0 && x % y == c * (a % b)
  {
    var q, r := a / b, a % b;
    ScaleParts(c, a, b, q, r);
    var z := c * r;
    RemainderIs(x, y, q, z);
  }

  lemma {:induction false} GcdScales(c: nat, a: nat, b: nat)
    requires c > 0
    ensures Gcd(c * a, c * b) == c * Gcd(a, b)
    decreases b
  {
    if b != 0 {
      ScaledRemainder(c, a, b, c * a, c * b);
      GcdScales(c, b, a % b);
    }
  }

  function Scaled(c: nat, weights: seq<nat>): (r: seq<nat>)
    ensures |r| == |weights| && forall i :: 0 <= i < |weights| ==> r[i] == c * weights[i]
  {
    seq(|weights|, i requires 0 <= i < |weights| => c * weights[i])
  }

  lemma {:induction false} GcdAllScales(c: nat, weights: seq<nat>)
    requires c > 0
    ensures GcdAll(Scaled(c, weights)) == c * GcdAll(weights)
  {
    if weights != [] {
      var init := weights[..|weights| - 1];
      GcdAllScales(c, init);
      assert Scaled(c, weights)[..|weights| - 1] == Scaled(c, init);
      GcdScales(c, GcdAll(init), weights[|weights| - 1]);
    }
  }

  lemma {:induction false} GcdAllDivides(weights: seq<nat>, i: nat)
    requires i < |weights|
    ensures Divides(GcdAll(weights), weights[i])
    ensures weights[i] > 0 ==> GcdAll(weights) > 0
  {
    var init, last := weights[..|weights| - 1], weights[|weights| - 1];
    GcdDivides(GcdAll(init), last);
    if i < |init| {
      GcdAllDivides(init, i);
      DividesTransitive(GcdAll(weights), GcdAll(init), weights[i]);
      if weights[i] > 0 { GcdPositive(GcdAll(init), last); }
    } else if last > 0 {
      GcdPositive(GcdAll(init), last);
    }
  }

  lemma DividesTransitive(d: nat, x: nat, y: nat)
    requires Divides(d, x) && Divides(x, y)
    ensures Divides(d, y)
  {
    var p: nat :| d * p == x;
    var q: nat :| x * q == y;
    assert d * (p * q) == y;
  }

  lemma CommonDivisorDivides(d: nat, a: nat, b: nat)
    requires Divides(d, a) && Divides(d, b)
    ensures Divides(d, Gcd(a, b))
  {
    var p: nat :| d * p == a;
    var q: nat :| d * q == b;
    if d > 0 {
      GcdScales(d, p, q);
    } else {
      assert 0 * 0 == Gcd(0, 0);
    }
  }

  /** The divisor is the greatest: what divides every weight is what divides it. */
  lemma {:induction false} GcdIsGreatest(d: nat, weights: seq<nat>)
    ensures (forall i :: 0 <= i < |weights| ==> Divides(d, weights[i])) <==> Divides(d, GcdAll(weights))
  {
    hide Divides;
    if Divides(d, GcdAll(weights)) {
      forall i | 0 <= i < |weights| ensures Divides(d, weights[i]) {
        GcdAllDivides(weights, i);
        DividesTransitive(d, GcdAll(weights), weights[i]);
      }
    }
    if weights == [] {
      DividesZero(d);
    } else if forall i :: 0 <= i < |weights| ==> Divides(d, weights[i]) {
      var init := weights[..|weights| - 1];
      forall i | 0 <= i < |init| ensures Divides(d, init[i]) { assert init[i] == weights[i]; }
      GcdIsGreatest(d, init);
      CommonDivisorDivides(d, GcdAll(init), weights[|weights| - 1]);
    }
  }

  lemma DividesZero(d: nat)
    ensures Divides(d, 0)
  {
    assert d * 0 == 0;
  }

  function Quotient(w: nat, d: nat): nat {
    if d == 0 then 0 else w / d
  }

  /** The weights in lowest terms. */
  function Shares(weights: seq<nat>): (r: seq<nat>)
    ensures |r| == |weights| && forall i :: 0 <= i < |r| ==> r[i] == Quotient(weights[i], GcdAll(weights))
  {
    seq(|weights|, i requires 0 <= i < |weights| => Quotient(weights[i], GcdAll(weights)))
  }

  lemma {:induction false} SharesAreExact(weights: seq<nat>, i: nat)
    requires i < |weights| && HasMix(weights)
    ensures GcdAll(weights) > 0 && weights[i] == GcdAll(weights) * Shares(weights)[i]
  {
    var j :| 0 <= j < |weights| && weights[j] > 0;
    GcdAllDivides(weights, j);
    GcdAllDivides(weights, i);
    var d := GcdAll(weights);
    var q: nat :| d * q == weights[i];
    QuotientIs(d, q);
  }

  /** The shares have no common factor left. */
  lemma {:induction false} SharesAreInLowestTerms(weights: seq<nat>)
    requires HasMix(weights)
    ensures GcdAll(Shares(weights)) == 1
  {
    hide GcdAll;
    var shares, g := Shares(weights), GcdAll(weights);
    forall i | 0 <= i < |weights| ensures g > 0 && weights[i] == g * shares[i] { SharesAreExact(weights, i); }
    assert weights == Scaled(g, shares);
    GcdAllScales(g, shares);
    var j :| 0 <= j < |weights| && weights[j] > 0;
    Cancel(1, g, 1, GcdAll(shares));
  }

  lemma QuotientIs(d: nat, q: nat)
    requires d > 0
    ensures (d * q) / d == q
  {
    RemainderIs(d * q, d, q, 0);
  }

  lemma ScalingKeepsShares(c: nat, weights: seq<nat>)
    requires c > 0 && HasMix(weights)
    ensures HasMix(Scaled(c, weights)) && Shares(Scaled(c, weights)) == Shares(weights)
  {
    hide Shares;
    var big := Scaled(c, weights);
    var j :| 0 <= j < |weights| && weights[j] > 0;
    AtLeast(c, weights[j]);
    assert big[j] > 0;
    GcdAllScales(c, weights);
    forall i | 0 <= i < |weights| ensures Shares(big)[i] == Shares(weights)[i] {
      SharesAreExact(weights, i);
      SharesAreExact(big, i);
      Cancel(c, GcdAll(weights), Shares(weights)[i], Shares(big)[i]);
    }
  }

  lemma Cancel(c: nat, d: nat, p: nat, q: nat)
    requires c > 0 && d > 0 && (c * d) * q == c * (d * p)
    ensures p == q
  {
    var e := c * d;
    AtLeast(d, c);
    assert c * (d * p) == e * p;
    DivisionIsUnique(e, p, 0, q, 0);
  }

  // ----- The cycle -----

  predicate IsSlot(shares: seq<nat>, slot: Slot) {
    slot.step < |shares| && slot.copy < shares[slot.step]
  }

  function Position(shares: seq<nat>, slot: Slot): real
    requires IsSlot(shares, slot)
  {
    Place(slot.copy as real + 0.5, Sum(shares) as real, shares[slot.step] as real)
  }

  function Place(copy: real, total: real, share: real): real
    requires share > 0.0
  {
    copy * total / share
  }

  /** The order the slots are sorted in: by position, then by step, then by copy. */
  predicate Less(shares: seq<nat>, a: Slot, b: Slot)
    requires IsSlot(shares, a) && IsSlot(shares, b)
  {
    if Position(shares, a) != Position(shares, b) then Position(shares, a) < Position(shares, b)
    else if a.step != b.step then a.step < b.step
    else a.copy < b.copy
  }

  ghost predicate AllSlots(shares: seq<nat>, slots: seq<Slot>) {
    forall k :: 0 <= k < |slots| ==> IsSlot(shares, slots[k])
  }

  ghost predicate Sorted(shares: seq<nat>, slots: seq<Slot>)
    requires AllSlots(shares, slots)
  {
    forall a, b :: 0 <= a < b < |slots| ==> Less(shares, slots[a], slots[b])
  }

  /** The cycle of these shares: every copy of every step once, in order. */
  ghost predicate IsCycle(shares: seq<nat>, slots: seq<Slot>) {
    && AllSlots(shares, slots) && Sorted(shares, slots)
    && forall slot :: IsSlot(shares, slot) ==> slot in slots
  }

  /** Sorted lists of the same slots are the same list, so the cycle does not depend on how it is sorted. */
  lemma {:induction false} SortedIsUnique(shares: seq<nat>, xs: seq<Slot>, ys: seq<Slot>)
    requires AllSlots(shares, xs) && Sorted(shares, xs) && AllSlots(shares, ys) && Sorted(shares, ys)
    requires forall slot :: slot in xs <==> slot in ys
    ensures xs == ys
  {
    hide Position;
    assert xs != [] ==> xs[0] in xs && xs[0] in ys;
    assert ys != [] ==> ys[0] in ys && ys[0] in xs;
    if xs != [] {
      FirstIsLeast(shares, xs, ys[0]);
      FirstIsLeast(shares, ys, xs[0]);
      forall slot ensures slot in xs[1..] <==> slot in ys[1..] {
        SortedTail(shares, xs, slot);
        SortedTail(shares, ys, slot);
      }
      SortedIsUnique(shares, xs[1..], ys[1..]);
      assert xs == [xs[0]] + xs[1..] && ys == [ys[0]] + ys[1..];
    }
  }

  lemma FirstIsLeast(shares: seq<nat>, xs: seq<Slot>, slot: Slot)
    requires AllSlots(shares, xs) && Sorted(shares, xs) && slot in xs
    ensures slot == xs[0] || (IsSlot(shares, slot) && Less(shares, xs[0], slot))
  {
  }

  lemma SortedTail(shares: seq<nat>, xs: seq<Slot>, slot: Slot)
    requires AllSlots(shares, xs) && Sorted(shares, xs) && xs != []
    ensures slot in xs[1..] <==> slot in xs && slot != xs[0]
  {
    hide Position;
    if slot in xs[1..] {
      var k :| 1 <= k < |xs| && xs[k] == slot;
      assert Less(shares, xs[0], xs[k]);
    }
  }

  method SortSlots(shares: seq<nat>, slots: seq<Slot>) returns (sorted: seq<Slot>)
    requires AllSlots(shares, slots)
    requires forall a, b :: 0 <= a < b < |slots| ==> slots[a] != slots[b]
    ensures AllSlots(shares, sorted) && Sorted(shares, sorted)
    ensures forall slot :: slot in sorted <==> slot in slots
  {
    hide Position;
    sorted := [];
    for k := 0 to |slots|
      invariant AllSlots(shares, sorted) && Sorted(shares, sorted)
      invariant forall slot :: slot in sorted <==> slot in slots[..k]
    {
      assert slots[k] !in sorted;
      sorted := InsertSlot(shares, sorted, slots[k]);
      assert slots[..k + 1] == slots[..k] + [slots[k]];
    }
    assert slots[..|slots|] == slots;
  }

  method InsertSlot(shares: seq<nat>, sorted: seq<Slot>, slot: Slot) returns (r: seq<Slot>)
    requires AllSlots(shares, sorted) && Sorted(shares, sorted) && IsSlot(shares, slot) && slot !in sorted
    ensures AllSlots(shares, r) && Sorted(shares, r)
    ensures forall other :: other in r <==> other in sorted || other == slot
  {
    hide Position;
    var at := |sorted|;
    while at > 0 && Less(shares, slot, sorted[at - 1])
      invariant 0 <= at <= |sorted|
      invariant forall k :: at <= k < |sorted| ==> Less(shares, slot, sorted[k])
    {
      at := at - 1;
    }
    r := sorted[..at] + [slot] + sorted[at..];
    forall k | 0 <= k < at ensures Less(shares, sorted[k], slot) {
      if k < at - 1 { assert Less(shares, sorted[k], sorted[at - 1]); }
    }
    InsertedIsSorted(shares, sorted, at, slot);
  }

  lemma InsertedIsSorted(shares: seq<nat>, sorted: seq<Slot>, at: nat, slot: Slot)
    requires AllSlots(shares, sorted) && Sorted(shares, sorted) && IsSlot(shares, slot) && at <= |sorted|
    requires forall k :: 0 <= k < at ==> Less(shares, sorted[k], slot)
    requires forall k :: at <= k < |sorted| ==> Less(shares, slot, sorted[k])
    ensures var r := sorted[..at] + [slot] + sorted[at..];
            && AllSlots(shares, r) && Sorted(shares, r)
            && forall other :: other in r <==> other in sorted || other == slot
  {
    hide Less;
    assert sorted == sorted[..at] + sorted[at..];
  }

  /** The cycle of a mix, as the steps that run at each of its positions; empty without a mix. */
  method MixOrder(weights: seq<nat>) returns (order: seq<nat>, ghost slots: seq<Slot>)
    ensures !HasMix(weights) ==> order == []
    ensures HasMix(weights) ==> IsCycle(Shares(weights), slots) && order == StepsOfSlots(slots)
    ensures order != [] <==> exists i :: 0 <= i < |weights| && weights[i] > 0
    ensures forall i, j :: 0 <= i < j < |slots| ==>
              IsSlot(Shares(weights), slots[i]) && IsSlot(Shares(weights), slots[j])
              && RunsBefore(Shares(weights), slots[i], slots[j])
  {
    hide RunsBefore;
    order, slots := [], [];
    if !HasMix(weights) {
      return;
    }
    var divisor := weights[0];
    GcdOfFirst(weights);
    for k := 1 to |weights|
      invariant divisor == GcdAll(weights[..k])
    {
      divisor := GreatestCommonDivisor(divisor, weights[k]);
      assert weights[..k + 1][..k] == weights[..k];
    }
    assert weights[..|weights|] == weights;
    ghost var j :| 0 <= j < |weights| && weights[j] > 0;
    GcdAllDivides(weights, j);
    var shares := Shares(weights);
    var all := ListSlots(weights, divisor);
    ListedOnce(shares);
    forall slot ensures slot in all <==> IsSlot(shares, slot) { ListedHolds(shares, slot); }
    forall k | 0 <= k < |all| ensures IsSlot(shares, all[k]) { assert all[k] in all; }
    var sorted := SortSlots(shares, all);
    slots := sorted;
    for k := 0 to |sorted|
      invariant order == StepsOfSlots(sorted[..k])
    {
      order := order + [sorted[k].step];
      assert sorted[..k + 1] == sorted[..k] + [sorted[k]];
    }
    assert sorted[..|sorted|] == sorted;
    MixIsOrdered(weights, slots);
  }

  lemma MixIsOrdered(weights: seq<nat>, slots: seq<Slot>)
    requires HasMix(weights) && IsCycle(Shares(weights), slots)
    ensures slots != []
    ensures forall i, j :: 0 <= i < j < |slots| ==>
              IsSlot(Shares(weights), slots[i]) && IsSlot(Shares(weights), slots[j])
              && RunsBefore(Shares(weights), slots[i], slots[j])
  {
    var shares := Shares(weights);
    forall i, j | 0 <= i < j < |slots| ensures RunsBefore(shares, slots[i], slots[j]) {
      CycleIsInOrder(shares, slots, i, j);
    }
    var k :| 0 <= k < |weights| && weights[k] > 0;
    SharesAreExact(weights, k);
    assert IsSlot(shares, Slot(k, 0));
  }

  function StepsOfSlots(slots: seq<Slot>): (r: seq<nat>)
    ensures |r| == |slots| && forall k :: 0 <= k < |slots| ==> r[k] == slots[k].step
  {
    seq(|slots|, k requires 0 <= k < |slots| => slots[k].step)
  }

  function Copies(step: nat, share: nat): (r: seq<Slot>)
    ensures |r| == share && forall c :: 0 <= c < share ==> r[c] == Slot(step, c)
  {
    seq(share, c requires 0 <= c < share => Slot(step, c))
  }

  method AppendCopies(slots: seq<Slot>, step: nat, share: nat) returns (r: seq<Slot>)
    ensures r == slots + Copies(step, share)
  {
    r := slots;
    for copy := 0 to share
      invariant r == slots + Copies(step, copy)
    {
      r := r + [Slot(step, copy)];
      assert Copies(step, copy) + [Slot(step, copy)] == Copies(step, copy + 1);
    }
  }

  /** All slots in the order the steps are declared. */
  function Listed(shares: seq<nat>): seq<Slot> {
    if shares == [] then []
    else Listed(shares[..|shares| - 1]) + Copies(|shares| - 1, shares[|shares| - 1])
  }

  lemma {:induction false} ListedHolds(shares: seq<nat>, slot: Slot)
    ensures slot in Listed(shares) <==> IsSlot(shares, slot)
  {
    if shares != [] {
      var init, last := shares[..|shares| - 1], shares[|shares| - 1];
      ListedHolds(init, slot);
      if IsSlot(shares, slot) && slot.step == |init| {
        assert Copies(|init|, last)[slot.copy] == slot;
      }
    }
  }

  lemma {:induction false} ListedOnce(shares: seq<nat>)
    ensures forall a, b :: 0 <= a < b < |Listed(shares)| ==> Listed(shares)[a] != Listed(shares)[b]
  {
    if shares != [] {
      var init := shares[..|shares| - 1];
      ListedOnce(init);
      forall slot | slot in Listed(init) ensures slot.step < |init| { ListedHolds(init, slot); }
    }
  }

  method ListSlots(weights: seq<nat>, divisor: nat) returns (slots: seq<Slot>)
    requires divisor == GcdAll(weights) > 0
    ensures slots == Listed(Shares(weights))
  {
    slots := [];
    ghost var shares := Shares(weights);
    for index := 0 to |weights|
      invariant slots == Listed(shares[..index])
    {
      slots := AppendCopies(slots, index, weights[index] / divisor);
      assert shares[..index + 1][..index] == shares[..index];
    }
    assert shares[..|weights|] == shares;
  }

  // ----- The order of the cycle, without positions -----

  /** Slot a runs before slot b: its copy comes sooner in proportion to its share, and of two that come
      at the same time the step declared first. */
  predicate RunsBefore(shares: seq<nat>, a: Slot, b: Slot)
    requires IsSlot(shares, a) && IsSlot(shares, b)
  {
    var x, y := (2 * a.copy + 1) * shares[b.step], (2 * b.copy + 1) * shares[a.step];
    x < y || (x == y && a.step < b.step)
  }

  lemma CrossProducts(a: nat, b: nat, s: nat, t: nat, total: nat)
    requires s > 0 && t > 0 && total > 0
    ensures var x := Place(a as real + 0.5, total as real, s as real);
            var y := Place(b as real + 0.5, total as real, t as real);
            && (x < y <==> (2 * a + 1) * t < (2 * b + 1) * s)
            && (x == y <==> (2 * a + 1) * t == (2 * b + 1) * s)
  {
    var sr, tr, nr := s as real, t as real, total as real;
    var x, y := Place(a as real + 0.5, nr, sr), Place(b as real + 0.5, nr, tr);
    hide Place, Times;
    PlaceTimes(a as real + 0.5, nr, sr);
    PlaceTimes(b as real + 0.5, nr, tr);
    SameScale(x, y, sr, tr);
    Doubled(a as real + 0.5, nr, tr);
    Doubled(b as real + 0.5, nr, sr);
    var p, q := Times(2.0 * (a as real + 0.5), tr), Times(2.0 * (b as real + 0.5), sr);
    SameFactor(p, q, nr);
    InIntegers(a, t);
    InIntegers(b, s);
    assert p == ((2 * a + 1) * t) as real && q == ((2 * b + 1) * s) as real;
  }

  lemma Doubled(c: real, n: real, t: real)
    ensures 2.0 * Times(Times(c, n), t) == Times(Times(2.0 * c, t), n)
  {
  }

  lemma PlaceTimes(c: real, total: real, share: real)
    requires share > 0.0
    ensures Times(Place(c, total, share), share) == Times(c, total)
  {
    DividedBack(c * total, share);
  }

  /** Multiplying both by the same positive factors changes nothing about their order. */
  lemma SameScale(x: real, y: real, s: real, t: real)
    requires s > 0.0 && t > 0.0
    ensures x < y <==> Times(Times(x, s), t) < Times(Times(y, t), s)
    ensures x == y <==> Times(Times(x, s), t) == Times(Times(y, t), s)
  {
    SwapFactors(y, s, t);
    SameFactor(x, y, s);
    SameFactor(Times(x, s), Times(y, s), t);
  }

  lemma SwapFactors(y: real, s: real, t: real)
    ensures Times(Times(y, t), s) == Times(Times(y, s), t)
  {
  }

  lemma SameFactor(x: real, y: real, s: real)
    requires s > 0.0
    ensures x < y <==> Times(x, s) < Times(y, s)
    ensures x == y <==> Times(x, s) == Times(y, s)
  {
    Apart(x, y, s);
    Apart(y, x, s);
    if x < y { PositiveProduct(y - x, s); }
    if y < x { PositiveProduct(x - y, s); }
  }

  lemma InIntegers(a: nat, t: nat)
    ensures Times(2.0 * (a as real + 0.5), t as real) == ((2 * a + 1) * t) as real
  {
    assert 2.0 * (a as real + 0.5) == (2 * a + 1) as real;
    RealProduct(2 * a + 1, t);
  }

  lemma RealProduct(x: nat, y: nat)
    ensures Times(x as real, y as real) == (x * y) as real
  {
  }

  lemma {:induction false} LessIsRunsBefore(shares: seq<nat>, a: Slot, b: Slot)
    requires IsSlot(shares, a) && IsSlot(shares, b) && a != b
    ensures Less(shares, a, b) <==> RunsBefore(shares, a, b)
  {
    SumAtLeast(shares, a.step);
    CrossProducts(a.copy, b.copy, shares[a.step], shares[b.step], Sum(shares));
    hide Place;
    if a.step == b.step { SameShare(a.copy, b.copy, shares[a.step]); }
  }

  lemma SameShare(a: nat, b: nat, s: nat)
    requires s > 0
    ensures (2 * a + 1) * s < (2 * b + 1) * s <==> a < b
    ensures (2 * a + 1) * s == (2 * b + 1) * s <==> a == b
  {
    if a < b { AtLeast(s, 2 * (b - a)); }
    if b < a { AtLeast(s, 2 * (a - b)); }
    assert (2 * b + 1) * s - (2 * a + 1) * s == s * (2 * (b - a));
  }

  /** The cycle runs its slots in exactly this order: which step is at which place follows from the
      shares and the order of declaration alone. */
  lemma {:induction false} CycleIsInOrder(shares: seq<nat>, slots: seq<Slot>, i: nat, j: nat)
    requires IsCycle(shares, slots) && i < j < |slots|
    ensures RunsBefore(shares, slots[i], slots[j])
  {
    hide Less, Position;
    NotEarlier(shares, slots, j);
    assert slots[i] in slots[..j];
    LessIsRunsBefore(shares, slots[i], slots[j]);
  }

  /** Steps of equal weight run in the order they are declared. */
  lemma {:induction false} EqualWeightsTakeTurns(weights: seq<nat>, slots: seq<Slot>)
    requires weights != [] && weights[0] > 0 && forall i :: 0 <= i < |weights| ==> weights[i] == weights[0]
    requires IsCycle(Shares(weights), slots)
    ensures |slots| == |weights| && forall i :: 0 <= i < |slots| ==> StepsOfSlots(slots)[i] == i
  {
    var shares, n := Shares(weights), |weights|;
    EqualShares(weights);
    SumOfOnes(shares);
    CycleHoldsShares(shares, slots);
    forall k | 0 <= k < |slots| ensures slots[k].step < n && slots[k].copy == 0 { assert IsSlot(shares, slots[k]); }
    forall i, j | 0 <= i < j < |slots| ensures slots[i].step < slots[j].step { CycleIsInOrder(shares, slots, i, j); }
    hide IsCycle, Shares, Sum;
    forall i | 0 <= i < n ensures slots[i].step == i {
      NotBelow(slots, i);
      NotAbove(slots, i);
    }
  }

  lemma EqualShares(weights: seq<nat>)
    requires weights != [] && weights[0] > 0 && forall i :: 0 <= i < |weights| ==> weights[i] == weights[0]
    ensures forall i :: 0 <= i < |weights| ==> Shares(weights)[i] == 1
  {
    var w := weights[0];
    GcdIsGreatest(w, weights);
    forall i | 0 <= i < |weights| ensures Divides(w, weights[i]) { assert w * 1 == weights[i]; }
    GcdAllDivides(weights, 0);
    SameDivisors(w, GcdAll(weights));
    forall i | 0 <= i < |weights| ensures Shares(weights)[i] == 1 { QuotientIs(w, 1); }
  }

  lemma SameDivisors(a: nat, b: nat)
    requires a > 0 && Divides(a, b) && Divides(b, a)
    ensures a == b
  {
    var p: nat :| a * p == b;
    var q: nat :| b * q == a;
    if p > 0 { AtLeast(a, p); }
    if q > 0 { AtLeast(b, q); }
  }

  lemma {:induction false} SumOfOnes(xs: seq<nat>)
    requires forall i :: 0 <= i < |xs| ==> xs[i] == 1
    ensures Sum(xs) == |xs|
  {
    if xs != [] { SumOfOnes(xs[..|xs| - 1]); }
  }

  /** Ascending steps below n, as many as n: 0, 1, ..., n - 1. */
  lemma {:induction false} NotBelow(slots: seq<Slot>, i: nat)
    requires i < |slots| && forall k, l :: 0 <= k < l < |slots| ==> slots[k].step < slots[l].step
    ensures slots[i].step >= i
  {
    if i > 0 { NotBelow(slots, i - 1); }
  }

  lemma {:induction false} NotAbove(slots: seq<Slot>, i: nat)
    requires i < |slots| && forall k, l :: 0 <= k < l < |slots| ==> slots[k].step < slots[l].step
    requires forall k :: 0 <= k < |slots| ==> slots[k].step < |slots|
    ensures slots[i].step <= i
    decreases |slots| - i
  {
    if i + 1 < |slots| { NotAbove(slots, i + 1); }
  }

  /** Multiplying every weight by the same factor changes nothing about the cycle. */
  lemma {:induction false} ScalingKeepsTheCycle(c: nat, weights: seq<nat>, xs: seq<Slot>, ys: seq<Slot>)
    requires c > 0 && HasMix(weights)
    requires IsCycle(Shares(weights), xs) && IsCycle(Shares(Scaled(c, weights)), ys)
    ensures StepsOfSlots(xs) == StepsOfSlots(ys)
  {
    ScalingKeepsShares(c, weights);
    CyclesAgree(Shares(weights), xs, ys);
  }

  lemma CyclesAgree(shares: seq<nat>, xs: seq<Slot>, ys: seq<Slot>)
    requires IsCycle(shares, xs) && IsCycle(shares, ys)
    ensures xs == ys
  {
    hide Position;
    forall slot ensures slot in xs <==> slot in ys {
      if slot in xs { assert IsSlot(shares, slot); }
      if slot in ys { assert IsSlot(shares, slot); }
    }
    SortedIsUnique(shares, xs, ys);
  }

  // ----- Fairness -----

  function CountOf(order: seq<nat>, step: nat): nat {
    if order == [] then 0
    else CountOf(order[..|order| - 1], step) + if order[|order| - 1] == step then 1 else 0
  }

  lemma PositionOrder(shares: seq<nat>, a: Slot, b: Slot)
    requires IsSlot(shares, a) && IsSlot(shares, b) && a.step == b.step
    ensures a.copy < b.copy ==> Less(shares, a, b)
  {
    if a.copy < b.copy {
      hide Place;
      PlaceOrder(a.copy as real + 0.5, b.copy as real + 0.5, Sum(shares) as real, shares[a.step] as real);
    }
  }

  lemma PlaceOrder(a: real, b: real, total: real, share: real)
    requires a <= b && total >= 0.0 && share > 0.0
    ensures Place(a, total, share) <= Place(b, total, share)
  {
    var x, y := a * total, b * total;
    assert x <= y by {
      assert y - x == (b - a) * total;
      Product(b - a, total);
    }
    var p, r := x / share, y / share;
    DividedBack(x, share);
    DividedBack(y, share);
    Apart(p, r, share);
    if r < p { PositiveProduct(p - r, share); }
  }

  lemma DividedBack(x: real, share: real)
    requires share > 0.0
    ensures x / share * share == x
  {
  }

  lemma Apart(p: real, r: real, share: real)
    ensures (p - r) * share == p * share - r * share
  {
  }

  lemma Product(x: real, y: real)
    requires x >= 0.0 && y >= 0.0
    ensures x * y >= 0.0
  {
  }

  lemma PositiveProduct(x: real, y: real)
    requires x > 0.0 && y > 0.0
    ensures x * y > 0.0
  {
  }

  lemma {:induction false} SumAtLeast(xs: seq<nat>, i: nat)
    requires i < |xs|
    ensures Sum(xs) >= xs[i]
  {
    if i < |xs| - 1 { SumAtLeast(xs[..|xs| - 1], i); }
  }

  /** The copies of a step that run in the first m positions are its first ones, in order. */
  lemma {:induction false} PrefixHoldsFirstCopies(shares: seq<nat>, slots: seq<Slot>, m: nat, slot: Slot)
    requires IsCycle(shares, slots) && m <= |slots| && IsSlot(shares, slot)
    ensures slot in slots[..m] <==> slot.copy < CountOf(StepsOfSlots(slots)[..m], slot.step)
    decreases m, 1
  {
    hide Position;
    var order := StepsOfSlots(slots);
    if m > 0 {
      var last := slots[m - 1];
      PrefixHoldsFirstCopies(shares, slots, m - 1, slot);
      assert order[..m][..m - 1] == order[..m - 1] && order[..m][m - 1] == last.step;
      assert slots[..m] == slots[..m - 1] + [last];
      if slot.step == last.step {
        LastIsNext(shares, slots, m);
      }
    }
  }

  /** The slot at position m is the next copy of its step. */
  lemma {:induction false} LastIsNext(shares: seq<nat>, slots: seq<Slot>, m: nat)
    requires IsCycle(shares, slots) && 0 < m <= |slots|
    ensures slots[m - 1].copy == CountOf(StepsOfSlots(slots)[..m - 1], slots[m - 1].step)
    decreases m, 0
  {
    hide Position;
    var last, order := slots[m - 1], StepsOfSlots(slots);
    var count := CountOf(order[..m - 1], last.step);
    NotEarlier(shares, slots, m - 1);
    PrefixHoldsFirstCopies(shares, slots, m - 1, last);
    if count < last.copy {
      var missing := Slot(last.step, count);
      PrefixHoldsFirstCopies(shares, slots, m - 1, missing);
      PositionOrder(shares, missing, last);
      SmallerIsEarlier(shares, slots, m - 1, missing);
    }
  }

  lemma NotEarlier(shares: seq<nat>, slots: seq<Slot>, k: nat)
    requires AllSlots(shares, slots) && Sorted(shares, slots) && k < |slots|
    ensures slots[k] !in slots[..k]
  {
    hide Position;
    forall j | 0 <= j < k ensures slots[j] != slots[k] {
      assert Less(shares, slots[j], slots[k]);
    }
  }

  lemma SmallerIsEarlier(shares: seq<nat>, slots: seq<Slot>, k: nat, slot: Slot)
    requires IsCycle(shares, slots) && k < |slots| && IsSlot(shares, slot) && Less(shares, slot, slots[k])
    ensures slot in slots[..k]
  {
    hide Position;
    var j :| 0 <= j < |slots| && slots[j] == slot;
    assert j < k;
    assert slots[..k][j] == slot;
  }

  lemma {:induction false} CountAtMostShare(shares: seq<nat>, slots: seq<Slot>, m: nat, step: nat)
    requires IsCycle(shares, slots) && m <= |slots| && step < |shares|
    ensures CountOf(StepsOfSlots(slots)[..m], step) <= shares[step]
    ensures m == |slots| ==> CountOf(StepsOfSlots(slots)[..m], step) == shares[step]
  {
    hide Position;
    var order := StepsOfSlots(slots);
    if m > 0 {
      assert order[..m][..m - 1] == order[..m - 1] && order[..m][m - 1] == slots[m - 1].step;
      CountAtMostShare(shares, slots, m - 1, step);
      LastIsNext(shares, slots, m);
    }
    if m == |slots| && shares[step] > 0 {
      var final := Slot(step, shares[step] - 1);
      assert final in slots && slots[..m] == slots;
      PrefixHoldsFirstCopies(shares, slots, m, final);
    }
  }

  /** A product, kept apart so that the proofs below stay linear. */
  ghost function Times(x: real, y: real): real { x * y }

  lemma TimesAdds(a: real, b: real, y: real)
    ensures Times(a, y) + Times(b, y) == Times(a + b, y)
    ensures Times(y, a) + Times(y, b) == Times(y, a + b)
  {
  }

  lemma TimesOrder(a: real, b: real, y: real)
    requires a <= b && y >= 0.0
    ensures Times(a, y) <= Times(b, y)
  {
    assert b * y - a * y == (b - a) * y;
  }

  lemma TimesCancels(a: real, b: real, y: real)
    requires y > 0.0 && Times(a, y) <= Times(b, y)
    ensures a <= b
  {
    if a > b {
      assert false;
    }
  }

  /** Position times share is where the copy stands, counted in totals. */
  lemma PositionFacts(shares: seq<nat>, slot: Slot)
    requires IsSlot(shares, slot)
    ensures Times(Position(shares, slot), shares[slot.step] as real)
         == Times(slot.copy as real + 0.5, Sum(shares) as real)
    ensures 0.0 <= Position(shares, slot) <= Sum(shares) as real
  {
    hide Place, Times;
    PlaceWithin(slot.copy as real + 0.5, Sum(shares) as real, shares[slot.step] as real);
  }

  lemma PlaceWithin(c: real, t: real, s: real)
    requires 0.0 <= c <= s && s > 0.0 && t >= 0.0
    ensures Times(Place(c, t, s), s) == Times(c, t) && 0.0 <= Place(c, t, s) <= t
  {
    var p := Place(c, t, s);
    assert p * s == c * t;
    PlaceOrder(0.0, c, t, s);
    PlaceOrder(c, s, t, s);
    assert Place(0.0, t, s) == 0.0;
    assert Place(s, t, s) == t;
  }

  ghost function PrefixCount(slots: seq<Slot>, m: nat, step: nat): nat
    requires m <= |slots|
  {
    CountOf(StepsOfSlots(slots)[..m], step)
  }

  lemma CountIsNotAhead(shares: seq<nat>, slots: seq<Slot>, m: nat, step: nat)
    requires IsCycle(shares, slots) && 0 < m <= |slots| && step < |shares|
    ensures IsSlot(shares, slots[m - 1])
    ensures Times(PrefixCount(slots, m, step) as real - 0.5, Sum(shares) as real)
         <= Times(Position(shares, slots[m - 1]), shares[step] as real)
  {
    hide Position, Times, Sum, Sorted;
    var last, t := slots[m - 1], Sum(shares) as real;
    var x, s, c := Position(shares, last), shares[step] as real, PrefixCount(slots, m, step);
    PositionFacts(shares, last);
    if c > 0 {
      CountAtMostShare(shares, slots, m, step);
      var taken := Slot(step, c - 1);
      PrefixHoldsFirstCopies(shares, slots, m, taken);
      TakenIsNotLater(shares, slots, m, taken);
      PositionFacts(shares, taken);
      TimesOrder(Position(shares, taken), x, s);
      assert taken.copy as real + 0.5 == c as real - 0.5;
    } else {
      TimesOrder(-0.5, 0.0, t);
      TimesOrder(0.0, x, s);
      ZeroTimes(t, s);
    }
  }

  lemma CountIsNotBehind(shares: seq<nat>, slots: seq<Slot>, m: nat, step: nat)
    requires IsCycle(shares, slots) && 0 < m <= |slots| && step < |shares|
    ensures IsSlot(shares, slots[m - 1])
    ensures Times(Position(shares, slots[m - 1]), shares[step] as real)
         <= Times(PrefixCount(slots, m, step) as real + 0.5, Sum(shares) as real)
  {
    hide Position, Times, Sum, Sorted;
    var last, t := slots[m - 1], Sum(shares) as real;
    var x, s, c := Position(shares, last), shares[step] as real, PrefixCount(slots, m, step);
    PositionFacts(shares, last);
    CountAtMostShare(shares, slots, m, step);
    if c < shares[step] {
      var next := Slot(step, c);
      PrefixHoldsFirstCopies(shares, slots, m, next);
      OthersAreNotEarlier(shares, slots, m, next);
      PositionFacts(shares, next);
      TimesOrder(x, Position(shares, next), s);
    } else {
      TimesOrder(x, t, s);
      TimesOrder(s, c as real + 0.5, t);
      TimesCommutes(t, s);
    }
  }

  lemma ZeroTimes(t: real, s: real)
    ensures Times(0.0, t) == 0.0 && Times(0.0, s) == 0.0
  {
  }

  lemma TimesCommutes(t: real, s: real)
    ensures Times(t, s) == Times(s, t)
  {
  }

  lemma TakenIsNotLater(shares: seq<nat>, slots: seq<Slot>, m: nat, slot: Slot)
    requires IsCycle(shares, slots) && 0 < m <= |slots| && slot in slots[..m]
    ensures IsSlot(shares, slot) && Position(shares, slot) <= Position(shares, slots[m - 1])
  {
    hide Position;
    var j :| 0 <= j < m && slots[j] == slot;
    assert j < m - 1 ==> Less(shares, slots[j], slots[m - 1]);
  }

  lemma OthersAreNotEarlier(shares: seq<nat>, slots: seq<Slot>, m: nat, slot: Slot)
    requires IsCycle(shares, slots) && 0 < m <= |slots| && IsSlot(shares, slot) && slot !in slots[..m]
    ensures Position(shares, slot) >= Position(shares, slots[m - 1])
  {
    hide Position;
    var j :| 0 <= j < |slots| && slots[j] == slot;
    assert j >= m;
    assert Less(shares, slots[m - 1], slots[j]);
  }

  ghost function Counts(slots: seq<Slot>, m: nat, n: nat): (r: seq<nat>)
    requires m <= |slots|
    ensures |r| == n && forall i :: 0 <= i < n ==> r[i] == PrefixCount(slots, m, i)
  {
    seq(n, i requires 0 <= i < n => PrefixCount(slots, m, i))
  }

  lemma {:induction false} SumsFollowPosition(shares: seq<nat>, slots: seq<Slot>, m: nat, n: nat)
    requires IsCycle(shares, slots) && 0 < m <= |slots| && n <= |shares|
    ensures IsSlot(shares, slots[m - 1])
    ensures var x, t := Position(shares, slots[m - 1]), Sum(shares) as real;
            var c, s := Sum(Counts(slots, m, n)) as real, Sum(shares[..n]) as real;
            Times(c - n as real / 2.0, t) <= Times(x, s) <= Times(c + n as real / 2.0, t)
  {
    hide Position, Times, PrefixCount;
    var x, t := Position(shares, slots[m - 1]), Sum(shares) as real;
    if n == 0 {
      ZeroTimesBoth(x, t);
    } else {
      SumsFollowPosition(shares, slots, m, n - 1);
      CountIsNotAhead(shares, slots, m, n - 1);
      CountIsNotBehind(shares, slots, m, n - 1);
      assert shares[..n][..n - 1] == shares[..n - 1];
      assert Counts(slots, m, n)[..n - 1] == Counts(slots, m, n - 1);
      var c, s := Sum(Counts(slots, m, n - 1)) as real, Sum(shares[..n - 1]) as real;
      var d, r, h := PrefixCount(slots, m, n - 1) as real, shares[n - 1] as real, (n - 1) as real / 2.0;
      TimesAdds(s, r, x);
      AddHalves(c, h, d, t);
    }
  }

  lemma ZeroTimesBoth(x: real, t: real)
    ensures Times(x, 0.0) == 0.0 && Times(0.0, t) == 0.0
  {
  }

  lemma AddHalves(c: real, h: real, d: real, t: real)
    ensures Times(c - h, t) + Times(d - 0.5, t) == Times(c + d - (h + 0.5), t)
    ensures Times(c + h, t) + Times(d + 0.5, t) == Times(c + d + (h + 0.5), t)
  {
    TimesAdds(c - h, d - 0.5, t);
    TimesAdds(c + h, d + 0.5, t);
  }

  lemma {:induction false} SumIncrement(xs: seq<nat>, ys: seq<nat>, i: nat)
    requires i < |xs| == |ys| && ys == xs[i := xs[i] + 1]
    ensures Sum(ys) == Sum(xs) + 1
  {
    var n := |xs|;
    if i < n - 1 {
      SumIncrement(xs[..n - 1], ys[..n - 1], i);
    } else {
      assert ys[..n - 1] == xs[..n - 1];
    }
  }

  lemma {:induction false} SumZeros(xs: seq<nat>)
    requires forall i :: 0 <= i < |xs| ==> xs[i] == 0
    ensures Sum(xs) == 0
  {
    if xs != [] { SumZeros(xs[..|xs| - 1]); }
  }

  lemma {:induction false} CountsAddUp(shares: seq<nat>, slots: seq<Slot>, m: nat)
    requires IsCycle(shares, slots) && m <= |slots|
    ensures Sum(Counts(slots, m, |shares|)) == m
  {
    var n, order := |shares|, StepsOfSlots(slots);
    if m == 0 {
      SumZeros(Counts(slots, 0, n));
    } else {
      CountsAddUp(shares, slots, m - 1);
      assert order[..m][..m - 1] == order[..m - 1];
      var xs, step := Counts(slots, m - 1, n), slots[m - 1].step;
      assert Counts(slots, m, n) == xs[step := xs[step] + 1];
      SumIncrement(xs, Counts(slots, m, n), step);
    }
  }

  /** A cycle is as long as the shares add up to, and holds each step as often as its share. */
  lemma {:induction false} CycleHoldsShares(shares: seq<nat>, slots: seq<Slot>)
    requires IsCycle(shares, slots)
    ensures |slots| == Sum(shares)
    ensures forall i :: 0 <= i < |shares| ==> CountOf(StepsOfSlots(slots), i) == shares[i]
  {
    var m, order := |slots|, StepsOfSlots(slots);
    assert order[..m] == order;
    forall i | 0 <= i < |shares| ensures CountOf(order, i) == shares[i] {
      CountAtMostShare(shares, slots, m, i);
    }
    CountsAddUp(shares, slots, m);
    assert Counts(slots, m, |shares|) == shares;
  }

  lemma FairInReals(c: real, m: real, h: real, x: real, s: real, t: real)
    requires t > 0.0 && s >= 0.0
    requires Times(m - h, t) <= Times(x, t) <= Times(m + h, t)
    requires Times(c - 0.5, t) <= Times(x, s) <= Times(c + 0.5, t)
    ensures Times(c - 0.5, t) <= Times(m + h, s) && Times(m - h, s) <= Times(c + 0.5, t)
  {
    hide Times;
    TimesCancels(m - h, x, t);
    TimesCancels(x, m + h, t);
    TimesOrder(m - h, x, s);
    TimesOrder(x, m + h, s);
  }

  /** The distance of twice the count from twice its exact share of m, in units of one total. */
  ghost predicate Fair(count: int, m: int, n: int, share: int, total: int) {
    -(total + n * share) <= 2 * total * count - 2 * m * share <= total + n * share
  }

  lemma FairInIntegers(c: nat, m: nat, n: nat, s: nat, t: nat)
    requires Times(c as real - 0.5, t as real) <= Times(m as real + n as real / 2.0, s as real)
    requires Times(m as real - n as real / 2.0, s as real) <= Times(c as real + 0.5, t as real)
    ensures Fair(c, m, n, s, t)
  {
    hide Times;
    var tr, sr := t as real, s as real;
    Shifted(c, t, -0.5);
    Shifted(c, t, 0.5);
    Shifted(m, s, n as real / 2.0);
    Shifted(m, s, -(n as real / 2.0));
    Halved(1.0, tr);
    Halved(n as real, sr);
    RealProduct(n, s);
    assert 1.0 / 2.0 == 0.5;
    ZeroTimes(tr, sr);
    OneTimes(tr);
    InDoubles(c, m, n, s, t);
  }

  /** A product of a whole number and some more. */
  lemma Shifted(c: nat, t: nat, h: real)
    ensures Times(c as real + h, t as real) == (c * t) as real + Times(h, t as real)
  {
    TimesAdds(c as real, h, t as real);
    RealProduct(c, t);
  }

  lemma Halved(x: real, y: real)
    ensures Times(x / 2.0, y) == Times(x, y) / 2.0 && Times(-(x / 2.0), y) == -(Times(x, y) / 2.0)
  {
  }

  lemma OneTimes(y: real)
    ensures Times(1.0, y) == y
  {
  }

  lemma InDoubles(c: nat, m: nat, n: nat, s: nat, t: nat)
    requires (c * t) as real - t as real / 2.0 <= (m * s) as real + (n * s) as real / 2.0
    requires (m * s) as real - (n * s) as real / 2.0 <= (c * t) as real + t as real / 2.0
    ensures Fair(c, m, n, s, t)
  {
    var ct, ms, ns := c * t, m * s, n * s;
    assert 2 * t * c == 2 * ct && 2 * m * s == 2 * ms;
  }

  /** Within one cycle every prefix is fair. */
  lemma {:induction false} PrefixIsFair(shares: seq<nat>, slots: seq<Slot>, m: nat, step: nat)
    requires IsCycle(shares, slots) && m <= |slots| && step < |shares|
    ensures Fair(PrefixCount(slots, m, step), m, |shares|, shares[step], Sum(shares))
  {
    hide Times, Position, Fair, IsCycle, PrefixCount;
    var n, t := |shares|, Sum(shares);
    if m == 0 {
      NothingCounted(slots, step);
      StartIsFair(n, shares[step], t);
    } else {
      CycleHoldsShares(shares, slots);
      CountsAddUp(shares, slots, m);
      assert shares[..n] == shares;
      SumsFollowPosition(shares, slots, m, n);
      var x, c := Position(shares, slots[m - 1]), PrefixCount(slots, m, step);
      CountIsNotAhead(shares, slots, m, step);
      CountIsNotBehind(shares, slots, m, step);
      FairInReals(c as real, m as real, n as real / 2.0, x, shares[step] as real, t as real);
      FairInIntegers(c, m, n, shares[step], t);
    }
  }

  lemma NothingCounted(slots: seq<Slot>, step: nat)
    ensures PrefixCount(slots, 0, step) == 0
  {
  }

  lemma StartIsFair(n: nat, s: nat, t: nat)
    ensures Fair(0, 0, n, s, t)
  {
    assert 2 * t * 0 == 0 && n * s >= 0;
  }

  // ----- Any number of iterations -----

  /** The step iteration number `iteration` runs: the cycle repeats. */
  function StepOf(order: seq<nat>, iteration: nat): nat
    requires order != []
  {
    order[iteration % |order|]
  }

  ghost function RunCount(order: seq<nat>, iterations: nat, step: nat): nat
    requires order != []
  {
    if iterations == 0 then 0
    else RunCount(order, iterations - 1, step) + if StepOf(order, iterations - 1) == step then 1 else 0
  }

  lemma NextIteration(m: nat, t: nat)
    requires t > 0
    ensures m % t + 1 < t ==> (m + 1) / t == m / t && (m + 1) % t == m % t + 1
    ensures m % t + 1 == t ==> (m + 1) / t == m / t + 1 && (m + 1) % t == 0
  {
    var q, r := m / t, m % t;
    if r + 1 < t {
      RemainderIs(m + 1, t, q, r + 1);
    } else {
      assert t * (q + 1) == t * q + t;
      RemainderIs(m + 1, t, q + 1, 0);
    }
  }

  /** Whole cycles, then the beginning of one more. */
  lemma {:induction false} RunsAreCycles(order: seq<nat>, m: nat, step: nat)
    requires order != []
    ensures RunCount(order, m, step)
         == (m / |order|) * CountOf(order, step) + CountOf(order[..m % |order|], step)
  {
    var t := |order|;
    if m == 0 {
      assert 0 / t == 0 && 0 % t == 0;
    } else {
      RunsAreCycles(order, m - 1, step);
      NextIteration(m - 1, t);
      var r := (m - 1) % t;
      assert order[..r + 1][..r] == order[..r];
      if r + 1 == t {
        assert order[..t] == order;
        DistributeOne((m - 1) / t, CountOf(order, step));
      }
    }
  }

  lemma DistributeOne(q: nat, c: nat)
    ensures (q + 1) * c == q * c + c
  {
  }

  lemma WholeCyclesAreExact(c: nat, r: nat, n: nat, s: nat, t: nat, q: nat)
    requires Fair(c, r, n, s, t)
    ensures Fair(q * s + c, q * t + r, n, s, t)
  {
    assert 2 * t * (q * s + c) == 2 * (t * (q * s)) + 2 * t * c;
    assert 2 * (q * t + r) * s == 2 * ((q * t) * s) + 2 * r * s;
    assert t * (q * s) == (q * t) * s;
  }

  lemma CommonFactorIsFair(c: nat, m: nat, n: nat, s: nat, t: nat, g: nat)
    requires Fair(c, m, n, s, t)
    ensures Fair(c, m, n, g * s, g * t)
  {
    var d, bound := 2 * t * c - 2 * m * s, t + n * s;
    ScaleBounds(g, d, bound);
    assert g * (2 * t * c - 2 * m * s) == 2 * (g * t) * c - 2 * m * (g * s) by {
      assert g * (2 * t * c) == 2 * (g * t) * c;
      assert g * (2 * m * s) == 2 * m * (g * s);
    }
    assert g * (t + n * s) == g * t + n * (g * s);
  }

  lemma ScaleBounds(g: nat, d: int, bound: int)
    requires -bound <= d <= bound
    ensures -(g * bound) <= g * d <= g * bound
  {
    assert g * (bound - d) >= 0 && g * (bound + d) >= 0;
    assert g * (bound - d) == g * bound - g * d;
    assert g * (bound + d) == g * bound + g * d;
  }

  lemma {:induction false} SumScales(c: nat, xs: seq<nat>, ys: seq<nat>)
    requires |xs| == |ys| && forall i :: 0 <= i < |xs| ==> ys[i] == c * xs[i]
    ensures Sum(ys) == c * Sum(xs)
  {
    if xs != [] {
      SumScales(c, xs[..|xs| - 1], ys[..|ys| - 1]);
      assert c * (Sum(xs[..|xs| - 1]) + xs[|xs| - 1]) == c * Sum(xs[..|xs| - 1]) + c * xs[|xs| - 1];
    }
  }

  /** The mix is fair at every prefix of the run: after m iterations the count of a step of weight
      w among n steps of total weight W differs from m * w / W by at most 1/2 + n * w / (2 * W);
      and one cycle runs it exactly weight / gcd times. */
  lemma {:induction false} MixIsFair(weights: seq<nat>, slots: seq<Slot>, m: nat, step: nat)
    requires HasMix(weights) && IsCycle(Shares(weights), slots) && step < |weights|
    ensures slots != [] && GcdAll(weights) > 0
    ensures CountOf(StepsOfSlots(slots), step) == weights[step] / GcdAll(weights)
    ensures Fair(RunCount(StepsOfSlots(slots), m, step), m, |weights|, weights[step], Sum(weights))
  {
    hide Position, Fair, IsCycle, Shares, PrefixCount, RunCount, CountOf, Sum, GcdAll;
    var shares, g, order := Shares(weights), GcdAll(weights), StepsOfSlots(slots);
    CycleHoldsShares(shares, slots);
    MixInLowestTerms(weights);
    RunIsFair(shares, slots, m, step);
    CommonFactorIsFair(RunCount(order, m, step), m, |weights|, shares[step], |slots|, g);
  }

  lemma RunIsFair(shares: seq<nat>, slots: seq<Slot>, m: nat, step: nat)
    requires IsCycle(shares, slots) && step < |shares| && Sum(shares) > 0
    ensures slots != []
    ensures Fair(RunCount(StepsOfSlots(slots), m, step), m, |shares|, shares[step], Sum(shares))
  {
    hide Position, Fair, IsCycle, PrefixCount, RunCount, CountOf, Sum;
    CycleHoldsShares(shares, slots);
    var t, order := |slots|, StepsOfSlots(slots);
    var q, r := m / t, m % t;
    RunsAreCycles(order, m, step);
    PrefixIsFair(shares, slots, r, step);
    PrefixCountIs(slots, r, step);
    WholeCyclesAreExact(CountOf(order[..r], step), r, |shares|, shares[step], t, q);
    assert q * t + r == m;
  }

  lemma PrefixCountIs(slots: seq<Slot>, m: nat, step: nat)
    requires m <= |slots|
    ensures PrefixCount(slots, m, step) == CountOf(StepsOfSlots(slots)[..m], step)
  {
  }

  lemma MixInLowestTerms(weights: seq<nat>)
    requires HasMix(weights)
    ensures GcdAll(weights) > 0 && Sum(Shares(weights)) > 0 && Sum(weights) == GcdAll(weights) * Sum(Shares(weights))
    ensures forall i :: 0 <= i < |weights| ==>
              weights[i] == GcdAll(weights) * Shares(weights)[i] && Shares(weights)[i] == weights[i] / GcdAll(weights)
  {
    hide GcdAll, Sum;
    var shares, g := Shares(weights), GcdAll(weights);
    forall i | 0 <= i < |weights| ensures g > 0 && weights[i] == g * shares[i] { SharesAreExact(weights, i); }
    SumScales(g, shares, weights);
    var j :| 0 <= j < |weights| && weights[j] > 0;
    SumAtLeast(weights, j);
    PositiveFactor(g, Sum(shares));
  }

  lemma PositiveFactor(g: nat, x: nat)
    requires g * x > 0
    ensures x > 0
  {
  }
}
