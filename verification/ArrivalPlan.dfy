/** The arrival plan of an open-model run (internal/engine/plan.go).

    A scenario declares phases whose rate is linear in time.  `InstantOf` schedules request
    number i at the instant where the integral of the declared rate reaches i, by inverting the
    integral phase by phase.  Rates and times are exact reals here; the truncation of an instant
    to whole nanoseconds is treated separately at the end.  */
module ArrivalPlan {

  datatype PhaseKind = Ramp | Steady | Spike

  datatype Phase = Phase(kind: PhaseKind, from: real, to: real, duration: real) {
    function InitialRate(): real { if kind == Ramp then from else to }
    function FinalRate(): real { to }
  }

  datatype LoadPlan = Open(phases: seq<Phase>) | Closed(window: real)

  datatype CompiledPhase = CompiledPhase(
    initialRate: real, finalRate: real, duration: real, start: real, accumulatedUntil: real)

  datatype Plan = Plan(phases: seq<CompiledPhase>, duration: real, totalRequests: int)

  /** Below this slope the code treats a phase as flat. */
  const FlatSlope := 0.000000000001

  // ----- The declared rate and its integral, independent of how the plan is compiled -----

  /** What validation leaves: positive durations, and rates that are not negative. */
  ghost predicate ValidPhase(p: Phase) {
    p.duration > 0.0 && p.from >= 0.0 && p.to >= 0.0
  }

  ghost predicate ValidPhases(phases: seq<Phase>) {
    forall k :: 0 <= k < |phases| ==> ValidPhase(phases[k])
  }

  function SlopeOf(p: Phase): real
    requires p.duration > 0.0
  {
    (p.FinalRate() - p.InitialRate()) / p.duration
  }

  /** The rate this far into the phase: the straight line between its two ends. */
  function RateWithin(p: Phase, elapsed: real): real
    requires p.duration > 0.0
  {
    p.InitialRate() + SlopeOf(p) * elapsed
  }

  function Span(phases: seq<Phase>): real {
    if phases == [] then 0.0 else Span(phases[..|phases| - 1]) + phases[|phases| - 1].duration
  }

  /** The rate the scenario declares at instant t, zero outside its phases. */
  ghost function DeclaredRate(phases: seq<Phase>, t: real): real
    requires ValidPhases(phases)
  {
    if phases == [] then 0.0 else
    var init, last := phases[..|phases| - 1], phases[|phases| - 1];
    if t < Span(init) then DeclaredRate(init, t)
    else if t < Span(init) + last.duration then RateWithin(last, t - Span(init))
    else 0.0
  }

  /** Area under the line of one phase, as the trapezoid between its ends. */
  ghost function Trapezoid(p: Phase, elapsed: real): real
    requires p.duration > 0.0
  {
    elapsed * (RateWithin(p, 0.0) + RateWithin(p, elapsed)) / 2.0
  }

  function Min(a: real, b: real): real { if a <= b then a else b }
  function Max(a: real, b: real): real { if a >= b then a else b }

  /** N(t): the integral of the declared rate from 0 to t. */
  ghost function Arrivals(phases: seq<Phase>, t: real): real
    requires ValidPhases(phases)
  {
    if phases == [] then 0.0 else
    var init, last := phases[..|phases| - 1], phases[|phases| - 1];
    if t <= Span(init) then Arrivals(init, t)
    else Arrivals(init, Span(init)) + Trapezoid(last, Min(t - Span(init), last.duration))
  }

  ghost function Peak(phases: seq<Phase>): real {
    if phases == [] then 0.0 else
    var last := phases[|phases| - 1];
    Max(Peak(phases[..|phases| - 1]), Max(last.InitialRate(), last.FinalRate()))
  }

  // ----- What the declaration of a phase says -----

  /** A steady phase and a spike hold their rate from their first instant; a ramp is on the straight
      line between its two rates. */
  lemma {:induction false} DeclaredRateIs(phases: seq<Phase>, k: nat, t: real)
    requires ValidPhases(phases) && k < |phases|
    requires Span(phases[..k]) <= t < Span(phases[..k]) + phases[k].duration
    ensures var p, elapsed := phases[k], t - Span(phases[..k]);
            && (p.kind == Steady || p.kind == Spike ==> DeclaredRate(phases, t) == p.to)
            && (p.kind == Ramp ==> DeclaredRate(phases, t) == p.from + (p.to - p.from) * elapsed / p.duration)
  {
    hide DeclaredRate, RateWithin, Span, SlopeOf;
    DeclaredRateInPhase(phases, k, t);
    RateOfPhase(phases[k], t - Span(phases[..k]));
  }

  lemma RateOfPhase(p: Phase, elapsed: real)
    requires p.duration > 0.0
    ensures p.kind == Steady || p.kind == Spike ==> RateWithin(p, elapsed) == p.to
    ensures p.kind == Ramp ==> RateWithin(p, elapsed) == p.from + (p.to - p.from) * elapsed / p.duration
  {
    OnTheLine(p.FinalRate() - p.InitialRate(), elapsed, p.duration);
  }

  lemma OnTheLine(rise: real, elapsed: real, d: real)
    requires d > 0.0
    ensures rise / d * elapsed == rise * elapsed / d
    ensures rise == 0.0 ==> rise / d * elapsed == 0.0
  {
    var s := rise / d;
    assert s * d == rise;
    assert s * elapsed * d == rise * elapsed;
  }

  /** Over its whole length a steady phase or a spike yields rate times duration, a ramp the mean of its
      two rates times duration. */
  lemma {:induction false} PhaseYields(phases: seq<Phase>, k: nat)
    requires ValidPhases(phases) && k < |phases|
    ensures var p, start := phases[k], Span(phases[..k]);
            var grown := Arrivals(phases, start + p.duration) - Arrivals(phases, start);
            && (p.kind == Steady || p.kind == Spike ==> grown == p.to * p.duration)
            && (p.kind == Ramp ==> grown == (p.from + p.to) / 2.0 * p.duration)
  {
    hide Trapezoid, Arrivals, Accumulated, Span;
    ArrivalsInPhase(phases, k, 0.0);
    ArrivalsInPhase(phases, k, phases[k].duration);
    WholeTrapezoid(phases[k]);
    YieldOf(phases[k], Trapezoid(phases[k], phases[k].duration));
  }

  lemma YieldOf(p: Phase, grown: real)
    requires grown == (p.InitialRate() + p.FinalRate()) / 2.0 * p.duration
    ensures p.kind == Steady || p.kind == Spike ==> grown == p.to * p.duration
    ensures p.kind == Ramp ==> grown == (p.from + p.to) / 2.0 * p.duration
  {
    assert (p.to + p.to) / 2.0 == p.to;
  }

  lemma WholeTrapezoid(p: Phase)
    requires ValidPhase(p)
    ensures Trapezoid(p, 0.0) == 0.0
    ensures Trapezoid(p, p.duration) == (p.InitialRate() + p.FinalRate()) / 2.0 * p.duration
  {
    assert SlopeOf(p) * p.duration == p.FinalRate() - p.InitialRate();
  }

  /** The peak is a rate some phase declares, or zero; and none declares a higher one. */
  lemma {:induction false} PeakIsDeclared(phases: seq<Phase>)
    ensures forall k :: 0 <= k < |phases| ==>
              phases[k].to <= Peak(phases) && (phases[k].kind == Ramp ==> phases[k].from <= Peak(phases))
    ensures Peak(phases) == 0.0 || exists k :: 0 <= k < |phases| && Declares(phases[k], Peak(phases))
  {
    if phases != [] {
      var init, n := phases[..|phases| - 1], |phases| - 1;
      PeakIsDeclared(init);
      forall k | 0 <= k < n ensures phases[k] == init[k] { }
      if Peak(phases) == Peak(init) && Peak(init) != 0.0 {
        var k :| 0 <= k < n && Declares(init[k], Peak(init));
        assert Declares(phases[k], Peak(phases));
      } else if Peak(phases) != 0.0 {
        assert Declares(phases[n], Peak(phases));
      }
    }
  }

  /** The rate is one the phase is written with. */
  predicate Declares(p: Phase, rate: real) { p.to == rate || (p.kind == Ramp && p.from == rate) }

  // ----- The compiled plan -----

  function CountInPhase(phase: CompiledPhase, until: real): real {
    if phase.duration <= 0.0 then 0.0 else
    var slope := (phase.finalRate - phase.initialRate) / phase.duration;
    phase.initialRate * until + slope * until * until / 2.0
  }

  /** The phase with its place in the plan. */
  function Placed(p: Phase, start: real, accumulated: real): CompiledPhase {
    CompiledPhase(p.InitialRate(), p.FinalRate(), p.duration, start, accumulated)
  }

  function Full(p: Phase): real { CountInPhase(Placed(p, 0.0, 0.0), p.duration) }

  function Accumulated(phases: seq<Phase>): real {
    if phases == [] then 0.0 else Accumulated(phases[..|phases| - 1]) + Full(phases[|phases| - 1])
  }

  /** Phase k begins where the first k phases end, in time and in requests. */
  function PlaceAll(phases: seq<Phase>): seq<CompiledPhase> {
    if phases == [] then [] else
    var init := phases[..|phases| - 1];
    PlaceAll(init) + [Placed(phases[|phases| - 1], Span(init), Accumulated(init))]
  }

  function Compiled(phases: seq<Phase>): Plan {
    Plan(PlaceAll(phases), Span(phases), Accumulated(phases).Floor)
  }

  lemma {:induction false} PlaceAllAt(phases: seq<Phase>, k: nat)
    requires k < |phases|
    ensures |PlaceAll(phases)| == |phases|
    ensures PlaceAll(phases)[k] == Placed(phases[k], Span(phases[..k]), Accumulated(phases[..k]))
  {
    var init := phases[..|phases| - 1];
    if |init| > 0 {
      PlaceAllAt(init, if k < |init| then k else 0);
    }
    if k < |init| {
      assert init[..k] == phases[..k];
    }
  }

  lemma {:induction false} PlaceAllLength(phases: seq<Phase>)
    ensures |PlaceAll(phases)| == |phases|
  {
    if phases != [] { PlaceAllAt(phases, 0); }
  }

  method CompilePlan(load: LoadPlan) returns (plan: Plan)
    ensures load.Closed? ==> plan == Plan([], load.window, 0)
    ensures load.Open? ==> plan == Compiled(load.phases)
  {
    if load.Closed? {
      return Plan([], load.window, 0);
    }
    var start, accumulated, compiled := 0.0, 0.0, [];
    for k := 0 to |load.phases|
      invariant start == Span(load.phases[..k])
      invariant accumulated == Accumulated(load.phases[..k])
      invariant compiled == PlaceAll(load.phases[..k])
    {
      var phase := load.phases[k];
      var current := CompiledPhase(phase.InitialRate(), phase.FinalRate(), phase.duration, start, accumulated);
      assert load.phases[..k + 1][..k] == load.phases[..k];
      accumulated := accumulated + CountInPhase(current, phase.duration);
      start := start + phase.duration;
      compiled := compiled + [current];
    }
    assert load.phases[..|load.phases|] == load.phases;
    plan := Plan(compiled, start, accumulated.Floor);
  }

  method PeakRate(plan: Plan, ghost phases: seq<Phase>) returns (peak: real)
    requires plan.phases == PlaceAll(phases)
    ensures peak == Peak(phases)
  {
    peak := 0.0;
    PlaceAllLength(phases);
    for k := 0 to |plan.phases|
      invariant peak == Peak(phases[..k])
    {
      PlaceAllAt(phases, k);
      assert phases[..k + 1][..k] == phases[..k];
      peak := Max(peak, Max(plan.phases[k].initialRate, plan.phases[k].finalRate));
    }
    assert phases[..|phases|] == phases;
  }

  // ----- The rate and its integral -----

  lemma {:induction false} SpanIsNotNegative(phases: seq<Phase>)
    requires ValidPhases(phases)
    ensures Span(phases) >= 0.0
  {
    if phases != [] { SpanIsNotNegative(phases[..|phases| - 1]); }
  }

  lemma {:induction false} SpanOfPrefix(phases: seq<Phase>, k: nat)
    requires ValidPhases(phases) && k < |phases|
    ensures 0.0 <= Span(phases[..k])
    ensures Span(phases[..k]) + phases[k].duration <= Span(phases)
  {
    var init := phases[..|phases| - 1];
    SpanIsNotNegative(phases[..k]);
    if k < |init| {
      SpanOfPrefix(init, k);
      assert init[..k] == phases[..k];
    }
  }

  lemma {:induction false} PeakIsNotNegative(phases: seq<Phase>)
    ensures Peak(phases) >= 0.0
  {
    if phases != [] { PeakIsNotNegative(phases[..|phases| - 1]); }
  }

  /** A product of a slope bounded away from its ends. */
  lemma ScaledWithin(slope: real, u: real, d: real)
    requires 0.0 <= u <= d
    ensures slope >= 0.0 ==> 0.0 <= slope * u <= slope * d
    ensures slope <= 0.0 ==> slope * d <= slope * u <= 0.0
  {
    assert slope * d - slope * u == slope * (d - u);
  }

  /** A line between two ends that are not negative stays between zero and the higher end. */
  lemma LineBounds(i: real, f: real, d: real, slope: real, u: real)
    requires i >= 0.0 && f >= 0.0 && 0.0 <= u <= d && slope * d == f - i
    ensures 0.0 <= i + slope * u <= Max(i, f)
  {
    ScaledWithin(slope, u, d);
    var x, y := slope * u, slope * d;
    if slope >= 0.0 {
      assert 0.0 <= x <= y;
    } else {
      assert y <= x <= 0.0;
    }
  }

  lemma RateWithinBounds(p: Phase, u: real)
    requires ValidPhase(p) && 0.0 <= u <= p.duration
    ensures 0.0 <= RateWithin(p, u) <= Max(p.InitialRate(), p.FinalRate())
  {
    LineBounds(p.InitialRate(), p.FinalRate(), p.duration, SlopeOf(p), u);
  }

  lemma {:induction false} RateBounds(phases: seq<Phase>, t: real)
    requires ValidPhases(phases)
    ensures 0.0 <= t ==> 0.0 <= DeclaredRate(phases, t) <= Peak(phases)
  {
    PeakIsNotNegative(phases);
    if phases != [] && 0.0 <= t {
      var init, last := phases[..|phases| - 1], phases[|phases| - 1];
      RateBounds(init, t);
      if Span(init) <= t < Span(init) + last.duration {
        RateWithinBounds(last, t - Span(init));
      }
    }
  }

  lemma {:induction false} DeclaredRateInPhase(phases: seq<Phase>, k: nat, t: real)
    requires ValidPhases(phases) && k < |phases|
    requires Span(phases[..k]) <= t < Span(phases[..k]) + phases[k].duration
    ensures DeclaredRate(phases, t) == RateWithin(phases[k], t - Span(phases[..k]))
  {
    var init := phases[..|phases| - 1];
    if k < |init| {
      assert init[..k] == phases[..k];
      SpanOfPrefix(init, k);
      DeclaredRateInPhase(init, k, t);
    }
  }

  lemma TrapezoidDifference(p: Phase, a: real, b: real)
    requires ValidPhase(p)
    ensures Trapezoid(p, b) - Trapezoid(p, a) == Held((RateWithin(p, a) + RateWithin(p, b)) / 2.0, b - a)
  {
    var i, s := p.InitialRate(), SlopeOf(p);
    assert Trapezoid(p, a) == i * a + s * a * a / 2.0;
    assert Trapezoid(p, b) == i * b + s * b * b / 2.0;
    assert (b - a) * (i + s * a + (i + s * b)) == 2.0 * i * (b - a) + s * (b * b - a * a);
  }

  /** A rate held for some time.  Kept apart so that the proofs below stay linear. */
  ghost function Held(rate: real, width: real): real { rate * width }

  lemma HeldLaws(x: real, y: real, v: real, w: real)
    requires 0.0 <= x <= y && 0.0 <= v <= w
    ensures 0.0 <= Held(x, v) <= Held(y, w)
    ensures Held(y, v) + Held(y, w - v) == Held(y, w)
  {
    assert y * w - x * v == y * (w - v) + (y - x) * v;
    assert y * (w - v) >= 0.0 && (y - x) * v >= 0.0;
  }

  lemma TrapezoidGrowth(p: Phase, a: real, b: real)
    requires ValidPhase(p) && 0.0 <= a <= b <= p.duration
    ensures 0.0 <= Trapezoid(p, b) - Trapezoid(p, a) <= Held(Max(p.InitialRate(), p.FinalRate()), b - a)
  {
    TrapezoidDifference(p, a, b);
    RateWithinBounds(p, a);
    RateWithinBounds(p, b);
    hide Trapezoid, RateWithin, Held;
    HeldLaws((RateWithin(p, a) + RateWithin(p, b)) / 2.0, Max(p.InitialRate(), p.FinalRate()), b - a, b - a);
  }

  /** The code's closed form for a phase is the trapezoid under its line. */
  lemma {:induction false} CountIsTrapezoid(p: Phase, start: real, accumulated: real, u: real)
    requires ValidPhase(p)
    ensures CountInPhase(Placed(p, start, accumulated), u) == Trapezoid(p, u)
  {
    var i, s := p.InitialRate(), SlopeOf(p);
    assert Trapezoid(p, u) == i * u + s * u * u / 2.0;
  }

  lemma {:induction false} ArrivalsAtEnd(phases: seq<Phase>)
    requires ValidPhases(phases)
    ensures Arrivals(phases, Span(phases)) == Accumulated(phases)
  {
    if phases != [] {
      var init, last := phases[..|phases| - 1], phases[|phases| - 1];
      ArrivalsAtEnd(init);
      CountIsTrapezoid(last, 0.0, 0.0, last.duration);
    }
  }

  lemma {:induction false} ArrivalsInPhase(phases: seq<Phase>, k: nat, u: real)
    requires ValidPhases(phases) && k < |phases| && 0.0 <= u <= phases[k].duration
    ensures Arrivals(phases, Span(phases[..k]) + u) == Accumulated(phases[..k]) + Trapezoid(phases[k], u)
  {
    var init := phases[..|phases| - 1];
    ArrivalsAtEnd(init);
    if k < |init| {
      assert init[..k] == phases[..k];
      SpanOfPrefix(init, k);
      ArrivalsInPhase(init, k, u);
    } else {
      assert phases[..k] == init;
    }
  }

  /** N is the integral of the declared rate: inside a phase it grows by the area of the
      trapezoid under the line, and nowhere faster than the peak. */
  lemma {:induction false} ArrivalsIntegrateRate(phases: seq<Phase>, k: nat, a: real, b: real)
    requires ValidPhases(phases) && k < |phases|
    requires Span(phases[..k]) <= a <= b < Span(phases[..k]) + phases[k].duration
    ensures Arrivals(phases, b) - Arrivals(phases, a)
         == Held((DeclaredRate(phases, a) + DeclaredRate(phases, b)) / 2.0, b - a)
  {
    hide Trapezoid, RateWithin, Held;
    var s := Span(phases[..k]);
    TrapezoidDifference(phases[k], a - s, b - s);
    assert (b - s) - (a - s) == b - a;
    ArrivalsInPhase(phases, k, a - s);
    ArrivalsInPhase(phases, k, b - s);
    DeclaredRateInPhase(phases, k, a);
    DeclaredRateInPhase(phases, k, b);
  }

  lemma LastPhaseGrowth(p: Phase, s: real, a: real, b: real, peak: real)
    requires ValidPhase(p) && s <= a <= b && Max(p.InitialRate(), p.FinalRate()) <= peak
    ensures 0.0 <= Trapezoid(p, Min(b - s, p.duration)) - Trapezoid(p, Min(a - s, p.duration)) <= Held(peak, b - a)
  {
    hide Trapezoid, Held;
    var ua, ub := Min(a - s, p.duration), Min(b - s, p.duration);
    TrapezoidGrowth(p, ua, ub);
    HeldLaws(Max(p.InitialRate(), p.FinalRate()), peak, ub - ua, b - a);
  }

  lemma {:induction false} ArrivalsGrowth(phases: seq<Phase>, a: real, b: real)
    requires ValidPhases(phases) && a <= b
    ensures 0.0 <= Arrivals(phases, b) - Arrivals(phases, a) <= Held(Peak(phases), b - a)
  {
    hide Trapezoid, Held;
    PeakIsNotNegative(phases);
    if phases == [] {
      HeldLaws(0.0, Peak(phases), b - a, b - a);
    } else {
      var init, last := phases[..|phases| - 1], phases[|phases| - 1];
      var s, peak := Span(init), Peak(phases);
      PeakIsNotNegative(init);
      ArrivalsAfter(phases, a);
      ArrivalsAfter(phases, b);
      if b <= s {
        ArrivalsGrowth(init, a, b);
        HeldLaws(Peak(init), peak, b - a, b - a);
      } else if a <= s {
        ArrivalsAfter(phases, s);
        ArrivalsGrowth(init, a, s);
        LastPhaseGrowth(last, s, s, b, peak);
        HeldLaws(Peak(init), peak, s - a, s - a);
        HeldLaws(peak, peak, s - a, b - a);
      } else {
        LastPhaseGrowth(last, s, a, b, peak);
      }
    }
  }

  lemma ArrivalsAfter(phases: seq<Phase>, t: real)
    requires ValidPhases(phases) && phases != []
    ensures var init, last := phases[..|phases| - 1], phases[|phases| - 1];
            t >= Span(init) ==>
              Arrivals(phases, t) == Arrivals(init, Span(init)) + Trapezoid(last, Min(t - Span(init), last.duration))
  {
    assert Trapezoid(phases[|phases| - 1], 0.0) == 0.0;
  }

  function RateInPhase(phase: CompiledPhase, elapsed: real): real
    requires phase.duration > 0.0
  {
    var slope := (phase.finalRate - phase.initialRate) / phase.duration;
    phase.initialRate + slope * elapsed
  }

  method RateAt(plan: Plan, instant: real, ghost phases: seq<Phase>) returns (rate: real)
    requires ValidPhases(phases)
    requires plan.phases == PlaceAll(phases)
    ensures instant >= 0.0 ==> rate == DeclaredRate(phases, instant)
    ensures instant < 0.0 ==> rate == 0.0
    ensures 0.0 <= rate <= Peak(phases)
  {
    PlaceAllLength(phases);
    RateBounds(phases, instant);
    PeakIsNotNegative(phases);
    hide RateWithin, RateInPhase;
    assert phases[..|phases|] == phases;
    for k := 0 to |plan.phases|
      invariant instant >= 0.0 ==> instant >= Span(phases[..k])
    {
      var phase := plan.phases[k];
      PlaceAllAt(phases, k);
      SpanIsNotNegative(phases[..k]);
      assert phases[..k + 1][..k] == phases[..k];
      if instant < phase.start || instant >= phase.start + phase.duration {
        continue;
      }
      DeclaredRateInPhase(phases, k, instant);
      SameLine(phases[k], phase.start, phase.accumulatedUntil, instant - phase.start);
      return RateInPhase(phase, instant - phase.start);
    }
    return 0.0;
  }

  lemma SameLine(p: Phase, start: real, accumulated: real, elapsed: real)
    requires p.duration > 0.0
    ensures RateInPhase(Placed(p, start, accumulated), elapsed) == RateWithin(p, elapsed)
  {
  }

  // ----- Inverting the integral -----

  /** The square root by its defining equation. */
  ghost predicate IsSqrt(sqrt: real -> real) {
    forall x :: x >= 0.0 ==> sqrt(x) >= 0.0 && sqrt(x) * sqrt(x) == x
  }

  function SlopeIn(phase: CompiledPhase): real
    requires phase.duration > 0.0
  {
    (phase.finalRate - phase.initialRate) / phase.duration
  }

  predicate Flat(slope: real) { -FlatSlope < slope < FlatSlope }

  /** The code can tell where in the phase this count is reached: a flat phase divides by its rate. */
  predicate Invertible(phase: CompiledPhase, count: real) {
    count > 0.0 ==> phase.duration > 0.0 && (Flat(SlopeIn(phase)) ==> phase.initialRate > 0.0)
  }

  function InstantInPhase(phase: CompiledPhase, count: real, sqrt: real -> real): real
    requires Invertible(phase, count)
  {
    if count <= 0.0 then 0.0
    else if Flat(SlopeIn(phase)) then count / phase.initialRate
    else Root(phase.initialRate, SlopeIn(phase), count, sqrt)
  }

  /** The positive branch of the quadratic formula. */
  function Root(linear: real, slope: real, count: real, sqrt: real -> real): real
    requires slope != 0.0
  {
    var quadratic := slope / 2.0;
    (-linear + sqrt(linear * linear + 4.0 * quadratic * count)) / (2.0 * quadratic)
  }

  lemma SquaresOrder(x: real, y: real)
    requires x >= 0.0 && y >= 0.0
    ensures x <= y <==> x * x <= y * y
  {
    assert y * y - x * x == (y - x) * (y + x);
    if x < y {
      SameSign(y - x, y + x);
    } else if y < x {
      StrictSign(x - y, y + x);
      assert (x - y) * (y + x) == x * x - y * y;
    }
  }

  lemma StrictSign(x: real, y: real)
    requires x > 0.0 && y > 0.0
    ensures x * y > 0.0
  {
  }

  /** The discriminant runs from the square of the first rate to the square of the last one. */
  lemma Discriminant(i: real, f: real, d: real, slope: real, count: real)
    requires i >= 0.0 && f >= 0.0 && d > 0.0 && slope * d == f - i
    requires 0.0 <= count <= i * d + slope * d * d / 2.0
    ensures var e := i * i + 4.0 * (slope / 2.0) * count;
            && (slope >= 0.0 ==> i * i <= e <= f * f)
            && (slope <= 0.0 ==> f * f <= e <= i * i)
  {
    var full := i * d + slope * d * d / 2.0;
    assert 2.0 * slope * full == 2.0 * i * (slope * d) + (slope * d) * (slope * d);
    assert i * i + 2.0 * slope * full == f * f;
    ScaledWithin(slope, count, full);
  }

  lemma RootEquation(linear: real, slope: real, count: real, sqrt: real -> real)
    requires slope != 0.0
    ensures slope * Root(linear, slope, count, sqrt) == sqrt(linear * linear + 4.0 * (slope / 2.0) * count) - linear
  {
  }

  /** Where the quadratic formula lands: inside the phase, at the count asked for. */
  lemma RootInverts(i: real, f: real, d: real, slope: real, count: real, sqrt: real -> real)
    requires i >= 0.0 && f >= 0.0 && d > 0.0 && slope * d == f - i && slope != 0.0
    requires 0.0 <= count <= i * d + slope * d * d / 2.0
    requires IsSqrt(sqrt)
    ensures 0.0 <= Root(i, slope, count, sqrt) <= d
    ensures CountAlong(i, slope, Root(i, slope, count, sqrt)) == count
  {
    hide Root, CountAlong;
    var e, u := i * i + 4.0 * (slope / 2.0) * count, Root(i, slope, count, sqrt);
    RootEquation(i, slope, count, sqrt);
    Discriminant(i, f, d, slope, count);
    Squares(i, f);
    var r := sqrt(e);
    SolvesQuadratic(i, slope, u, r, count);
    SquaresOrder(i, r);
    SquaresOrder(r, i);
    SquaresOrder(r, f);
    SquaresOrder(f, r);
    Between(slope, u, d, r - i, f - i);
  }

  ghost function CountAlong(initial: real, slope: real, u: real): real { initial * u + slope * u * u / 2.0 }

  lemma Squares(x: real, y: real)
    ensures x * x >= 0.0 && y * y >= 0.0
  {
  }

  lemma SameSign(slope: real, w: real)
    requires slope != 0.0
    ensures slope > 0.0 ==> (slope * w >= 0.0 <==> w >= 0.0)
    ensures slope < 0.0 ==> (slope * w <= 0.0 <==> w >= 0.0)
  {
    if w >= 0.0 {
      ScaledWithin(slope, w, w);
    } else {
      assert slope > 0.0 ==> slope * -w > 0.0;
      assert slope < 0.0 ==> slope * -w < 0.0;
    }
  }

  lemma Between(slope: real, u: real, d: real, x: real, y: real)
    requires slope != 0.0 && slope * u == x && slope * d == y
    requires slope > 0.0 ==> 0.0 <= x <= y
    requires slope < 0.0 ==> y <= x <= 0.0
    ensures 0.0 <= u <= d
  {
    SameSign(slope, u);
    SameSign(slope, d - u);
    assert slope * (d - u) == y - x;
  }

  lemma SolvesQuadratic(i: real, slope: real, u: real, r: real, count: real)
    requires slope != 0.0 && slope * u == r - i && r * r == i * i + 4.0 * (slope / 2.0) * count
    ensures CountAlong(i, slope, u) == count
  {
    var v := i * u + slope * u * u / 2.0;
    assert 2.0 * slope * v == 2.0 * i * (slope * u) + (slope * u) * (slope * u);
    assert 2.0 * slope * v == r * r - i * i;
    assert slope * v == slope * count;
    assert slope * (v - count) == 0.0;
  }

  /** The phase that serves a target: the first one the target does not run past, or the last. */
  function Serving(phases: seq<CompiledPhase>, target: real, k: nat): (j: nat)
    requires k < |phases|
    ensures k <= j < |phases|
    decreases |phases| - k
  {
    var beyond := target - phases[k].accumulatedUntil >= CountInPhase(phases[k], phases[k].duration);
    if k < |phases| - 1 && beyond then Serving(phases, target, k + 1) else k
  }

  predicate Schedulable(plan: Plan, index: nat) {
    plan.phases != [] ==>
      var phase := plan.phases[Serving(plan.phases, index as real, 0)];
      Invertible(phase, index as real - phase.accumulatedUntil)
  }

  function InstantOf(plan: Plan, index: nat, sqrt: real -> real): real
    requires Schedulable(plan, index)
  {
    if plan.phases == [] then plan.duration else
    var phase := plan.phases[Serving(plan.phases, index as real, 0)];
    Min(phase.start + InstantInPhase(phase, index as real - phase.accumulatedUntil, sqrt), plan.duration)
  }

  method FindInstant(plan: Plan, index: nat, sqrt: real -> real) returns (instant: real)
    requires Schedulable(plan, index)
    ensures instant == InstantOf(plan, index, sqrt)
  {
    var target := index as real;
    for position := 0 to |plan.phases|
      invariant position < |plan.phases| ==>
          Serving(plan.phases, target, 0) == Serving(plan.phases, target, position)
      invariant position == |plan.phases| ==> plan.phases == []
    {
      var phase := plan.phases[position];
      var inPhase := target - phase.accumulatedUntil;
      var last := position == |plan.phases| - 1;
      if !last && inPhase >= CountInPhase(phase, phase.duration) {
        continue;
      }
      instant := phase.start + InstantInPhase(phase, inPhase, sqrt);
      if instant > plan.duration {
        return plan.duration;
      }
      return;
    }
    return plan.duration;
  }

  /** The phase is inverted by the formula that matches its line: flat, or steep enough. */
  ghost predicate ExactSlope(p: Phase)
    requires p.duration > 0.0
  {
    SlopeOf(p) == 0.0 || !Flat(SlopeOf(p))
  }

  /** Exact are a slope of zero and every slope of 10^-12 or more, up or down. */
  lemma {:induction false} ExactSlopeIs(p: Phase)
    requires p.duration > 0.0
    ensures ExactSlope(p) <==>
              SlopeOf(p) == 0.0 || SlopeOf(p) >= 0.000000000001 || SlopeOf(p) <= -0.000000000001
  {
    hide SlopeOf;
  }

  lemma FullAnywhere(p: Phase, start: real, accumulated: real)
    ensures CountInPhase(Placed(p, start, accumulated), p.duration) == Full(p)
  {
  }

  lemma {:induction false} ServingBrackets(phases: seq<Phase>, target: real, k: nat)
    requires ValidPhases(phases) && k < |phases|
    requires Accumulated(phases[..k]) <= target < Accumulated(phases)
    ensures |PlaceAll(phases)| == |phases|
    ensures var j := Serving(PlaceAll(phases), target, k);
            Accumulated(phases[..j]) <= target < Accumulated(phases[..j]) + Full(phases[j])
    decreases |phases| - k
  {
    hide CountInPhase;
    PlaceAllAt(phases, k);
    FullAnywhere(phases[k], Span(phases[..k]), Accumulated(phases[..k]));
    assert phases[..k + 1][..k] == phases[..k];
    if k + 1 < |phases| {
      if target >= Accumulated(phases[..k + 1]) {
        ServingBrackets(phases, target, k + 1);
      }
    } else {
      assert phases[..k + 1] == phases;
    }
  }

  lemma FullIsAlong(p: Phase, start: real, accumulated: real, u: real)
    requires ValidPhase(p)
    ensures CountInPhase(Placed(p, start, accumulated), u) == CountAlong(p.InitialRate(), SlopeOf(p), u)
    ensures Trapezoid(p, u) == CountAlong(p.InitialRate(), SlopeOf(p), u)
    ensures SlopeIn(Placed(p, start, accumulated)) == SlopeOf(p)
    ensures SlopeOf(p) * p.duration == p.FinalRate() - p.InitialRate()
  {
    CountIsTrapezoid(p, start, accumulated, u);
  }

  lemma FlatFull(i: real, d: real, count: real)
    requires i >= 0.0 && d > 0.0 && 0.0 < count <= CountAlong(i, 0.0, d)
    ensures i > 0.0 && 0.0 <= count / i <= d && CountAlong(i, 0.0, count / i) == count
  {
    assert CountAlong(i, 0.0, d) == i * d;
    if i > 0.0 {
      var u := count / i;
      assert i * u == count;
      SameSign(i, u);
      SameSign(i, d - u);
      assert i * (d - u) == i * d - count;
    }
  }

  lemma TinyMisses(i: real, slope: real, count: real)
    requires i > 0.0 && slope != 0.0 && count > 0.0
    ensures count / i > 0.0 && CountAlong(i, slope, count / i) != count
  {
    var u := count / i;
    assert i * u == count;
    assert u > 0.0;
    assert CountAlong(i, slope, u) == count + slope * u * u / 2.0;
    StrictSign(u, u);
    SameSign(slope, u * u);
    SameSign(slope, -(u * u));
  }

  /** The code divides by a rate of zero: the phase climbs from zero so slightly that it is taken
      for flat. */
  ghost predicate Stalls(p: Phase, count: real)
    requires p.duration > 0.0
  {
    count > 0.0 && p.InitialRate() == 0.0 && !ExactSlope(p)
  }

  /** Inside one phase: the code finds an instant exactly when it does not divide by zero, and finds
      the right one exactly when it did not round a slight slope down to a flat one. */
  lemma {:induction false} PhaseInverts(p: Phase, start: real, accumulated: real, count: real, sqrt: real -> real)
    requires ValidPhase(p) && 0.0 <= count <= Full(p) && IsSqrt(sqrt)
    ensures Invertible(Placed(p, start, accumulated), count) <==> !Stalls(p, count)
    ensures Invertible(Placed(p, start, accumulated), count) ==>
              var u := InstantInPhase(Placed(p, start, accumulated), count, sqrt);
            && u >= 0.0
            && (ExactSlope(p) || count == 0.0 ==> u <= p.duration)
            && (Trapezoid(p, u) == count <==> ExactSlope(p) || count == 0.0)
  {
    var phase := Placed(p, start, accumulated);
    var i, slope, d := p.InitialRate(), SlopeOf(p), p.duration;
    FullIsAlong(p, start, accumulated, d);
    FullIsAlong(p, 0.0, 0.0, d);
    if count == 0.0 {
      assert Trapezoid(p, 0.0) == 0.0;
    } else if slope == 0.0 {
      FlatFull(i, d, count);
      FullIsAlong(p, start, accumulated, count / i);
    } else if !Flat(slope) {
      assert CountAlong(i, slope, d) == i * d + slope * d * d / 2.0;
      RootInverts(i, p.FinalRate(), d, slope, count, sqrt);
      FullIsAlong(p, start, accumulated, Root(i, slope, count, sqrt));
    } else if i > 0.0 {
      TinyMisses(i, slope, count);
      FullIsAlong(p, start, accumulated, count / i);
    }
  }

  ghost predicate ExactlyInverted(phases: seq<Phase>, index: nat)
    requires ValidPhases(phases) && phases != []
  {
    PlaceAllLength(phases);
    var k := Serving(PlaceAll(phases), index as real, 0);
    ExactSlope(phases[k]) || index as real == Accumulated(phases[..k])
  }

  /** The request falls into a phase that climbs from zero too slightly for the code to invert. */
  ghost predicate Stalled(phases: seq<Phase>, index: nat)
    requires ValidPhases(phases) && phases != []
  {
    PlaceAllLength(phases);
    var k := Serving(PlaceAll(phases), index as real, 0);
    Stalls(phases[k], index as real - Accumulated(phases[..k]))
  }

  /** Scheduling never drifts: the instant of request i is where the integral of the declared
      rate reaches i, in every phase and however long the run, unless the serving phase has a
      slope so slight that the code takes it for flat; and it is inside the run.  There is no
      instant exactly when such a phase starts at rate zero. */
  lemma {:induction false} SchedulingNeverDrifts(phases: seq<Phase>, index: nat, sqrt: real -> real)
    requires ValidPhases(phases) && IsSqrt(sqrt)
    requires index < Compiled(phases).totalRequests
    ensures phases != [] && (Schedulable(Compiled(phases), index) <==> !Stalled(phases, index))
    ensures Schedulable(Compiled(phases), index) ==>
              var t := InstantOf(Compiled(phases), index, sqrt);
              0.0 <= t <= Span(phases) && (Arrivals(phases, t) == index as real <==> ExactlyInverted(phases, index))
  {
    hide Trapezoid, InstantInPhase, CountInPhase, SlopeOf, Invertible, IsSqrt, ValidPhase;
    hide Span, Accumulated, Arrivals, PlaceAll, Serving, Full, ExactSlope;
    var plan, target := Compiled(phases), index as real;
    BelowTotal(index, Accumulated(phases));
    NothingAccumulated(phases);
    ServingBrackets(phases, target, 0);
    var k := Serving(plan.phases, target, 0);
    PlaceAllAt(phases, k);
    var before := Accumulated(phases[..k]);
    PhaseInverts(phases[k], Span(phases[..k]), before, target - before, sqrt);
    if Invertible(plan.phases[k], target - before) {
      ServedInside(phases, k, InstantInPhase(plan.phases[k], target - before, sqrt));
    }
  }

  lemma NothingAccumulated(phases: seq<Phase>)
    ensures Accumulated(phases[..0]) == 0.0
    ensures phases == [] ==> Accumulated(phases) == 0.0
  {
  }

  lemma BelowTotal(index: nat, accumulated: real)
    requires index < accumulated.Floor
    ensures index as real < accumulated
  {
  }

  /** An instant counted from the start of phase k, cut at the end of the plan. */
  lemma ServedInside(phases: seq<Phase>, k: nat, u: real)
    requires ValidPhases(phases) && k < |phases| && u >= 0.0
    ensures var t := Min(Span(phases[..k]) + u, Span(phases));
            && 0.0 <= t
            && (u <= phases[k].duration ==> Arrivals(phases, t) == Accumulated(phases[..k]) + Trapezoid(phases[k], u))
            && (u > phases[k].duration ==> Arrivals(phases, t) >= Accumulated(phases[..k]) + Full(phases[k]))
  {
    hide Trapezoid, CountInPhase, Held, Arrivals, Accumulated, Peak, Span, SlopeOf;
    var p, start := phases[k], Span(phases[..k]);
    SpanOfPrefix(phases, k);
    if u <= p.duration {
      ArrivalsInPhase(phases, k, u);
    } else {
      ArrivalsInPhase(phases, k, p.duration);
      CountIsTrapezoid(p, 0.0, 0.0, p.duration);
      ArrivalsGrowth(phases, start + p.duration, Min(start + u, Span(phases)));
    }
  }

  lemma OnePhase(p: Phase)
    requires ValidPhase(p)
    ensures ValidPhases([p]) && Span([p]) == p.duration && Accumulated([p]) == Full(p) && Accumulated([p][..0]) == 0.0
    ensures PlaceAll([p]) == [Placed(p, 0.0, 0.0)] && Serving(PlaceAll([p]), 1.0, 0) == 0
    ensures Full(p) == (p.InitialRate() + p.FinalRate()) * p.duration / 2.0
  {
    assert [p][..0] == [] && Span([]) == 0.0 && Accumulated([]) == 0.0 && PlaceAll([]) == [];
    var i, f, d := p.InitialRate(), p.FinalRate(), p.duration;
    assert (f - i) / d * d == f - i;
    assert Full(p) == i * d + ((f - i) / d * d) * d / 2.0;
  }

  lemma DriftingSlope(p: Phase)
    requires p == Phase(Ramp, 1.0, 1.000000000001, 10.0)
    ensures SlopeOf(p) == 0.0000000000001
  {
    assert SlopeOf(p) == 0.000000000001 / 10.0;
  }

  /** A plan of one steady phase or one spike: rate times duration requests, evenly spaced from the start. */
  lemma {:induction false} SteadyRequestsAreEvenlySpaced(p: Phase, index: nat, sqrt: real -> real)
    requires ValidPhase(p) && (p.kind == Steady || p.kind == Spike) && p.to > 0.0
    ensures Compiled([p]).totalRequests == (p.to * p.duration).Floor
    ensures index < Compiled([p]).totalRequests ==>
              Schedulable(Compiled([p]), index) && InstantOf(Compiled([p]), index, sqrt) == index as real / p.to
  {
    OnePhase(p);
    YieldOf(p, Full(p));
    var phase := Placed(p, 0.0, 0.0);
    assert SlopeIn(phase) == 0.0;
    hide Full, Accumulated, Span, SlopeIn, Root;
    if index < Compiled([p]).totalRequests {
      BelowTotal(index, Accumulated([p]));
      assert Serving(PlaceAll([p]), index as real, 0) == 0;
      hide Serving, PlaceAll;
      QuotientBelow(index as real, p.to, p.duration);
      assert index == 0 ==> index as real / p.to == 0.0;
    }
  }

  /** A plan that drifts: ten seconds from 1 request per second to 10^-12 more. */
  lemma {:induction false} SlightSlopeDrifts(sqrt: real -> real)
    requires IsSqrt(sqrt)
    ensures var phases := [Phase(Ramp, 1.0, 1.000000000001, 10.0)];
            && ValidPhases(phases) && 1 < Compiled(phases).totalRequests && Schedulable(Compiled(phases), 1)
            && Arrivals(phases, InstantOf(Compiled(phases), 1, sqrt)) != 1.0
  {
    hide IsSqrt, Arrivals, InstantOf;
    var p := Phase(Ramp, 1.0, 1.000000000001, 10.0);
    OnePhase(p);
    DriftingSlope(p);
    SchedulingNeverDrifts([p], 1, sqrt);
  }

  lemma ClimbingSlope(p: Phase)
    requires p == Phase(Ramp, 0.0, 0.000005, 10000000.0)
    ensures SlopeOf(p) == 0.0000000000005 && SlopeIn(Placed(p, 0.0, 0.0)) == 0.0000000000005
  {
    assert SlopeOf(p) == 0.000005 / 10000000.0;
  }

  /** A plan with requests that have no instant: a climb from rate zero to five millionths of a
      request per second, in ten million seconds. */
  lemma {:induction false} SlightClimbDividesByZero()
    ensures var phases := [Phase(Ramp, 0.0, 0.000005, 10000000.0)];
            ValidPhases(phases) && 1 < Compiled(phases).totalRequests && !Schedulable(Compiled(phases), 1)
  {
    var p := Phase(Ramp, 0.0, 0.000005, 10000000.0);
    OnePhase(p);
    ClimbingSlope(p);
    hide PlaceAll, Accumulated, Serving, SlopeIn, Full;
  }

  // ----- Order, pace and bursts of the scheduled instants -----

  /** The instant of a request that has one. */
  ghost function Scheduled(phases: seq<Phase>, index: nat, sqrt: real -> real): (t: real)
    requires ValidPhases(phases) && IsSqrt(sqrt) && HasInstant(phases, index)
    ensures 0.0 <= t <= Span(phases)
  {
    SchedulingNeverDrifts(phases, index, sqrt);
    InstantOf(Compiled(phases), index, sqrt)
  }

  /** A request of the plan for which the code does not divide by zero. */
  ghost predicate HasInstant(phases: seq<Phase>, index: nat) {
    index < Compiled(phases).totalRequests && Schedulable(Compiled(phases), index)
  }

  ghost predicate HasInstants(phases: seq<Phase>) {
    forall i: nat :: i < Compiled(phases).totalRequests ==> HasInstant(phases, i)
  }

  /** How far N is from the number of the request at its instant. */
  ghost function Drift(phases: seq<Phase>, index: nat, sqrt: real -> real): real
    requires ValidPhases(phases) && IsSqrt(sqrt) && HasInstant(phases, index)
  {
    Arrivals(phases, Scheduled(phases, index, sqrt)) - index as real
  }

  ghost predicate DriftsAtMost(phases: seq<Phase>, e: real, sqrt: real -> real)
    requires ValidPhases(phases) && IsSqrt(sqrt)
  {
    HasInstants(phases) && forall i: nat :: HasInstant(phases, i) ==> -e <= Drift(phases, i, sqrt) <= e
  }

  ghost predicate Exact(phases: seq<Phase>, index: nat)
    requires ValidPhases(phases)
  {
    phases != [] && ExactlyInverted(phases, index)
  }

  /** A plan does not drift at all exactly when every request is inverted exactly. */
  lemma {:induction false} NoDriftMeansExact(phases: seq<Phase>, sqrt: real -> real)
    requires ValidPhases(phases) && IsSqrt(sqrt)
    ensures DriftsAtMost(phases, 0.0, sqrt) <==>
              forall i: nat :: i < Compiled(phases).totalRequests ==> Exact(phases, i)
  {
    forall i: nat | i < Compiled(phases).totalRequests
      ensures phases != [] && (Schedulable(Compiled(phases), i) <==> !Stalled(phases, i))
      ensures Schedulable(Compiled(phases), i) ==> (Drift(phases, i, sqrt) == 0.0 <==> Exact(phases, i))
    {
      SchedulingNeverDrifts(phases, i, sqrt);
    }
    hide Schedulable, Drift, Compiled, ValidPhases, IsSqrt, PlaceAll, Serving, Accumulated, ExactSlope;
    forall i: nat | i < Compiled(phases).totalRequests && Exact(phases, i) ensures HasInstant(phases, i) { }
    if forall i: nat :: i < Compiled(phases).totalRequests ==> Exact(phases, i) {
      assert HasInstants(phases);
    }
    if DriftsAtMost(phases, 0.0, sqrt) {
      forall i: nat | i < Compiled(phases).totalRequests ensures Exact(phases, i) { assert HasInstant(phases, i); }
    }
  }

  /** It is enough that no declared phase has a slope the code would take for flat. */
  lemma {:induction false} ExactSlopesAreEnough(phases: seq<Phase>, sqrt: real -> real)
    requires ValidPhases(phases) && forall k :: 0 <= k < |phases| ==> ExactSlope(phases[k])
    requires IsSqrt(sqrt)
    ensures DriftsAtMost(phases, 0.0, sqrt)
  {
    hide ExactSlope, ValidPhase, IsSqrt;
    forall i: nat | i < Compiled(phases).totalRequests ensures Exact(phases, i) {
      NothingAccumulated(phases);
      PlaceAllLength(phases);
    }
    NoDriftMeansExact(phases, sqrt);
  }

  // ----- Requests scheduled past the end of their phase -----

  /** The phase a request is served in, and how far into the phase's requests it is. */
  ghost function PhaseOf(phases: seq<Phase>, index: nat): (k: nat)
    requires phases != []
    ensures k < |phases|
  {
    PlaceAllLength(phases);
    Serving(PlaceAll(phases), index as real, 0)
  }

  ghost function CountOf(phases: seq<Phase>, index: nat): real
    requires phases != []
  {
    index as real - Accumulated(phases[..PhaseOf(phases, index)])
  }

  /** Taken for flat, the phase is over before it has yielded this many requests. */
  ghost predicate Spills(p: Phase, count: real)
    requires p.duration > 0.0
  {
    !ExactSlope(p) && count > 0.0 && count >= p.InitialRate() * p.duration
  }

  ghost predicate Spilled(phases: seq<Phase>, index: nat)
    requires ValidPhases(phases) && phases != []
  {
    Spills(phases[PhaseOf(phases, index)], CountOf(phases, index))
  }

  /** Inside one phase: the instant is before the end exactly when the request does not spill, and it
      grows with the count. */
  lemma InstantStays(p: Phase, start: real, accumulated: real, count: real, sqrt: real -> real)
    requires ValidPhase(p) && 0.0 <= count < Full(p) && IsSqrt(sqrt) && !Stalls(p, count)
    ensures Invertible(Placed(p, start, accumulated), count)
    ensures var u := InstantInPhase(Placed(p, start, accumulated), count, sqrt);
            && u >= 0.0
            && (u < p.duration <==> !Spills(p, count))
            && (ExactSlope(p) ==> Trapezoid(p, u) == count)
            && (!ExactSlope(p) && count > 0.0 ==> p.InitialRate() > 0.0 && Held(p.InitialRate(), u) == count)
            && (count == 0.0 ==> u == 0.0)
  {
    PhaseInverts(p, start, accumulated, count, sqrt);
    var phase := Placed(p, start, accumulated);
    var i, d := p.InitialRate(), p.duration;
    FullIsAlong(p, start, accumulated, d);
    FullIsAlong(p, 0.0, 0.0, d);
    var u := InstantInPhase(phase, count, sqrt);
    hide Root, Trapezoid, CountAlong, IsSqrt, Held;
    if ExactSlope(p) {
      assert Trapezoid(p, d) == Full(p);
    } else if count > 0.0 {
      assert u == count / i;
      QuotientBelow(count, i, d);
    }
  }

  lemma QuotientBelow(count: real, i: real, d: real)
    requires i > 0.0
    ensures Held(i, count / i) == count && (count / i < d <==> count < i * d)
  {
    var u := count / i;
    SameSign(i, d - u);
    SameSign(i, u - d);
    assert i * (d - u) == i * d - count && i * (u - d) == count - i * d;
  }

  lemma InstantGrows(p: Phase, start: real, accumulated: real, x: real, y: real, sqrt: real -> real)
    requires ValidPhase(p) && 0.0 <= x < y < Full(p) && IsSqrt(sqrt) && !Stalls(p, y)
    ensures var phase := Placed(p, start, accumulated);
            && Invertible(phase, x) && Invertible(phase, y)
            && InstantInPhase(phase, x, sqrt) < InstantInPhase(phase, y, sqrt)
  {
    InstantStays(p, start, accumulated, x, sqrt);
    InstantStays(p, start, accumulated, y, sqrt);
    hide InstantInPhase, Invertible, Trapezoid, Full, Held, IsSqrt;
    var phase := Placed(p, start, accumulated);
    var u, v := InstantInPhase(phase, x, sqrt), InstantInPhase(phase, y, sqrt);
    var i := p.InitialRate();
    if ExactSlope(p) {
      if v <= u { TrapezoidGrowth(p, v, u); }
    } else if x > 0.0 {
      SmallerFactor(u, v, i);
    } else {
      ZeroFactor(v, i);
    }
  }

  lemma SmallerFactor(u: real, v: real, i: real)
    requires i > 0.0 && Held(i, u) < Held(i, v)
    ensures u < v
  {
    SameSign(i, u - v);
    assert i * (u - v) == i * u - i * v;
  }

  lemma ZeroFactor(v: real, i: real)
    requires v >= 0.0 && Held(i, v) > 0.0
    ensures v > 0.0
  {
  }

  lemma {:induction false} ServingGrows(phases: seq<CompiledPhase>, x: real, y: real, k: nat)
    requires k < |phases| && x <= y
    ensures Serving(phases, x, k) <= Serving(phases, y, k)
    decreases |phases| - k
  {
    hide CountInPhase;
    if k < |phases| - 1 { ServingGrows(phases, x, y, k + 1); }
  }

  /** Where a request that has an instant is served, and by which formula. */
  lemma Served(phases: seq<Phase>, index: nat, sqrt: real -> real)
    requires ValidPhases(phases) && IsSqrt(sqrt) && HasInstant(phases, index)
    ensures phases != []
    ensures var k, count := PhaseOf(phases, index), CountOf(phases, index);
            var phase := Placed(phases[k], Span(phases[..k]), Accumulated(phases[..k]));
            && 0.0 <= count < Full(phases[k]) && !Stalls(phases[k], count) && Invertible(phase, count)
            && Scheduled(phases, index, sqrt)
               == Min(Span(phases[..k]) + InstantInPhase(phase, count, sqrt), Span(phases))
  {
    hide InstantInPhase, CountInPhase, SlopeOf, ExactSlope, Serving, IsSqrt, ValidPhase, Full;
    SchedulingNeverDrifts(phases, index, sqrt);
    BelowTotal(index, Accumulated(phases));
    NothingAccumulated(phases);
    ServingBrackets(phases, index as real, 0);
    PlaceAllAt(phases, PhaseOf(phases, index));
  }

  /** A request is scheduled before its phase is over exactly when it does not spill. */
  lemma {:induction false} InstantsStayInTheirPhase(phases: seq<Phase>, index: nat, sqrt: real -> real)
    requires ValidPhases(phases) && IsSqrt(sqrt) && HasInstant(phases, index)
    ensures phases != []
    ensures var k, t := PhaseOf(phases, index), Scheduled(phases, index, sqrt);
            && Span(phases[..k]) <= t
            && (t < Span(phases[..k]) + phases[k].duration <==> !Spilled(phases, index))
  {
    hide InstantInPhase, Scheduled, PhaseOf, CountOf, Full, ExactSlope, IsSqrt, Span, Accumulated;
    Served(phases, index, sqrt);
    var k := PhaseOf(phases, index);
    InstantStays(phases[k], Span(phases[..k]), Accumulated(phases[..k]), CountOf(phases, index), sqrt);
    SpanOfPrefix(phases, k);
  }

  lemma TrapezoidGrowsStrictly(p: Phase, a: real, b: real)
    requires ValidPhase(p) && 0.0 <= a < b <= p.duration && Full(p) > 0.0
    ensures Trapezoid(p, a) < Trapezoid(p, b)
  {
    TrapezoidDifference(p, a, b);
    RateWithinBounds(p, a);
    RateWithinBounds(p, b);
    if RateWithin(p, a) == 0.0 && RateWithin(p, b) == 0.0 { ZeroTwice(p, a, b); }
    hide Trapezoid, RateWithin, Full, Held;
    PositiveHeld((RateWithin(p, a) + RateWithin(p, b)) / 2.0, b - a);
  }

  lemma PositiveHeld(rate: real, width: real)
    requires rate > 0.0 && width > 0.0
    ensures Held(rate, width) > 0.0
  {
  }

  /** A line that is zero at two places is zero everywhere. */
  lemma ZeroTwice(p: Phase, a: real, b: real)
    requires ValidPhase(p) && a < b && RateWithin(p, a) == 0.0 && RateWithin(p, b) == 0.0
    ensures Full(p) == 0.0
  {
    FullIs(p);
    var i, s := p.InitialRate(), SlopeOf(p);
    assert s * b - s * a == s * (b - a);
    ZeroSlope(s, b - a);
    assert i == 0.0 && p.FinalRate() == i + s * p.duration;
  }

  lemma ZeroSlope(s: real, w: real)
    requires w > 0.0 && s * w == 0.0
    ensures s == 0.0
  {
  }

  /** How many requests the code takes the phase to have yielded by then. */
  ghost function Yield(p: Phase, elapsed: real): real
    requires p.duration > 0.0
  {
    if ExactSlope(p) then Trapezoid(p, Min(elapsed, p.duration)) else Held(p.InitialRate(), elapsed)
  }

  /** Inside one phase: the instant of a count is still to come exactly as long as fewer were yielded. */
  lemma StillToCome(p: Phase, start: real, accumulated: real, count: real, elapsed: real, sqrt: real -> real)
    requires ValidPhase(p) && 0.0 <= count < Full(p) && IsSqrt(sqrt) && !Stalls(p, count) && elapsed >= 0.0
    ensures Invertible(Placed(p, start, accumulated), count)
    ensures elapsed < InstantInPhase(Placed(p, start, accumulated), count, sqrt) <==> Yield(p, elapsed) < count
  {
    InstantStays(p, start, accumulated, count, sqrt);
    FullIsAlong(p, 0.0, 0.0, p.duration);
    var u, i := InstantInPhase(Placed(p, start, accumulated), count, sqrt), p.InitialRate();
    hide InstantInPhase, Invertible, Trapezoid, Held, IsSqrt, CountAlong, Stalls;
    if ExactSlope(p) {
      assert Trapezoid(p, p.duration) == Full(p);
      hide Full;
      if elapsed < u {
        TrapezoidGrowsStrictly(p, elapsed, u);
      } else if elapsed <= p.duration {
        TrapezoidGrowth(p, u, elapsed);
      }
    } else if count > 0.0 {
      FactorOrder(elapsed, u, i);
    } else {
      HeldIsNotNegative(i, elapsed);
    }
  }

  lemma FactorOrder(u: real, v: real, i: real)
    requires i > 0.0
    ensures u < v <==> Held(i, u) < Held(i, v)
  {
    SameSign(i, v - u);
    SameSign(i, u - v);
    assert i * (v - u) == i * v - i * u && i * (u - v) == i * u - i * v;
  }

  lemma HeldIsNotNegative(i: real, u: real)
    requires i >= 0.0 && u >= 0.0
    ensures Held(i, u) >= 0.0
  {
  }

  /** Although it spilled, the request is scheduled within the run and before the phase of a later one
      has yielded that one. */
  ghost predicate StillAhead(phases: seq<Phase>, i: nat, j: nat)
    requires ValidPhases(phases) && phases != [] && Spilled(phases, i) && phases[PhaseOf(phases, i)].InitialRate() > 0.0
  {
    var k, m := PhaseOf(phases, i), PhaseOf(phases, j);
    var x := Span(phases[..k]) + CountOf(phases, i) / phases[k].InitialRate();
    && x < Span(phases)
    && (x < Span(phases[..m]) || Yield(phases[m], x - Span(phases[..m])) < CountOf(phases, j))
  }

  lemma SpilledAt(phases: seq<Phase>, i: nat, sqrt: real -> real)
    requires ValidPhases(phases) && IsSqrt(sqrt) && HasInstant(phases, i)
    ensures phases != []
    ensures Spilled(phases, i) ==>
              var k, t := PhaseOf(phases, i), Scheduled(phases, i, sqrt);
              && phases[k].InitialRate() > 0.0
              && t == Min(Span(phases[..k]) + CountOf(phases, i) / phases[k].InitialRate(), Span(phases))
  {
    hide Scheduled, Full, IsSqrt, Span, Accumulated, Serving;
    Served(phases, i, sqrt);
  }

  /** Later requests have later instants, across phase boundaries too, unless the earlier one spills. */
  lemma KeepsItsPlace(phases: seq<Phase>, i: nat, j: nat, sqrt: real -> real)
    requires ValidPhases(phases) && IsSqrt(sqrt) && i < j && HasInstant(phases, i) && HasInstant(phases, j)
    ensures phases != [] && (!Spilled(phases, i) ==> Scheduled(phases, i, sqrt) < Scheduled(phases, j, sqrt))
  {
    hide InstantInPhase, Invertible, Scheduled, Full, ExactSlope, IsSqrt, Span, Accumulated, Serving, Stalls, Spills;
    Served(phases, i, sqrt);
    Served(phases, j, sqrt);
    InstantsStayInTheirPhase(phases, i, sqrt);
    InstantsStayInTheirPhase(phases, j, sqrt);
    PlaceAllLength(phases);
    ServingGrows(PlaceAll(phases), i as real, j as real, 0);
    var k, m := PhaseOf(phases, i), PhaseOf(phases, j);
    SpanOfPrefix(phases, k);
    if k == m {
      InstantGrows(phases[k], Span(phases[..k]), Accumulated(phases[..k]),
                   CountOf(phases, i), CountOf(phases, j), sqrt);
    } else {
      assert phases[..m][..k] == phases[..k];
      SpanOfPrefix(phases[..m], k);
    }
  }

  /** A request comes strictly before a later one, across phase boundaries too, exactly when it does not
      spill, or spills and is still ahead. */
  lemma {:induction false} ScheduleIsStrictlyIncreasing(phases: seq<Phase>, i: nat, j: nat, sqrt: real -> real)
    requires ValidPhases(phases) && IsSqrt(sqrt) && i < j && HasInstant(phases, i) && HasInstant(phases, j)
    ensures phases != [] && (Spilled(phases, i) ==> phases[PhaseOf(phases, i)].InitialRate() > 0.0)
    ensures Scheduled(phases, i, sqrt) < Scheduled(phases, j, sqrt) <==>
              (Spilled(phases, i) ==> StillAhead(phases, i, j))
  {
    hide InstantInPhase, Invertible, Scheduled, Full, ExactSlope, IsSqrt, Span, Accumulated, Serving, Stalls, Spills;
    hide Yield, PhaseOf, CountOf, Spilled;
    KeepsItsPlace(phases, i, j, sqrt);
    SpilledAt(phases, i, sqrt);
    if Spilled(phases, i) {
      Served(phases, j, sqrt);
      InstantsStayInTheirPhase(phases, j, sqrt);
      var k, m := PhaseOf(phases, i), PhaseOf(phases, j);
      var start, x := Span(phases[..m]), Span(phases[..k]) + CountOf(phases, i) / phases[k].InitialRate();
      var u := InstantInPhase(Placed(phases[m], start, Accumulated(phases[..m])), CountOf(phases, j), sqrt);
      if x >= start {
        StillToCome(phases[m], start, Accumulated(phases[..m]), CountOf(phases, j), x - start, sqrt);
      } else {
        InstantStays(phases[m], start, Accumulated(phases[..m]), CountOf(phases, j), sqrt);
      }
      assert x < start + u <==> x < start || Yield(phases[m], x - start) < CountOf(phases, j);
    }
  }

  lemma FullIs(p: Phase)
    requires ValidPhase(p)
    ensures Full(p) == (p.InitialRate() + p.FinalRate()) * p.duration / 2.0
  {
    OnePhase(p);
  }

  lemma TwoPhases(p: Phase, q: Phase, index: nat)
    requires ValidPhase(p) && ValidPhase(q)
    ensures var phases := [p, q];
            && ValidPhases(phases)
            && Span(phases) == p.duration + q.duration && Accumulated(phases) == Full(p) + Full(q)
            && Span(phases[..0]) == 0.0 && Accumulated(phases[..0]) == 0.0
            && Span(phases[..1]) == p.duration && Accumulated(phases[..1]) == Full(p)
            && PlaceAll(phases) == [Placed(p, 0.0, 0.0), Placed(q, p.duration, Full(p))]
            && PhaseOf(phases, index) == if index as real >= Full(p) then 1 else 0
  {
    hide CountInPhase;
    assert [p, q][..1] == [p] && [p][..0] == [] == [p, q][..0];
    assert Span([]) == 0.0 && Accumulated([]) == 0.0 && PlaceAll([]) == [];
    assert PlaceAll([p]) == [Placed(p, 0.0, 0.0)];
    FullAnywhere(p, 0.0, 0.0);
  }

  /** A slight climb over ten million seconds, then a steady rate. */
  ghost const LowThenFast := [Phase(Ramp, 0.0000001, 0.0000051, 10000000.0), Phase(Steady, 0.0, 1.0, 100000000.0)]

  lemma SpillingSlope(p: Phase)
    requires p == LowThenFast[0]
    ensures ValidPhase(p) && SlopeOf(p) == 0.0000000000005 && Full(p) == 26.0 && p.InitialRate() * p.duration == 1.0
  {
    assert SlopeOf(p) == 0.000005 / 10000000.0;
    FullIs(p);
  }

  /** A request that spills can come after later ones: request 2 of this plan is not before request 26,
      with which the second phase begins. */
  lemma {:induction false} SpilledRequestComesLate(sqrt: real -> real)
    requires IsSqrt(sqrt)
    ensures ValidPhases(LowThenFast) && HasInstant(LowThenFast, 2) && HasInstant(LowThenFast, 26)
    ensures Spilled(LowThenFast, 2) && Scheduled(LowThenFast, 26, sqrt) <= Scheduled(LowThenFast, 2, sqrt)
  {
    var p, q := LowThenFast[0], LowThenFast[1];
    SpillingSlope(p);
    FullIs(q);
    TwoPhases(p, q, 2);
    TwoPhases(p, q, 26);
    assert LowThenFast == [p, q];
    hide IsSqrt, Full, Span, Accumulated, PlaceAll, PhaseOf, InstantInPhase, Scheduled, SlopeOf;
    SchedulingNeverDrifts(LowThenFast, 2, sqrt);
    SchedulingNeverDrifts(LowThenFast, 26, sqrt);
    assert CountOf(LowThenFast, 2) == 2.0 && CountOf(LowThenFast, 26) == 0.0;
    Served(LowThenFast, 26, sqrt);
    InstantsStayInTheirPhase(LowThenFast, 2, sqrt);
    StartsAtOnce(q, p.duration, Full(p), sqrt);
  }

  lemma StartsAtOnce(p: Phase, start: real, accumulated: real, sqrt: real -> real)
    ensures InstantInPhase(Placed(p, start, accumulated), 0.0, sqrt) == 0.0
  {
  }

  /** How far a request drifts that does not spill: nothing if its phase is inverted exactly, else the
      area the slight slope adds or takes away, less than half of 10^-12 times the square of the
      duration. */
  lemma {:induction false} DriftIsTheSlightArea(phases: seq<Phase>, index: nat, sqrt: real -> real)
    requires ValidPhases(phases) && IsSqrt(sqrt) && HasInstant(phases, index)
    ensures phases != []
    ensures !Spilled(phases, index) ==>
              var p, count := phases[PhaseOf(phases, index)], CountOf(phases, index);
              && (ExactSlope(p) || count == 0.0 ==> Drift(phases, index, sqrt) == 0.0)
              && (!ExactSlope(p) && count > 0.0 ==>
                    && p.InitialRate() > 0.0
                    && var u := count / p.InitialRate();
                       && Drift(phases, index, sqrt) == SlopeOf(p) * u * u / 2.0
                       && -FlatSlope * p.duration * p.duration / 2.0 < Drift(phases, index, sqrt)
                       && Drift(phases, index, sqrt) < FlatSlope * p.duration * p.duration / 2.0)
  {
    hide InstantInPhase, Invertible, Scheduled, Full, ExactSlope, IsSqrt, Span, Accumulated, Serving, Stalls, SlopeOf;
    hide Trapezoid, Arrivals, Spills;
    Served(phases, index, sqrt);
    var k, count := PhaseOf(phases, index), CountOf(phases, index);
    var p, start := phases[k], Span(phases[..k]);
    SpanOfPrefix(phases, k);
    InstantStays(p, start, Accumulated(phases[..k]), count, sqrt);
    var u := InstantInPhase(Placed(p, start, Accumulated(phases[..k])), count, sqrt);
    if !Spilled(phases, index) {
      ArrivalsInPhase(phases, k, u);
      assert Scheduled(phases, index, sqrt) == start + u;
      SlightArea(p, u, count);
    }
  }

  lemma SlightArea(p: Phase, u: real, count: real)
    requires ValidPhase(p) && 0.0 <= u < p.duration && 0.0 <= count
    requires ExactSlope(p) ==> Trapezoid(p, u) == count
    requires count == 0.0 ==> u == 0.0
    requires !ExactSlope(p) && count > 0.0 ==> p.InitialRate() > 0.0 && Held(p.InitialRate(), u) == count
    ensures ExactSlope(p) || count == 0.0 ==> Trapezoid(p, u) == count
    ensures !ExactSlope(p) && count > 0.0 ==>
              && u == count / p.InitialRate()
              && Trapezoid(p, u) - count == SlopeOf(p) * u * u / 2.0
              && -FlatSlope * p.duration * p.duration / 2.0 < SlopeOf(p) * u * u / 2.0
              && SlopeOf(p) * u * u / 2.0 < FlatSlope * p.duration * p.duration / 2.0
  {
    FullIsAlong(p, 0.0, 0.0, u);
    var i, s, d := p.InitialRate(), SlopeOf(p), p.duration;
    if !ExactSlope(p) && count > 0.0 {
      assert CountAlong(i, s, u) == i * u + s * u * u / 2.0;
      hide SlopeOf, Trapezoid, CountAlong;
      SlightSquare(s, u, d);
    }
  }

  lemma SlightSquare(s: real, u: real, d: real)
    requires -FlatSlope < s < FlatSlope && 0.0 <= u < d
    ensures -FlatSlope * d * d < s * u * u < FlatSlope * d * d
  {
    var x, y := u * u, d * d;
    SquaresOrder(u, d);
    StrictSign(d, d);
    Squares(u, d);
    SlightProduct(FlatSlope, s, x, y);
    assert s * u * u == s * x && FlatSlope * d * d == FlatSlope * y && -FlatSlope * d * d == -(FlatSlope * y);
  }

  lemma SlightProduct(f: real, s: real, x: real, y: real)
    requires -f < s < f && 0.0 <= x <= y && y > 0.0
    ensures -(f * y) < s * x < f * y
  {
    assert -Held(f, y) < Held(s, x) < Held(f, y) by {
      HeldBetween(s, x, y);
      HeldBelow(f, s, y);
      hide Held;
    }
  }

  lemma HeldBetween(s: real, x: real, y: real)
    requires 0.0 <= x <= y
    ensures s >= 0.0 ==> 0.0 <= Held(s, x) <= Held(s, y)
    ensures s <= 0.0 ==> Held(s, y) <= Held(s, x) <= 0.0
  {
    ScaledWithin(s, x, y);
  }

  lemma HeldBelow(f: real, s: real, y: real)
    requires -f < s < f && y > 0.0
    ensures 0.0 < Held(f, y) && -Held(f, y) < Held(s, y) < Held(f, y)
  {
    PositiveHeld(f, y);
    PositiveHeld(f - s, y);
    PositiveHeld(f + s, y);
    HeldSplits(f, s, y);
    hide Held;
  }

  lemma HeldSplits(f: real, s: real, y: real)
    ensures Held(f - s, y) == Held(f, y) - Held(s, y) && Held(f + s, y) == Held(f, y) + Held(s, y)
  {
  }

  // ----- Pace and bursts -----

  /** How many of the first n requests are scheduled at or before t. */
  ghost function DueBy(phases: seq<Phase>, t: real, n: nat, sqrt: real -> real): (count: nat)
    requires ValidPhases(phases) && IsSqrt(sqrt) && HasInstants(phases) && n <= Compiled(phases).totalRequests
    ensures count <= n
  {
    if n == 0 then 0
    else DueBy(phases, t, n - 1, sqrt) + if Scheduled(phases, n - 1, sqrt) <= t then 1 else 0
  }

  lemma {:induction false} DueByTracksArrivals(phases: seq<Phase>, t: real, n: nat, e: real, sqrt: real -> real)
    requires ValidPhases(phases) && IsSqrt(sqrt) && n <= Compiled(phases).totalRequests && t >= 0.0
    requires e >= 0.0 && DriftsAtMost(phases, e, sqrt)
    ensures DueBy(phases, t, n, sqrt) as real <= Arrivals(phases, t) + 1.0 + e
    ensures DueBy(phases, t, n, sqrt) == n || DueBy(phases, t, n, sqrt) as real >= Arrivals(phases, t) - e
  {
    hide Held, Schedulable, Compiled, ValidPhase, IsSqrt, Arrivals, Scheduled;
    if n == 0 {
      ArrivalsGrowth(phases, 0.0, t);
      ArrivalsStartAtZero(phases);
    } else {
      DueByTracksArrivals(phases, t, n - 1, e, sqrt);
      assert HasInstant(phases, n - 1);
      var s := Scheduled(phases, n - 1, sqrt);
      assert -e <= Drift(phases, n - 1, sqrt) <= e;
      if s <= t {
        ArrivalsGrowth(phases, s, t);
      } else {
        ArrivalsGrowth(phases, t, s);
      }
    }
  }

  lemma {:induction false} ArrivalsStartAtZero(phases: seq<Phase>)
    requires ValidPhases(phases)
    ensures Arrivals(phases, 0.0) == 0.0
  {
    if phases != [] {
      SpanIsNotNegative(phases[..|phases| - 1]);
      ArrivalsStartAtZero(phases[..|phases| - 1]);
    }
  }

  lemma {:induction false} ArrivalsAreBounded(phases: seq<Phase>, t: real)
    requires ValidPhases(phases)
    ensures Arrivals(phases, t) <= Accumulated(phases)
  {
    hide Held;
    ArrivalsAtEnd(phases);
    if t <= Span(phases) {
      ArrivalsGrowth(phases, t, Span(phases));
    } else if phases != [] {
      hide Trapezoid;
      SpanIsNotNegative(phases[..|phases| - 1]);
    }
  }

  /** At every instant the number of requests scheduled so far is within one of the integral, and
      the most any request drifts. */
  lemma {:induction false} PaceFollowsTheDeclaredRate(phases: seq<Phase>, t: real, e: real, sqrt: real -> real)
    requires ValidPhases(phases) && IsSqrt(sqrt) && t >= 0.0 && e >= 0.0 && DriftsAtMost(phases, e, sqrt)
    ensures Compiled(phases).totalRequests >= 0
    ensures var due := DueBy(phases, t, Compiled(phases).totalRequests, sqrt) as real;
            Arrivals(phases, t) - 1.0 - e <= due <= Arrivals(phases, t) + 1.0 + e
  {
    AccumulatedIsNotNegative(phases);
    DueByTracksArrivals(phases, t, Compiled(phases).totalRequests, e, sqrt);
    ArrivalsAreBounded(phases, t);
  }

  /** No window is denser than the peak rate allows, also across phase boundaries. */
  lemma {:induction false} BurstsAreBounded(phases: seq<Phase>, a: real, b: real, e: real, sqrt: real -> real)
    requires ValidPhases(phases) && IsSqrt(sqrt) && 0.0 <= a <= b && e >= 0.0 && DriftsAtMost(phases, e, sqrt)
    ensures Compiled(phases).totalRequests >= 0
    ensures var n := Compiled(phases).totalRequests;
            (DueBy(phases, b, n, sqrt) - DueBy(phases, a, n, sqrt)) as real <= Peak(phases) * (b - a) + 1.0 + 2.0 * e
  {
    hide Held, Peak, Arrivals, Compiled, DueBy, IsSqrt, ExactSlope;
    AccumulatedIsNotNegative(phases);
    var n := Compiled(phases).totalRequests;
    DueByTracksArrivals(phases, a, n, e, sqrt);
    DueByTracksArrivals(phases, b, n, e, sqrt);
    ArrivalsGrowth(phases, a, b);
    HeldIs(Peak(phases), b - a);
  }

  lemma HeldIs(rate: real, width: real)
    ensures Held(rate, width) == rate * width
  {
  }

  lemma {:induction false} AccumulatedIsNotNegative(phases: seq<Phase>)
    requires ValidPhases(phases)
    ensures Accumulated(phases) >= 0.0 && Compiled(phases).totalRequests >= 0
  {
    hide Held;
    ArrivalsAtEnd(phases);
    ArrivalsStartAtZero(phases);
    SpanIsNotNegative(phases);
    ArrivalsGrowth(phases, 0.0, Span(phases));
  }

  // ----- Truncation to whole nanoseconds -----

  const Second := 1000000000.0

  function Truncated(seconds: real): real { (seconds * Second).Floor as real / Second }

  predicate WholeNanoseconds(seconds: real) { Truncated(seconds) == seconds }

  /** What InstantOf returns once the time within the phase is cut to whole nanoseconds. */
  function InstantOfInNanoseconds(plan: Plan, index: nat, sqrt: real -> real): real
    requires Schedulable(plan, index)
  {
    if plan.phases == [] then plan.duration else
    var phase := plan.phases[Serving(plan.phases, index as real, 0)];
    Min(phase.start + Truncated(InstantInPhase(phase, index as real - phase.accumulatedUntil, sqrt)), plan.duration)
  }

  lemma FloorShifts(n: int, y: real)
    ensures (n as real + y).Floor == n + y.Floor
  {
  }

  lemma FloorOrder(x: real, y: real)
    requires x <= y
    ensures x.Floor <= y.Floor
  {
  }

  lemma TruncatedClose(x: real)
    ensures x - 1.0 / Second < Truncated(x) <= x
  {
    var z := x * Second;
    var n := z.Floor as real;
    assert n <= z < n + 1.0;
    assert x == z / Second;
  }

  lemma TruncatedOrder(x: real, y: real)
    requires x <= y
    ensures Truncated(x) <= Truncated(y)
  {
    FloorOrder(x * Second, y * Second);
  }

  lemma TruncatedShifts(x: real, y: real)
    requires WholeNanoseconds(x)
    ensures Truncated(x + y) == x + Truncated(y)
  {
    var n := (x * Second).Floor;
    assert (x + y) * Second == n as real + y * Second;
    FloorShifts(n, y * Second);
  }

  lemma {:induction false} SpanIsWhole(phases: seq<Phase>)
    requires forall k :: 0 <= k < |phases| ==> WholeNanoseconds(phases[k].duration)
    ensures WholeNanoseconds(Span(phases))
  {
    hide Truncated;
    if phases != [] {
      var init, last := phases[..|phases| - 1], phases[|phases| - 1];
      SpanIsWhole(init);
      TruncatedShifts(Span(init), last.duration);
    } else {
      ZeroIsWhole();
    }
  }

  lemma ZeroIsWhole()
    ensures WholeNanoseconds(0.0)
  {
    assert 0.0 * Second == 0.0;
  }

  /** Truncation never accumulates: whatever the index, the instant is less than one nanosecond
      early, the order is kept, and the integral at it is short of what it is at the exact instant by
      at most what the peak rate yields in one nanosecond. */
  lemma {:induction false} TruncationDoesNotDrift(phases: seq<Phase>, i: nat, j: nat, sqrt: real -> real)
    requires ValidPhases(phases) && IsSqrt(sqrt) && i <= j && HasInstant(phases, i) && HasInstant(phases, j)
    requires forall k :: 0 <= k < |phases| ==> WholeNanoseconds(phases[k].duration)
    ensures phases != []
    ensures var t, n := InstantOfInNanoseconds(Compiled(phases), i, sqrt), i as real + Drift(phases, i, sqrt);
            && Scheduled(phases, i, sqrt) - 1.0 / Second < t <= Scheduled(phases, i, sqrt)
            && n - Peak(phases) / Second <= Arrivals(phases, t) <= n
            && (i == j || !Spilled(phases, i) ==> t <= InstantOfInNanoseconds(Compiled(phases), j, sqrt))
  {
    hide InstantInPhase, InstantOfInNanoseconds, Truncated, Arrivals, Schedulable, IsSqrt, SlopeOf, ExactSlope;
    hide ValidPhase, Span, Accumulated, PlaceAll, Serving, Scheduled, WholeNanoseconds, Peak, Spilled;
    TruncatedIsOuter(phases, i, sqrt);
    TruncatedIsOuter(phases, j, sqrt);
    InstantsStayInTheirPhase(phases, i, sqrt);
    if i < j && !Spilled(phases, i) {
      KeepsItsPlace(phases, i, j, sqrt);
    }
    if i == j || !Spilled(phases, i) {
      TruncatedOrder(Scheduled(phases, i, sqrt), Scheduled(phases, j, sqrt));
    }
    ArrivalsJustBefore(phases, Scheduled(phases, i, sqrt));
  }

  lemma ArrivalsJustBefore(phases: seq<Phase>, t: real)
    requires ValidPhases(phases)
    ensures t - 1.0 / Second < Truncated(t) <= t
    ensures Arrivals(phases, t) - Peak(phases) / Second <= Arrivals(phases, Truncated(t)) <= Arrivals(phases, t)
  {
    hide Truncated, Held;
    TruncatedClose(t);
    ArrivalsGrowth(phases, Truncated(t), t);
    PeakIsNotNegative(phases);
    HeldLaws(Peak(phases), Peak(phases), t - Truncated(t), 1.0 / Second);
    HeldForOneNanosecond(Peak(phases));
  }

  lemma HeldForOneNanosecond(rate: real)
    ensures Held(rate, 1.0 / Second) == rate / Second
  {
  }

  lemma TruncatedIsOuter(phases: seq<Phase>, i: nat, sqrt: real -> real)
    requires ValidPhases(phases) && IsSqrt(sqrt) && HasInstant(phases, i)
    requires forall k :: 0 <= k < |phases| ==> WholeNanoseconds(phases[k].duration)
    ensures InstantOfInNanoseconds(Compiled(phases), i, sqrt) == Truncated(Scheduled(phases, i, sqrt))
  {
    hide InstantInPhase, Truncated;
    SchedulingNeverDrifts(phases, i, sqrt);
    PlaceAllLength(phases);
    var plan := Compiled(phases);
    var k := Serving(plan.phases, i as real, 0);
    PlaceAllAt(phases, k);
    SpanIsWhole(phases[..k]);
    SpanIsWhole(phases);
    var u := InstantInPhase(plan.phases[k], i as real - plan.phases[k].accumulatedUntil, sqrt);
    TruncatedShifts(plan.phases[k].start, u);
    if plan.phases[k].start + u <= Span(phases) {
      TruncatedOrder(plan.phases[k].start + u, Span(phases));
    } else {
      TruncatedOrder(Span(phases), plan.phases[k].start + u);
    }
  }
}
