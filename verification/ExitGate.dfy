/** What exit code 0 says about a run: the warnings and sanity checks that decide whether the result
    means anything (internal/metrics/result.go, internal/metrics/sanity.go), the rules read over it
    (internal/slo/slo.go) and the verdict (internal/runner/runner.go); and then what the verdict on
    a document says about the samples, dispatches and journeys that were recorded.  */
module ExitGate {
  import opened Basics
  import opened Aggregates
  import opened Documents

  datatype Severity = High | Medium | Low

  datatype Warning = Warning(kind: string, severity: Severity)

  /** What the run was meant to do; the duration is in nanoseconds. */
  datatype Input = Input(declaredSteps: seq<string>, plannedRequests: int, plannedDuration: int)

  // ----- Warnings -----

  /** One dispatch in a hundred. */
  const LateDispatchLimit := 0.01

  function LateProportion(s: Scheduling): real {
    if s.sent == 0 then 0.0 else s.late as real / s.sent as real
  }

  /** The warnings about the generator; those about the target, the variety of the data and the
      scenario come from elsewhere and follow them. */
  function EvaluateWarnings(s: Scheduling, others: seq<Warning>): seq<Warning> {
    (if s.dropped > 0 then [Warning("generatorSaturated", High)] else [])
    + (if s.sent > 0 && LateProportion(s) >= LateDispatchLimit then [Warning("generatorSaturated", High)]
       else if s.sent > 0 && s.late > 0 then [Warning("generatorOccasionallyLate", Low)]
       else [])
    + (if s.lost > 0 then [Warning("lostSamples", High)] else [])
    + others
  }

  // ----- Sanity -----

  function NoJourneyCompleted(d: Document): seq<string> {
    if d.journey.started == 0 || d.journey.completed > 0 then [] else ["incompleteJourney"]
  }

  function WithSamples(steps: seq<StepResult>): set<string> {
    if steps == [] then {} else
    WithSamples(steps[..|steps| - 1]) + if steps[|steps| - 1].count > 0 then {steps[|steps| - 1].name} else {}
  }

  function Missing(declared: seq<string>, sampled: set<string>): seq<string> {
    if declared == [] then [] else
    var before := Missing(declared[..|declared| - 1], sampled);
    if declared[|declared| - 1] in sampled then before else before + ["stepWithoutSample"]
  }

  method DeclaredStepWithoutSamples(d: Document, input: Input) returns (findings: seq<string>)
    ensures findings == Missing(input.declaredSteps, WithSamples(d.steps))
  {
    if |input.declaredSteps| == 0 {
      return [];
    }
    var withSamples := {};
    for k := 0 to |d.steps|
      invariant withSamples == WithSamples(d.steps[..k])
    {
      assert d.steps[..k + 1][..k] == d.steps[..k];
      if d.steps[k].count > 0 {
        withSamples := withSamples + {d.steps[k].name};
      }
    }
    assert d.steps[..|d.steps|] == d.steps;
    findings := [];
    for k := 0 to |input.declaredSteps|
      invariant findings == Missing(input.declaredSteps[..k], withSamples)
    {
      assert input.declaredSteps[..k + 1][..k] == input.declaredSteps[..k];
      if input.declaredSteps[k] in withSamples {
        continue;
      }
      findings := findings + ["stepWithoutSample"];
    }
    assert input.declaredSteps[..|input.declaredSteps|] == input.declaredSteps;
  }

  function CountRan(steps: seq<StepResult>): nat {
    if steps == [] then 0 else
    CountRan(steps[..|steps| - 1]) + if steps[|steps| - 1].count == 0 then 0 else 1
  }

  function Failed(steps: seq<StepResult>): seq<StepResult> {
    if steps == [] then [] else
    var before, last := Failed(steps[..|steps| - 1]), steps[|steps| - 1];
    if last.count != 0 && last.errors == last.count then before + [last] else before
  }

  function FailureFindings(ran: nat, failed: seq<StepResult>): seq<string> {
    if ran == 0 || failed == [] then []
    else if |failed| == ran && ran > 1 then ["everythingFailed"]
    else seq(|failed|, k => "stepFullyFailed")
  }

  method EverythingFailed(d: Document) returns (findings: seq<string>)
    ensures findings == FailureFindings(CountRan(d.steps), Failed(d.steps))
  {
    var failed, ran := [], 0;
    for k := 0 to |d.steps|
      invariant failed == Failed(d.steps[..k]) && ran == CountRan(d.steps[..k])
    {
      assert d.steps[..k + 1][..k] == d.steps[..k];
      var step := d.steps[k];
      if step.count == 0 {
        continue;
      }
      ran := ran + 1;
      if step.errors == step.count {
        failed := failed + [step];
      }
    }
    assert d.steps[..|d.steps|] == d.steps;
    findings := FailureFindings(ran, failed);
  }

  const AppliedTolerance := 99

  function RunShorterThanPlan(d: Document, input: Input): seq<string> {
    if input.plannedRequests <= 0 then RunShorterThanWindow(d, input)
    else if d.scheduling.sent + d.scheduling.dropped >= input.plannedRequests * AppliedTolerance / 100 then []
    else ["shortRun"]
  }

  function RunShorterThanWindow(d: Document, input: Input): seq<string> {
    if d.run.model != ClosedModel || input.plannedDuration <= 0 then []
    else if d.run.durationMs * 1_000_000 >= input.plannedDuration * AppliedTolerance / 100 then []
    else ["shortRun"]
  }

  function Invalidating(warnings: seq<Warning>): seq<string> {
    if warnings == [] then [] else
    var before, last := Invalidating(warnings[..|warnings| - 1]), warnings[|warnings| - 1];
    if last.severity == High then before + [last.kind] else before
  }

  method InvalidatingWarnings(warnings: seq<Warning>) returns (findings: seq<string>)
    ensures findings == Invalidating(warnings)
  {
    findings := [];
    for k := 0 to |warnings|
      invariant findings == Invalidating(warnings[..k])
    {
      assert warnings[..k + 1][..k] == warnings[..k];
      if warnings[k].severity != High {
        continue;
      }
      findings := findings + [warnings[k].kind];
    }
    assert warnings[..|warnings|] == warnings;
  }

  method CheckSanity(d: Document, input: Input, others: seq<Warning>) returns (valid: bool)
    ensures valid <==> Sound(d, input, others)
  {
    hide EvaluateWarnings, Invalidating, Missing, WithSamples, Failed, CountRan, FailureFindings, Sound;
    hide NoJourneyCompleted, RunShorterThanPlan;
    var warnings := EvaluateWarnings(d.scheduling, others);
    var missing := DeclaredStepWithoutSamples(d, input);
    var failed := EverythingFailed(d);
    var invalidating := InvalidatingWarnings(warnings);
    var findings := NoJourneyCompleted(d) + missing + failed + RunShorterThanPlan(d, input) + invalidating;
    NothingInFive(NoJourneyCompleted(d), missing, failed, RunShorterThanPlan(d, input), invalidating);
    NothingFoundMeansSound(d, input, others);
    valid := |findings| == 0;
  }

  // ----- Rules -----

  datatype Metric = P50 | P75 | P90 | P95 | P99 | P999 | Max | Errors | Success | Throughput | Unknown

  datatype Scope = OverallScope | JourneyScope | StepScope(name: string) | RegressionScope

  datatype Operator = Less | LessOrEqual | Greater | GreaterOrEqual | NotEqual | Equal

  datatype Rule = Rule(scope: Scope, metric: Metric, operator: Operator, limit: real)

  datatype Evaluation = Evaluation(obtained: real, passed: bool, noData: bool)

  function Compare(obtained: real, operator: Operator, limit: real): bool {
    match operator
    case Less => obtained < limit
    case LessOrEqual => obtained <= limit
    case Greater => obtained > limit
    case GreaterOrEqual => obtained >= limit
    case NotEqual => obtained != limit
    case Equal => obtained == limit
  }

  predicate IsLatency(m: Metric) { m.P50? || m.P75? || m.P90? || m.P95? || m.P99? || m.P999? || m.Max? }

  function Reported(latency: Distribution, service: Distribution): Distribution {
    if latency != NoDistribution then latency else service
  }

  /** The steps by name; a later one hides an earlier one. */
  function ByName(steps: seq<StepResult>): map<string, StepResult> {
    if steps == [] then map[]
    else ByName(steps[..|steps| - 1])[steps[|steps| - 1].name := steps[|steps| - 1]]
  }

  /** What a rule is read over: latencies, counts, and how much of the sample worked. */
  datatype Basis = Basis(latency: Distribution, count: int, errors: int, successes: int, sampled: int, worked: int)

  function BasisOf(scope: Scope, d: Document, byStep: map<string, StepResult>): Option<Basis>
    requires !scope.RegressionScope?
  {
    match scope
    case OverallScope =>
      Some(Basis(Reported(d.overall.latency, d.overall.service), d.overall.count, d.overall.errors, d.overall.successes,
                 d.overall.count, d.overall.count - d.overall.errors))
    case JourneyScope =>
      Some(Basis(Reported(d.journey.latency, d.journey.service), d.journey.completed, 0, 0,
                 d.journey.started, d.journey.completed))
    case StepScope(name) =>
      if name !in byStep then None else
      var step := byStep[name];
      Some(Basis(step.latency, step.count, step.errors, step.successes, step.count, step.count - step.errors))
  }

  function Obtained(metric: Metric, b: Basis, effectiveRate: real): real {
    match metric
    case P50 => b.latency.quantiles.p50
    case P75 => b.latency.quantiles.p75
    case P90 => b.latency.quantiles.p90
    case P95 => b.latency.quantiles.p95
    case P99 => b.latency.quantiles.p99
    case P999 => b.latency.quantiles.p999
    case Max => b.latency.quantiles.max
    case Errors => if b.count > 0 then b.errors as real / b.count as real * 100.0 else 0.0
    case Success => if b.count > 0 then b.successes as real / b.count as real * 100.0 else 0.0
    case Throughput => effectiveRate
    case Unknown => 0.0
  }

  /** A latency is refused over a sample where failures are the majority. */
  predicate Refused(rule: Rule, b: Basis) {
    IsLatency(rule.metric) && !(b.sampled <= 0 || b.worked * 2 >= b.sampled)
  }

  /** Rules against a baseline are decided elsewhere; `regression` says how. */
  function EvaluateRule(rule: Rule, d: Document, byStep: map<string, StepResult>, regression: Rule -> bool)
    : Evaluation
  {
    if rule.scope.RegressionScope? then Evaluation(0.0, regression(rule), false) else
    match BasisOf(rule.scope, d, byStep)
    case None => Evaluation(0.0, false, true)
    case Some(b) =>
      if Refused(rule, b) then Evaluation(0.0, false, true) else
      var obtained := Obtained(rule.metric, b, d.overall.effectiveRate);
      Evaluation(obtained, Compare(obtained, rule.operator, rule.limit), false)
  }

  method Evaluate(rules: seq<Rule>, d: Document, regression: Rule -> bool)
    returns (passed: bool, evaluations: seq<Evaluation>)
    ensures passed <==> RulesHold(rules, d, regression)
    ensures |evaluations| == |rules|
    ensures forall k :: 0 <= k < |rules| ==> evaluations[k] == EvaluateRule(rules[k], d, ByName(d.steps), regression)
  {
    hide EvaluateRule, RuleHolds;
    var byStep := map[];
    for k := 0 to |d.steps|
      invariant byStep == ByName(d.steps[..k])
    {
      assert d.steps[..k + 1][..k] == d.steps[..k];
      byStep := byStep[d.steps[k].name := d.steps[k]];
    }
    assert d.steps[..|d.steps|] == d.steps;
    passed, evaluations := true, [];
    for k := 0 to |rules|
      invariant |evaluations| == k
      invariant forall j :: 0 <= j < k ==> evaluations[j] == EvaluateRule(rules[j], d, byStep, regression)
      invariant passed <==> forall j :: 0 <= j < k ==> RuleHolds(rules[j], d, regression)
    {
      var evaluation := EvaluateRule(rules[k], d, byStep, regression);
      PassesMeansHolds(rules[k], d, regression);
      if !evaluation.passed {
        passed := false;
      }
      evaluations := evaluations + [evaluation];
    }
  }

  // ----- The verdict -----

  const ExitPassed := 0
  const ExitSLO := 1
  const ExitInvalid := 3

  /** The tail of a run: rules are not even read over a result that does not hold. */
  method ExitCode(d: Document, input: Input, others: seq<Warning>, rules: seq<Rule>, regression: Rule -> bool)
    returns (exit: int)
    ensures exit == 0 <==> Sound(d, input, others) && RulesHold(rules, d, regression)
    ensures exit == 1 <==> Sound(d, input, others) && !RulesHold(rules, d, regression)
    ensures exit == 3 <==> !Sound(d, input, others)
  {
    hide Sound, RulesHold;
    var valid := CheckSanity(d, input, others);
    var passed := false;
    if valid {
      var evaluations;
      passed, evaluations := Evaluate(rules, d, regression);
    }
    if !valid {
      return ExitInvalid;
    }
    if !passed {
      return ExitSLO;
    }
    exit := ExitPassed;
  }

  // ----- What the verdict means, said without the checks -----

  /** The measurement holds: nothing dropped or lost, under one dispatch in a hundred late, the plan
      applied, every declared step measured, no measured step without a success, some journey
      completed if any started, and no other warning of high severity. */
  ghost predicate Sound(d: Document, input: Input, others: seq<Warning>) {
    && d.scheduling.dropped <= 0 && d.scheduling.lost <= 0
    && (d.scheduling.sent > 0 ==> 100 * d.scheduling.late < d.scheduling.sent)
    && PlanApplied(d.scheduling.sent + d.scheduling.dropped, d.run, input)
    && (forall name :: name in input.declaredSteps ==> HasSamples(d.steps, name))
    && (forall step :: step in d.steps && step.count != 0 ==> step.errors != step.count)
    && (d.journey.started != 0 ==> d.journey.completed > 0)
    && NoneHigh(others)
  }

  ghost predicate HasSamples(steps: seq<StepResult>, name: string) {
    exists step :: step in steps && step.name == name && step.count > 0
  }

  /** Ninety-nine in a hundred of the planned requests, rounded down; or of the window, in the
      closed model, which plans no number of requests. */
  ghost predicate PlanApplied(applied: int, run: Run, input: Input) {
    if input.plannedRequests > 0 then applied >= input.plannedRequests * 99 / 100
    else run.model == ClosedModel && input.plannedDuration > 0 ==>
           run.durationMs * 1_000_000 >= input.plannedDuration * 99 / 100
  }

  ghost predicate NoneHigh(warnings: seq<Warning>) {
    forall w :: w in warnings ==> w.severity != High
  }

  /** The rule is satisfied by what was measured: its scope has data, a latency is not read off a
      sample where failures are the majority, and the value obtained compares as it should. */
  ghost predicate Satisfied(rule: Rule, b: Basis, effectiveRate: real) {
    && (IsLatency(rule.metric) && b.sampled > 0 ==> 2 * b.worked >= b.sampled)
    && Compare(Obtained(rule.metric, b, effectiveRate), rule.operator, rule.limit)
  }

  ghost predicate RuleHolds(rule: Rule, d: Document, regression: Rule -> bool) {
    if rule.scope.RegressionScope? then regression(rule) else
    match BasisOf(rule.scope, d, ByName(d.steps))
    case None => false
    case Some(b) => Satisfied(rule, b, d.overall.effectiveRate)
  }

  ghost predicate RulesHold(rules: seq<Rule>, d: Document, regression: Rule -> bool) {
    forall k :: 0 <= k < |rules| ==> RuleHolds(rules[k], d, regression)
  }

  lemma {:induction false} PassesMeansHolds(rule: Rule, d: Document, regression: Rule -> bool)
    ensures EvaluateRule(rule, d, ByName(d.steps), regression).passed <==> RuleHolds(rule, d, regression)
  {
    hide Obtained, Compare, ByName, BasisOf;
  }

  lemma LateMeansOneInAHundred(late: int, sent: int)
    requires sent > 0
    ensures late as real / sent as real >= LateDispatchLimit <==> 100 * late >= sent
  {
    var p := late as real / sent as real;
    assert p * sent as real == late as real;
    if p >= 0.01 {
      assert (p - 0.01) * sent as real >= 0.0;
    } else {
      assert (0.01 - p) * sent as real > 0.0;
    }
  }

  lemma {:induction false} InvalidatingAdds(a: seq<Warning>, b: seq<Warning>)
    ensures Invalidating(a + b) == Invalidating(a) + Invalidating(b)
  {
    if b == [] {
      assert a + b == a;
    } else {
      assert (a + b)[..|a + b| - 1] == a + b[..|b| - 1];
      InvalidatingAdds(a, b[..|b| - 1]);
    }
  }

  lemma {:induction false} InvalidatingMeansHigh(warnings: seq<Warning>)
    ensures Invalidating(warnings) == [] <==> NoneHigh(warnings)
  {
    if warnings != [] {
      var init, last := warnings[..|warnings| - 1], warnings[|warnings| - 1];
      InvalidatingMeansHigh(init);
      assert warnings == init + [last];
    }
  }

  lemma {:induction false} WithSamplesAre(steps: seq<StepResult>, name: string)
    ensures name in WithSamples(steps) <==> HasSamples(steps, name)
  {
    if steps != [] {
      var init, last := steps[..|steps| - 1], steps[|steps| - 1];
      WithSamplesAre(init, name);
      assert steps == init + [last];
    }
  }

  lemma {:induction false} MissingMeansNotSampled(declared: seq<string>, sampled: set<string>)
    ensures Missing(declared, sampled) == [] <==> forall name :: name in declared ==> name in sampled
  {
    if declared != [] {
      var init, last := declared[..|declared| - 1], declared[|declared| - 1];
      MissingMeansNotSampled(init, sampled);
      assert declared == init + [last];
    }
  }

  lemma {:induction false} FailedMeansNoSuccess(steps: seq<StepResult>)
    ensures Failed(steps) == [] <==> forall step :: step in steps && step.count != 0 ==> step.errors != step.count
    ensures |Failed(steps)| <= CountRan(steps)
  {
    if steps != [] {
      var init, last := steps[..|steps| - 1], steps[|steps| - 1];
      FailedMeansNoSuccess(init);
      assert steps == init + [last];
    }
  }

  lemma {:induction false} GeneratorWarnings(s: Scheduling, others: seq<Warning>)
    ensures Invalidating(EvaluateWarnings(s, others)) == [] <==>
              && s.dropped <= 0 && s.lost <= 0 && (s.sent > 0 ==> 100 * s.late < s.sent) && NoneHigh(others)
  {
    if s.sent > 0 { LateMeansOneInAHundred(s.late, s.sent); }
    var own := EvaluateWarnings(s, []);
    assert EvaluateWarnings(s, others) == own + others;
    InvalidatingAdds(own, others);
    InvalidatingMeansHigh(own);
    InvalidatingMeansHigh(others);
    if s.dropped > 0 { assert own[0] in own; }
    if s.lost > 0 { assert own[|own| - 1] in own; }
    if s.sent > 0 && 100 * s.late >= s.sent { assert Warning("generatorSaturated", High) in own; }
  }

  /** The five checks together find nothing exactly when the measurement holds. */
  lemma {:induction false} NothingFoundMeansSound(d: Document, input: Input, others: seq<Warning>)
    ensures
      && NoJourneyCompleted(d) == []
      && Missing(input.declaredSteps, WithSamples(d.steps)) == []
      && FailureFindings(CountRan(d.steps), Failed(d.steps)) == []
      && RunShorterThanPlan(d, input) == []
      && Invalidating(EvaluateWarnings(d.scheduling, others)) == []
      <==> Sound(d, input, others)
  {
    hide EvaluateWarnings, Invalidating, Missing, WithSamples, Failed, CountRan, NoneHigh, HasSamples;
    GeneratorWarnings(d.scheduling, others);
    MissingMeansNotSampled(input.declaredSteps, WithSamples(d.steps));
    forall name | name in input.declaredSteps
      ensures name in WithSamples(d.steps) <==> HasSamples(d.steps, name)
    {
      WithSamplesAre(d.steps, name);
    }
    FailedMeansNoSuccess(d.steps);
  }

  lemma NothingInFive(a: seq<string>, b: seq<string>, c: seq<string>, d: seq<string>, e: seq<string>)
    ensures |a + b + c + d + e| == 0 <==> a == [] && b == [] && c == [] && d == [] && e == []
  {
  }

  // ----- What the verdict on a document says about what was recorded -----

  /** The same requirements on the recording: on the samples, dispatches and journeys themselves. */
  ghost predicate MeasuredWell(r: Recording, run: Run, input: Input, threshold: int, others: seq<Warning>) {
    && r.dropped <= 0 && r.lost <= 0
    && (r.delays != [] ==> 100 * Late(r.delays, threshold) < |r.delays|)
    && PlanApplied(|r.delays| + r.dropped, run, input)
    && (forall name :: name in input.declaredSteps ==> IsRecorded(r.samples, name))
    && (forall x :: x in r.samples ==> SucceededOnce(r.samples, x.step))
    && (r.journeys != [] ==> exists j :: j in r.journeys && j.complete)
    && NoneHigh(others)
  }

  ghost predicate IsRecorded(samples: seq<Sample>, name: string) {
    exists x :: x in samples && x.step == name
  }

  ghost predicate SucceededOnce(samples: seq<Sample>, name: string) {
    exists x :: x in samples && x.step == name && x.outcome == SuccessClass
  }

  /** The row of a step that has a sample: there is exactly one, and it counts that step's samples. */
  lemma {:induction false} RowOfStep(d: Document, r: Recording, threshold: int, q: Reader, name: string)
    requires IsDocumentOf(d, r, threshold, q)
    ensures var own := SamplesOf(r.samples, name);
            && (own == [] ==> forall step :: step in d.steps ==> step.name != name)
            && (own != [] ==> exists step :: step in d.steps && step.name == name)
            && forall step :: step in d.steps && step.name == name ==>
                 && step.count == |own| && step.successes == Succeeded(own) && step.errors == |own| - Succeeded(own)
                 && step.latency == Corrected(TotalOfAll(own).corrected, d.run.model == ClosedModel, q)
  {
    hide TotalOfAll, ByStep, SamplesOf, Succeeded, Corrected, OverallOf, JourneyOf, SchedulingOf, ErrorRate;
    AggregateIsOfItsOwn(r.samples, name);
    TotalsCount(SamplesOf(r.samples, name));
  }

  lemma HasOwn(samples: seq<Sample>, name: string)
    ensures SamplesOf(samples, name) != [] <==> IsRecorded(samples, name)
    ensures Succeeded(SamplesOf(samples, name)) > 0 <==> SucceededOnce(samples, name)
  {
    hide SamplesOf, Succeeded;
    var own := SamplesOf(samples, name);
    forall x ensures x in own <==> x in samples && x.step == name { OwnSamplesAre(samples, name, x); }
    SucceededMeansOne(own);
    if own != [] { assert own[0] in own; }
  }

  lemma DeclaredMeansRecorded(d: Document, r: Recording, threshold: int, q: Reader, name: string)
    requires IsDocumentOf(d, r, threshold, q)
    ensures HasSamples(d.steps, name) <==> IsRecorded(r.samples, name)
  {
    hide IsDocumentOf, SamplesOf, Succeeded, Corrected;
    RowOfStep(d, r, threshold, q, name);
    HasOwn(r.samples, name);
  }

  lemma StepsSucceedMeansRecorded(d: Document, r: Recording, threshold: int, q: Reader)
    requires IsDocumentOf(d, r, threshold, q)
    ensures (forall step :: step in d.steps && step.count != 0 ==> step.errors != step.count) <==>
              forall x :: x in r.samples ==> SucceededOnce(r.samples, x.step)
  {
    hide IsDocumentOf, SamplesOf, Succeeded, Corrected, SucceededOnce;
    forall step | step in d.steps
      ensures step.count != 0 ==> (step.errors != step.count <==> SucceededOnce(r.samples, step.name))
    {
      RowOfStep(d, r, threshold, q, step.name);
      HasOwn(r.samples, step.name);
    }
    forall x | x in r.samples ensures HasSamples(d.steps, x.step) {
      DeclaredMeansRecorded(d, r, threshold, q, x.step);
    }
    forall step | step in d.steps && step.count != 0 ensures IsRecorded(r.samples, step.name) {
      RowOfStep(d, r, threshold, q, step.name);
      HasOwn(r.samples, step.name);
    }
  }

  lemma {:induction false} CompleteMeansOne(journeys: seq<JourneyEnd>)
    ensures Complete(journeys) >= 0 && (Complete(journeys) > 0 <==> exists j :: j in journeys && j.complete)
  {
    if journeys != [] {
      var init, last := journeys[..|journeys| - 1], journeys[|journeys| - 1];
      CompleteMeansOne(init);
      assert journeys == init + [last];
    }
  }

  /** The result of a run holds exactly when what was recorded meets every requirement. */
  lemma {:induction false} SoundMeansMeasured(d: Document, r: Recording, threshold: int, q: Reader, input: Input,
                                              others: seq<Warning>)
    requires IsDocumentOf(d, r, threshold, q)
    ensures Sound(d, input, others) <==> MeasuredWell(r, d.run, input, threshold, others)
  {
    hide *;
    StepsAreMeasured(d, r, threshold, q, input);
    DispatchesAreMeasured(d, r, threshold, q);
    SoundIs(d, input, others);
    MeasuredIs(r, d.run, input, threshold, others);
  }

  /** The part of both that is about steps. */
  ghost predicate StepsSound(d: Document, input: Input) {
    && (forall name :: name in input.declaredSteps ==> HasSamples(d.steps, name))
    && (forall step :: step in d.steps && step.count != 0 ==> step.errors != step.count)
  }

  ghost predicate StepsMeasured(r: Recording, input: Input) {
    && (forall name :: name in input.declaredSteps ==> IsRecorded(r.samples, name))
    && (forall x :: x in r.samples ==> SucceededOnce(r.samples, x.step))
  }

  lemma StepsAreMeasured(d: Document, r: Recording, threshold: int, q: Reader, input: Input)
    requires IsDocumentOf(d, r, threshold, q)
    ensures StepsSound(d, input) <==> StepsMeasured(r, input)
  {
    hide IsDocumentOf, SucceededOnce, IsRecorded, HasSamples;
    forall name | name in input.declaredSteps ensures HasSamples(d.steps, name) <==> IsRecorded(r.samples, name) {
      DeclaredMeansRecorded(d, r, threshold, q, name);
    }
    StepsSucceedMeansRecorded(d, r, threshold, q);
  }

  lemma DispatchesAreMeasured(d: Document, r: Recording, threshold: int, q: Reader)
    requires IsDocumentOf(d, r, threshold, q)
    ensures d.scheduling.dropped == r.dropped && d.scheduling.lost == r.lost
    ensures d.scheduling.sent == |r.delays| && d.scheduling.late == Late(r.delays, threshold)
    ensures d.journey.started == |r.journeys|
    ensures d.journey.completed > 0 <==> exists j :: j in r.journeys && j.complete
  {
    assert SchedulingOf(d.scheduling, r, threshold, q);
    assert JourneyOf(d.journey, r.journeys, d.run.model == ClosedModel, q);
    hide IsDocumentOf, Late, Complete, Corrected, DistributionOf;
    CompleteMeansOne(r.journeys);
  }

  lemma SoundIs(d: Document, input: Input, others: seq<Warning>)
    ensures Sound(d, input, others) <==>
              && d.scheduling.dropped <= 0 && d.scheduling.lost <= 0
              && (d.scheduling.sent > 0 ==> 100 * d.scheduling.late < d.scheduling.sent)
              && PlanApplied(d.scheduling.sent + d.scheduling.dropped, d.run, input) && StepsSound(d, input)
              && (d.journey.started != 0 ==> d.journey.completed > 0) && NoneHigh(others)
  {
    hide PlanApplied, NoneHigh, HasSamples;
  }

  lemma MeasuredIs(r: Recording, run: Run, input: Input, threshold: int, others: seq<Warning>)
    ensures MeasuredWell(r, run, input, threshold, others) <==>
              && r.dropped <= 0 && r.lost <= 0
              && (|r.delays| > 0 ==> 100 * Late(r.delays, threshold) < |r.delays|)
              && PlanApplied(|r.delays| + r.dropped, run, input) && StepsMeasured(r, input)
              && (|r.journeys| > 0 ==> exists j :: j in r.journeys && j.complete) && NoneHigh(others)
  {
    hide PlanApplied, NoneHigh, IsRecorded, SucceededOnce, Late;
  }

  /** What a rule is read over, taken from the recording. */
  ghost function RecordedBasis(scope: Scope, r: Recording, closed: bool, q: Reader): Option<Basis>
    requires !scope.RegressionScope?
  {
    match scope
    case OverallScope =>
      var t, n, ok := TotalOfAll(r.samples), |r.samples|, Succeeded(r.samples);
      Some(Basis(Reported(Corrected(t.corrected, closed, q), DistributionOf(t.service, q)), n, n - ok, ok, n, ok))
    case JourneyScope =>
      var times, n, ok := JourneyTimes(r.journeys), |r.journeys|, Complete(r.journeys);
      Some(Basis(Reported(Corrected(times, closed, q), if closed then DistributionOf(times, q) else NoDistribution),
                 ok, 0, 0, n, ok))
    case StepScope(name) =>
      var own := SamplesOf(r.samples, name);
      var n, ok := |own|, Succeeded(own);
      if own == [] then None
      else Some(Basis(Corrected(TotalOfAll(own).corrected, closed, q), n, n - ok, ok, n, ok))
  }

  lemma {:induction false} ByNameIs(steps: seq<StepResult>, name: string)
    ensures name in ByName(steps) <==> exists step :: step in steps && step.name == name
    ensures name in ByName(steps) ==> ByName(steps)[name] in steps && ByName(steps)[name].name == name
  {
    if steps != [] {
      var init, last := steps[..|steps| - 1], steps[|steps| - 1];
      ByNameIs(init, name);
      assert steps == init + [last];
    }
  }

  lemma BasisIsRecorded(d: Document, r: Recording, threshold: int, q: Reader, scope: Scope)
    requires IsDocumentOf(d, r, threshold, q) && !scope.RegressionScope?
    ensures BasisOf(scope, d, ByName(d.steps)) == RecordedBasis(scope, r, d.run.model == ClosedModel, q)
  {
    hide SamplesOf, Succeeded, Corrected, DistributionOf, ByName, TotalOfAll, ByStep, Complete, JourneyTimes, ErrorRate;
    match scope
    case OverallScope => TotalsCount(r.samples);
    case JourneyScope =>
    case StepScope(name) =>
      RowOfStep(d, r, threshold, q, name);
      ByNameIs(d.steps, name);
  }

  /** A rule that is read over the recording itself: the step's own samples, all samples, or the
      journeys; most of which succeeded, if it is a rule about latency. */
  ghost predicate RecordingSatisfies(rule: Rule, r: Recording, run: Run, effectiveRate: real, q: Reader) {
    !rule.scope.RegressionScope? ==>
      match RecordedBasis(rule.scope, r, run.model == ClosedModel, q)
      case None => false
      case Some(b) => Satisfied(rule, b, effectiveRate)
  }

  /** Exit code 0, for the document of any recording: the run measured what it set out to measure,
      and every rule that is not about a baseline holds of what was recorded. */
  lemma {:induction false} PassingIsAboutTheRecording(d: Document, r: Recording, threshold: int, q: Reader,
                                                      input: Input, others: seq<Warning>,
                                                      rules: seq<Rule>, regression: Rule -> bool)
    requires IsDocumentOf(d, r, threshold, q)
    ensures Sound(d, input, others) && RulesHold(rules, d, regression) <==>
              && MeasuredWell(r, d.run, input, threshold, others)
              && (forall rule :: rule in rules ==> RecordingSatisfies(rule, r, d.run, d.overall.effectiveRate, q))
              && (forall rule :: rule in rules && rule.scope.RegressionScope? ==> regression(rule))
  {
    hide Sound, MeasuredWell, Satisfied, RecordedBasis, BasisOf, ByName, IsDocumentOf;
    SoundMeansMeasured(d, r, threshold, q, input, others);
    forall k | 0 <= k < |rules|
      ensures RuleHolds(rules[k], d, regression) <==>
                && RecordingSatisfies(rules[k], r, d.run, d.overall.effectiveRate, q)
                && (rules[k].scope.RegressionScope? ==> regression(rules[k]))
    {
      if !rules[k].scope.RegressionScope? { BasisIsRecorded(d, r, threshold, q, rules[k].scope); }
    }
    hide RuleHolds, RecordingSatisfies;
  }

  // ----- What a rule says of the recording, metric by metric -----

  /** x stands to y as the operator says, by the order of numbers alone. */
  ghost predicate Stands(x: real, operator: Operator, y: real) {
    match operator
    case Less => x < y
    case Greater => y < x
    case LessOrEqual => !(y < x)
    case GreaterOrEqual => !(x < y)
    case Equal => !(x < y) && !(y < x)
    case NotEqual => x < y || y < x
  }

  lemma CompareIsStands(x: real, operator: Operator, y: real)
    ensures Compare(x, operator, y) <==> Stands(x, operator, y)
  {
  }

  /** A share of n compares with a percentage as a hundred times the count does with the percentage
      of n. */
  lemma PercentageStands(part: int, n: int, operator: Operator, limit: real)
    requires n > 0
    ensures Stands(part as real / n as real * 100.0, operator, limit) <==>
              Stands(100.0 * part as real, operator, limit * n as real)
  {
    PercentageOrder(part, n, limit);
  }

  lemma PercentageOrder(part: int, n: int, limit: real)
    requires n > 0
    ensures var x := part as real / n as real * 100.0;
            && (x < limit <==> 100.0 * part as real < limit * n as real)
            && (limit < x <==> limit * n as real < 100.0 * part as real)
  {
    var x, m := part as real / n as real * 100.0, n as real;
    assert part as real / m * m == part as real;
    assert x * m == 100.0 * part as real;
    assert (limit - x) * m == limit * m - x * m;
    SignOfProduct(limit - x, m);
  }

  lemma SignOfProduct(x: real, m: real)
    requires m > 0.0
    ensures (x > 0.0 <==> x * m > 0.0) && (x < 0.0 <==> x * m < 0.0)
  {
    if x < 0.0 { assert -x * m > 0.0; }
  }

  /** The samples a rule on requests is about. */
  ghost function SamplesUnder(scope: Scope, r: Recording): seq<Sample>
    requires scope.OverallScope? || scope.StepScope?
  {
    if scope.StepScope? then SamplesOf(r.samples, scope.name) else r.samples
  }

  /** Errors and success are percentages of the requests, overall or of the step alone. */
  lemma {:induction false} PercentageRulesCount(rule: Rule, r: Recording, run: Run, rate: real, q: Reader)
    requires rule.scope.OverallScope? || rule.scope.StepScope?
    requires SamplesUnder(rule.scope, r) != []
    ensures var n, ok := |SamplesUnder(rule.scope, r)|, Succeeded(SamplesUnder(rule.scope, r));
            && (rule.metric == Errors ==>
                  (RecordingSatisfies(rule, r, run, rate, q) <==>
                     Stands(100.0 * (n - ok) as real, rule.operator, rule.limit * n as real)))
            && (rule.metric == Success ==>
                  (RecordingSatisfies(rule, r, run, rate, q) <==>
                     Stands(100.0 * ok as real, rule.operator, rule.limit * n as real)))
  {
    hide Satisfied, Corrected, DistributionOf, TotalOfAll, SamplesOf, Succeeded, Reported;
    PercentageMeans(rule, RecordedBasis(rule.scope, r, run.model == ClosedModel, q).value, rate);
  }

  /** Over no requests, and over journeys, which have neither, both percentages are zero. */
  lemma {:induction false} EmptyPercentagesAreZero(rule: Rule, r: Recording, run: Run, rate: real, q: Reader)
    requires rule.metric == Errors || rule.metric == Success
    requires (rule.scope.OverallScope? && r.samples == []) || rule.scope.JourneyScope?
    ensures RecordingSatisfies(rule, r, run, rate, q) <==> Stands(0.0, rule.operator, rule.limit)
  {
    hide Corrected, DistributionOf, TotalOfAll, Reported, Compare, JourneyTimes;
    var b := RecordedBasis(rule.scope, r, run.model == ClosedModel, q).value;
    assert Obtained(rule.metric, b, rate) == 0.0 by {
      if b.count > 0 { assert 0.0 / b.count as real * 100.0 == 0.0; }
    }
    CompareIsStands(0.0, rule.operator, rule.limit);
  }

  lemma PercentageMeans(rule: Rule, b: Basis, rate: real)
    requires b.count > 0
    ensures rule.metric == Errors ==>
              (Satisfied(rule, b, rate) <==>
                 Stands(100.0 * b.errors as real, rule.operator, rule.limit * b.count as real))
    ensures rule.metric == Success ==>
              (Satisfied(rule, b, rate) <==>
                 Stands(100.0 * b.successes as real, rule.operator, rule.limit * b.count as real))
  {
    PercentageStands(b.errors, b.count, rule.operator, rule.limit);
    PercentageStands(b.successes, b.count, rule.operator, rule.limit);
    CompareIsStands(Obtained(rule.metric, b, rate), rule.operator, rule.limit);
    hide Stands, Compare;
  }

  /** The number a latency rule is about: the quantile of its own name. */
  ghost function Named(metric: Metric, quantiles: Quantiles): real
    requires IsLatency(metric)
  {
    if metric == P50 then quantiles.p50 else if metric == P75 then quantiles.p75
    else if metric == P90 then quantiles.p90 else if metric == P95 then quantiles.p95
    else if metric == P99 then quantiles.p99 else if metric == P999 then quantiles.p999 else quantiles.max
  }

  lemma SatisfiedMeans(rule: Rule, b: Basis, rate: real)
    requires IsLatency(rule.metric)
    ensures Satisfied(rule, b, rate) <==>
              && (b.sampled > 0 ==> 2 * b.worked >= b.sampled)
              && Stands(Named(rule.metric, b.latency.quantiles), rule.operator, rule.limit)
  {
    CompareIsStands(Obtained(rule.metric, b, rate), rule.operator, rule.limit);
    hide Stands, Compare;
  }

  /** The sample is good enough for a latency: failures are not the majority. */
  ghost predicate MostWorked(sampled: int, worked: int) { sampled > 0 ==> 2 * worked >= sampled }

  /** A latency rule on a step of an open run: at least half of the step's samples succeeded, and the
      quantile of its own name, read off the times of all of them since they were scheduled, stands
      to the limit as the operator says. */
  lemma {:induction false} StepLatencyRulesRead(rule: Rule, r: Recording, run: Run, rate: real, q: Reader)
    requires IsLatency(rule.metric) && run.model != ClosedModel && rule.scope.StepScope?
    ensures var own := SamplesUnder(rule.scope, r);
            RecordingSatisfies(rule, r, run, rate, q) <==>
              && own != [] && MostWorked(|own|, Succeeded(own))
              && Stands(Named(rule.metric, q(TotalOfAll(own).corrected)), rule.operator, rule.limit)
  {
    hide Stands, Named, Satisfied, IsLatency, TotalOfAll, SamplesOf, Succeeded;
    match RecordedBasis(rule.scope, r, false, q)
    case None =>
    case Some(b) => SatisfiedMeans(rule, b, rate);
  }

  /** The same over all samples, wherever a latency was measured at all. */
  lemma {:induction false} OverallLatencyRulesRead(rule: Rule, r: Recording, run: Run, rate: real, q: Reader)
    requires IsLatency(rule.metric) && run.model != ClosedModel && rule.scope.OverallScope?
    requires TotalOfAll(r.samples).corrected != multiset{}
    ensures RecordingSatisfies(rule, r, run, rate, q) <==>
              && MostWorked(|r.samples|, Succeeded(r.samples))
              && Stands(Named(rule.metric, q(TotalOfAll(r.samples).corrected)), rule.operator, rule.limit)
  {
    hide Stands, Named, Satisfied, IsLatency, TotalOfAll, Succeeded;
    SatisfiedMeans(rule, RecordedBasis(rule.scope, r, false, q).value, rate);
  }

  /** And over the journeys, half of which were completed. */
  lemma {:induction false} JourneyLatencyRulesRead(rule: Rule, r: Recording, run: Run, rate: real, q: Reader)
    requires IsLatency(rule.metric) && run.model != ClosedModel && rule.scope.JourneyScope?
    requires JourneyTimes(r.journeys) != multiset{}
    ensures RecordingSatisfies(rule, r, run, rate, q) <==>
              && MostWorked(|r.journeys|, Complete(r.journeys))
              && Stands(Named(rule.metric, q(JourneyTimes(r.journeys))), rule.operator, rule.limit)
  {
    hide Stands, Named, Satisfied, IsLatency, JourneyTimes, Complete;
    SatisfiedMeans(rule, RecordedBasis(rule.scope, r, false, q).value, rate);
  }

  /** Throughput is the effective rate of the run. */
  lemma {:induction false} ThroughputRulesRead(rule: Rule, r: Recording, run: Run, rate: real, q: Reader)
    requires rule.metric == Throughput && (rule.scope.OverallScope? || rule.scope.JourneyScope?)
    ensures RecordingSatisfies(rule, r, run, rate, q) <==> Stands(rate, rule.operator, rule.limit)
  {
    hide Stands, Compare, TotalOfAll, Succeeded, Corrected, DistributionOf, Reported;
    CompareIsStands(rate, rule.operator, rule.limit);
  }
}
