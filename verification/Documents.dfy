/** Result documents and their sum (internal/metrics/merge.go, BuildDocument in
    internal/metrics/result.go, Distribution in internal/metrics/aggregate.go).

    `IsDocumentOf` says what a document states about what was recorded.  Merging documents of
    parts of a recording gives the document of the whole.  How quantiles are read off a
    histogram is a parameter: a function of the multiset alone.  */
module Documents {
  import opened Basics
  import opened Aggregates
  import opened NameOrder

  /** What is read off a histogram, in milliseconds. */
  datatype Quantiles = Quantiles(
    p50: real, p75: real, p90: real, p95: real, p99: real, p999: real, max: real, minimum: real, mean: real)

  type Reader = multiset<int> -> Quantiles

  datatype Result<T> = Ok(value: T) | Err(reason: string)

  datatype Histogram = Absent | Unreadable | Readable(values: multiset<int>)

  datatype Distribution = Distribution(samples: int, quantiles: Quantiles, histogram: Histogram)

  const NoDistribution := Distribution(0, Quantiles(0.0, 0.0, 0.0, 0.0, 0.0, 0.0, 0.0, 0.0, 0.0), Absent)

  function DistributionOf(h: multiset<int>, q: Reader): Distribution {
    Distribution(|h|, q(h), if h == multiset{} then Absent else Readable(h))
  }

  /** Quantiles come out of the added histograms, never out of two sets of quantiles. */
  function Merged(a: Distribution, b: Distribution, q: Reader): Result<Distribution> {
    if a.histogram.Unreadable? || b.histogram.Unreadable? then Err("unreadable histogram")
    else if a.histogram.Absent? then Ok(b)
    else if b.histogram.Absent? then Ok(a)
    else Ok(DistributionOf(a.histogram.values + b.histogram.values, q))
  }

  lemma {:induction false} MergedIsExact(x: multiset<int>, y: multiset<int>, q: Reader)
    ensures Merged(DistributionOf(x, q), DistributionOf(y, q), q) == Ok(DistributionOf(x + y, q))
    ensures Merged(NoDistribution, NoDistribution, q) == Ok(NoDistribution)
  {
    if x == multiset{} {
      assert x + y == y;
    } else if y == multiset{} {
      assert x + y == x;
    } else {
      assert x + y != multiset{} by { assert |x + y| == |x| + |y|; }
    }
  }

  datatype StepResult = StepResult(
    name: string, count: int, successes: int, errors: int, bytes: int, messages: int,
    errorsByClass: map<string, int>, statusByCode: map<int, int>, latency: Distribution, service: Distribution)

  datatype Overall = Overall(
    count: int, successes: int, errors: int, errorRate: real, effectiveRate: real,
    latency: Distribution, service: Distribution)

  datatype Journey = Journey(started: int, completed: int, latency: Distribution, service: Distribution)

  datatype Scheduling = Scheduling(
    sent: int, completed: int, late: int, dropped: int, lost: int, peakInflight: int, skew: Distribution)

  datatype Run = Run(
    spec: string, model: string, start: int, end: int, durationMs: int, maxInflight: int, authObtains: int)

  datatype Document = Document(
    format: string, run: Run, scheduling: Scheduling, journey: Journey, steps: seq<StepResult>, overall: Overall)

  const ResultFormat := "4"
  const ClosedModel := "closed"

  // ----- Adding the parts -----

  function AddStep(a: StepResult, b: StepResult, q: Reader): Result<StepResult> {
    var latency, service := Merged(a.latency, b.latency, q), Merged(a.service, b.service, q);
    if latency.Err? then Err(latency.reason) else if service.Err? then Err(service.reason) else
    Ok(StepResult(a.name, a.count + b.count, a.successes + b.successes, a.errors + b.errors,
                  a.bytes + b.bytes, a.messages + b.messages,
                  AddCounts(a.errorsByClass, b.errorsByClass), AddCounts(a.statusByCode, b.statusByCode),
                  latency.value, service.value))
  }

  function AddOverall(a: Overall, b: Overall, q: Reader): Result<Overall> {
    var latency, service := Merged(a.latency, b.latency, q), Merged(a.service, b.service, q);
    if latency.Err? then Err(latency.reason) else if service.Err? then Err(service.reason) else
    Ok(a.(count := a.count + b.count, successes := a.successes + b.successes, errors := a.errors + b.errors,
          latency := latency.value, service := service.value))
  }

  function AddJourney(a: Journey, b: Journey, q: Reader): Result<Journey> {
    var latency, service := Merged(a.latency, b.latency, q), Merged(a.service, b.service, q);
    if latency.Err? then Err(latency.reason) else if service.Err? then Err(service.reason) else
    Ok(Journey(a.started + b.started, a.completed + b.completed, latency.value, service.value))
  }

  function AddScheduling(a: Scheduling, b: Scheduling, q: Reader): Result<Scheduling> {
    var skew := Merged(a.skew, b.skew, q);
    if skew.Err? then Err(skew.reason) else
    Ok(Scheduling(a.sent + b.sent, a.completed + b.completed, a.late + b.late, a.dropped + b.dropped,
                  a.lost + b.lost, a.peakInflight + b.peakInflight, skew.value))
  }

  /** The window of the sum is the union of the windows. */
  function AddRun(a: Run, b: Run): Run {
    var start, end := if b.start < a.start then b.start else a.start, if b.end > a.end then b.end else a.end;
    a.(start := start, end := end, durationMs := Milliseconds(end - start),
       maxInflight := a.maxInflight + b.maxInflight, authObtains := a.authObtains + b.authObtains)
  }

  function Milliseconds(nanoseconds: int): int {
    if nanoseconds >= 0 then nanoseconds / 1_000_000 else -((-nanoseconds) / 1_000_000)
  }

  // ----- Merging documents -----

  /** The steps found so far, and the order they were first seen in. */
  datatype Table = Table(steps: map<string, StepResult>, order: seq<string>)

  function Entered(table: Table, step: StepResult): Table {
    Table(table.steps[step.name := step], table.order + [step.name])
  }

  function TableOf(steps: seq<StepResult>): Table {
    if steps == [] then Table(map[], []) else Entered(TableOf(steps[..|steps| - 1]), steps[|steps| - 1])
  }

  function AddOne(table: Table, step: StepResult, q: Reader): Result<Table> {
    if step.name !in table.steps then Ok(Entered(table, step)) else
    var sum := AddStep(table.steps[step.name], step, q);
    if sum.Err? then Err(sum.reason) else Ok(table.(steps := table.steps[step.name := sum.value]))
  }

  function AddSteps(table: Table, steps: seq<StepResult>, q: Reader): Result<Table> {
    if steps == [] then Ok(table) else
    var before := AddSteps(table, steps[..|steps| - 1], q);
    if before.Err? then before else AddOne(before.value, steps[|steps| - 1], q)
  }

  datatype Sum = Sum(table: Table, overall: Overall, journey: Journey, scheduling: Scheduling, run: Run)

  function SumFrom(d: Document): Sum {
    Sum(TableOf(d.steps), d.overall, d.journey, d.scheduling, d.run)
  }

  function AddDocument(sum: Sum, d: Document, q: Reader): Result<Sum> {
    var table := AddSteps(sum.table, d.steps, q);
    if table.Err? then Err(table.reason) else
    var overall := AddOverall(sum.overall, d.overall, q);
    if overall.Err? then Err(overall.reason) else
    var journey := AddJourney(sum.journey, d.journey, q);
    if journey.Err? then Err(journey.reason) else
    var scheduling := AddScheduling(sum.scheduling, d.scheduling, q);
    if scheduling.Err? then Err(scheduling.reason) else
    Ok(Sum(table.value, overall.value, journey.value, scheduling.value, AddRun(sum.run, d.run)))
  }

  function AddAll(documents: seq<Document>, q: Reader): Result<Sum>
    requires documents != []
  {
    if |documents| == 1 then Ok(SumFrom(documents[0])) else
    var before := AddAll(documents[..|documents| - 1], q);
    if before.Err? then before else AddDocument(before.value, documents[|documents| - 1], q)
  }

  function Listed(table: Table, order: seq<string>): seq<StepResult>
    requires forall k :: 0 <= k < |order| ==> order[k] in table.steps
  {
    if order == [] then [] else Listed(table, order[..|order| - 1]) + [table.steps[order[|order| - 1]]]
  }

  function Rated(overall: Overall, run: Run): Overall {
    var byCount := if overall.count > 0
                   then overall.(errorRate := overall.errors as real / overall.count as real) else overall;
    if run.durationMs > 0
    then byCount.(effectiveRate := PerSecond(overall.count, run.durationMs)) else byCount
  }

  function PerSecond(count: int, durationMs: int): real
    requires durationMs > 0
  {
    count as real / (durationMs as real / 1000.0)
  }

  ghost predicate ListsEntered(table: Table) {
    forall k :: 0 <= k < |table.order| ==> table.order[k] in table.steps
  }

  lemma {:induction false} TableOfLists(steps: seq<StepResult>)
    ensures ListsEntered(TableOf(steps))
  {
    if steps != [] { TableOfLists(steps[..|steps| - 1]); }
  }

  lemma {:induction false} AddStepsLists(table: Table, steps: seq<StepResult>, q: Reader)
    requires ListsEntered(table)
    ensures AddSteps(table, steps, q).Ok? ==> ListsEntered(AddSteps(table, steps, q).value)
  {
    hide AddStep;
    if steps != [] { AddStepsLists(table, steps[..|steps| - 1], q); }
  }

  lemma {:induction false} AddAllLists(documents: seq<Document>, q: Reader)
    requires documents != []
    ensures AddAll(documents, q).Ok? ==> ListsEntered(AddAll(documents, q).value.table)
  {
    hide AddSteps, AddOverall, AddJourney, AddScheduling, AddRun;
    if |documents| == 1 {
      TableOfLists(documents[0].steps);
    } else {
      AddAllLists(documents[..|documents| - 1], q);
      var before := AddAll(documents[..|documents| - 1], q);
      if before.Ok? { AddStepsLists(before.value.table, documents[|documents| - 1].steps, q); }
    }
  }

  lemma SortedEntered(table: Table)
    requires ListsEntered(table)
    ensures forall k :: 0 <= k < |Sorted(table.order)| ==> Sorted(table.order)[k] in table.steps
  {
    SortedIs(table.order);
    MembersOf(Sorted(table.order), table.order);
    hide InOrder, Sorted;
    forall k | 0 <= k < |Sorted(table.order)| ensures Sorted(table.order)[k] in table.steps {
      assert Sorted(table.order)[k] in table.order;
    }
  }

  predicate Comparable(documents: seq<Document>)
    requires documents != []
  {
    forall k :: 0 <= k < |documents| ==>
      documents[k].run.spec == documents[0].run.spec && documents[k].run.model == documents[0].run.model
  }

  predicate Summable(documents: seq<Document>) {
    forall k :: 0 <= k < |documents| ==> documents[k].format == ResultFormat
  }

  /** The sum of documents, or the reason there is none. */
  function MergeOf(documents: seq<Document>, q: Reader): Result<Document> {
    if documents == [] then Err("nothing to add up")
    else if |documents| == 1 then Ok(documents[0])
    else if !Summable(documents) then Err("format")
    else if !Comparable(documents) then Err("not comparable")
    else
      var sum := AddAll(documents, q);
      if sum.Err? then Err(sum.reason) else
      AddAllLists(documents, q);
      SortedEntered(sum.value.table);
      Ok(Document(documents[0].format, sum.value.run, sum.value.scheduling, sum.value.journey,
                  Listed(sum.value.table, Sorted(sum.value.table.order)), Rated(sum.value.overall, sum.value.run)))
  }

  method Merge(documents: seq<Document>, q: Reader) returns (r: Result<Document>)
    ensures r == MergeOf(documents, q)
  {
    hide Rated, AddOverall, AddJourney, AddScheduling, AddRun, AddSteps, Sorted;
    if |documents| == 0 {
      return Err("nothing to add up");
    }
    if |documents| == 1 {
      return Ok(documents[0]);
    }
    for k := 0 to |documents|
      invariant forall j :: 0 <= j < k ==> documents[j].format == ResultFormat
    {
      if documents[k].format != ResultFormat {
        return Err("format");
      }
    }
    for k := 1 to |documents|
      invariant forall j :: 0 <= j < k ==>
          documents[j].run.spec == documents[0].run.spec && documents[j].run.model == documents[0].run.model
    {
      if documents[k].run.spec != documents[0].run.spec || documents[k].run.model != documents[0].run.model {
        return Err("not comparable");
      }
    }
    assert documents[..|documents|] == documents;
    var table := EnterSteps(documents[0].steps);
    var sum := Sum(table, documents[0].overall, documents[0].journey, documents[0].scheduling, documents[0].run);
    for k := 1 to |documents|
      invariant AddAll(documents[..k], q) == Ok(sum)
    {
      assert documents[..k + 1][..k] == documents[..k];
      var next := AddNext(sum, documents[k], q);
      if next.Err? {
        FailureStays(documents, k + 1, q);
        return Err(next.reason);
      }
      sum := next.value;
    }
    AddAllLists(documents, q);
    SortedEntered(sum.table);
    var order := SortNames(sum.table.order);
    var steps := ListSteps(sum.table, order);
    r := Ok(Document(documents[0].format, sum.run, sum.scheduling, sum.journey, steps, Rated(sum.overall, sum.run)));
  }

  method EnterSteps(steps: seq<StepResult>) returns (table: Table)
    ensures table == TableOf(steps)
  {
    table := Table(map[], []);
    for k := 0 to |steps|
      invariant table == TableOf(steps[..k])
    {
      assert steps[..k + 1][..k] == steps[..k];
      table := Entered(table, steps[k]);
    }
    assert steps[..|steps|] == steps;
  }

  method AddNext(sum: Sum, d: Document, q: Reader) returns (r: Result<Sum>)
    ensures r == AddDocument(sum, d, q)
  {
    hide AddStep, AddOverall, AddJourney, AddScheduling, AddRun;
    var table := sum.table;
    for k := 0 to |d.steps|
      invariant AddSteps(sum.table, d.steps[..k], q) == Ok(table)
    {
      assert d.steps[..k + 1][..k] == d.steps[..k];
      var next := AddOne(table, d.steps[k], q);
      if next.Err? {
        StepFailureStays(sum.table, d.steps, k + 1, q);
        return Err(next.reason);
      }
      table := next.value;
    }
    assert d.steps[..|d.steps|] == d.steps;
    var overall := AddOverall(sum.overall, d.overall, q);
    if overall.Err? { return Err(overall.reason); }
    var journey := AddJourney(sum.journey, d.journey, q);
    if journey.Err? { return Err(journey.reason); }
    var scheduling := AddScheduling(sum.scheduling, d.scheduling, q);
    if scheduling.Err? { return Err(scheduling.reason); }
    r := Ok(Sum(table, overall.value, journey.value, scheduling.value, AddRun(sum.run, d.run)));
  }

  method ListSteps(table: Table, order: seq<string>) returns (steps: seq<StepResult>)
    requires forall k :: 0 <= k < |order| ==> order[k] in table.steps
    ensures steps == Listed(table, order)
  {
    steps := [];
    for k := 0 to |order|
      invariant steps == Listed(table, order[..k])
    {
      assert order[..k + 1][..k] == order[..k];
      steps := steps + [table.steps[order[k]]];
    }
    assert order[..|order|] == order;
  }

  lemma {:induction false} StepFailureStays(table: Table, steps: seq<StepResult>, k: nat, q: Reader)
    requires k <= |steps| && AddSteps(table, steps[..k], q).Err?
    ensures AddSteps(table, steps, q) == AddSteps(table, steps[..k], q)
    decreases |steps| - k
  {
    hide AddOne;
    if k == |steps| {
      assert steps[..k] == steps;
    } else {
      assert steps[..k + 1][..k] == steps[..k];
      StepFailureStays(table, steps, k + 1, q);
    }
  }

  lemma {:induction false} FailureStays(documents: seq<Document>, k: nat, q: Reader)
    requires 0 < k <= |documents| && AddAll(documents[..k], q).Err?
    ensures AddAll(documents, q) == AddAll(documents[..k], q)
    decreases |documents| - k
  {
    hide AddDocument;
    if k == |documents| {
      assert documents[..k] == documents;
    } else {
      assert documents[..k + 1][..k] == documents[..k];
      FailureStays(documents, k + 1, q);
    }
  }

  // ----- What a document states about a recording -----

  datatype JourneyEnd = JourneyEnd(latency: int, complete: bool)

  /** What a collector took in: samples, the delay of every dispatch, ended journeys, and counts of
      dropped requests and lost samples. */
  datatype Recording = Recording(
    samples: seq<Sample>, delays: seq<int>, journeys: seq<JourneyEnd>, dropped: int, lost: int)

  function Joined(a: Recording, b: Recording): Recording {
    Recording(a.samples + b.samples, a.delays + b.delays, a.journeys + b.journeys,
              a.dropped + b.dropped, a.lost + b.lost)
  }

  function JoinedAll(recordings: seq<Recording>): Recording {
    if recordings == [] then Recording([], [], [], 0, 0)
    else Joined(JoinedAll(recordings[..|recordings| - 1]), recordings[|recordings| - 1])
  }

  function Late(delays: seq<int>, threshold: int): int {
    if delays == [] then 0
    else Late(delays[..|delays| - 1], threshold) + if delays[|delays| - 1] > threshold then 1 else 0
  }

  function Skew(delay: int): int { if delay > 0 then Saved(delay) else MinLatencyUs }

  function Skews(delays: seq<int>): multiset<int> {
    if delays == [] then multiset{} else Skews(delays[..|delays| - 1]) + multiset{Skew(delays[|delays| - 1])}
  }

  function Complete(journeys: seq<JourneyEnd>): int {
    if journeys == [] then 0
    else Complete(journeys[..|journeys| - 1]) + if journeys[|journeys| - 1].complete then 1 else 0
  }

  function JourneyTimes(journeys: seq<JourneyEnd>): multiset<int> {
    if journeys == [] then multiset{}
    else JourneyTimes(journeys[..|journeys| - 1]) + multiset{Saved(journeys[|journeys| - 1].latency)}
  }

  /** In the closed model there is no instant to count from, so corrected latency is absent. */
  function Corrected(h: multiset<int>, closed: bool, q: Reader): Distribution {
    if closed then NoDistribution else DistributionOf(h, q)
  }

  function ResultOf(name: string, t: Totals, closed: bool, q: Reader): StepResult {
    StepResult(name, t.count, t.successes, t.Errors(), t.bytes, t.messages, t.errorsByClass, t.statusByCode,
               Corrected(t.corrected, closed, q), DistributionOf(t.service, q))
  }

  function ErrorRate(t: Totals): real {
    if t.count > 0 then t.Errors() as real / t.count as real else 0.0
  }

  /** Requests per second over the window of the run. */
  function EffectiveRate(count: int, run: Run): real {
    if run.end > run.start then count as real / ((run.end - run.start) as real / 1_000_000_000.0) else 0.0
  }

  ghost function NamesOf(steps: seq<StepResult>): (r: seq<string>)
    ensures |r| == |steps| && forall k :: 0 <= k < |steps| ==> r[k] == steps[k].name
  {
    seq(|steps|, k requires 0 <= k < |steps| => steps[k].name)
  }

  ghost predicate StepsOf(steps: seq<StepResult>, totals: map<string, Totals>, closed: bool, q: Reader) {
    && (forall k :: 0 <= k < |steps| ==>
          steps[k].name in totals && steps[k] == ResultOf(steps[k].name, totals[steps[k].name], closed, q))
    && (forall i, j :: 0 <= i < j < |steps| ==> steps[i].name != steps[j].name)
    && (forall name :: name in totals ==> exists k :: 0 <= k < |steps| && steps[k].name == name)
  }

  ghost predicate OverallOf(o: Overall, t: Totals, closed: bool, q: Reader) {
    && o.count == t.count && o.successes == t.successes && o.errors == t.Errors()
    && o.latency == Corrected(t.corrected, closed, q) && o.service == DistributionOf(t.service, q)
  }

  ghost predicate JourneyOf(j: Journey, ends: seq<JourneyEnd>, closed: bool, q: Reader) {
    && j.started == |ends| && j.completed == Complete(ends)
    && j.latency == Corrected(JourneyTimes(ends), closed, q)
    && j.service == if closed then DistributionOf(JourneyTimes(ends), q) else NoDistribution
  }

  ghost predicate SchedulingOf(s: Scheduling, r: Recording, threshold: int, q: Reader) {
    && s.sent == |r.delays| && s.completed == |r.samples| && s.late == Late(r.delays, threshold)
    && s.dropped == r.dropped && s.lost == r.lost && s.skew == DistributionOf(Skews(r.delays), q)
  }

  /** Every additive number of the document is that of the recording: one row per step that has a
      sample, the overall row over all samples, the journeys and the dispatches. */
  ghost predicate IsDocumentOf(d: Document, r: Recording, threshold: int, q: Reader) {
    var closed := d.run.model == ClosedModel;
    && d.format == ResultFormat
    && StepsOf(d.steps, ByStep(r.samples), closed, q) && InOrder(NamesOf(d.steps))
    && OverallOf(d.overall, TotalOfAll(r.samples), closed, q)
    && d.overall.errorRate == ErrorRate(TotalOfAll(r.samples))
    && JourneyOf(d.journey, r.journeys, closed, q)
    && SchedulingOf(d.scheduling, r, threshold, q)
  }

  // ----- What the numbers of dispatches and journeys count -----

  ghost function Beyond(threshold: int): int -> bool { (delay: int) => delay > threshold }

  /** Saved as this many microseconds; a dispatch that is not late counts as the smallest time. */
  ghost function SkewedBy(us: int): int -> bool {
    (delay: int) => us == if delay > 0 then Saved(delay) else 1
  }

  ghost const IsComplete := (j: JourneyEnd) => j.complete

  ghost function JourneyTook(us: int): JourneyEnd -> bool { (j: JourneyEnd) => Saved(j.latency) == us }

  lemma {:induction false} DispatchesCount(delays: seq<int>, threshold: int, us: int)
    ensures Late(delays, threshold) == Tally(delays, Beyond(threshold))
    ensures Skews(delays)[us] == Tally(delays, SkewedBy(us)) && |Skews(delays)| == |delays|
  {
    hide Saved;
    if delays != [] { DispatchesCount(delays[..|delays| - 1], threshold, us); }
  }

  lemma {:induction false} JourneysCount(journeys: seq<JourneyEnd>, us: int)
    ensures Complete(journeys) == Tally(journeys, IsComplete)
    ensures JourneyTimes(journeys)[us] == Tally(journeys, JourneyTook(us)) && |JourneyTimes(journeys)| == |journeys|
  {
    hide Saved;
    if journeys != [] { JourneysCount(journeys[..|journeys| - 1], us); }
  }

  // ----- Building a document -----

  /** One row per step, and the overall total computed by adding the step aggregates. */
  method BuildRows(samples: seq<Sample>, closed: bool, q: Reader) returns (total: Totals, steps: seq<StepResult>)
    ensures total == TotalOfAll(samples)
    ensures StepsOf(steps, ByStep(samples), closed, q) && InOrder(NamesOf(steps))
  {
    hide InOrder, Plus, ResultOf, DistributionOf, Corrected, StepsOf, TotalOfAll, ByStep;
    var aggregates := ByStep(samples);
    var names := KeysInOrder(aggregates.Keys);
    total, steps := Nothing, [];
    for k := 0 to |names|
      invariant total == SumOf(names[..k], aggregates)
      invariant |steps| == k
      invariant forall j :: 0 <= j < k ==>
          names[j] in aggregates && steps[j] == ResultOf(names[j], aggregates[names[j]], closed, q)
    {
      assert names[..k + 1][..k] == names[..k];
      assert names[k] in names;
      total := Plus(total, aggregates[names[k]]);
      steps := steps + [ResultOf(names[k], aggregates[names[k]], closed, q)];
    }
    assert names[..|names|] == names;
    forall k | 0 <= k < |samples| ensures samples[k].step in names { EverySampleHasItsStep(samples, k); }
    OverallIsSumOfSteps(names, samples);
    RowsAreSteps(names, steps, aggregates, closed, q);
    RowNames(names, steps, aggregates, closed, q);
  }

  method BuildDocument(r: Recording, run: Run, peakInflight: int, threshold: int, q: Reader) returns (d: Document)
    ensures IsDocumentOf(d, r, threshold, q)
    ensures d.run == run && d.scheduling.peakInflight == peakInflight
    ensures d.overall.effectiveRate == EffectiveRate(|r.samples|, run)
  {
    hide DistributionOf, Corrected, StepsOf, TotalOfAll, ByStep;
    var closed := run.model == ClosedModel;
    var total, steps := BuildRows(r.samples, closed, q);
    TotalsCount(r.samples);
    var overall := Overall(total.count, total.successes, total.Errors(), ErrorRate(total),
                           EffectiveRate(total.count, run),
                           Corrected(total.corrected, closed, q), DistributionOf(total.service, q));
    var times := DistributionOf(JourneyTimes(r.journeys), q);
    var journey := Journey(|r.journeys|, Complete(r.journeys), Corrected(JourneyTimes(r.journeys), closed, q),
                           if closed then times else NoDistribution);
    var scheduling := Scheduling(|r.delays|, |r.samples|, Late(r.delays, threshold), r.dropped, r.lost,
                                 peakInflight, DistributionOf(Skews(r.delays), q));
    d := Document(ResultFormat, run, scheduling, journey, steps, overall);
  }

  lemma RowNames(names: seq<string>, steps: seq<StepResult>, totals: map<string, Totals>, closed: bool, q: Reader)
    requires |names| == |steps|
    requires forall j :: 0 <= j < |names| ==>
               names[j] in totals && steps[j] == ResultOf(names[j], totals[names[j]], closed, q)
    ensures NamesOf(steps) == names
  {
  }

  lemma RowsAreSteps(names: seq<string>, steps: seq<StepResult>, totals: map<string, Totals>, closed: bool, q: Reader)
    requires Distinct(names) && |names| == |steps|
    requires forall name :: name in names <==> name in totals
    requires forall j :: 0 <= j < |names| ==>
               names[j] in totals && steps[j] == ResultOf(names[j], totals[names[j]], closed, q)
    ensures StepsOf(steps, totals, closed, q)
  {
    forall name | name in totals ensures exists k :: 0 <= k < |steps| && steps[k].name == name {
      assert name in names;
      var k :| 0 <= k < |names| && names[k] == name;
      assert steps[k].name == name;
    }
  }

  // ----- Merging is a homomorphism -----

  lemma {:induction false} LateAdds(a: seq<int>, b: seq<int>, threshold: int)
    ensures Late(a + b, threshold) == Late(a, threshold) + Late(b, threshold)
    ensures Skews(a + b) == Skews(a) + Skews(b)
  {
    hide Saved;
    if b == [] {
      assert a + b == a;
    } else {
      assert (a + b)[..|a + b| - 1] == a + b[..|b| - 1];
      LateAdds(a, b[..|b| - 1], threshold);
    }
  }

  lemma {:induction false} JourneysAdd(a: seq<JourneyEnd>, b: seq<JourneyEnd>)
    ensures Complete(a + b) == Complete(a) + Complete(b)
    ensures JourneyTimes(a + b) == JourneyTimes(a) + JourneyTimes(b)
  {
    hide Saved;
    if b == [] {
      assert a + b == a;
    } else {
      assert (a + b)[..|a + b| - 1] == a + b[..|b| - 1];
      JourneysAdd(a, b[..|b| - 1]);
    }
  }

  lemma CorrectedAdds(x: multiset<int>, y: multiset<int>, closed: bool, q: Reader)
    ensures Merged(Corrected(x, closed, q), Corrected(y, closed, q), q) == Ok(Corrected(x + y, closed, q))
  {
    MergedIsExact(x, y, q);
  }

  lemma StepAdds(name: string, a: Totals, b: Totals, closed: bool, q: Reader)
    ensures AddStep(ResultOf(name, a, closed, q), ResultOf(name, b, closed, q), q)
         == Ok(ResultOf(name, Plus(a, b), closed, q))
  {
    hide Merged, Corrected, DistributionOf, AddCounts;
    CorrectedAdds(a.corrected, b.corrected, closed, q);
    MergedIsExact(a.service, b.service, q);
  }

  /** The table holds exactly the steps of these totals, each listed once. */
  ghost predicate TableIs(t: Table, totals: map<string, Totals>, closed: bool, q: Reader) {
    && t.steps.Keys == totals.Keys
    && (forall name :: name in totals ==> t.steps[name] == ResultOf(name, totals[name], closed, q))
    && Distinct(t.order) && (forall name :: name in t.order <==> name in totals)
  }

  lemma AddOneIs(t: Table, totals: map<string, Totals>, name: string, x: Totals, closed: bool, q: Reader)
    requires TableIs(t, totals, closed, q)
    ensures AddOne(t, ResultOf(name, x, closed, q), q).Ok?
    ensures TableIs(AddOne(t, ResultOf(name, x, closed, q), q).value, totals[name := Plus(Of(totals, name), x)],
                    closed, q)
  {
    hide Plus, AddStep, ResultOf;
    ResultNamed(name, x, closed, q);
    if name in totals {
      StepAdds(name, totals[name], x, closed, q);
    } else {
      PlusUnit(x);
    }
  }

  lemma ResultNamed(name: string, t: Totals, closed: bool, q: Reader)
    ensures ResultOf(name, t, closed, q).name == name
  {
  }

  /** The totals after adding the named ones of b to a, one by one. */
  ghost function PlusNamed(a: map<string, Totals>, b: map<string, Totals>, names: seq<string>): map<string, Totals> {
    if names == [] then a else
    var m, last := PlusNamed(a, b, names[..|names| - 1]), names[|names| - 1];
    m[last := Plus(Of(m, last), Of(b, last))]
  }

  lemma {:induction false} PlusNamedAt(a: map<string, Totals>, b: map<string, Totals>, names: seq<string>, k: string)
    requires Distinct(names)
    ensures Of(PlusNamed(a, b, names), k) == if k in names then Plus(Of(a, k), Of(b, k)) else Of(a, k)
    ensures k in PlusNamed(a, b, names) <==> k in a || k in names
  {
    hide Plus;
    if names != [] {
      var init := names[..|names| - 1];
      PlusNamedAt(a, b, init, k);
      assert names == init + [names[|names| - 1]];
    }
  }

  lemma PlusNamedIsPlus(a: map<string, Totals>, b: map<string, Totals>, names: seq<string>)
    requires Distinct(names) && forall k :: k in names <==> k in b
    ensures PlusNamed(a, b, names) == PlusSteps(a, b)
  {
    hide Plus;
    forall k
      ensures k in PlusNamed(a, b, names) <==> k in PlusSteps(a, b)
      ensures k in PlusSteps(a, b) ==> PlusNamed(a, b, names)[k] == PlusSteps(a, b)[k]
    {
      PlusNamedAt(a, b, names, k);
      PlusUnit(Of(a, k));
    }
  }

  lemma {:induction false} AddStepsIs(t: Table, a: map<string, Totals>, steps: seq<StepResult>,
                                      b: map<string, Totals>, closed: bool, q: Reader)
    requires TableIs(t, a, closed, q)
    requires forall k :: 0 <= k < |steps| ==>
               steps[k].name in b && steps[k] == ResultOf(steps[k].name, b[steps[k].name], closed, q)
    ensures AddSteps(t, steps, q).Ok?
    ensures TableIs(AddSteps(t, steps, q).value, PlusNamed(a, b, NamesOf(steps)), closed, q)
  {
    hide Plus, ResultOf, TableIs, AddOne;
    if steps == [] {
      assert NamesOf(steps) == [];
    } else {
      var init, last := steps[..|steps| - 1], steps[|steps| - 1];
      AddStepsIs(t, a, init, b, closed, q);
      assert NamesOf(steps)[..|steps| - 1] == NamesOf(init);
      AddOneIs(AddSteps(t, init, q).value, PlusNamed(a, b, NamesOf(init)), last.name, b[last.name], closed, q);
    }
  }

  lemma TableAdds(t: Table, a: map<string, Totals>, steps: seq<StepResult>, b: map<string, Totals>,
                  closed: bool, q: Reader)
    requires TableIs(t, a, closed, q) && StepsOf(steps, b, closed, q)
    ensures AddSteps(t, steps, q).Ok? && TableIs(AddSteps(t, steps, q).value, PlusSteps(a, b), closed, q)
  {
    hide TableIs, ResultOf, AddSteps, PlusSteps, PlusNamed;
    AddStepsIs(t, a, steps, b, closed, q);
    var names := NamesOf(steps);
    forall k ensures k in names <==> k in b {
      if k in b {
        var i :| 0 <= i < |steps| && steps[i].name == k;
        assert names[i] == k;
      }
    }
    PlusNamedIsPlus(a, b, names);
  }

  lemma OverallAdds(x: Overall, a: Totals, y: Overall, b: Totals, closed: bool, q: Reader)
    requires OverallOf(x, a, closed, q) && OverallOf(y, b, closed, q)
    ensures AddOverall(x, y, q).Ok? && OverallOf(AddOverall(x, y, q).value, Plus(a, b), closed, q)
    ensures AddOverall(x, y, q).value.errorRate == x.errorRate
  {
    hide Merged, Corrected, DistributionOf, AddCounts;
    CorrectedAdds(a.corrected, b.corrected, closed, q);
    MergedIsExact(a.service, b.service, q);
  }

  lemma JourneyAdds(x: Journey, a: seq<JourneyEnd>, y: Journey, b: seq<JourneyEnd>, closed: bool, q: Reader)
    requires JourneyOf(x, a, closed, q) && JourneyOf(y, b, closed, q)
    ensures AddJourney(x, y, q).Ok? && JourneyOf(AddJourney(x, y, q).value, a + b, closed, q)
  {
    hide Merged, Corrected, DistributionOf;
    JourneysAdd(a, b);
    CorrectedAdds(JourneyTimes(a), JourneyTimes(b), closed, q);
    MergedIsExact(JourneyTimes(a), JourneyTimes(b), q);
  }

  lemma SchedulingAdds(x: Scheduling, a: Recording, y: Scheduling, b: Recording, threshold: int, q: Reader)
    requires SchedulingOf(x, a, threshold, q) && SchedulingOf(y, b, threshold, q)
    ensures AddScheduling(x, y, q).Ok? && SchedulingOf(AddScheduling(x, y, q).value, Joined(a, b), threshold, q)
  {
    hide Merged, DistributionOf;
    LateAdds(a.delays, b.delays, threshold);
    MergedIsExact(Skews(a.delays), Skews(b.delays), q);
  }

  /** The running sum stands for this recording. */
  ghost predicate SumIs(sum: Sum, r: Recording, closed: bool, threshold: int, q: Reader) {
    && TableIs(sum.table, ByStep(r.samples), closed, q)
    && OverallOf(sum.overall, TotalOfAll(r.samples), closed, q)
    && JourneyOf(sum.journey, r.journeys, closed, q)
    && SchedulingOf(sum.scheduling, r, threshold, q)
  }

  lemma {:induction false} DocumentAdds(sum: Sum, a: Recording, d: Document, b: Recording, threshold: int, q: Reader)
    requires SumIs(sum, a, d.run.model == ClosedModel, threshold, q) && IsDocumentOf(d, b, threshold, q)
    ensures AddDocument(sum, d, q).Ok?
    ensures SumIs(AddDocument(sum, d, q).value, Joined(a, b), d.run.model == ClosedModel, threshold, q)
    ensures AddDocument(sum, d, q).value.overall.errorRate == sum.overall.errorRate
    ensures AddDocument(sum, d, q).value.run.model == sum.run.model
  {
    hide TableIs, StepsOf, OverallOf, JourneyOf, SchedulingOf, AddSteps, AddOverall, AddJourney, AddScheduling;
    hide ByStep, TotalOfAll, PlusSteps, Plus;
    var closed := d.run.model == ClosedModel;
    TableAdds(sum.table, ByStep(a.samples), d.steps, ByStep(b.samples), closed, q);
    ByStepIsHomomorphic(a.samples, b.samples);
    OverallAdds(sum.overall, TotalOfAll(a.samples), d.overall, TotalOfAll(b.samples), closed, q);
    JourneyAdds(sum.journey, a.journeys, d.journey, b.journeys, closed, q);
    SchedulingAdds(sum.scheduling, a, d.scheduling, b, threshold, q);
  }

  /** The table of a document's own steps. */
  lemma {:induction false} TableOfIs(steps: seq<StepResult>, totals: map<string, Totals>, closed: bool, q: Reader)
    requires forall k :: 0 <= k < |steps| ==>
               steps[k].name in totals && steps[k] == ResultOf(steps[k].name, totals[steps[k].name], closed, q)
    requires forall i, j :: 0 <= i < j < |steps| ==> steps[i].name != steps[j].name
    ensures TableOf(steps).order == NamesOf(steps)
    ensures forall name :: name in TableOf(steps).steps <==> name in NamesOf(steps)
    ensures forall name :: name in TableOf(steps).steps ==>
              name in totals && TableOf(steps).steps[name] == ResultOf(name, totals[name], closed, q)
  {
    hide ResultOf;
    if steps != [] {
      var init := steps[..|steps| - 1];
      TableOfIs(init, totals, closed, q);
      assert NamesOf(steps) == NamesOf(init) + [steps[|steps| - 1].name];
    }
  }

  lemma TableStarts(steps: seq<StepResult>, totals: map<string, Totals>, closed: bool, q: Reader)
    requires StepsOf(steps, totals, closed, q)
    ensures TableIs(TableOf(steps), totals, closed, q)
  {
    hide ResultOf, TableOf;
    TableOfIs(steps, totals, closed, q);
    forall name | name in totals ensures name in NamesOf(steps) {
      var k :| 0 <= k < |steps| && steps[k].name == name;
      assert NamesOf(steps)[k] == name;
    }
  }

  lemma DocumentStarts(d: Document, r: Recording, threshold: int, q: Reader)
    requires IsDocumentOf(d, r, threshold, q)
    ensures SumIs(SumFrom(d), r, d.run.model == ClosedModel, threshold, q)
  {
    hide StepsOf, TableIs, TableOf, ByStep, OverallOf, JourneyOf, SchedulingOf;
    TableStarts(d.steps, ByStep(r.samples), d.run.model == ClosedModel, q);
  }

  lemma {:induction false} SumsAreRecordings(documents: seq<Document>, recordings: seq<Recording>,
                                             threshold: int, q: Reader)
    requires |documents| == |recordings| > 0 && Comparable(documents)
    requires forall k :: 0 <= k < |documents| ==> IsDocumentOf(documents[k], recordings[k], threshold, q)
    ensures AddAll(documents, q).Ok?
    ensures SumIs(AddAll(documents, q).value, JoinedAll(recordings), documents[0].run.model == ClosedModel,
                  threshold, q)
    ensures AddAll(documents, q).value.overall.errorRate == documents[0].overall.errorRate
    ensures AddAll(documents, q).value.run.model == documents[0].run.model
  {
    hide IsDocumentOf, SumIs, AddDocument;
    var n := |documents|;
    if n == 1 {
      DocumentStarts(documents[0], recordings[0], threshold, q);
      assert recordings[..0] == [];
      assert Joined(JoinedAll([]), recordings[0]) == recordings[0];
    } else {
      SumsAreRecordings(documents[..n - 1], recordings[..n - 1], threshold, q);
      DocumentAdds(AddAll(documents[..n - 1], q).value, JoinedAll(recordings[..n - 1]),
                   documents[n - 1], recordings[n - 1], threshold, q);
    }
  }

  lemma {:induction false} ListedIs(t: Table, order: seq<string>)
    requires forall k :: 0 <= k < |order| ==> order[k] in t.steps
    ensures |Listed(t, order)| == |order|
    ensures forall k :: 0 <= k < |order| ==> Listed(t, order)[k] == t.steps[order[k]]
  {
    if order != [] { ListedIs(t, order[..|order| - 1]); }
  }

  lemma ListedAreSteps(t: Table, totals: map<string, Totals>, closed: bool, q: Reader)
    requires TableIs(t, totals, closed, q) && ListsEntered(t)
    ensures forall k :: 0 <= k < |Sorted(t.order)| ==> Sorted(t.order)[k] in t.steps
    ensures var rows := Listed(t, Sorted(t.order)); StepsOf(rows, totals, closed, q) && InOrder(NamesOf(rows))
  {
    SortedEntered(t);
    SortedKeys(t.order);
    SortedIs(t.order);
    var order := Sorted(t.order);
    hide Sorted, InOrder, ResultOf;
    ListedIs(t, order);
    forall k | 0 <= k < |order| ensures order[k] in totals { assert order[k] in order; }
    RowsAreSteps(order, Listed(t, order), totals, closed, q);
    RowNames(order, Listed(t, order), totals, closed, q);
  }

  lemma RatedIs(o: Overall, run: Run, t: Totals, closed: bool, q: Reader)
    requires OverallOf(o, t, closed, q) && t.count >= 0 && (t.count == 0 ==> o.errorRate == 0.0)
    ensures OverallOf(Rated(o, run), t, closed, q) && Rated(o, run).errorRate == ErrorRate(t)
  {
    hide Corrected, DistributionOf;
  }

  lemma {:induction false} JoinedHolds(recordings: seq<Recording>, k: nat)
    requires k < |recordings|
    ensures |recordings[k].samples| <= |JoinedAll(recordings).samples|
  {
    if k < |recordings| - 1 { JoinedHolds(recordings[..|recordings| - 1], k); }
  }

  /** Merging is a homomorphism: however a recording is split, merging the documents of its parts
      succeeds and gives the document of the whole, in every count, counter, histogram and
      quantile of every step, of the overall row, of the journeys and of the dispatches. */
  lemma {:induction false} MergeIsHomomorphic(documents: seq<Document>, recordings: seq<Recording>,
                                              threshold: int, q: Reader)
    requires |documents| == |recordings| > 0 && Comparable(documents)
    requires forall k :: 0 <= k < |documents| ==> IsDocumentOf(documents[k], recordings[k], threshold, q)
    ensures MergeOf(documents, q).Ok?
    ensures IsDocumentOf(MergeOf(documents, q).value, JoinedAll(recordings), threshold, q)
  {
    hide StepsOf, OverallOf, JourneyOf, SchedulingOf, ByStep, TotalOfAll, TableIs, AddAll, Rated, Listed, ListsEntered;
    if |documents| == 1 {
      assert recordings[..0] == [];
      assert Joined(JoinedAll([]), recordings[0]) == recordings[0];
    } else {
      SumsAreRecordings(documents, recordings, threshold, q);
      AddAllLists(documents, q);
      var sum, r, closed := AddAll(documents, q).value, JoinedAll(recordings), documents[0].run.model == ClosedModel;
      ListedAreSteps(sum.table, ByStep(r.samples), closed, q);
      TotalsCount(r.samples);
      TotalsCount(recordings[0].samples);
      JoinedHolds(recordings, 0);
      RatedIs(sum.overall, sum.run, TotalOfAll(r.samples), closed, q);
    }
  }

  // ----- Order, grouping and the overall row -----

  /** The same things recorded in another order. */
  ghost predicate Reordered(a: Recording, b: Recording) {
    && multiset(a.samples) == multiset(b.samples) && multiset(a.delays) == multiset(b.delays)
    && multiset(a.journeys) == multiset(b.journeys) && a.dropped == b.dropped && a.lost == b.lost
  }

  lemma {:induction false} DelaysIgnoreOrder(a: seq<int>, b: seq<int>, threshold: int)
    requires multiset(a) == multiset(b)
    ensures |a| == |b| && Late(a, threshold) == Late(b, threshold) && Skews(a) == Skews(b)
  {
    hide Late, Skews;
    assert |multiset(a)| == |a| && |multiset(b)| == |b|;
    if a != [] {
      var x, rest := [a[|a| - 1]], a[..|a| - 1];
      var before, after := TakeOne(a, b);
      assert a == rest + x;
      DelaysIgnoreOrder(rest, before + after, threshold);
      LateAdds(rest, x, threshold);
      LateAdds(before, after, threshold);
      LateAdds(before + x, after, threshold);
      LateAdds(before, x, threshold);
    } else {
      assert b == [];
    }
  }

  lemma {:induction false} JourneysIgnoreOrder(a: seq<JourneyEnd>, b: seq<JourneyEnd>)
    requires multiset(a) == multiset(b)
    ensures |a| == |b| && Complete(a) == Complete(b) && JourneyTimes(a) == JourneyTimes(b)
  {
    hide Complete, JourneyTimes;
    assert |multiset(a)| == |a| && |multiset(b)| == |b|;
    if a != [] {
      var x, rest := [a[|a| - 1]], a[..|a| - 1];
      var before, after := TakeOne(a, b);
      assert a == rest + x;
      JourneysIgnoreOrder(rest, before + after);
      JourneysAdd(rest, x);
      JourneysAdd(before, after);
      JourneysAdd(before + x, after);
      JourneysAdd(before, x);
    } else {
      assert b == [];
    }
  }

  /** The document does not depend on the order things were recorded in. */
  lemma {:induction false} DocumentsIgnoreOrder(d: Document, a: Recording, b: Recording, threshold: int, q: Reader)
    requires Reordered(a, b)
    ensures IsDocumentOf(d, a, threshold, q) <==> IsDocumentOf(d, b, threshold, q)
  {
    hide StepsOf, OverallOf, ByStep, TotalOfAll, DistributionOf, Corrected, InOrder;
    ByStepIgnoresOrder(a.samples, b.samples);
    DelaysIgnoreOrder(a.delays, b.delays, threshold);
    JourneysIgnoreOrder(a.journeys, b.journeys);
    assert |multiset(a.samples)| == |a.samples| && |multiset(b.samples)| == |b.samples|;
  }

  /** Two documents of the same recording agree, step by step and part by part. */
  lemma {:induction false} DocumentsAgree(d: Document, e: Document, r: Recording, threshold: int, q: Reader)
    requires IsDocumentOf(d, r, threshold, q) && IsDocumentOf(e, r, threshold, q) && d.run.model == e.run.model
    ensures d.steps == e.steps
    ensures d.overall.(effectiveRate := 0.0) == e.overall.(effectiveRate := 0.0)
    ensures d.journey == e.journey
    ensures d.scheduling.(peakInflight := 0) == e.scheduling.(peakInflight := 0)
  {
    SameRows(d.steps, e.steps, ByStep(r.samples), d.run.model == ClosedModel, q);
    hide StepsOf, DistributionOf, Corrected, ResultOf, ByStep, TotalOfAll, InOrder;
  }

  lemma SameRows(a: seq<StepResult>, b: seq<StepResult>, totals: map<string, Totals>, closed: bool, q: Reader)
    requires StepsOf(a, totals, closed, q) && StepsOf(b, totals, closed, q)
    requires InOrder(NamesOf(a)) && InOrder(NamesOf(b))
    ensures a == b
  {
    hide ResultOf, InOrder;
    NamesAre(a, totals, closed, q);
    NamesAre(b, totals, closed, q);
    SameMembers(NamesOf(a), NamesOf(b));
    OrderIsUnique(NamesOf(a), NamesOf(b));
    assert |a| == |NamesOf(a)| == |b|;
    forall k | 0 <= k < |a| ensures a[k] == b[k] { assert NamesOf(a)[k] == NamesOf(b)[k]; }
  }

  lemma NamesAre(steps: seq<StepResult>, totals: map<string, Totals>, closed: bool, q: Reader)
    requires StepsOf(steps, totals, closed, q)
    ensures Distinct(NamesOf(steps)) && forall name :: name in NamesOf(steps) <==> name in totals
  {
    hide ResultOf;
    forall name | name in totals ensures name in NamesOf(steps) {
      var k :| 0 <= k < |steps| && steps[k].name == name;
      assert NamesOf(steps)[k] == name;
    }
  }

  // ----- The run of a merged document -----

  /** The windows of all documents together, under the identity of the first. */
  ghost function RunsAdded(documents: seq<Document>): Run
    requires documents != []
  {
    if |documents| == 1 then documents[0].run
    else AddRun(RunsAdded(documents[..|documents| - 1]), documents[|documents| - 1].run)
  }

  ghost function SumBy(documents: seq<Document>, f: Document -> int): int {
    if documents == [] then 0 else SumBy(documents[..|documents| - 1], f) + f(documents[|documents| - 1])
  }

  ghost const PeakOf := (d: Document) => d.scheduling.peakInflight
  ghost const LimitOf := (d: Document) => d.run.maxInflight
  ghost const ObtainsOf := (d: Document) => d.run.authObtains

  lemma {:induction false} SumByAdds(a: seq<Document>, b: seq<Document>, f: Document -> int)
    ensures SumBy(a + b, f) == SumBy(a, f) + SumBy(b, f)
  {
    if b == [] {
      assert a + b == a;
    } else {
      assert (a + b)[..|a + b| - 1] == a + b[..|b| - 1];
      SumByAdds(a, b[..|b| - 1], f);
    }
  }

  lemma {:induction false} SumByIgnoresOrder(a: seq<Document>, b: seq<Document>, f: Document -> int)
    requires multiset(a) == multiset(b)
    ensures SumBy(a, f) == SumBy(b, f)
  {
    hide SumBy;
    assert |multiset(a)| == |a| && |multiset(b)| == |b|;
    if a != [] {
      var x, rest := [a[|a| - 1]], a[..|a| - 1];
      var before, after := TakeOne(a, b);
      assert a == rest + x;
      SumByIgnoresOrder(rest, before + after, f);
      SumByAdds(rest, x, f);
      SumByAdds(before, after, f);
      SumByAdds(before + x, after, f);
      SumByAdds(before, x, f);
    } else {
      assert b == [];
    }
  }

  lemma {:induction false} SumsOfRuns(documents: seq<Document>, q: Reader)
    requires documents != [] && AddAll(documents, q).Ok?
    ensures AddAll(documents, q).value.run == RunsAdded(documents)
    ensures AddAll(documents, q).value.scheduling.peakInflight == SumBy(documents, PeakOf)
    ensures AddAll(documents, q).value.overall.effectiveRate == documents[0].overall.effectiveRate
  {
    hide AddSteps, Merged, AddRun;
    if |documents| == 1 {
      assert documents[..0] == [] && SumBy([], PeakOf) == 0;
    } else {
      SumsOfRuns(documents[..|documents| - 1], q);
    }
  }

  /** What identifies the run of a sum, whatever the order of the documents. */
  ghost predicate IsRunOf(r: Run, documents: seq<Document>) {
    && (forall d :: d in documents ==> r.start <= d.run.start && d.run.end <= r.end)
    && (exists d :: d in documents && d.run.start == r.start)
    && (exists d :: d in documents && d.run.end == r.end)
    && r.maxInflight == SumBy(documents, LimitOf) && r.authObtains == SumBy(documents, ObtainsOf)
    && (|documents| > 1 ==> r.durationMs == Milliseconds(r.end - r.start))
  }

  lemma OneRun(d: Document)
    ensures IsRunOf(d.run, [d])
  {
    assert [d][..0] == [] && SumBy([], LimitOf) == 0 == SumBy([], ObtainsOf);
    assert d in [d];
  }

  lemma OneMoreRun(r: Run, documents: seq<Document>, d: Document)
    requires IsRunOf(r, documents) && documents != []
    ensures IsRunOf(AddRun(r, d.run), documents + [d])
  {
    hide Milliseconds;
    var all, t := documents + [d], AddRun(r, d.run);
    var a :| a in documents && a.run.start == r.start;
    var b :| b in documents && b.run.end == r.end;
    assert a in all && b in all && d in all;
    assert all[..|all| - 1] == documents;
  }

  lemma {:induction false} RunFacts(documents: seq<Document>)
    requires documents != []
    ensures var r := RunsAdded(documents);
            r.spec == documents[0].run.spec && r.model == documents[0].run.model && IsRunOf(r, documents)
  {
    hide IsRunOf;
    var init, last := documents[..|documents| - 1], documents[|documents| - 1];
    assert documents == init + [last];
    if |documents| == 1 {
      OneRun(last);
      assert documents == [last];
    } else {
      RunFacts(init);
      OneMoreRun(RunsAdded(init), init, last);
    }
  }

  lemma {:induction false} RunsOfTwoParts(a: seq<Document>, b: seq<Document>)
    requires a != [] && b != []
    ensures RunsAdded(a + b) == AddRun(RunsAdded(a), RunsAdded(b))
  {
    var all := a + b;
    assert all[..|all| - 1] == a + b[..|b| - 1];
    if |b| == 1 {
      assert all[..|all| - 1] == a;
    } else {
      RunsOfTwoParts(a, b[..|b| - 1]);
    }
  }

  lemma RunsIgnoreOrder(a: seq<Document>, b: seq<Document>)
    requires |a| > 1 && multiset(a) == multiset(b) && Comparable(a)
    ensures b != [] && RunsAdded(a) == RunsAdded(b)
  {
    assert |multiset(a)| == |a| && |multiset(b)| == |b|;
    RunFacts(a);
    RunFacts(b);
    MembersOf(a, b);
    assert b[0] in a;
    SumByIgnoresOrder(a, b, LimitOf);
    SumByIgnoresOrder(a, b, ObtainsOf);
    hide RunsAdded, Milliseconds, SumBy;
    var r, t := RunsAdded(a), RunsAdded(b);
    assert r.start == t.start && r.end == t.end;
  }

  // ----- Merging in groups -----

  ghost predicate AreDocumentsOf(documents: seq<Document>, recordings: seq<Recording>, threshold: int, q: Reader) {
    && |documents| == |recordings| > 0
    && forall k :: 0 <= k < |documents| ==> IsDocumentOf(documents[k], recordings[k], threshold, q)
  }

  lemma SumIsMerged(documents: seq<Document>, q: Reader)
    requires |documents| > 1 && MergeOf(documents, q).Ok?
    ensures AddAll(documents, q).Ok?
    ensures var m, sum := MergeOf(documents, q).value, AddAll(documents, q).value;
            && m.run == sum.run && m.scheduling == sum.scheduling
            && m.overall.effectiveRate ==
                 if m.run.durationMs > 0 then PerSecond(m.overall.count, m.run.durationMs)
                 else sum.overall.effectiveRate
  {
    var sum := AddAll(documents, q).value;
    RateOfRated(sum.overall, sum.run);
    hide AddAll, Listed, Sorted, Rated, PerSecond;
  }

  lemma RateOfRated(o: Overall, run: Run)
    ensures Rated(o, run).count == o.count
    ensures Rated(o, run).effectiveRate
         == if run.durationMs > 0 then PerSecond(o.count, run.durationMs) else o.effectiveRate
  {
    hide PerSecond;
  }

  /** The parts of a merged document that its recording does not determine. */
  lemma MergedRun(documents: seq<Document>, recordings: seq<Recording>, threshold: int, q: Reader)
    requires AreDocumentsOf(documents, recordings, threshold, q) && Comparable(documents)
    ensures MergeOf(documents, q).Ok? && IsDocumentOf(MergeOf(documents, q).value, JoinedAll(recordings), threshold, q)
    ensures var m := MergeOf(documents, q).value;
            && m.run == RunsAdded(documents) && m.scheduling.peakInflight == SumBy(documents, PeakOf)
            && m.overall.effectiveRate ==
                 if |documents| > 1 && m.run.durationMs > 0
                 then PerSecond(m.overall.count, m.run.durationMs)
                 else documents[0].overall.effectiveRate
  {
    hide IsDocumentOf, AddAll, PerSecond;
    MergeIsHomomorphic(documents, recordings, threshold, q);
    if |documents| == 1 {
      assert documents[..0] == [] && SumBy([], PeakOf) == 0;
    } else {
      SumIsMerged(documents, q);
      SumsOfRuns(documents, q);
      hide MergeOf, RunsAdded, SumBy;
    }
  }

  /** A merge keeps the identity of the run, so its result can be merged again. */
  lemma {:induction false} MergeKeepsIdentity(documents: seq<Document>, recordings: seq<Recording>,
                                              threshold: int, q: Reader)
    requires AreDocumentsOf(documents, recordings, threshold, q) && Comparable(documents)
    ensures MergeOf(documents, q).Ok?
    ensures var run := MergeOf(documents, q).value.run;
            run.spec == documents[0].run.spec && run.model == documents[0].run.model
  {
    hide MergeOf;
    MergedRun(documents, recordings, threshold, q);
    RunFacts(documents);
  }

  lemma {:induction false} JoinedAllAdds(a: seq<Recording>, b: seq<Recording>)
    ensures JoinedAll(a + b) == Joined(JoinedAll(a), JoinedAll(b))
  {
    if b == [] {
      assert a + b == a;
      JoinedNothing(JoinedAll(a));
    } else {
      var n := |b| - 1;
      assert (a + b)[..|a + b| - 1] == a + b[..n];
      JoinedAllAdds(a, b[..n]);
      JoinedAssociates(JoinedAll(a), JoinedAll(b[..n]), b[n]);
    }
  }

  lemma JoinedNothing(a: Recording)
    ensures Joined(a, Recording([], [], [], 0, 0)) == a && Joined(Recording([], [], [], 0, 0), a) == a
  {
  }

  lemma JoinedAssociates(a: Recording, b: Recording, c: Recording)
    ensures Joined(Joined(a, b), c) == Joined(a, Joined(b, c))
  {
    assert (a.samples + b.samples) + c.samples == a.samples + (b.samples + c.samples);
    assert (a.delays + b.delays) + c.delays == a.delays + (b.delays + c.delays);
    assert (a.journeys + b.journeys) + c.journeys == a.journeys + (b.journeys + c.journeys);
  }

  /** A document but for its requests per second. */
  ghost function Unrated(d: Document): Document { d.(overall := d.overall.(effectiveRate := 0.0)) }

  lemma WholeIsAgreed(d: Document, e: Document, r: Recording, threshold: int, q: Reader)
    requires IsDocumentOf(d, r, threshold, q) && IsDocumentOf(e, r, threshold, q) && d.run == e.run
    requires d.scheduling.peakInflight == e.scheduling.peakInflight
    ensures Unrated(d) == Unrated(e)
    ensures d.overall.effectiveRate == e.overall.effectiveRate ==> d == e
  {
    DocumentsAgree(d, e, r, threshold, q);
    hide StepsOf, OverallOf, JourneyOf, SchedulingOf, InOrder;
    assert d.scheduling == d.scheduling.(peakInflight := 0).(peakInflight := d.scheduling.peakInflight);
    assert e.scheduling == e.scheduling.(peakInflight := 0).(peakInflight := e.scheduling.peakInflight);
    assert d.overall == d.overall.(effectiveRate := 0.0).(effectiveRate := d.overall.effectiveRate);
    assert e.overall == e.overall.(effectiveRate := 0.0).(effectiveRate := e.overall.effectiveRate);
  }

  lemma DurationsGrow(a: Run, b: Run)
    ensures Milliseconds(a.end - a.start) <= AddRun(a, b).durationMs
  {
  }

  lemma TwoDocuments(x: Document, r: Recording, y: Document, t: Recording, threshold: int, q: Reader)
    requires IsDocumentOf(x, r, threshold, q) && IsDocumentOf(y, t, threshold, q)
    ensures AreDocumentsOf([x, y], [r, t], threshold, q) && RunsAdded([x, y]) == AddRun(x.run, y.run)
    ensures SumBy([x, y], PeakOf) == PeakOf(x) + PeakOf(y) && JoinedAll([r, t]) == Joined(r, t)
  {
    hide IsDocumentOf, AddRun;
    assert [x, y][..1] == [x] && [x][..0] == [] && [r, t][..1] == [r] && [r][..0] == [];
    assert SumBy([], PeakOf) == 0 && SumBy([x], PeakOf) == PeakOf(x);
    JoinedNothing(r);
    assert JoinedAll([r]) == r;
  }

  lemma TogetherAreDocuments(a: seq<Document>, ra: seq<Recording>, b: seq<Document>, rb: seq<Recording>,
                             threshold: int, q: Reader)
    requires AreDocumentsOf(a, ra, threshold, q) && AreDocumentsOf(b, rb, threshold, q) && Comparable(a + b)
    ensures a != [] && b != []
    ensures AreDocumentsOf(a + b, ra + rb, threshold, q) && Comparable(a) && Comparable(b)
    ensures a[0].run.spec == b[0].run.spec && a[0].run.model == b[0].run.model
  {
    hide IsDocumentOf;
    var all := a + b;
    forall k | 0 <= k < |a| ensures a[k] == all[k] { }
    forall k | 0 <= k < |b| ensures b[k] == all[|a| + k] { }
  }

  /** Grouping does not matter: merging two merged groups gives the very document that merging all
      their documents at once gives. */
  lemma {:induction false} MergingGroups(a: seq<Document>, ra: seq<Recording>, b: seq<Document>, rb: seq<Recording>,
                                         threshold: int, q: Reader)
    requires AreDocumentsOf(a, ra, threshold, q) && AreDocumentsOf(b, rb, threshold, q) && Comparable(a + b)
    ensures MergeOf(a, q).Ok? && MergeOf(b, q).Ok? && MergeOf(a + b, q).Ok?
    ensures MergeOf([MergeOf(a, q).value, MergeOf(b, q).value], q) == MergeOf(a + b, q)
    ensures IsDocumentOf(MergeOf(a + b, q).value, JoinedAll(ra + rb), threshold, q)
  {
    hide MergeOf, IsDocumentOf, AddRun, SumBy, RunsAdded, Unrated, JoinedAll, AreDocumentsOf, Milliseconds, PerSecond;
    TogetherAreDocuments(a, ra, b, rb, threshold, q);
    MergedRun(a, ra, threshold, q);
    MergedRun(b, rb, threshold, q);
    MergedRun(a + b, ra + rb, threshold, q);
    RunFacts(a);
    RunFacts(b);
    var x, y, all := MergeOf(a, q).value, MergeOf(b, q).value, MergeOf(a + b, q).value;
    TwoDocuments(x, JoinedAll(ra), y, JoinedAll(rb), threshold, q);
    MergedRun([x, y], [JoinedAll(ra), JoinedAll(rb)], threshold, q);
    var two := MergeOf([x, y], q).value;
    RunsOfTwoParts(a, b);
    SumByAdds(a, b, PeakOf);
    JoinedAllAdds(ra, rb);
    DocumentsAgree(all, two, JoinedAll(ra + rb), threshold, q);
    DurationsGrow(x.run, y.run);
    assert all.overall.(effectiveRate := 0.0).count == two.overall.(effectiveRate := 0.0).count;
    WholeIsAgreed(all, two, JoinedAll(ra + rb), threshold, q);
  }

  /** What the rates mean: times the window in seconds they give back the number of requests. */
  lemma {:induction false} RatesGiveBackTheCount(count: int, run: Run)
    ensures run.durationMs > 0 ==> PerSecond(count, run.durationMs) * (run.durationMs as real / 1000.0) == count as real
    ensures run.end > run.start ==>
              EffectiveRate(count, run) * ((run.end - run.start) as real / 1_000_000_000.0) == count as real
    ensures run.end <= run.start ==> EffectiveRate(count, run) == 0.0
  {
    if run.durationMs > 0 { QuotientTimes(count as real, run.durationMs as real / 1000.0); }
    if run.end > run.start { QuotientTimes(count as real, (run.end - run.start) as real / 1_000_000_000.0); }
  }

  lemma QuotientTimes(x: real, y: real)
    requires y > 0.0
    ensures x / y * y == x
  {
  }

  /** And the error rate, times the number of requests, the number of errors. */
  lemma {:induction false} ErrorRateGivesBackTheErrors(t: Totals)
    ensures t.count > 0 ==> ErrorRate(t) * t.count as real == t.Errors() as real
    ensures t.count <= 0 ==> ErrorRate(t) == 0.0
  {
    if t.count > 0 { QuotientTimes(t.Errors() as real, t.count as real); }
  }

  /** A merge refuses nothing to merge, another format, another spec or another model; documents of
      recordings it refuses for no other reason, and one document alone it returns as it is. */
  lemma {:induction false} MergeRefuses(documents: seq<Document>, q: Reader)
    ensures documents == [] ==> MergeOf(documents, q).Err?
    ensures |documents| == 1 ==> MergeOf(documents, q) == Ok(documents[0])
    ensures |documents| > 1 && MergeOf(documents, q).Ok? ==>
              forall k :: 0 <= k < |documents| ==>
                && documents[k].format == "4"
                && documents[k].run.spec == documents[0].run.spec && documents[k].run.model == documents[0].run.model
  {
    hide AddAll, Listed, Sorted, Rated;
  }

  lemma {:induction false} MergeRefusesOnlyThat(documents: seq<Document>, recordings: seq<Recording>,
                                                threshold: int, q: Reader)
    requires AreDocumentsOf(documents, recordings, threshold, q)
    ensures MergeOf(documents, q).Ok? <==>
              forall k :: 0 <= k < |documents| ==>
                documents[k].run.spec == documents[0].run.spec && documents[k].run.model == documents[0].run.model
  {
    hide IsDocumentOf;
    if Comparable(documents) {
      MergeIsHomomorphic(documents, recordings, threshold, q);
    } else {
      MergeRefuses(documents, q);
    }
    hide MergeOf;
  }

  // ----- Merging in another order -----

  lemma ReorderedParts(before: Recording, x: Recording, after: Recording, rest: Recording)
    requires Reordered(rest, Joined(before, after))
    ensures Reordered(Joined(rest, x), Joined(Joined(before, x), after))
  {
    assert multiset(before.samples + x.samples + after.samples)
        == multiset(before.samples + after.samples) + multiset(x.samples);
    assert multiset(before.delays + x.delays + after.delays)
        == multiset(before.delays + after.delays) + multiset(x.delays);
    assert multiset(before.journeys + x.journeys + after.journeys)
        == multiset(before.journeys + after.journeys) + multiset(x.journeys);
  }

  /** A document put back where it was, with its recording. */
  lemma PutBack(before: seq<Document>, after: seq<Document>, others: seq<Recording>, d: Document, x: Recording,
                threshold: int, q: Reader) returns (rs: seq<Recording>)
    requires |before + after| == |others| && IsDocumentOf(d, x, threshold, q)
    requires forall k :: 0 <= k < |others| ==> IsDocumentOf((before + after)[k], others[k], threshold, q)
    ensures AreDocumentsOf(before + [d] + after, rs, threshold, q)
    ensures forall rest :: Reordered(rest, JoinedAll(others)) ==> Reordered(Joined(rest, x), JoinedAll(rs))
  {
    hide IsDocumentOf, Joined, Reordered, JoinedAll;
    var n := |before|;
    rs := others[..n] + [x] + others[n..];
    assert others == others[..n] + others[n..];
    SingleJoined(x);
    JoinedAllAdds(others[..n], others[n..]);
    JoinedAllAdds(others[..n], [x]);
    JoinedAllAdds(others[..n] + [x], others[n..]);
    forall rest | Reordered(rest, JoinedAll(others)) ensures Reordered(Joined(rest, x), JoinedAll(rs)) {
      ReorderedParts(JoinedAll(others[..n]), x, JoinedAll(others[n..]), rest);
    }
    forall k | 0 <= k < |rs| ensures IsDocumentOf((before + [d] + after)[k], rs[k], threshold, q) {
      if k < n {
        assert (before + after)[k] == before[k];
      } else if k > n {
        assert (before + after)[k - 1] == after[k - 1 - n];
      }
    }
  }

  /** Rearranged documents are those of the same recordings, rearranged. */
  lemma {:induction false} Rearranged(documents: seq<Document>, recordings: seq<Recording>, permuted: seq<Document>,
                                      threshold: int, q: Reader) returns (rs: seq<Recording>)
    requires AreDocumentsOf(documents, recordings, threshold, q) && multiset(documents) == multiset(permuted)
    ensures AreDocumentsOf(permuted, rs, threshold, q) && Reordered(JoinedAll(recordings), JoinedAll(rs))
  {
    hide IsDocumentOf, Joined, Reordered;
    var n := |documents| - 1;
    var before, after := TakeOne(documents, permuted);
    assert |multiset(documents[..n])| == n == |multiset(before + after)| == |before + after|;
    var others := [];
    if n > 0 {
      others := Rearranged(documents[..n], recordings[..n], before + after, threshold, q);
    } else {
      SameIsReordered(JoinedAll([]));
    }
    rs := PutBack(before, after, others, documents[n], recordings[n], threshold, q);
  }

  lemma SameIsReordered(a: Recording)
    ensures Reordered(a, a)
  {
  }

  lemma SingleJoined(x: Recording)
    ensures JoinedAll([x]) == x
  {
    assert [x][..0] == [];
    JoinedNothing(x);
  }

  /** Order does not matter: merging the same documents in another order gives the same document but
      for the effective rate, and the very same one exactly when the merged window is at least a
      millisecond long or both orders begin with the same rate, which is then kept. */
  lemma {:induction false} MergingInAnyOrder(documents: seq<Document>, recordings: seq<Recording>,
                                             permuted: seq<Document>, threshold: int, q: Reader)
    requires AreDocumentsOf(documents, recordings, threshold, q) && Comparable(documents)
    requires multiset(documents) == multiset(permuted)
    ensures permuted != [] && MergeOf(documents, q).Ok? && MergeOf(permuted, q).Ok?
    ensures var d, e := MergeOf(documents, q).value, MergeOf(permuted, q).value;
            && Unrated(d) == Unrated(e)
            && (d == e <==> || RunsAdded(documents).durationMs > 0
                            || documents[0].overall.effectiveRate == permuted[0].overall.effectiveRate)
  {
    hide MergeOf, IsDocumentOf, SumBy, RunsAdded, Unrated, Reordered, PerSecond;
    assert |multiset(documents)| == |documents| && |multiset(permuted)| == |permuted|;
    MembersOf(documents, permuted);
    MergedRun(documents, recordings, threshold, q);
    if |documents| == 1 {
      assert permuted[0] in documents;
      assert permuted == documents;
    } else {
      var rs := Rearranged(documents, recordings, permuted, threshold, q);
      forall k | 0 <= k < |permuted| ensures permuted[k] in documents { }
      assert Comparable(permuted);
      MergedRun(permuted, rs, threshold, q);
      RunsIgnoreOrder(documents, permuted);
      SumByIgnoresOrder(documents, permuted, PeakOf);
      var d, e, r := MergeOf(documents, q).value, MergeOf(permuted, q).value, JoinedAll(recordings);
      hide JoinedAll, AreDocumentsOf;
      DocumentsIgnoreOrder(e, r, JoinedAll(rs), threshold, q);
      DocumentsAgree(d, e, r, threshold, q);
      assert d.overall.(effectiveRate := 0.0).count == e.overall.(effectiveRate := 0.0).count;
      WholeIsAgreed(d, e, r, threshold, q);
    }
  }

  /** Two documents whose order shows: one sample and none, both of the same half millisecond. */
  method OrderShowsInABriefRun(sample: Sample, q: Reader) returns (x: Document, y: Document)
    ensures IsDocumentOf(x, Recording([sample], [], [], 0, 0), 0, q)
    ensures IsDocumentOf(y, Recording([], [], [], 0, 0), 0, q)
    ensures Comparable([x, y]) && MergeOf([x, y], q) != MergeOf([y, x], q)
  {
    hide *;
    var one, none := Recording([sample], [], [], 0, 0), Recording([], [], [], 0, 0);
    var run := Run("spec", "open", 0, 500_000, 0, 1, 0);
    x := BuildDocument(one, run, 0, 0, q);
    y := BuildDocument(none, run, 0, 0, q);
    BriefRates(run);
    OrderShows(x, one, y, none, 0, q);
    SameRun(x, y);
  }

  lemma SameRun(x: Document, y: Document)
    requires x.run == y.run
    ensures Comparable([x, y])
  {
  }

  lemma OrderShows(x: Document, r: Recording, y: Document, t: Recording, threshold: int, q: Reader)
    requires IsDocumentOf(x, r, threshold, q) && IsDocumentOf(y, t, threshold, q) && x.run == y.run
    requires AddRun(x.run, y.run).durationMs <= 0 && x.overall.effectiveRate != y.overall.effectiveRate
    ensures MergeOf([x, y], q) != MergeOf([y, x], q)
  {
    hide MergeOf, IsDocumentOf;
    TwoDocuments(x, r, y, t, threshold, q);
    hide AreDocumentsOf, RunsAdded, JoinedAll, SumBy, AddRun;
    SwappedPair(x, y);
    MergingInAnyOrder([x, y], [r, t], [y, x], threshold, q);
  }

  lemma BriefRates(run: Run)
    requires run == Run("spec", "open", 0, 500_000, 0, 1, 0)
    ensures EffectiveRate(1, run) != EffectiveRate(0, run) && AddRun(run, run).durationMs == 0
  {
    assert 500_000.0 / 1_000_000_000.0 == 0.0005;
  }

  lemma SwappedPair<T>(x: T, y: T)
    ensures multiset([x, y]) == multiset([y, x])
  {
  }

  // ----- What a row says of the samples of its step -----

  ghost function Finished(): Sample -> bool { (x: Sample) => x.finishedAt.Some? }
  ghost function FinishedAndSent(): Sample -> bool { (x: Sample) => x.finishedAt.Some? && x.sentAt.Some? }

  lemma {:induction false} HistogramSizes(samples: seq<Sample>)
    ensures |TotalOfAll(samples).corrected| == Tally(samples, Finished())
    ensures |TotalOfAll(samples).service| == Tally(samples, FinishedAndSent())
  {
    hide AddCounts, Saved;
    if samples != [] { HistogramSizes(samples[..|samples| - 1]); }
  }

  /** Every number of a row is that of the samples of its step: requests, successes, errors, bytes,
      messages, the counters by class and status, and how many times each histogram holds. */
  lemma {:induction false} RowsAreOfTheirSamples(d: Document, r: Recording, threshold: int, q: Reader, row: StepResult,
                                                 outcome: string, code: int)
    requires IsDocumentOf(d, r, threshold, q) && row in d.steps
    ensures var own := SamplesOf(r.samples, row.name);
            && own != []
            && row.count == |own| && row.successes == Succeeded(own) && row.errors == |own| - Succeeded(own)
            && row.bytes == SumOver(own, BytesOf) && row.messages == SumOver(own, MessagesOf)
            && At(row.errorsByClass, outcome) == Tally(own, FailedAs(outcome))
            && At(row.statusByCode, code) == Tally(own, HadStatus(code))
            && (d.run.model != ClosedModel ==>
                  && row.latency.samples == Tally(own, Finished())
                  && row.latency.quantiles == q(TotalOfAll(own).corrected))
            && (d.run.model == ClosedModel ==> row.latency == NoDistribution)
            && row.service.samples == Tally(own, FinishedAndSent())
            && row.service.quantiles == q(TotalOfAll(own).service)
  {
    hide TotalOfAll, ByStep, SamplesOf, Succeeded, OverallOf, JourneyOf, SchedulingOf, ErrorRate, InOrder;
    hide FailedAs, HadStatus, Finished, FinishedAndSent, Tally, SumOver;
    var own := SamplesOf(r.samples, row.name);
    AggregateIsOfItsOwn(r.samples, row.name);
    TotalsCount(own);
    CountersCount(own, outcome, code);
    SizesAddUp(own);
    HistogramSizes(own);
  }

  /** A duration in whole milliseconds, rounded toward zero. */
  lemma {:induction false} MillisecondsAre(nanoseconds: int)
    ensures var ms := Milliseconds(nanoseconds);
            nanoseconds >= 0 ==> 1_000_000 * ms <= nanoseconds < 1_000_000 * (ms + 1)
    ensures Milliseconds(-nanoseconds) == -Milliseconds(nanoseconds)
  {
  }

  // ----- The overall row -----

  ghost function Values(d: Distribution): multiset<int> {
    if d.histogram.Readable? then d.histogram.values else multiset{}
  }

  /** Everything about requests that adds up over rows. */
  datatype Row = Row(count: int, successes: int, errors: int, latency: multiset<int>, service: multiset<int>)

  ghost function Rows(steps: seq<StepResult>): Row {
    if steps == [] then Row(0, 0, 0, multiset{}, multiset{}) else
    var before, last := Rows(steps[..|steps| - 1]), steps[|steps| - 1];
    Row(before.count + last.count, before.successes + last.successes, before.errors + last.errors,
        before.latency + Values(last.latency), before.service + Values(last.service))
  }

  ghost function RowOf(t: Totals, closed: bool): Row {
    Row(t.count, t.successes, t.Errors(), if closed then multiset{} else t.corrected, t.service)
  }

  lemma {:induction false} RowsAddUp(steps: seq<StepResult>, totals: map<string, Totals>, closed: bool, q: Reader)
    requires forall k :: 0 <= k < |steps| ==>
               steps[k].name in totals && steps[k] == ResultOf(steps[k].name, totals[steps[k].name], closed, q)
    ensures Rows(steps) == RowOf(SumOf(NamesOf(steps), totals), closed)
  {
    hide ResultOf, Plus, RowOf, Values;
    if steps == [] {
      NothingRow(closed);
    } else {
      var init, last := steps[..|steps| - 1], steps[|steps| - 1];
      RowsAddUp(init, totals, closed, q);
      assert NamesOf(steps)[..|steps| - 1] == NamesOf(init);
      RowCounts(last.name, SumOf(NamesOf(init), totals), totals[last.name], closed, q);
    }
  }

  lemma NothingRow(closed: bool)
    ensures RowOf(Nothing, closed) == Row(0, 0, 0, multiset{}, multiset{})
  {
  }

  lemma RowCounts(name: string, sum: Totals, t: Totals, closed: bool, q: Reader)
    ensures var r, s := ResultOf(name, t, closed, q), RowOf(sum, closed);
            RowOf(Plus(sum, t), closed)
            == Row(s.count + r.count, s.successes + r.successes, s.errors + r.errors,
                   s.latency + Values(r.latency), s.service + Values(r.service))
  {
    hide AddCounts;
  }

  /** In the document of any recording, merged or not, the overall row is the sum of the steps:
      requests, successes, errors and the values in both histograms. */
  lemma {:induction false} OverallIsSumOfRows(d: Document, r: Recording, threshold: int, q: Reader)
    requires IsDocumentOf(d, r, threshold, q)
    ensures Rows(d.steps) == Row(d.overall.count, d.overall.successes, d.overall.errors,
                                 Values(d.overall.latency), Values(d.overall.service))
  {
    hide ResultOf, ByStep, TotalOfAll, SumOf, JourneyOf, SchedulingOf, InOrder;
    var closed, totals, names := d.run.model == ClosedModel, ByStep(r.samples), NamesOf(d.steps);
    RowsAddUp(d.steps, totals, closed, q);
    NamesAre(d.steps, totals, closed, q);
    forall k | 0 <= k < |r.samples| ensures r.samples[k].step in names {
      EverySampleHasItsStep(r.samples, k);
    }
    OverallIsSumOfSteps(names, r.samples);
  }
}
