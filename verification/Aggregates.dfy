/** Step aggregates (internal/metrics/aggregate.go): counters and latency histograms of samples.

    A histogram is the multiset of the microseconds saved in it.  Every total is a value that
    adds, so the module is about one commutative monoid and the code that computes in it.  */
module Aggregates {
  import opened Basics

  const SuccessClass := "success"

  /** Whether a latency is counted from the scheduled instant; unset on a sample of no step. */
  datatype LatencyKind = Unset | CorrectedKind | ServiceKind

  /** One observed request.  Times are nanoseconds; an unset time is None. */
  datatype Sample = Sample(
    step: string, scheduledAt: int, sentAt: Option<int>, finishedAt: Option<int>,
    outcome: string, status: int, bytes: int, messages: int, detail: string, kind: LatencyKind)
  {
    /** From the scheduled instant, so that a late dispatch is not hidden. */
    function CorrectedLatency(): int
      requires finishedAt.Some?
    {
      finishedAt.value - scheduledAt
    }

    function ServiceLatency(): int
      requires finishedAt.Some? && sentAt.Some?
    {
      finishedAt.value - sentAt.value
    }
  }

  const MinLatencyUs := 1
  const MaxLatencyUs := 600_000_000

  /** Go's integer division of a duration by a thousand truncates toward zero. */
  function Microseconds(nanoseconds: int): int {
    if nanoseconds >= 0 then nanoseconds / 1000 else -((-nanoseconds) / 1000)
  }

  /** What is saved for a duration: whole microseconds within the range of the histogram. */
  function Saved(nanoseconds: int): (us: int)
    ensures MinLatencyUs <= us <= MaxLatencyUs
    ensures 1000 <= nanoseconds < 1000 * (MaxLatencyUs + 1) ==> 1000 * us <= nanoseconds < 1000 * (us + 1)
    ensures nanoseconds < 1000 ==> us == 1
    ensures nanoseconds >= 600_000_000_000 ==> us == 600_000_000
  {
    var us := Microseconds(nanoseconds);
    if us < MinLatencyUs then MinLatencyUs else if us > MaxLatencyUs then MaxLatencyUs else us
  }

  // ----- Counters by key -----

  function At<K>(counts: map<K, int>, key: K): int {
    if key in counts then counts[key] else 0
  }

  function AddCounts<K>(a: map<K, int>, b: map<K, int>): map<K, int> {
    map k | k in a.Keys + b.Keys :: At(a, k) + At(b, k)
  }

  /** The loop that adds one counter map into another, in whatever order the keys come. */
  method AddCountsInto<K>(a: map<K, int>, b: map<K, int>) returns (sum: map<K, int>)
    ensures sum == AddCounts(a, b)
  {
    sum := a;
    var left := b.Keys;
    while left != {}
      invariant left <= b.Keys
      invariant sum.Keys == a.Keys + (b.Keys - left)
      invariant forall k :: k in sum ==> sum[k] == At(a, k) + if k in b && k !in left then b[k] else 0
      decreases left
    {
      var key :| key in left;
      sum := sum[key := At(sum, key) + b[key]];
      left := left - {key};
    }
    SameCounts(sum, a, b);
  }

  lemma SameCounts<K>(sum: map<K, int>, a: map<K, int>, b: map<K, int>)
    requires sum.Keys == a.Keys + b.Keys
    requires forall k :: k in sum ==> sum[k] == At(a, k) + At(b, k)
    ensures sum == AddCounts(a, b)
  {
  }

  lemma AddCountsCommutes<K>(a: map<K, int>, b: map<K, int>)
    ensures AddCounts(a, b) == AddCounts(b, a)
  {
    assert AddCounts(a, b).Keys == AddCounts(b, a).Keys;
  }

  lemma AddCountsAssociates<K>(a: map<K, int>, b: map<K, int>, c: map<K, int>)
    ensures AddCounts(AddCounts(a, b), c) == AddCounts(a, AddCounts(b, c))
  {
    var l, r := AddCounts(AddCounts(a, b), c), AddCounts(a, AddCounts(b, c));
    assert l.Keys == r.Keys;
    forall k | k in l ensures l[k] == r[k] {
      assert At(AddCounts(a, b), k) == At(a, k) + At(b, k);
      assert At(AddCounts(b, c), k) == At(b, k) + At(c, k);
    }
  }

  lemma AddCountsUnit<K>(a: map<K, int>)
    ensures AddCounts(map[], a) == a && AddCounts(a, map[]) == a
  {
    SameCounts(a, map[], a);
    SameCounts(a, a, map[]);
  }

  /** Counting one more under a key. */
  lemma AddCountsOne<K>(a: map<K, int>, key: K)
    ensures a[key := At(a, key) + 1] == AddCounts(a, map[key := 1])
  {
    SameCounts(a[key := At(a, key) + 1], a, map[key := 1]);
  }

  // ----- Totals -----

  datatype Totals = Totals(
    count: int, successes: int, bytes: int, messages: int,
    errorsByClass: map<string, int>, statusByCode: map<int, int>,
    corrected: multiset<int>, service: multiset<int>)
  {
    function Errors(): int { count - successes }
  }

  const Nothing := Totals(0, 0, 0, 0, map[], map[], multiset{}, multiset{})

  function Plus(a: Totals, b: Totals): Totals {
    Totals(a.count + b.count, a.successes + b.successes, a.bytes + b.bytes, a.messages + b.messages,
           AddCounts(a.errorsByClass, b.errorsByClass), AddCounts(a.statusByCode, b.statusByCode),
           a.corrected + b.corrected, a.service + b.service)
  }

  lemma {:induction false} PlusCommutes(a: Totals, b: Totals)
    ensures Plus(a, b) == Plus(b, a)
  {
    hide AddCounts;
    AddCountsCommutes(a.errorsByClass, b.errorsByClass);
    AddCountsCommutes(a.statusByCode, b.statusByCode);
  }

  lemma {:induction false} PlusAssociates(a: Totals, b: Totals, c: Totals)
    ensures Plus(Plus(a, b), c) == Plus(a, Plus(b, c))
  {
    hide AddCounts;
    AddCountsAssociates(a.errorsByClass, b.errorsByClass, c.errorsByClass);
    AddCountsAssociates(a.statusByCode, b.statusByCode, c.statusByCode);
    SumsAssociate(a.corrected, b.corrected, c.corrected);
    SumsAssociate(a.service, b.service, c.service);
  }

  lemma SumsAssociate(a: multiset<int>, b: multiset<int>, c: multiset<int>)
    ensures (a + b) + c == a + (b + c)
  {
  }

  lemma IsPlus(r: Totals, a: Totals, b: Totals)
    requires r.count == a.count + b.count && r.successes == a.successes + b.successes
    requires r.bytes == a.bytes + b.bytes && r.messages == a.messages + b.messages
    requires r.errorsByClass == AddCounts(a.errorsByClass, b.errorsByClass)
    requires r.statusByCode == AddCounts(a.statusByCode, b.statusByCode)
    requires r.corrected == a.corrected + b.corrected && r.service == a.service + b.service
    ensures r == Plus(a, b)
  {
    hide AddCounts;
  }

  lemma PlusUnit(a: Totals)
    ensures Plus(Nothing, a) == a && Plus(a, Nothing) == a
  {
    hide AddCounts;
    AddCountsUnit(a.errorsByClass);
    AddCountsUnit(a.statusByCode);
  }

  /** What one sample contributes: an error has a class, a positive status is counted, and the
      latencies exist as far as the instants they run between were taken. */
  function TotalsOf(s: Sample): Totals {
    var success := s.outcome == SuccessClass;
    Totals(1, if success then 1 else 0, s.bytes, s.messages,
           if success then map[] else map[s.outcome := 1],
           if s.status > 0 then map[s.status := 1] else map[],
           if s.finishedAt.Some? then multiset{Saved(s.CorrectedLatency())} else multiset{},
           if s.finishedAt.Some? && s.sentAt.Some?
           then multiset{Saved(s.ServiceLatency())} else multiset{})
  }

  const DetailsCap := 32

  /** The detail of a failure is counted while there is room; once full, known details no longer
      count either. */
  function DetailsWith(details: map<string, int>, s: Sample): map<string, int> {
    if s.outcome != SuccessClass && s.detail != "" && |details| < DetailsCap
    then details[s.detail := At(details, s.detail) + 1] else details
  }

  function DetailsOf(samples: seq<Sample>): map<string, int> {
    if samples == [] then map[] else DetailsWith(DetailsOf(samples[..|samples| - 1]), samples[|samples| - 1])
  }

  /** However many samples are recorded, at most 32 details are kept. */
  lemma {:induction false} DetailsAreCapped(samples: seq<Sample>)
    ensures |DetailsOf(samples)| <= 32
  {
    if samples != [] {
      var init, last := samples[..|samples| - 1], samples[|samples| - 1];
      DetailsAreCapped(init);
      var details := DetailsOf(init);
      assert details[last.detail := 0].Keys == details.Keys + {last.detail};
      assert DetailsOf(samples).Keys <= details.Keys + {last.detail};
    }
  }

  class Aggregate {
    var count: int
    var successes: int
    var bytes: int
    var messages: int
    var errorsByClass: map<string, int>
    var statusByCode: map<int, int>
    var corrected: multiset<int>
    var service: multiset<int>
    var details: map<string, int>
    var kind: LatencyKind

    ghost function Contents(): Totals
      reads this
    {
      Totals(count, successes, bytes, messages, errorsByClass, statusByCode, corrected, service)
    }

    constructor ()
      ensures Contents() == Nothing && details == map[] && kind == Unset
    {
      details, kind := map[], Unset;
      count, successes, bytes, messages := 0, 0, 0, 0;
      errorsByClass, statusByCode, corrected, service := map[], map[], multiset{}, multiset{};
    }

    method Record(sample: Sample)
      modifies this
      ensures Contents() == Plus(old(Contents()), TotalsOf(sample))
      ensures details == DetailsWith(old(details), sample)
      ensures kind == if old(kind) == Unset then sample.kind else old(kind)
    {
      hide TotalsOf, AddCounts, DetailsWith, Plus;
      ghost var before := Contents();
      Note(sample);
      CountRequest(sample);
      CountClasses(sample);
      SaveLatencies(sample);
      IsPlus(Contents(), before, TotalsOf(sample));
    }

    /** The part of Record that does not add up. */
    method Note(sample: Sample)
      modifies this`details, this`kind
      ensures details == DetailsWith(old(details), sample)
      ensures kind == if old(kind) == Unset then sample.kind else old(kind)
    {
      if kind == Unset {
        kind := sample.kind;
      }
      if sample.outcome != SuccessClass && sample.detail != "" && |details| < DetailsCap {
        details := details[sample.detail := At(details, sample.detail) + 1];
      }
    }

    method CountRequest(sample: Sample)
      modifies this`count, this`successes, this`bytes, this`messages
      ensures count == old(count) + TotalsOf(sample).count && successes == old(successes) + TotalsOf(sample).successes
      ensures bytes == old(bytes) + TotalsOf(sample).bytes && messages == old(messages) + TotalsOf(sample).messages
    {
      count := count + 1;
      bytes := bytes + sample.bytes;
      messages := messages + sample.messages;
      if sample.outcome == SuccessClass {
        successes := successes + 1;
      }
    }

    method CountClasses(sample: Sample)
      modifies this`errorsByClass, this`statusByCode
      ensures errorsByClass == AddCounts(old(errorsByClass), TotalsOf(sample).errorsByClass)
      ensures statusByCode == AddCounts(old(statusByCode), TotalsOf(sample).statusByCode)
    {
      AddCountsUnit(statusByCode);
      AddCountsUnit(errorsByClass);
      AddCountsOne(statusByCode, sample.status);
      AddCountsOne(errorsByClass, sample.outcome);
      hide AddCounts;
      if sample.status > 0 {
        statusByCode := statusByCode[sample.status := At(statusByCode, sample.status) + 1];
      }
      if sample.outcome != SuccessClass {
        errorsByClass := errorsByClass[sample.outcome := At(errorsByClass, sample.outcome) + 1];
      }
    }

    method SaveLatencies(sample: Sample)
      modifies this`corrected, this`service
      ensures corrected == old(corrected) + TotalsOf(sample).corrected
      ensures service == old(service) + TotalsOf(sample).service
    {
      if sample.finishedAt.Some? {
        corrected := corrected + multiset{Saved(sample.CorrectedLatency())};
        if sample.sentAt.Some? {
          service := service + multiset{Saved(sample.ServiceLatency())};
        }
      }
    }

    method Add(other: Aggregate)
      modifies this
      ensures Contents() == Plus(old(Contents()), old(other.Contents()))
      ensures details == AddCounts(old(details), old(other.details)) && kind == old(kind)
    {
      hide AddCounts, Plus;
      ghost var before, added := Contents(), other.Contents();
      AddHistograms(other);
      AddCounters(other);
      AddClasses(other);
      IsPlus(Contents(), before, added);
    }

    method AddHistograms(other: Aggregate)
      modifies this`corrected, this`service
      ensures corrected == old(corrected) + old(other.corrected) && service == old(service) + old(other.service)
    {
      corrected := corrected + other.corrected;
      service := service + other.service;
    }

    method AddCounters(other: Aggregate)
      modifies this`count, this`successes, this`bytes, this`messages
      ensures count == old(count) + old(other.count) && successes == old(successes) + old(other.successes)
      ensures bytes == old(bytes) + old(other.bytes) && messages == old(messages) + old(other.messages)
    {
      count := count + other.count;
      successes := successes + other.successes;
      bytes := bytes + other.bytes;
      messages := messages + other.messages;
    }

    method AddClasses(other: Aggregate)
      modifies this`errorsByClass, this`statusByCode, this`details
      ensures errorsByClass == AddCounts(old(errorsByClass), old(other.errorsByClass))
      ensures statusByCode == AddCounts(old(statusByCode), old(other.statusByCode))
      ensures details == AddCounts(old(details), old(other.details))
    {
      hide AddCounts;
      errorsByClass := AddCountsInto(errorsByClass, other.errorsByClass);
      statusByCode := AddCountsInto(statusByCode, other.statusByCode);
      details := AddCountsInto(details, other.details);
    }
  }

  // ----- Totals of many samples -----

  function TotalOfAll(samples: seq<Sample>): Totals {
    if samples == [] then Nothing else Plus(TotalOfAll(samples[..|samples| - 1]), TotalsOf(samples[|samples| - 1]))
  }

  function Of(steps: map<string, Totals>, name: string): Totals {
    if name in steps then steps[name] else Nothing
  }

  /** The aggregate of every step that has a sample. */
  function ByStep(samples: seq<Sample>): map<string, Totals> {
    if samples == [] then map[] else
    var steps, last := ByStep(samples[..|samples| - 1]), samples[|samples| - 1];
    steps[last.step := Plus(Of(steps, last.step), TotalsOf(last))]
  }

  function PlusSteps(a: map<string, Totals>, b: map<string, Totals>): map<string, Totals> {
    map k | k in a.Keys + b.Keys :: Plus(Of(a, k), Of(b, k))
  }

  lemma PlusStepsCommutes(a: map<string, Totals>, b: map<string, Totals>)
    ensures PlusSteps(a, b) == PlusSteps(b, a)
  {
    hide Plus;
    assert PlusSteps(a, b).Keys == PlusSteps(b, a).Keys;
    forall k | k in PlusSteps(a, b) ensures PlusSteps(a, b)[k] == PlusSteps(b, a)[k] {
      PlusCommutes(Of(a, k), Of(b, k));
    }
  }

  lemma PlusStepsAssociates(a: map<string, Totals>, b: map<string, Totals>, c: map<string, Totals>)
    ensures PlusSteps(PlusSteps(a, b), c) == PlusSteps(a, PlusSteps(b, c))
  {
    hide Plus;
    var l, r := PlusSteps(PlusSteps(a, b), c), PlusSteps(a, PlusSteps(b, c));
    assert l.Keys == r.Keys;
    forall k | k in l ensures l[k] == r[k] {
      OfPlus(a, b, k);
      OfPlus(b, c, k);
      PlusAssociates(Of(a, k), Of(b, k), Of(c, k));
    }
  }

  lemma OfPlus(a: map<string, Totals>, b: map<string, Totals>, k: string)
    ensures Of(PlusSteps(a, b), k) == Plus(Of(a, k), Of(b, k))
  {
    hide Plus;
    PlusUnit(Nothing);
  }

  lemma PlusStepsUnit(a: map<string, Totals>)
    ensures PlusSteps(a, map[]) == a && PlusSteps(map[], a) == a
  {
    hide Plus;
    assert PlusSteps(a, map[]).Keys == a.Keys && PlusSteps(map[], a).Keys == a.Keys;
    forall k | k in a ensures PlusSteps(a, map[])[k] == a[k] && PlusSteps(map[], a)[k] == a[k] {
      PlusUnit(a[k]);
    }
  }

  lemma RecordOneMore(a: map<string, Totals>, b: map<string, Totals>, name: string, x: Totals)
    ensures var sum := PlusSteps(a, b);
            sum[name := Plus(Of(sum, name), x)] == PlusSteps(a, b[name := Plus(Of(b, name), x)])
  {
    hide Plus;
    var sum, more := PlusSteps(a, b), b[name := Plus(Of(b, name), x)];
    var l, r := sum[name := Plus(Of(sum, name), x)], PlusSteps(a, more);
    assert l.Keys == r.Keys;
    OfPlus(a, b, name);
    PlusAssociates(Of(a, name), Of(b, name), x);
    forall k | k in l ensures l[k] == r[k] { }
  }

  /** Recording two lists one after the other adds their totals, step by step and overall. */
  lemma {:induction false} ByStepIsHomomorphic(a: seq<Sample>, b: seq<Sample>)
    ensures ByStep(a + b) == PlusSteps(ByStep(a), ByStep(b))
    ensures TotalOfAll(a + b) == Plus(TotalOfAll(a), TotalOfAll(b))
  {
    hide Plus, TotalsOf;
    if b == [] {
      assert a + b == a;
      PlusStepsUnit(ByStep(a));
      PlusUnit(TotalOfAll(a));
    } else {
      var init, last := b[..|b| - 1], b[|b| - 1];
      assert (a + b)[..|a + b| - 1] == a + init;
      ByStepIsHomomorphic(a, init);
      PlusAssociates(TotalOfAll(a), TotalOfAll(init), TotalsOf(last));
      RecordOneMore(ByStep(a), ByStep(init), last.step, TotalsOf(last));
    }
  }

  /** Totals do not depend on the order of the samples. */
  lemma {:induction false} ByStepIgnoresOrder(a: seq<Sample>, b: seq<Sample>)
    requires multiset(a) == multiset(b)
    ensures ByStep(a) == ByStep(b) && TotalOfAll(a) == TotalOfAll(b)
  {
    hide Plus, TotalsOf, ByStep, TotalOfAll;
    if a == [] {
      assert |multiset(b)| == 0;
    } else {
      var x, rest := a[|a| - 1], a[..|a| - 1];
      assert a == rest + [x];
      var before, after := TakeOne(a, b);
      ByStepIgnoresOrder(rest, before + after);
      ByStepIsHomomorphic(rest, [x]);
      ByStepIsHomomorphic(before, [x]);
      ByStepIsHomomorphic(before + [x], after);
      ByStepIsHomomorphic(before, after);
      Swap(ByStep(before), ByStep([x]), ByStep(after));
      SwapTotals(TotalOfAll(before), TotalOfAll([x]), TotalOfAll(after));
    }
  }

  lemma Swap(a: map<string, Totals>, b: map<string, Totals>, c: map<string, Totals>)
    ensures PlusSteps(PlusSteps(a, b), c) == PlusSteps(PlusSteps(a, c), b)
  {
    hide PlusSteps;
    PlusStepsAssociates(a, b, c);
    PlusStepsCommutes(b, c);
    PlusStepsAssociates(a, c, b);
  }

  lemma SwapTotals(a: Totals, b: Totals, c: Totals)
    ensures Plus(Plus(a, b), c) == Plus(Plus(a, c), b)
  {
    hide Plus;
    PlusAssociates(a, b, c);
    PlusCommutes(b, c);
    PlusAssociates(a, c, b);
  }

  // ----- The sum over the steps -----

  /** The steps added up one by one, in the order they are listed. */
  function SumOf(names: seq<string>, steps: map<string, Totals>): Totals {
    if names == [] then Nothing else Plus(SumOf(names[..|names| - 1], steps), Of(steps, names[|names| - 1]))
  }

  lemma {:induction false} SumOfUpdate(names: seq<string>, steps: map<string, Totals>, name: string, extra: Totals)
    requires Distinct(names)
    ensures SumOf(names, steps[name := Plus(Of(steps, name), extra)])
         == if name in names then Plus(SumOf(names, steps), extra) else SumOf(names, steps)
  {
    hide Plus;
    if names != [] {
      var init, last := names[..|names| - 1], names[|names| - 1];
      SumOfUpdate(init, steps, name, extra);
      assert last !in init;
      if last == name {
        PlusAssociates(SumOf(init, steps), Of(steps, name), extra);
      } else if name in init {
        SwapTotals(SumOf(init, steps), extra, Of(steps, last));
      }
    }
  }

  lemma {:induction false} SumOfNothing(names: seq<string>)
    ensures SumOf(names, map[]) == Nothing
  {
    if names != [] {
      SumOfNothing(names[..|names| - 1]);
      PlusUnit(Nothing);
    }
  }

  /** The overall total is the sum of the steps, whatever the order they are added in. */
  lemma {:induction false} OverallIsSumOfSteps(names: seq<string>, samples: seq<Sample>)
    requires Distinct(names)
    requires forall k :: 0 <= k < |samples| ==> samples[k].step in names
    ensures SumOf(names, ByStep(samples)) == TotalOfAll(samples)
  {
    hide Plus, TotalsOf;
    if samples == [] {
      SumOfNothing(names);
    } else {
      var init, last := samples[..|samples| - 1], samples[|samples| - 1];
      OverallIsSumOfSteps(names, init);
      SumOfUpdate(names, ByStep(init), last.step, TotalsOf(last));
    }
  }

  lemma {:induction false} EverySampleHasItsStep(samples: seq<Sample>, k: nat)
    requires k < |samples|
    ensures samples[k].step in ByStep(samples)
  {
    if k < |samples| - 1 {
      EverySampleHasItsStep(samples[..|samples| - 1], k);
    }
  }

  // ----- What an aggregate says about the samples of its step -----

  /** The samples of one step, in order. */
  function SamplesOf(samples: seq<Sample>, name: string): seq<Sample> {
    if samples == [] then [] else
    var before, last := SamplesOf(samples[..|samples| - 1], name), samples[|samples| - 1];
    if last.step == name then before + [last] else before
  }

  /** A step has an aggregate exactly when it has a sample, and the aggregate is the total of its
      own samples and of no others. */
  lemma {:induction false} AggregateIsOfItsOwn(samples: seq<Sample>, name: string)
    ensures Of(ByStep(samples), name) == TotalOfAll(SamplesOf(samples, name))
    ensures name in ByStep(samples) <==> SamplesOf(samples, name) != []
  {
    hide Plus, TotalsOf;
    if samples != [] { AggregateIsOfItsOwn(samples[..|samples| - 1], name); }
  }

  lemma {:induction false} OwnSamplesAre(samples: seq<Sample>, name: string, x: Sample)
    ensures x in SamplesOf(samples, name) <==> x in samples && x.step == name
  {
    if samples != [] {
      OwnSamplesAre(samples[..|samples| - 1], name, x);
      assert samples == samples[..|samples| - 1] + [samples[|samples| - 1]];
    }
  }

  function Succeeded(samples: seq<Sample>): nat {
    if samples == [] then 0
    else Succeeded(samples[..|samples| - 1]) + if samples[|samples| - 1].outcome == SuccessClass then 1 else 0
  }

  /** Every sample is counted once, and successes are the samples that succeeded. */
  lemma {:induction false} TotalsCount(samples: seq<Sample>)
    ensures TotalOfAll(samples).count == |samples| && TotalOfAll(samples).successes == Succeeded(samples)
  {
    hide AddCounts;
    if samples != [] { TotalsCount(samples[..|samples| - 1]); }
  }

  lemma {:induction false} SucceededMeansOne(samples: seq<Sample>)
    ensures Succeeded(samples) > 0 <==> exists x :: x in samples && x.outcome == SuccessClass
  {
    if samples != [] {
      var init, last := samples[..|samples| - 1], samples[|samples| - 1];
      SucceededMeansOne(init);
      assert samples == init + [last];
      assert last in samples;
    }
  }

  // ----- What the totals count, sample by sample -----

  /** The time from the scheduled instant to the end is saved as this many microseconds. */
  ghost function TookSinceScheduled(us: int): Sample -> bool {
    (x: Sample) => x.finishedAt.Some? && Saved(x.finishedAt.value - x.scheduledAt) == us
  }

  /** The time from sending to the end is. */
  ghost function TookSinceSent(us: int): Sample -> bool {
    (x: Sample) => x.finishedAt.Some? && x.sentAt.Some? && Saved(x.finishedAt.value - x.sentAt.value) == us
  }

  ghost function FailedAs(outcome: string): Sample -> bool {
    (x: Sample) => x.outcome != SuccessClass && x.outcome == outcome
  }

  ghost function HadStatus(code: int): Sample -> bool { (x: Sample) => x.status > 0 && x.status == code }

  ghost const BytesOf := (x: Sample) => x.bytes
  ghost const MessagesOf := (x: Sample) => x.messages

  lemma OneInTheHistograms(x: Sample, us: int)
    ensures TotalsOf(x).corrected[us] == if TookSinceScheduled(us)(x) then 1 else 0
    ensures TotalsOf(x).service[us] == if TookSinceSent(us)(x) then 1 else 0
  {
    hide Saved;
  }

  lemma PlusHistograms(a: Totals, b: Totals, us: int)
    ensures Plus(a, b).corrected[us] == a.corrected[us] + b.corrected[us]
    ensures Plus(a, b).service[us] == a.service[us] + b.service[us]
  {
    hide AddCounts;
  }

  /** Each latency histogram holds every finished sample once, under the time from its own instant. */
  lemma {:induction false} HistogramsCount(samples: seq<Sample>, us: int)
    ensures TotalOfAll(samples).corrected[us] == Tally(samples, TookSinceScheduled(us))
    ensures TotalOfAll(samples).service[us] == Tally(samples, TookSinceSent(us))
  {
    hide Plus, TotalsOf, TookSinceScheduled, TookSinceSent;
    if samples != [] {
      var init, last := samples[..|samples| - 1], samples[|samples| - 1];
      HistogramsCount(init, us);
      OneInTheHistograms(last, us);
      PlusHistograms(TotalOfAll(init), TotalsOf(last), us);
    }
  }

  /** The counter maps count failures by class and answers by status, and hold no other key. */
  lemma {:induction false} CountersCount(samples: seq<Sample>, outcome: string, code: int)
    ensures var t := TotalOfAll(samples);
            && At(t.errorsByClass, outcome) == Tally(samples, FailedAs(outcome))
            && At(t.statusByCode, code) == Tally(samples, HadStatus(code))
            && (outcome in t.errorsByClass <==> Tally(samples, FailedAs(outcome)) > 0)
            && (code in t.statusByCode <==> Tally(samples, HadStatus(code)) > 0)
  {
    hide Saved;
    if samples != [] { CountersCount(samples[..|samples| - 1], outcome, code); }
  }

  lemma {:induction false} SizesAddUp(samples: seq<Sample>)
    ensures TotalOfAll(samples).bytes == SumOver(samples, BytesOf)
    ensures TotalOfAll(samples).messages == SumOver(samples, MessagesOf)
  {
    hide AddCounts, Saved;
    if samples != [] { SizesAddUp(samples[..|samples| - 1]); }
  }

  ghost function FailedSaying(detail: string): Sample -> bool {
    (x: Sample) => x.outcome != SuccessClass && x.detail != "" && x.detail == detail
  }

  /** While there is room, the details count every failure that has one. */
  lemma {:induction false} DetailsCount(samples: seq<Sample>, detail: string)
    requires |DetailsOf(samples)| < 32
    ensures At(DetailsOf(samples), detail) == Tally(samples, FailedSaying(detail))
  {
    if samples != [] {
      var init, last := samples[..|samples| - 1], samples[|samples| - 1];
      var before, after := DetailsOf(init), DetailsOf(samples);
      assert before.Keys <= after.Keys;
      FewerKeys(before.Keys, after.Keys);
      DetailsCount(init, detail);
    }
  }

  lemma FewerKeys(a: set<string>, b: set<string>)
    requires a <= b
    ensures |a| <= |b|
  {
    if a != {} {
      var x :| x in a;
      FewerKeys(a - {x}, b - {x});
    }
  }
}
