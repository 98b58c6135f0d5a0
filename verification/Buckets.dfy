/** The collector's time series (internal/metrics/collector.go).

    Every dispatch and every sample falls into the bucket of the second it was scheduled in.  A
    bucket keeps a histogram while it can still receive samples; once it is a minute behind the
    newest one it is reduced to two quantiles, and later samples are only counted.  */
module Buckets {
  import opened Basics
  import opened Aggregates
  import Documents

  const BucketMs := 1000
  const RetentionMs := 60_000

  /** How the two quantiles of a bucket are read off its histogram. */
  type Reader = multiset<int> -> (real, real)

  /** A bucket's latencies: the histogram itself, or what is left of it.  `closedAfter` is history:
      how many events the collector had taken when the bucket was reduced. */
  datatype Latencies =
    | Open(values: multiset<int>)
    | Reduced(quantiles: (real, real), lateSamples: int, closedAfter: nat)

  datatype Bucket = Bucket(sent: int, completed: int, errors: int, targetRate: real, latencies: Latencies)

  const FreshBucket := Bucket(0, 0, 0, 0.0, Open(multiset{}))

  datatype Event =
    | Dispatched(scheduled: int, dispatch: int, targetRate: real, inflight: int)
    | Sampled(sample: Sample)

  datatype State = State(
    aggregates: map<string, Totals>, buckets: map<int, Bucket>, newest: int,
    sent: int, completed: int, lateDispatches: int, peakInflight: int, skew: multiset<int>, taken: nat)

  const Start := State(map[], map[], 0, 0, 0, 0, 0, multiset{}, 0)

  /** Start of the second an instant lies in, in milliseconds: Go's remainder has the sign of its
      left operand, so instants before the epoch round up. */
  function KeyOf(instant: int): int {
    var ms := instant / 1_000_000;
    if ms >= 0 then ms - ms % BucketMs else ms + (-ms) % BucketMs
  }

  function ReducedBucket(b: Bucket, now: nat, q: Reader): Bucket {
    match b.latencies
    case Reduced(_, _, _) => b
    case Open(values) => b.(latencies := Reduced(q(values), 0, now))
  }

  function ClosedBefore(buckets: map<int, Bucket>, limit: int, now: nat, q: Reader): map<int, Bucket> {
    map k | k in buckets :: if k < limit then ReducedBucket(buckets[k], now, q) else buckets[k]
  }

  /** bucketDe: the bucket of the instant exists, and a new newest bucket closes the old ones. */
  function WithBucket(s: State, key: int, q: Reader): State {
    var buckets := if key in s.buckets then s.buckets else s.buckets[key := FreshBucket];
    if key > s.newest
    then s.(newest := key, buckets := ClosedBefore(buckets, key - RetentionMs, s.taken, q))
    else s.(buckets := buckets)
  }

  function Dispatch(b: Bucket, targetRate: real): Bucket { b.(sent := b.sent + 1, targetRate := targetRate) }

  function Save(l: Latencies, sample: Sample): Latencies {
    if sample.finishedAt.None? then l else
    match l
    case Open(values) => Open(values + multiset{Saved(sample.CorrectedLatency())})
    case Reduced(_, late, _) => l.(lateSamples := late + 1)
  }

  function Complete(b: Bucket, sample: Sample): Bucket {
    b.(completed := b.completed + 1, errors := b.errors + (if sample.outcome == SuccessClass then 0 else 1),
       latencies := Save(b.latencies, sample))
  }

  function EventKey(e: Event): int {
    match e
    case Dispatched(scheduled, _, _, _) => KeyOf(scheduled)
    case Sampled(sample) => KeyOf(sample.scheduledAt)
  }

  function After(s: State, e: Event, threshold: int, q: Reader): State {
    var key := EventKey(e);
    var t := WithBucket(s, key, q).(taken := s.taken + 1);
    match e
    case Dispatched(scheduled, dispatch, targetRate, inflight) =>
      t.(sent := s.sent + 1,
         peakInflight := if inflight > s.peakInflight then inflight else s.peakInflight,
         skew := s.skew + multiset{Documents.Skew(dispatch - scheduled)},
         lateDispatches := s.lateDispatches + (if dispatch - scheduled > threshold then 1 else 0),
         buckets := t.buckets[key := Dispatch(t.buckets[key], targetRate)])
    case Sampled(sample) =>
      t.(completed := s.completed + 1,
         aggregates := s.aggregates[sample.step := Plus(Of(s.aggregates, sample.step), TotalsOf(sample))],
         buckets := t.buckets[key := Complete(t.buckets[key], sample)])
  }

  function Run(events: seq<Event>, threshold: int, q: Reader): State {
    if events == [] then Start
    else After(Run(events[..|events| - 1], threshold, q), events[|events| - 1], threshold, q)
  }

  class Collector {
    const threshold: int
    const q: Reader
    var aggregates: map<string, Totals>
    var buckets: map<int, Bucket>
    var newestBucketMs: int
    var sent: int
    var completed: int
    var lateDispatches: int
    var peakInflight: int
    var schedulingSkew: multiset<int>
    var taken: nat

    ghost function Contents(): State
      reads this
    {
      State(aggregates, buckets, newestBucketMs, sent, completed, lateDispatches, peakInflight, schedulingSkew, taken)
    }

    constructor (threshold: int, q: Reader)
      ensures Contents() == Start && this.threshold == threshold && this.q == q
    {
      this.threshold, this.q := threshold, q;
      aggregates, buckets, newestBucketMs := map[], map[], 0;
      sent, completed, lateDispatches, peakInflight, taken, schedulingSkew := 0, 0, 0, 0, 0, multiset{};
    }

    method BucketOf(key: int)
      modifies this
      ensures Contents() == WithBucket(old(Contents()), key, q)
    {
      hide ClosedBefore;
      if key !in buckets {
        buckets := buckets[key := FreshBucket];
      }
      if key > newestBucketMs {
        newestBucketMs := key;
        var closed := CloseBucketsBefore(buckets, key - RetentionMs, taken, q);
        buckets := closed;
      }
    }

    method Apply(sample: Sample)
      modifies this
      ensures Contents() == After(old(Contents()), Sampled(sample), threshold, q)
    {
      hide WithBucket, Plus, TotalsOf, KeyOf, Complete;
      var before := if sample.step in aggregates then aggregates[sample.step] else Nothing;
      var recorded := Plus(before, TotalsOf(sample));
      var key := KeyOf(sample.scheduledAt);
      ghost var s := Contents();
      WithBucketHas(s, key, q);
      BucketOf(key);
      aggregates := aggregates[sample.step := recorded];
      completed := completed + 1;
      buckets := buckets[key := Complete(buckets[key], sample)];
      taken := taken + 1;
    }

    method RecordDispatch(scheduled: int, dispatch: int, targetRate: real, inflight: int)
      modifies this
      ensures Contents() == After(old(Contents()), Dispatched(scheduled, dispatch, targetRate, inflight), threshold, q)
    {
      var key := KeyOf(scheduled);
      ghost var s := Contents();
      WithBucketHas(s, key, q);
      ghost var t := WithBucket(s, key, q);
      AfterDispatch(s, scheduled, dispatch, targetRate, inflight, threshold, q);
      hide WithBucket, KeyOf, Documents.Skew, Dispatch, After;
      BucketOf(key);
      CountDispatch(dispatch - scheduled, inflight);
      buckets := buckets[key := Dispatch(buckets[key], targetRate)];
      taken := taken + 1;
    }

    /** The counters of a dispatch that went out this much after its instant. */
    method CountDispatch(delay: int, inflight: int)
      modifies this`sent, this`peakInflight, this`schedulingSkew, this`lateDispatches
      ensures sent == old(sent) + 1
      ensures peakInflight == if inflight > old(peakInflight) then inflight else old(peakInflight)
      ensures schedulingSkew == old(schedulingSkew) + multiset{Documents.Skew(delay)}
      ensures lateDispatches == old(lateDispatches) + if delay > threshold then 1 else 0
    {
      sent := sent + 1;
      if inflight > peakInflight {
        peakInflight := inflight;
      }
      if delay > 0 {
        schedulingSkew := schedulingSkew + multiset{Saved(delay)};
      } else {
        schedulingSkew := schedulingSkew + multiset{MinLatencyUs};
      }
      if delay > threshold {
        lateDispatches := lateDispatches + 1;
      }
    }

    /** Ends the series: every bucket still open is reduced. */
    method Close()
      modifies this
      ensures Contents() == old(Contents()).(buckets := AllClosed(old(buckets), old(taken), q))
    {
      var left := buckets.Keys;
      ghost var was := buckets;
      while left != {}
        invariant left <= was.Keys && buckets.Keys == was.Keys
        invariant forall k :: k in was ==> buckets[k] == if k in left then was[k] else ReducedBucket(was[k], taken, q)
        invariant Contents() == old(Contents()).(buckets := buckets)
        decreases left
      {
        var k := AnyOf(left);
        var reduced := CloseBucket(buckets[k], taken, q);
        buckets := buckets[k := reduced];
        left := left - {k};
      }
      assert buckets.Keys == AllClosed(was, taken, q).Keys;
      assert forall k :: k in was ==> buckets[k] == AllClosed(was, taken, q)[k];
    }
  }

  /** The whole new state after a dispatch, field by field. */
  lemma AfterDispatch(s: State, scheduled: int, dispatch: int, targetRate: real, inflight: int,
                      threshold: int, q: Reader)
    ensures var key := KeyOf(scheduled);
            var t := WithBucket(s, key, q);
            && key in t.buckets
            && After(s, Dispatched(scheduled, dispatch, targetRate, inflight), threshold, q)
               == State(s.aggregates, t.buckets[key := Dispatch(t.buckets[key], targetRate)], t.newest, s.sent + 1,
                        s.completed, s.lateDispatches + (if dispatch - scheduled > threshold then 1 else 0),
                        if inflight > s.peakInflight then inflight else s.peakInflight,
                        s.skew + multiset{Documents.Skew(dispatch - scheduled)}, s.taken + 1)
  {
    hide KeyOf, Documents.Skew, Dispatch, Plus, TotalsOf, Complete, ClosedBefore;
    WithBucketHas(s, KeyOf(scheduled), q);
  }

  function AllClosed(buckets: map<int, Bucket>, now: nat, q: Reader): map<int, Bucket> {
    map k | k in buckets :: ReducedBucket(buckets[k], now, q)
  }

  method CloseBucket(b: Bucket, now: nat, q: Reader) returns (r: Bucket)
    ensures r == ReducedBucket(b, now, q)
  {
    if b.latencies.Reduced? {
      return b;
    }
    r := b.(latencies := Reduced(q(b.latencies.values), 0, now));
  }

  method CloseBucketsBefore(buckets: map<int, Bucket>, limit: int, now: nat, q: Reader) returns (r: map<int, Bucket>)
    ensures r == ClosedBefore(buckets, limit, now, q)
  {
    r := buckets;
    var left := buckets.Keys;
    while left != {}
      invariant left <= buckets.Keys && r.Keys == buckets.Keys
      invariant forall k :: k in buckets ==>
          r[k] == if k in left || k >= limit then buckets[k] else ReducedBucket(buckets[k], now, q)
      decreases left
    {
      var k := AnyOf(left);
      if k < limit {
        var reduced := CloseBucket(r[k], now, q);
        r := r[k := reduced];
      }
      left := left - {k};
    }
  }

  /** Go's map iteration takes the keys in no particular order. */
  method AnyOf<T>(s: set<T>) returns (x: T)
    requires s != {}
    ensures x in s
  {
    x :| x in s;
  }

  ghost function Member<T>(s: set<T>): T
    requires s != {}
    ensures Member(s) in s
  {
    var x :| x in s;
    x
  }

  lemma WithBucketHas(s: State, key: int, q: Reader)
    ensures key in WithBucket(s, key, q).buckets
    ensures var t := WithBucket(s, key, q); t == s.(newest := t.newest, buckets := t.buckets)
  {
  }

  // ----- Sums over buckets -----

  ghost function Sum(m: map<int, int>): int {
    if m.Keys == {} then 0 else
    var k := Member(m.Keys);
    m[k] + Sum(m - {k})
  }

  /** The sum does not depend on which key is taken first. */
  lemma {:induction false} SumTakesAny(m: map<int, int>, k: int)
    requires k in m
    ensures Sum(m) == m[k] + Sum(m - {k})
    decreases m.Keys
  {
    var j := Member(m.Keys);
    if j != k {
      var a, b := m - {j}, m - {k};
      assert a.Keys == m.Keys - {j} && b.Keys == m.Keys - {k};
      SumTakesAny(a, k);
      SumTakesAny(b, j);
      WithoutBoth(m, j, k);
    }
  }

  lemma WithoutBoth(m: map<int, int>, j: int, k: int)
    ensures m - {j} - {k} == m - {k} - {j}
  {
  }

  lemma SumUpdate(m: map<int, int>, k: int, v: int)
    ensures Sum(m[k := v]) == Sum(m) - (if k in m then m[k] else 0) + v
  {
    var n := m[k := v];
    SumTakesAny(n, k);
    if k in m {
      SumTakesAny(m, k);
      assert n - {k} == m - {k};
    } else {
      assert n - {k} == m;
    }
  }

  function Sent(buckets: map<int, Bucket>): map<int, int> { map k | k in buckets :: buckets[k].sent }
  function Completed(buckets: map<int, Bucket>): map<int, int> { map k | k in buckets :: buckets[k].completed }
  function Errors(buckets: map<int, Bucket>): map<int, int> { map k | k in buckets :: buckets[k].errors }

  lemma ProjectUpdate(buckets: map<int, Bucket>, k: int, b: Bucket)
    ensures Sent(buckets[k := b]) == Sent(buckets)[k := b.sent]
    ensures Completed(buckets[k := b]) == Completed(buckets)[k := b.completed]
    ensures Errors(buckets[k := b]) == Errors(buckets)[k := b.errors]
  {
    var m := buckets[k := b];
    assert m.Keys == buckets.Keys + {k};
    assert Sent(m).Keys == m.Keys && Completed(m).Keys == m.Keys && Errors(m).Keys == m.Keys;
  }

  lemma ClosingKeepsCounts(buckets: map<int, Bucket>, limit: int, now: nat, q: Reader)
    ensures var r := ClosedBefore(buckets, limit, now, q);
            Sent(r) == Sent(buckets) && Completed(r) == Completed(buckets) && Errors(r) == Errors(buckets)
  {
    var r := ClosedBefore(buckets, limit, now, q);
    assert r.Keys == buckets.Keys;
    assert Sent(r).Keys == Sent(buckets).Keys && Completed(r).Keys == Completed(buckets).Keys;
    assert Errors(r).Keys == Errors(buckets).Keys;
    assert forall k :: k in buckets ==> r[k].sent == buckets[k].sent && r[k].completed == buckets[k].completed
                                        && r[k].errors == buckets[k].errors;
  }

  /** What the buckets add up to. */
  ghost function Added(buckets: map<int, Bucket>): (int, int, int) {
    (Sum(Sent(buckets)), Sum(Completed(buckets)), Sum(Errors(buckets)))
  }

  lemma AddedUpdate(buckets: map<int, Bucket>, k: int, b: Bucket)
    ensures var was := if k in buckets then buckets[k] else FreshBucket;
            var before := Added(buckets);
            Added(buckets[k := b]) == (before.0 - was.sent + b.sent, before.1 - was.completed + b.completed,
                                       before.2 - was.errors + b.errors)
  {
    ProjectUpdate(buckets, k, b);
    SumUpdate(Sent(buckets), k, b.sent);
    SumUpdate(Completed(buckets), k, b.completed);
    SumUpdate(Errors(buckets), k, b.errors);
  }

  lemma OpeningKeepsSums(s: State, key: int, q: Reader)
    ensures Added(WithBucket(s, key, q).buckets) == Added(s.buckets)
    ensures key in WithBucket(s, key, q).buckets
  {
    hide Added, ClosedBefore;
    var buckets := if key in s.buckets then s.buckets else s.buckets[key := FreshBucket];
    if key !in s.buckets { AddedUpdate(s.buckets, key, FreshBucket); }
    ClosingKeepsAdded(buckets, key - RetentionMs, s.taken, q);
    WithBucketHas(s, key, q);
  }

  lemma ClosingKeepsAdded(buckets: map<int, Bucket>, limit: int, now: nat, q: Reader)
    ensures Added(ClosedBefore(buckets, limit, now, q)) == Added(buckets)
  {
    ClosingKeepsCounts(buckets, limit, now, q);
  }

  // ----- Accounts over every sequence of events -----

  ghost function SamplesIn(events: seq<Event>): seq<Sample> {
    if events == [] then [] else
    var before, last := SamplesIn(events[..|events| - 1]), events[|events| - 1];
    if last.Sampled? then before + [last.sample] else before
  }

  /** How long after its scheduled instant each dispatch went out. */
  ghost function DelaysIn(events: seq<Event>): seq<int> {
    if events == [] then [] else
    var before, last := DelaysIn(events[..|events| - 1]), events[|events| - 1];
    if last.Dispatched? then before + [last.dispatch - last.scheduled] else before
  }

  lemma StepAccounts(s: State, e: Event, threshold: int, q: Reader)
    ensures var t, before := After(s, e, threshold, q), Added(s.buckets);
            && t.taken == s.taken + 1
            && t.sent == s.sent + (if e.Dispatched? then 1 else 0)
            && t.completed == s.completed + (if e.Sampled? then 1 else 0)
            && Added(t.buckets) ==
                 if e.Dispatched? then (before.0 + 1, before.1, before.2)
                 else (before.0, before.1 + 1, before.2 + if e.sample.outcome == SuccessClass then 0 else 1)
  {
    hide WithBucket, Added, KeyOf, Plus, TotalsOf, Save;
    var key := EventKey(e);
    var t := WithBucket(s, key, q);
    OpeningKeepsSums(s, key, q);
    WithBucketHas(s, key, q);
    AddedUpdate(t.buckets, key,
                if e.Dispatched? then Dispatch(t.buckets[key], e.targetRate) else Complete(t.buckets[key], e.sample));
  }

  /** Every dispatch and every sample is in exactly one bucket: what the buckets say was sent,
      completed and failed adds up to the collector's own counters and to the step aggregates. */
  lemma {:induction false} BucketsAddUp(events: seq<Event>, threshold: int, q: Reader)
    ensures var s, samples := Run(events, threshold, q), SamplesIn(events);
            && s.taken == |events|
            && s.sent == |DelaysIn(events)| && s.completed == |samples|
            && s.aggregates == ByStep(samples)
            && Added(s.buckets) == (s.sent, s.completed, TotalOfAll(samples).Errors())
            && TotalOfAll(samples).count == s.completed
  {
    hide Added, Plus, TotalsOf, After, ByStep, TotalOfAll;
    NoSamples();
    if events == [] {
      NothingAdded();
    } else {
      var init, last := events[..|events| - 1], events[|events| - 1];
      BucketsAddUp(init, threshold, q);
      StepAccounts(Run(init, threshold, q), last, threshold, q);
      StepAggregates(Run(init, threshold, q), last, threshold, q);
      if last.Sampled? {
        OneMoreSample(SamplesIn(init), last.sample);
      }
    }
  }

  lemma StepDispatches(s: State, e: Event, threshold: int, q: Reader)
    ensures var t := After(s, e, threshold, q);
            && t.lateDispatches == s.lateDispatches
                 + (if e.Dispatched? && e.dispatch - e.scheduled > threshold then 1 else 0)
            && t.peakInflight == (if e.Dispatched? && e.inflight > s.peakInflight then e.inflight else s.peakInflight)
            && t.skew == s.skew
                 + if e.Dispatched? then multiset{Documents.Skew(e.dispatch - e.scheduled)} else multiset{}
  {
    hide WithBucket, Plus, TotalsOf, KeyOf;
    WithBucketHas(s, EventKey(e), q);
  }

  lemma {:induction false} DelaysAreCounted(events: seq<Event>, threshold: int, q: Reader)
    ensures var s := Run(events, threshold, q);
            && s.lateDispatches == Documents.Late(DelaysIn(events), threshold)
            && s.skew == Documents.Skews(DelaysIn(events))
  {
    hide After, Documents.Skew;
    if events != [] {
      var init, last := events[..|events| - 1], events[|events| - 1];
      DelaysAreCounted(init, threshold, q);
      StepDispatches(Run(init, threshold, q), last, threshold, q);
      if last.Dispatched? { assert DelaysIn(events)[..|DelaysIn(init)|] == DelaysIn(init); }
    }
  }

  lemma {:induction false} PeakIsSeen(events: seq<Event>, threshold: int, q: Reader)
    ensures var s := Run(events, threshold, q);
            && (forall e :: e in events && e.Dispatched? ==> e.inflight <= s.peakInflight)
            && (s.peakInflight == 0 || exists e :: e in events && e.Dispatched? && e.inflight == s.peakInflight)
  {
    hide After, Documents.Skew;
    if events != [] {
      var init, last := events[..|events| - 1], events[|events| - 1];
      PeakIsSeen(init, threshold, q);
      StepDispatches(Run(init, threshold, q), last, threshold, q);
      assert events == init + [last];
    }
  }

  /** Late dispatches are those past the threshold, the skew holds every delay, and the peak is the
      largest number in flight any dispatch saw. */
  lemma {:induction false} DispatchesAreCounted(events: seq<Event>, threshold: int, q: Reader)
    ensures var s := Run(events, threshold, q);
            && s.lateDispatches == Documents.Late(DelaysIn(events), threshold)
            && s.skew == Documents.Skews(DelaysIn(events))
            && (forall e :: e in events && e.Dispatched? ==> e.inflight <= s.peakInflight)
            && (s.peakInflight == 0 || exists e :: e in events && e.Dispatched? && e.inflight == s.peakInflight)
  {
    hide Run, DelaysIn, Documents.Late, Documents.Skews;
    DelaysAreCounted(events, threshold, q);
    PeakIsSeen(events, threshold, q);
  }

  lemma NothingAdded()
    ensures Added(map[]) == (0, 0, 0)
  {
    assert Sent(map[]).Keys == {} && Completed(map[]).Keys == {} && Errors(map[]).Keys == {};
  }

  lemma NoSamples()
    ensures ByStep([]) == map[] && TotalOfAll([]) == Nothing
  {
  }

  lemma OneMoreSample(samples: seq<Sample>, x: Sample)
    ensures var more, t := samples + [x], TotalOfAll(samples);
            && ByStep(more) == ByStep(samples)[x.step := Plus(Of(ByStep(samples), x.step), TotalsOf(x))]
            && TotalOfAll(more).count == t.count + 1
            && TotalOfAll(more).Errors() == t.Errors() + if x.outcome == SuccessClass then 0 else 1
  {
    assert (samples + [x])[..|samples|] == samples;
  }

  lemma StepAggregates(s: State, e: Event, threshold: int, q: Reader)
    ensures After(s, e, threshold, q).aggregates ==
              if e.Sampled?
              then s.aggregates[e.sample.step := Plus(Of(s.aggregates, e.sample.step), TotalsOf(e.sample))]
              else s.aggregates
  {
    hide WithBucket, Plus, TotalsOf, KeyOf;
    WithBucketHas(s, EventKey(e), q);
  }

  // ----- What each bucket counts -----

  ghost function SentIn(key: int): Event -> bool { (e: Event) => e.Dispatched? && KeyOf(e.scheduled) == key }

  ghost function CompletedIn(key: int): Event -> bool {
    (e: Event) => e.Sampled? && KeyOf(e.sample.scheduledAt) == key
  }

  ghost function FailedIn(key: int): Event -> bool {
    (e: Event) => e.Sampled? && KeyOf(e.sample.scheduledAt) == key && e.sample.outcome != SuccessClass
  }

  ghost predicate CountsAre(s: State, k: int, sent: int, completed: int, errors: int) {
    if k in s.buckets
    then s.buckets[k].sent == sent && s.buckets[k].completed == completed && s.buckets[k].errors == errors
    else sent == 0 && completed == 0 && errors == 0
  }

  lemma StepCounts(s: State, e: Event, threshold: int, q: Reader, k: int, sent: int, completed: int, errors: int)
    requires CountsAre(s, k, sent, completed, errors)
    ensures CountsAre(After(s, e, threshold, q), k,
                      sent + (if SentIn(k)(e) then 1 else 0),
                      completed + (if CompletedIn(k)(e) then 1 else 0),
                      errors + (if FailedIn(k)(e) then 1 else 0))
  {
    hide KeyOf, Plus, TotalsOf, Save;
  }

  /** Every bucket counts exactly the dispatches and samples scheduled in its second; a second without
      any has no bucket, or one that counts nothing. */
  lemma {:induction false} EachBucketCountsItsSecond(events: seq<Event>, threshold: int, q: Reader, k: int)
    ensures CountsAre(Run(events, threshold, q), k,
                      Tally(events, SentIn(k)), Tally(events, CompletedIn(k)), Tally(events, FailedIn(k)))
  {
    hide After, SentIn, CompletedIn, FailedIn;
    if events != [] {
      var init, last := events[..|events| - 1], events[|events| - 1];
      EachBucketCountsItsSecond(init, threshold, q, k);
      StepCounts(Run(init, threshold, q), last, threshold, q, k,
                 Tally(init, SentIn(k)), Tally(init, CompletedIn(k)), Tally(init, FailedIn(k)));
    }
  }

  /** A bucket's target rate is that of the last dispatch into it. */
  lemma {:induction false} TargetRateIsTheLast(s: State, e: Event, threshold: int, q: Reader, k: int)
    ensures var t := After(s, e, threshold, q);
            && (SentIn(k)(e) ==> k in t.buckets && t.buckets[k].targetRate == e.targetRate)
            && (!SentIn(k)(e) && k in s.buckets ==>
                  k in t.buckets && t.buckets[k].targetRate == s.buckets[k].targetRate)
  {
    hide KeyOf, Plus, TotalsOf, Save;
  }

  // ----- Quantiles and late samples -----

  /** The latencies of the finished samples of one bucket, in these events. */
  ghost function SavesOf(events: seq<Event>, key: int): multiset<int> {
    if events == [] then multiset{} else
    var before, last := SavesOf(events[..|events| - 1], key), events[|events| - 1];
    if last.Sampled? && EventKey(last) == key && last.sample.finishedAt.Some?
    then before + multiset{Saved(last.sample.CorrectedLatency())}
    else before
  }

  /** An open bucket holds every finished sample so far.  A reduced one holds the quantiles of
      exactly those that came before the event that closed it, which opened a bucket more than a
      minute ahead, and the number of those that came after. */
  ghost predicate LatenciesOk(l: Latencies, key: int, events: seq<Event>, q: Reader) {
    match l
    case Open(values) => values == SavesOf(events, key)
    case Reduced(quantiles, late, n) =>
      && n < |events| && EventKey(events[n]) > key + RetentionMs
      && quantiles == q(SavesOf(events[..n], key))
      && late == |SavesOf(events[n..], key)|
  }

  ghost predicate SeriesOk(s: State, events: seq<Event>, q: Reader) {
    && s.taken == |events|
    && (forall k :: k in s.buckets ==> LatenciesOk(s.buckets[k].latencies, k, events, q))
    && (forall k :: k !in s.buckets ==> SavesOf(events, k) == multiset{})
  }

  lemma OtherBucketsStay(l: Latencies, key: int, events: seq<Event>, e: Event, q: Reader)
    requires LatenciesOk(l, key, events, q) && EventKey(e) != key
    ensures LatenciesOk(l, key, events + [e], q)
  {
    var more := events + [e];
    assert more[..|events|] == events;
    if l.Reduced? {
      var n := l.closedAfter;
      assert more[..n] == events[..n] && more[n..] == events[n..] + [e];
      assert more[n..][..|more[n..]| - 1] == events[n..];
    }
  }

  lemma ClosingIsOk(b: Bucket, key: int, events: seq<Event>, e: Event, q: Reader)
    requires LatenciesOk(b.latencies, key, events, q) && EventKey(e) > key + RetentionMs
    ensures LatenciesOk(ReducedBucket(b, |events|, q).latencies, key, events + [e], q)
  {
    hide EventKey;
    if b.latencies.Reduced? {
      OtherBucketsStay(b.latencies, key, events, e, q);
    } else {
      var more := events + [e];
      assert more[..|events|] == events && more[|events|..] == [e];
      assert [e][..0] == [];
      assert SavesOf([e], key) == multiset{};
    }
  }

  /** What one more event adds to the latencies of a bucket. */
  lemma OneMoreSave(events: seq<Event>, e: Event, key: int)
    ensures SavesOf(events + [e], key)
         == if e.Sampled? && EventKey(e) == key && e.sample.finishedAt.Some?
            then SavesOf(events, key) + multiset{Saved(e.sample.CorrectedLatency())} else SavesOf(events, key)
  {
    assert (events + [e])[..|events|] == events;
  }

  lemma SavingIsOk(l: Latencies, key: int, events: seq<Event>, e: Event, q: Reader)
    requires LatenciesOk(l, key, events, q) && EventKey(e) == key
    ensures LatenciesOk(if e.Sampled? then Save(l, e.sample) else l, key, events + [e], q)
  {
    var more := events + [e];
    if l.Reduced? {
      var n := l.closedAfter;
      assert more[..n] == events[..n] && more[n..] == events[n..] + [e];
      OneMoreSave(events[n..], e, key);
    } else {
      OneMoreSave(events, e, key);
    }
    hide EventKey, Saved, SavesOf;
  }

  lemma StepLatencies(s: State, events: seq<Event>, e: Event, threshold: int, q: Reader, k: int)
    requires SeriesOk(s, events, q) && k in After(s, e, threshold, q).buckets
    ensures LatenciesOk(After(s, e, threshold, q).buckets[k].latencies, k, events + [e], q)
  {
    hide Plus, TotalsOf, EventKey, LatenciesOk, Save;
    var key := EventKey(e);
    if k == key {
      var was := if key in s.buckets then s.buckets[key] else FreshBucket;
      if key !in s.buckets { FreshIsOk(key, events, q); }
      SavingIsOk(was.latencies, key, events, e, q);
    } else if key > s.newest && k < key - RetentionMs {
      ClosingIsOk(s.buckets[k], k, events, e, q);
    } else {
      OtherBucketsStay(s.buckets[k].latencies, k, events, e, q);
    }
  }

  lemma FreshIsOk(key: int, events: seq<Event>, q: Reader)
    requires SavesOf(events, key) == multiset{}
    ensures LatenciesOk(FreshBucket.latencies, key, events, q)
  {
  }

  lemma {:induction false} SeriesIsExact(events: seq<Event>, threshold: int, q: Reader)
    ensures SeriesOk(Run(events, threshold, q), events, q)
  {
    hide After, LatenciesOk;
    if events != [] {
      var init, last := events[..|events| - 1], events[|events| - 1];
      var s, t := Run(init, threshold, q), Run(events, threshold, q);
      SeriesIsExact(init, threshold, q);
      assert init + [last] == events;
      StepAccounts(s, last, threshold, q);
      forall k | k in t.buckets ensures LatenciesOk(t.buckets[k].latencies, k, events, q) {
        StepLatencies(s, init, last, threshold, q, k);
      }
      forall k | k !in t.buckets ensures SavesOf(events, k) == multiset{} {
        BucketsStay(s, last, threshold, q, k);
      }
    }
  }

  /** A bucket never goes away, the one of the event exists, and what was reduced stays as it was
      up to its count of late samples. */
  lemma BucketsStay(s: State, e: Event, threshold: int, q: Reader, k: int)
    ensures EventKey(e) in After(s, e, threshold, q).buckets
    ensures k in s.buckets ==> k in After(s, e, threshold, q).buckets
    ensures k in s.buckets && s.buckets[k].latencies.Reduced? ==>
              var was, after := s.buckets[k].latencies, After(s, e, threshold, q).buckets[k].latencies;
              after.Reduced? && after.quantiles == was.quantiles && after.closedAfter == was.closedAfter
  {
    hide Plus, TotalsOf, KeyOf;
  }

  /** Once a bucket is reduced its quantiles never change, whatever comes later. */
  lemma {:induction false} ReducedForGood(events: seq<Event>, more: seq<Event>, threshold: int, q: Reader, k: int)
    requires k in Run(events, threshold, q).buckets && Run(events, threshold, q).buckets[k].latencies.Reduced?
    ensures k in Run(events + more, threshold, q).buckets
    ensures var was, after := Run(events, threshold, q).buckets[k].latencies,
                              Run(events + more, threshold, q).buckets[k].latencies;
            after.Reduced? && after.quantiles == was.quantiles && after.closedAfter == was.closedAfter
  {
    hide After;
    if more == [] {
      assert events + more == events;
    } else {
      var all, fewer := events + more, more[..|more| - 1];
      assert all[..|all| - 1] == events + fewer;
      ReducedForGood(events, fewer, threshold, q, k);
      BucketsStay(Run(events + fewer, threshold, q), more[|more| - 1], threshold, q, k);
    }
  }

  lemma NewestAfter(s: State, e: Event, threshold: int, q: Reader)
    ensures After(s, e, threshold, q).newest == if EventKey(e) > s.newest then EventKey(e) else s.newest
  {
    hide KeyOf, Plus, TotalsOf, ClosedBefore;
  }

  lemma {:induction false} NewestIsLatest(events: seq<Event>, threshold: int, q: Reader, i: nat)
    requires i < |events|
    ensures EventKey(events[i]) <= Run(events, threshold, q).newest
  {
    hide After, EventKey;
    var init, last := events[..|events| - 1], events[|events| - 1];
    NewestAfter(Run(init, threshold, q), last, threshold, q);
    if i < |init| { NewestIsLatest(init, threshold, q, i); }
  }

  /** A bucket up to a minute behind the newest is still open, so a sample scheduled in the last minute is
      never late. */
  lemma {:induction false} TheLastMinuteIsOpen(events: seq<Event>, threshold: int, q: Reader, k: int)
    requires k in Run(events, threshold, q).buckets && k >= Run(events, threshold, q).newest - 60_000
    ensures Run(events, threshold, q).buckets[k].latencies.Open?
  {
    SeriesIsExact(events, threshold, q);
    var l := Run(events, threshold, q).buckets[k].latencies;
    assert LatenciesOk(l, k, events, q);
    hide Run;
    if l.Reduced? { NewestIsLatest(events, threshold, q, l.closedAfter); }
  }

  /** After Close nothing is open: every bucket has the quantiles of its finished samples, those
      before it was closed, and late samples are all the others. */
  lemma {:induction false} ClosedSeries(events: seq<Event>, threshold: int, q: Reader, k: int)
    requires k in Run(events, threshold, q).buckets
    ensures var l := AllClosed(Run(events, threshold, q).buckets, |events|, q)[k].latencies;
            && l.Reduced? && l.closedAfter <= |events|
            && l.quantiles == q(SavesOf(events[..l.closedAfter], k))
            && l.lateSamples == |SavesOf(events[l.closedAfter..], k)|
  {
    SeriesIsExact(events, threshold, q);
    assert events[..|events|] == events && events[|events|..] == [];
  }

  // ----- How many histograms are open -----

  ghost function OpenKeys(s: State): set<int> {
    set k | k in s.buckets && s.buckets[k].latencies.Open?
  }

  ghost predicate KeysOk(s: State) {
    && s.newest % BucketMs == 0
    && forall k :: k in s.buckets ==> k <= s.newest && k % BucketMs == 0
  }

  /** The bucket of an instant is that of the second it lies in, rounded toward the epoch. */
  lemma {:induction false} KeyIsTheSecond(instant: int)
    ensures var ms := instant / 1_000_000;
            && (ms >= 0 ==> KeyOf(instant) <= ms < KeyOf(instant) + 1000)
            && (ms < 0 ==> KeyOf(instant) - 1000 < ms <= KeyOf(instant))
    ensures KeyOf(instant) % 1000 == 0
  {
    KeysAreWhole(instant);
  }

  lemma KeysAreWhole(instant: int)
    ensures KeyOf(instant) % BucketMs == 0
  {
    var ms := instant / 1_000_000;
    if ms >= 0 {
      assert ms - ms % BucketMs == BucketMs * (ms / BucketMs);
    } else {
      assert ms + (-ms) % BucketMs == -(BucketMs * ((-ms) / BucketMs));
    }
  }

  lemma StepKeys(s: State, e: Event, threshold: int, q: Reader)
    requires KeysOk(s)
    ensures KeysOk(After(s, e, threshold, q))
  {
    hide KeyOf, Plus, TotalsOf, Save;
    match e
    case Dispatched(scheduled, _, _, _) => KeysAreWhole(scheduled);
    case Sampled(sample) => KeysAreWhole(sample.scheduledAt);
  }

  lemma {:induction false} RunKeys(events: seq<Event>, threshold: int, q: Reader)
    ensures KeysOk(Run(events, threshold, q))
  {
    hide After, KeysOk;
    if events != [] {
      RunKeys(events[..|events| - 1], threshold, q);
      StepKeys(Run(events[..|events| - 1], threshold, q), events[|events| - 1], threshold, q);
    } else {
      StartKeys();
    }
  }

  lemma StartKeys()
    ensures KeysOk(Start)
  {
  }

  /** Whole seconds within n seconds of the newest one: at most n + 1 of them. */
  lemma {:induction false} SecondsWithin(keys: set<int>, newest: int, n: nat)
    requires newest % BucketMs == 0
    requires forall k :: k in keys ==> newest - n * BucketMs <= k <= newest && k % BucketMs == 0
    ensures |keys| <= n + 1
  {
    if n == 0 {
      forall k | k in keys ensures k in {newest} { assert newest <= k <= newest; }
      SubsetSize(keys, {newest});
    } else {
      var oldest := newest - n * BucketMs;
      var rest := keys - {oldest};
      forall k | k in rest ensures newest - (n - 1) * BucketMs <= k { NextSecond(k, newest, n); }
      SecondsWithin(rest, newest, n - 1);
      assert keys <= rest + {oldest};
      SubsetSize(keys, rest + {oldest});
    }
  }

  lemma NextSecond(k: int, newest: int, n: nat)
    requires newest % BucketMs == 0 && k % BucketMs == 0 && newest - n * BucketMs < k
    ensures newest - n * BucketMs + BucketMs <= k
  {
  }

  lemma SubsetSize(a: set<int>, b: set<int>)
    requires a <= b
    ensures |a| <= |b|
  {
    assert b == a + (b - a);
  }

  /** Memory is bounded: whenever an event opens a new newest bucket, at most 61 histograms are
      open afterwards, however long the run has been. */
  lemma {:induction false} OpenHistogramsAreBounded(events: seq<Event>, e: Event, threshold: int, q: Reader)
    requires EventKey(e) > Run(events, threshold, q).newest
    ensures |OpenKeys(After(Run(events, threshold, q), e, threshold, q))| <= 61
  {
    var s := Run(events, threshold, q);
    var t := After(s, e, threshold, q);
    RunKeys(events, threshold, q);
    StepKeys(s, e, threshold, q);
    forall k | k in OpenKeys(t) ensures t.newest - RetentionMs <= k <= t.newest && k % BucketMs == 0 {
      OpenIsRecent(s, e, threshold, q, k);
    }
    SecondsWithin(OpenKeys(t), t.newest, 60);
  }

  lemma OpenIsRecent(s: State, e: Event, threshold: int, q: Reader, k: int)
    requires EventKey(e) > s.newest && k in OpenKeys(After(s, e, threshold, q))
    ensures k >= EventKey(e) - RetentionMs && After(s, e, threshold, q).newest == EventKey(e)
  {
    hide KeyOf, Plus, TotalsOf;
  }
}
