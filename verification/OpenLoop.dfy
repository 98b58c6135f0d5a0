/** The open dispatch loop and the iterations it starts (`driveOpen` and `runIteration` in
    internal/engine/executor.go).

    The dispatcher and any number of workers interleave; every atomic operation is one step.  */
module OpenLoop {
  import opened Basics
  import opened Aggregates
  import opened Documents
  import opened ExitGate

  /** Where the dispatcher is in its loop. */
  datatype Place =
    | Top             // before the check of the context
    | Due             // the scheduled instant has come
    | Free            // it read a number in flight below the limit
    | Reserved(current: int)
    | Recorded
    | Waiting         // out of the loop, waiting for the workers
    | Finished

  /** `busy` workers have not given their slot back; `leaving` ones have, and are still to be waited for. */
  datatype State = State(
    place: Place, index: nat, inflight: int, busy: set<nat>, leaving: set<nat>,
    sent: nat, dropped: nat, peak: int, canceled: bool, stoppedEarly: bool)

  const Start := State(Top, 0, 0, {}, {}, 0, 0, 0, false, false)

  datatype Step =
    | CheckContext | ReadInflight | Reserve | Record | Spawn
    | GiveBack(worker: nat) | Leave(worker: nat)
    | CancelRun
    | AllGone

  predicate Enabled(s: State, step: Step) {
    match step
    case CheckContext => s.place == Top
    case ReadInflight => s.place == Due
    case Reserve => s.place == Free
    case Record => s.place.Reserved?
    case Spawn => s.place == Recorded
    case GiveBack(worker) => worker in s.busy
    case Leave(worker) => worker in s.leaving
    case CancelRun => true
    case AllGone => s.place == Waiting && s.busy == {} && s.leaving == {}
  }

  function After(s: State, step: Step, total: nat, limit: int): State
    requires Enabled(s, step)
  {
    match step
    case CheckContext =>
      if s.index >= total then s.(place := Waiting)
      else if s.canceled then s.(place := Waiting, stoppedEarly := true)
      else s.(place := Due)
    case ReadInflight =>
      if s.inflight >= limit then s.(place := Top, index := s.index + 1, dropped := s.dropped + 1)
      else s.(place := Free)
    case Reserve => s.(place := Reserved(s.inflight + 1), inflight := s.inflight + 1)
    case Record =>
      s.(place := Recorded, sent := s.sent + 1, peak := if s.place.current > s.peak then s.place.current else s.peak)
    case Spawn => s.(place := Top, index := s.index + 1, busy := s.busy + {s.index})
    case GiveBack(worker) =>
      s.(busy := s.busy - {worker}, leaving := s.leaving + {worker}, inflight := s.inflight - 1)
    case Leave(worker) => s.(leaving := s.leaving - {worker})
    case CancelRun => s.(canceled := true)
    case AllGone => s.(place := Finished)
  }

  function Run(steps: seq<Step>, total: nat, limit: int): Option<State> {
    if steps == [] then Some(Start) else
    match Run(steps[..|steps| - 1], total, limit)
    case None => None
    case Some(s) =>
      if Enabled(s, steps[|steps| - 1]) then Some(After(s, steps[|steps| - 1], total, limit)) else None
  }

  /** One slot is held between the reservation and the start of the worker. */
  function Held(s: State): int { if s.place.Reserved? || s.place == Recorded then 1 else 0 }

  ghost predicate Inv(s: State, total: nat, limit: int) {
    && s.inflight == |s.busy| + Held(s)
    && (s.inflight > 0 ==> s.inflight <= limit)
    && (s.place == Free ==> s.inflight < limit)
    && (s.place.Reserved? ==> s.place.current <= limit)
    && (s.peak > 0 ==> s.peak <= limit)
    && |s.busy| <= s.peak
    && (s.place.Reserved? ==> |s.busy| < s.place.current) && (s.place == Recorded ==> |s.busy| < s.peak)
    && s.sent + s.dropped == s.index + (if s.place == Recorded then 1 else 0)
    && s.index <= total
    && (s.place == Due || s.place == Free || s.place.Reserved? || s.place == Recorded ==> s.index < total)
    && (forall worker :: worker in s.busy || worker in s.leaving ==> worker < s.index)
    && (s.place == Waiting || s.place == Finished ==> s.index == total || s.stoppedEarly)
    && (s.stoppedEarly ==> s.canceled)
    && (s.place == Finished ==> s.busy == {} && s.leaving == {})
  }

  lemma {:induction false} StepKeepsInv(s: State, step: Step, total: nat, limit: int)
    requires Inv(s, total, limit) && Enabled(s, step)
    ensures Inv(After(s, step, total, limit), total, limit)
  {
    match step
    case Spawn => SpawnKeepsInv(s, total, limit);
    case GiveBack(worker) => GiveBackKeepsInv(s, worker, total, limit);
    case Leave(worker) => LeaveKeepsInv(s, worker, total, limit);
    case Reserve => ReserveKeepsInv(s, total, limit);
    case Record => RecordKeepsInv(s, total, limit);
    case _ => assert After(s, step, total, limit).busy == s.busy && After(s, step, total, limit).leaving == s.leaving;
  }

  lemma ReserveKeepsInv(s: State, total: nat, limit: int)
    requires Inv(s, total, limit) && Enabled(s, Reserve)
    ensures Inv(After(s, Reserve, total, limit), total, limit)
  {
  }

  lemma RecordKeepsInv(s: State, total: nat, limit: int)
    requires Inv(s, total, limit) && Enabled(s, Record)
    ensures Inv(After(s, Record, total, limit), total, limit)
  {
  }

  lemma SpawnKeepsInv(s: State, total: nat, limit: int)
    requires Inv(s, total, limit) && Enabled(s, Spawn)
    ensures Inv(After(s, Spawn, total, limit), total, limit)
  {
    assert s.index !in s.busy;
    assert |s.busy + {s.index}| == |s.busy| + 1;
  }

  lemma GiveBackKeepsInv(s: State, worker: nat, total: nat, limit: int)
    requires Inv(s, total, limit) && Enabled(s, GiveBack(worker))
    ensures Inv(After(s, GiveBack(worker), total, limit), total, limit)
  {
    assert |s.busy - {worker}| == |s.busy| - 1;
  }

  lemma LeaveKeepsInv(s: State, worker: nat, total: nat, limit: int)
    requires Inv(s, total, limit) && Enabled(s, Leave(worker))
    ensures Inv(After(s, Leave(worker), total, limit), total, limit)
  {
  }

  lemma {:induction false} EveryRunKeepsInv(steps: seq<Step>, total: nat, limit: int)
    requires Run(steps, total, limit).Some?
    ensures Inv(Run(steps, total, limit).value, total, limit)
  {
    hide After, Enabled;
    if steps != [] {
      EveryRunKeepsInv(steps[..|steps| - 1], total, limit);
      StepKeepsInv(Run(steps[..|steps| - 1], total, limit).value, steps[|steps| - 1], total, limit);
    }
  }

  /** In every interleaving the limit holds, for the number in flight and for the peak reported, and the
      peak is not below the number of workers that ever run at a time. */
  lemma {:induction false} InflightIsLimited(steps: seq<Step>, total: nat, limit: int)
    requires Run(steps, total, limit).Some?
    ensures var s := Run(steps, total, limit).value;
            && 0 <= s.inflight && |s.busy| <= s.inflight
            && (s.inflight > 0 ==> s.inflight <= limit)
            && (s.peak > 0 ==> s.peak <= limit)
            && |s.busy| <= s.peak
  {
    EveryRunKeepsInv(steps, total, limit);
  }

  /** A run that ends leaves nothing in flight; and unless it was cancelled every request of the
      plan was sent or dropped, so it is never reported as short. */
  lemma {:induction false} FinishedRunsAppliedThePlan(steps: seq<Step>, total: nat, limit: int, d: Document,
                                                      input: Input)
    requires Run(steps, total, limit).Some? && Run(steps, total, limit).value.place == Finished
    requires input.plannedRequests == total
    requires d.scheduling.sent == Run(steps, total, limit).value.sent
    requires d.scheduling.dropped == Run(steps, total, limit).value.dropped && d.run.model != ClosedModel
    ensures var s := Run(steps, total, limit).value;
            && s.inflight == 0 && s.busy == {} && s.leaving == {}
            && s.sent + s.dropped <= total
            && (!s.canceled ==> s.sent + s.dropped == total && RunShorterThanPlan(d, input) == [])
  {
    EveryRunKeepsInv(steps, total, limit);
  }

  /** A request is dropped exactly when the dispatcher, its instant come, finds the limit of workers
      running; no other step drops one, and every other request is sent. */
  lemma {:induction false} DropsExactlyAtTheLimit(steps: seq<Step>, step: Step, total: nat, limit: int)
    requires Run(steps, total, limit).Some? && Enabled(Run(steps, total, limit).value, step)
    ensures var s := Run(steps, total, limit).value;
            var t := After(s, step, total, limit);
            && (t.dropped == s.dropped + 1 <==> step == ReadInflight && |s.busy| >= limit)
            && (t.dropped != s.dropped ==> t.dropped == s.dropped + 1)
            && (t.sent == s.sent + 1 <==> step == Record)
            && (step == ReadInflight && |s.busy| < limit ==> t.place == Free && t.index == s.index)
  {
    EveryRunKeepsInv(steps, total, limit);
  }

  // ----- One iteration -----

  /** Drawing the data and authenticating come before the steps; either may fail. */
  datatype Preparation = Ready | Failed(step: string, outcome: string, detail: string, finishedAt: int)

  /** What running a step yields: what the clock read before and after it, and its response. */
  datatype Attempt = Attempt(
    step: string, sentAt: int, finishedAt: int, outcome: string, status: int, bytes: int, messages: int,
    detail: string)
  {
    predicate Succeeds() { outcome == SuccessClass }
  }

  /** The instant step k is counted from: the scheduled one, then where the step before ended. */
  function InstantOf(scheduled: int, attempts: seq<Attempt>, k: nat): int
    requires k <= |attempts|
  {
    if k == 0 then scheduled else attempts[k - 1].finishedAt
  }

  /** The step that opens the iteration is counted from the scheduled instant. */
  function SampleOf(instant: int, a: Attempt, first: bool): Sample {
    Sample(a.step, instant, Some(a.sentAt), Some(a.finishedAt), a.outcome, a.status, a.bytes, a.messages, a.detail,
           if first then CorrectedKind else ServiceKind)
  }

  function SampleAt(scheduled: int, attempts: seq<Attempt>, k: nat): Sample
    requires k < |attempts|
  {
    SampleOf(InstantOf(scheduled, attempts, k), attempts[k], k == 0)
  }

  /** The samples of the first n steps. */
  function Samples(scheduled: int, attempts: seq<Attempt>, n: nat): (r: seq<Sample>)
    requires n <= |attempts|
    ensures |r| == n && forall k :: 0 <= k < n ==> r[k] == SampleAt(scheduled, attempts, k)
  {
    if n == 0 then [] else Samples(scheduled, attempts, n - 1) + [SampleAt(scheduled, attempts, n - 1)]
  }

  /** How many steps run: up to and including the first that fails. */
  function StepsRun(attempts: seq<Attempt>): (n: nat)
    ensures n <= |attempts|
    ensures forall k :: 0 <= k < n - 1 ==> attempts[k].Succeeds()
    ensures n < |attempts| ==> n > 0 && !attempts[n - 1].Succeeds()
  {
    if attempts == [] then 0
    else if !attempts[0].Succeeds() then 1
    else
      var n := StepsRun(attempts[1..]);
      assert forall k :: 0 <= k < |attempts| - 1 ==> attempts[1..][k] == attempts[k + 1];
      n + 1
  }

  lemma StepsRunIs(attempts: seq<Attempt>, n: nat)
    requires n <= |attempts| && (forall k :: 0 <= k < n - 1 ==> attempts[k].Succeeds())
    requires n < |attempts| ==> n > 0 && !attempts[n - 1].Succeeds()
    ensures n == StepsRun(attempts)
  {
    hide StepsRun;
    var m := StepsRun(attempts);
    if m != n {
      assert false;
    }
  }

  /** What an iteration records: the one sample of a failed preparation and no journey, or the
      samples of the steps that ran and the journey from the scheduled instant to the last of them. */
  function Iteration(scheduled: int, preparation: Preparation, attempts: seq<Attempt>)
    : (seq<Sample>, Option<JourneyEnd>)
  {
    match preparation
    case Failed(step, outcome, detail, finishedAt) =>
      ([Sample(step, scheduled, Some(scheduled), Some(finishedAt), outcome, 0, 0, 0, detail, Unset)], None)
    case Ready =>
      var n := StepsRun(attempts);
      (Samples(scheduled, attempts, n),
       Some(JourneyEnd(InstantOf(scheduled, attempts, n) - scheduled,
                       forall k :: 0 <= k < |attempts| ==> attempts[k].Succeeds())))
  }

  method RunIteration(scheduled: int, preparation: Preparation, attempts: seq<Attempt>)
    returns (samples: seq<Sample>, journey: Option<JourneyEnd>)
    ensures (samples, journey) == Iteration(scheduled, preparation, attempts)
  {
    hide StepsRun;
    if preparation.Failed? {
      return [Sample(preparation.step, scheduled, Some(scheduled), Some(preparation.finishedAt),
                     preparation.outcome, 0, 0, 0, preparation.detail, Unset)], None;
    }
    samples := [];
    var stepInstant, complete := scheduled, true;
    for k := 0 to |attempts|
      invariant samples == Samples(scheduled, attempts, k) && stepInstant == InstantOf(scheduled, attempts, k)
      invariant complete && forall j :: 0 <= j < k ==> attempts[j].Succeeds()
    {
      var sample := SampleOf(stepInstant, attempts[k], k == 0);
      samples := samples + [sample];
      stepInstant := attempts[k].finishedAt;
      if sample.outcome != SuccessClass {
        complete := false;
        StepsRunIs(attempts, k + 1);
        break;
      }
    }
    if complete {
      StepsRunIs(attempts, |attempts|);
    }
    journey := Some(JourneyEnd(stepInstant - scheduled, complete));
  }

  function CorrectedSum(samples: seq<Sample>): int
    requires forall k :: 0 <= k < |samples| ==> samples[k].finishedAt.Some?
  {
    if samples == [] then 0 else CorrectedSum(samples[..|samples| - 1]) + samples[|samples| - 1].CorrectedLatency()
  }

  lemma {:induction false} CorrectedLatenciesAddUp(scheduled: int, attempts: seq<Attempt>, n: nat)
    requires n <= |attempts|
    ensures CorrectedSum(Samples(scheduled, attempts, n)) == InstantOf(scheduled, attempts, n) - scheduled
  {
    if n == 0 {
      NoSamples(scheduled, attempts);
    } else {
      CorrectedLatenciesAddUp(scheduled, attempts, n - 1);
      NextSample(scheduled, attempts, n);
      hide SampleAt, InstantOf, CorrectedSum, Samples;
      var samples, x := Samples(scheduled, attempts, n - 1), SampleAt(scheduled, attempts, n - 1);
      OneMoreLatency(samples, x);
    }
  }

  lemma NoSamples(scheduled: int, attempts: seq<Attempt>)
    ensures CorrectedSum(Samples(scheduled, attempts, 0)) == 0 == InstantOf(scheduled, attempts, 0) - scheduled
  {
  }

  lemma NextSample(scheduled: int, attempts: seq<Attempt>, n: nat)
    requires 0 < n <= |attempts|
    ensures var x := SampleAt(scheduled, attempts, n - 1);
            && x.finishedAt.Some?
            && x.CorrectedLatency() == InstantOf(scheduled, attempts, n) - InstantOf(scheduled, attempts, n - 1)
            && Samples(scheduled, attempts, n) == Samples(scheduled, attempts, n - 1) + [x]
  {
  }

  lemma OneMoreLatency(samples: seq<Sample>, x: Sample)
    requires x.finishedAt.Some? && forall k :: 0 <= k < |samples| ==> samples[k].finishedAt.Some?
    ensures CorrectedSum(samples + [x]) == CorrectedSum(samples) + x.CorrectedLatency()
  {
    assert (samples + [x])[..|samples|] == samples;
  }

  /** A clock that never goes back, read after the dispatch and then before and after every step
      that runs. */
  ghost predicate ClockIsMonotone(dispatch: int, preparation: Preparation, attempts: seq<Attempt>) {
    match preparation
    case Failed(_, _, _, finishedAt) => dispatch <= finishedAt
    case Ready =>
      forall k :: 0 <= k < StepsRun(attempts) ==>
        InstantOf(dispatch, attempts, k) <= attempts[k].sentAt <= attempts[k].finishedAt
  }

  /** With a clock that never goes back, and a dispatch that is not early, every sample has corrected
      latency >= service latency >= 0 and only the last one can be a failure.  A journey is the sum
      of the corrected latencies of the steps that ran, also when the last of them failed, and is
      complete when every step of the scenario ran and succeeded. */
  lemma {:induction false} IterationLatencies(scheduled: int, dispatch: int, preparation: Preparation,
                                              attempts: seq<Attempt>)
    requires scheduled <= dispatch && ClockIsMonotone(dispatch, preparation, attempts)
    ensures var (samples, journey) := Iteration(scheduled, preparation, attempts);
            && (forall x :: x in samples ==> Timed(x))
            && (forall k :: 0 <= k < |samples| - 1 ==> samples[k].outcome == SuccessClass)
            && (journey.Some? <==> preparation.Ready?)
            && (journey.Some? ==>
                  && journey.value.latency == CorrectedSum(samples) >= 0
                  && (journey.value.complete <==>
                        |samples| == |attempts| && forall x :: x in samples ==> x.outcome == SuccessClass))
  {
    if preparation.Ready? {
      ReadyLatencies(scheduled, dispatch, attempts);
      OutcomesOfSteps(scheduled, attempts);
    }
    hide StepsRun, InstantOf, SampleAt, Samples, ClockIsMonotone, SampleOf, CorrectedSum;
  }

  lemma ReadyLatencies(scheduled: int, dispatch: int, attempts: seq<Attempt>)
    requires scheduled <= dispatch && ClockIsMonotone(dispatch, Ready, attempts)
    ensures var n := StepsRun(attempts);
            var samples := Samples(scheduled, attempts, n);
            && (forall x :: x in samples ==> Timed(x))
            && InstantOf(scheduled, attempts, n) - scheduled == CorrectedSum(samples) >= 0
  {
    hide StepsRun, ClockIsMonotone, SampleOf;
    var n := StepsRun(attempts);
    var samples := Samples(scheduled, attempts, n);
    CorrectedLatenciesAddUp(scheduled, attempts, n);
    forall k | 0 <= k < n ensures Timed(samples[k]) { SampleIsTimed(scheduled, dispatch, attempts, k); }
    hide InstantOf, SampleAt, Samples;
    SumIsNotNegative(samples);
  }

  /** Both latencies are there, and the corrected one includes the wait before the request went out. */
  ghost predicate Timed(x: Sample) {
    x.sentAt.Some? && x.finishedAt.Some? && x.CorrectedLatency() >= x.ServiceLatency() >= 0
  }

  lemma SampleIsTimed(scheduled: int, dispatch: int, attempts: seq<Attempt>, k: nat)
    requires scheduled <= dispatch && ClockIsMonotone(dispatch, Ready, attempts) && k < StepsRun(attempts)
    ensures Timed(SampleAt(scheduled, attempts, k))
  {
    hide StepsRun;
    assert InstantOf(dispatch, attempts, k) <= attempts[k].sentAt <= attempts[k].finishedAt;
    hide ClockIsMonotone;
  }

  /** Only the last sample can be a failure, and none is exactly when every step ran and succeeded. */
  lemma OutcomesOfSteps(scheduled: int, attempts: seq<Attempt>)
    ensures var samples := Samples(scheduled, attempts, StepsRun(attempts));
            && (forall k :: 0 <= k < |samples| - 1 ==> samples[k].outcome == SuccessClass)
            && ((forall k :: 0 <= k < |attempts| ==> attempts[k].Succeeds()) <==>
                  |samples| == |attempts| && forall x :: x in samples ==> x.outcome == SuccessClass)
  {
    hide InstantOf, StepsRun;
    var n := StepsRun(attempts);
    var samples := Samples(scheduled, attempts, n);
    assert forall k :: 0 <= k < n ==> samples[k].outcome == attempts[k].outcome;
    if n > 0 { assert samples[n - 1] in samples; }
  }

  lemma {:induction false} SumIsNotNegative(samples: seq<Sample>)
    requires forall k :: 0 <= k < |samples| ==> samples[k].finishedAt.Some? && samples[k].CorrectedLatency() >= 0
    ensures CorrectedSum(samples) >= 0
  {
    if samples != [] {
      SumIsNotNegative(samples[..|samples| - 1]);
    }
  }
}
