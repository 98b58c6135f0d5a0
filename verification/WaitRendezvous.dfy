/** The meeting of messages and waiters in a subscription (internal/protocol/wait/subscription.go).

    `deliver` and `await` run on any number of threads.  Every section under the lock and every
    channel operation is one atomic step.  A message is known by the number of its delivery and a
    channel by the number of the await call that made it.  */
module WaitRendezvous {
  import opened Basics

  type Message = nat
  type Call = nat

  /** Cap on the queue of messages held for waiters that have not arrived yet. */
  const HeldMessagesCap := 50000

  /** What the mutex protects. */
  datatype Shared = Shared(arrivals: map<string, Message>, order: seq<string>, waiting: map<string, Call>)

  // ----- The three sections under the lock -----

  /** deliver: hands the message to the registered waiter, or holds it and evicts the oldest key. */
  function DeliverLocked(s: Shared, correlation: string, m: Message): (Shared, Option<Call>) {
    if correlation in s.waiting then
      (s.(waiting := s.waiting - {correlation}), Some(s.waiting[correlation]))
    else
      (Trimmed(s.(arrivals := s.arrivals[correlation := m], order := s.order + [correlation])), None)
  }

  /** Past the cap the oldest key leaves the queue, with whatever is held under it. */
  function Trimmed(s: Shared): Shared {
    if |s.order| > HeldMessagesCap
    then s.(arrivals := s.arrivals - {s.order[0]}, order := s.order[1..])
    else s
  }

  /** await: takes a held message, or registers a channel under the correlation. */
  function AwaitLocked(s: Shared, correlation: string, call: Call): (Shared, Option<Message>) {
    if correlation in s.arrivals then
      (s.(arrivals := s.arrivals - {correlation}), Some(s.arrivals[correlation]))
    else
      (s.(waiting := s.waiting[correlation := call]), None)
  }

  /** await after the time is up: removes whatever is registered under the correlation. */
  function GiveUpLocked(s: Shared, correlation: string): Shared {
    s.(waiting := s.waiting - {correlation})
  }

  class Subscription {
    var arrivals: map<string, Message>
    var order: seq<string>
    var waiting: map<string, Call>

    ghost function Contents(): Shared
      reads this
    {
      Shared(arrivals, order, waiting)
    }

    constructor ()
      ensures Contents() == Shared(map[], [], map[])
    {
      arrivals, order, waiting := map[], [], map[];
    }

    method Deliver(correlation: string, received: Message) returns (channel: Option<Call>)
      modifies this
      ensures correlation == "" ==> Contents() == old(Contents()) && channel == None
      ensures correlation != "" ==> (Contents(), channel) == DeliverLocked(old(Contents()), correlation, received)
    {
      channel := None;
      if correlation == "" {
        return;
      }
      if correlation in waiting {
        channel := Some(waiting[correlation]);
        waiting := waiting - {correlation};
        return;
      }
      arrivals := arrivals[correlation := received];
      order := order + [correlation];
      if |order| > HeldMessagesCap {
        var oldest := order[0];
        order := order[1..];
        arrivals := arrivals - {oldest};
      }
    }

    method Await(correlation: string, call: Call) returns (held: Option<Message>)
      modifies this
      ensures (Contents(), held) == AwaitLocked(old(Contents()), correlation, call)
    {
      if correlation in arrivals {
        held := Some(arrivals[correlation]);
        arrivals := arrivals - {correlation};
        return;
      }
      held := None;
      waiting := waiting[correlation := call];
    }

    method GiveUp(correlation: string)
      modifies this
      ensures Contents() == GiveUpLocked(old(Contents()), correlation)
    {
      waiting := waiting - {correlation};
    }
  }

  // ----- All threads together -----

  datatype WaitPhase =
    | Listening         // in the first select
    | GivingUp          // the time is up, the lock not yet taken
    | LastLook          // unregistered, before the last look at the channel
    | Got(m: Message)
    | Nothing

  datatype Waiter = Waiter(correlation: string, phase: WaitPhase)

  /** Where a delivered message is. */
  datatype Place =
    | Ignored                 // it carried no correlation
    | Held                    // in arrivals
    | BeingSent(call: Call)   // taken out of waiting, not yet in the channel
    | InChannel(call: Call)
    | Returned(call: Call)
    | Evicted
    | Overwritten             // by a later message of the same correlation

  /** The last four fields are history: which correlation each delivery carried, where its message
      is, which message each call was ever assigned and which channels were ever sent to.  A step
      reads none of them, except that a delivery or a call has a number of its own. */
  datatype State = State(
    shared: Shared,
    channels: map<Call, seq<Message>>,
    waiters: map<Call, Waiter>,
    sending: map<Message, Call>,
    delivered: map<Message, string>,
    place: map<Message, Place>,
    matched: map<Call, Message>,
    sent: set<Call>)

  datatype Step =
    | Deliver(m: Message, correlation: string)
    | Send(m: Message)
    | Await(call: Call, correlation: string)
    | Receive(call: Call)
    | TimeOut(call: Call)
    | Unregister(call: Call)
    | LookAgain(call: Call)

  const Start := State(Shared(map[], [], map[]), map[], map[], map[], map[], map[], map[], {})

  predicate InPhase(s: State, call: Call, phase: WaitPhase) {
    call in s.waiters && s.waiters[call].phase == phase
  }

  predicate Readable(s: State, call: Call) {
    call in s.channels && s.channels[call] != []
  }

  /** When a thread may take the step.  A send waits while the one slot of the channel is taken. */
  predicate Enabled(s: State, step: Step) {
    match step
    case Deliver(m, _) => m !in s.delivered
    case Send(m) => m in s.sending && !Readable(s, s.sending[m])
    case Await(call, _) => call !in s.waiters
    case Receive(call) => InPhase(s, call, Listening) && Readable(s, call)
    case TimeOut(call) => InPhase(s, call, Listening)
    case Unregister(call) => InPhase(s, call, GivingUp)
    case LookAgain(call) => InPhase(s, call, LastLook)
  }

  function Moved(s: State, call: Call, phase: WaitPhase): State
    requires call in s.waiters
  {
    s.(waiters := s.waiters[call := s.waiters[call].(phase := phase)])
  }

  function Taken(s: State, call: Call): State
    requires call in s.waiters && Readable(s, call)
  {
    var m := s.channels[call][0];
    Moved(s, call, Got(m)).(channels := s.channels[call := s.channels[call][1..]],
                            place := s.place[m := Returned(call)])
  }

  function AfterDeliver(s: State, m: Message, correlation: string): State {
    if correlation == "" then
      s.(delivered := s.delivered[m := correlation], place := s.place[m := Ignored])
    else if correlation in s.shared.waiting then
      AfterHandover(s, m, correlation)
    else
      AfterTrim(AfterStore(s, m, correlation))
  }

  function AfterHandover(s: State, m: Message, correlation: string): State
    requires correlation in s.shared.waiting
  {
    var call := s.shared.waiting[correlation];
    s.(shared := DeliverLocked(s.shared, correlation, m).0,
       delivered := s.delivered[m := correlation],
       sending := s.sending[m := call], place := s.place[m := BeingSent(call)], matched := s.matched[call := m])
  }

  /** Holding a message overwrites an earlier one of the same correlation. */
  function AfterStore(s: State, m: Message, correlation: string): State {
    var place := if correlation in s.shared.arrivals
                 then s.place[s.shared.arrivals[correlation] := Overwritten]
                 else s.place;
    s.(shared := s.shared.(arrivals := s.shared.arrivals[correlation := m], order := s.shared.order + [correlation]),
       delivered := s.delivered[m := correlation],
       place := place[m := Held])
  }

  function AfterTrim(s: State): State {
    var evicts := |s.shared.order| > HeldMessagesCap && s.shared.order[0] in s.shared.arrivals;
    s.(shared := Trimmed(s.shared),
       place := if evicts then s.place[s.shared.arrivals[s.shared.order[0]] := Evicted] else s.place)
  }

  /** Delivering does to the shared part what the section under the lock does. */
  lemma {:induction false} DeliverFollowsTheLock(s: State, m: Message, correlation: string)
    requires correlation != ""
    ensures AfterDeliver(s, m, correlation).shared == DeliverLocked(s.shared, correlation, m).0
  {
  }

  function AfterAwait(s: State, call: Call, correlation: string): State {
    var (shared, held) := AwaitLocked(s.shared, correlation, call);
    match held
    case Some(m) =>
      s.(shared := shared, waiters := s.waiters[call := Waiter(correlation, Got(m))],
         place := s.place[m := Returned(call)])
    case None =>
      s.(shared := shared, waiters := s.waiters[call := Waiter(correlation, Listening)],
         channels := s.channels[call := []])
  }

  function After(s: State, step: Step): State
    requires Enabled(s, step)
  {
    match step
    case Deliver(m, correlation) => AfterDeliver(s, m, correlation)
    case Send(m) =>
      var call := s.sending[m];
      s.(sending := s.sending - {m}, channels := s.channels[call := [m]],
         place := s.place[m := InChannel(call)], sent := s.sent + {call})
    case Await(call, correlation) => AfterAwait(s, call, correlation)
    case Receive(call) => Taken(s, call)
    case TimeOut(call) => Moved(s, call, GivingUp)
    case Unregister(call) =>
      Moved(s, call, LastLook).(shared := GiveUpLocked(s.shared, s.waiters[call].correlation))
    case LookAgain(call) => if Readable(s, call) then Taken(s, call) else Moved(s, call, Nothing)
  }

  /** Some interleaving: None as soon as a step is taken that its thread could not take. */
  function Run(steps: seq<Step>): Option<State> {
    if steps == [] then Some(Start) else
    match Run(steps[..|steps| - 1])
    case None => None
    case Some(s) => if Enabled(s, steps[|steps| - 1]) then Some(After(s, steps[|steps| - 1])) else None
  }

  // ----- What every step keeps -----

  predicate Awaits(s: State, call: Call, correlation: string) {
    call in s.waiters && s.waiters[call].correlation == correlation
  }

  /** The message really is where its history says, on its way to a call of its own correlation. */
  ghost predicate MessageOk(s: State, m: Message) {
    m in s.place ==>
      && m in s.delivered
      && var c := s.delivered[m];
         match s.place[m]
         case Ignored => c == ""
         case Held => c != "" && c in s.shared.arrivals && s.shared.arrivals[c] == m
         case BeingSent(call) => c != "" && m in s.sending && s.sending[m] == call && Awaits(s, call, c)
         case InChannel(call) => c != "" && call in s.channels && s.channels[call] == [m] && Awaits(s, call, c)
         case Returned(call) => c != "" && InPhase(s, call, Got(m)) && Awaits(s, call, c)
         case Evicted => c != ""
         case Overwritten => c != ""
  }

  /** A held message is queued for eviction, and nobody waits under its correlation. */
  ghost predicate ArrivalOk(s: State, c: string) {
    c in s.shared.arrivals ==>
      var m := s.shared.arrivals[c];
      && m in s.delivered && s.delivered[m] == c && m in s.place && s.place[m] == Held
      && c in s.shared.order && c !in s.shared.waiting
  }

  /** A registered call was never assigned a message. */
  ghost predicate WaitingOk(s: State, c: string) {
    c in s.shared.waiting ==>
      var call := s.shared.waiting[c];
      && Awaits(s, call, c) && call in s.channels && call !in s.matched
      && (s.waiters[call].phase == Listening || s.waiters[call].phase == GivingUp)
  }

  ghost predicate SendingOk(s: State, m: Message) {
    m in s.sending ==>
      var call := s.sending[m];
      && m in s.place && s.place[m] == BeingSent(call)
      && call in s.matched && s.matched[call] == m && call !in s.sent
  }

  ghost predicate ChannelOk(s: State, call: Call) {
    && (call in s.channels ==>
          && call in s.waiters
          && (s.channels[call] != [] ==>
                && call in s.sent && call in s.matched
                && var m := s.matched[call];
                   s.channels[call] == [m] && m in s.place && s.place[m] == InChannel(call)))
    && (call in s.sent ==> call in s.matched)
    && (call in s.matched ==> call in s.channels)
  }

  ghost predicate CallOk(s: State, call: Call) {
    && (call in s.waiters && s.waiters[call].phase.Got? ==>
          && (var m := s.waiters[call].phase.m; m in s.place && s.place[m] == Returned(call))
          && (call in s.channels ==> s.channels[call] == [] && call in s.sent))
    && (call in s.waiters && call !in s.channels ==> s.waiters[call].phase.Got?)
  }

  ghost predicate Inv(s: State) {
    && (forall m :: MessageOk(s, m))
    && (forall c :: ArrivalOk(s, c))
    && (forall c :: WaitingOk(s, c))
    && (forall m :: SendingOk(s, m))
    && (forall call :: ChannelOk(s, call))
    && (forall call :: CallOk(s, call))
    && s.place.Keys == s.delivered.Keys
  }

  ghost predicate Bounded(s: State) { |s.shared.order| <= HeldMessagesCap }

  lemma DeliverIgnoredKeepsInv(s: State, m: Message)
    requires Inv(s) && m !in s.delivered
    ensures Inv(AfterDeliver(s, m, ""))
  {
    var t := AfterDeliver(s, m, "");
    forall n ensures MessageOk(t, n) { assert MessageOk(s, n); }
    forall c ensures ArrivalOk(t, c) { assert ArrivalOk(s, c); }
    forall c ensures WaitingOk(t, c) { assert WaitingOk(s, c); }
    forall n ensures SendingOk(t, n) { assert SendingOk(s, n); }
    forall call ensures ChannelOk(t, call) { assert ChannelOk(s, call); }
    forall call ensures CallOk(t, call) { assert CallOk(s, call); }
  }

  lemma DeliverToWaiterKeepsInv(s: State, m: Message, k: string)
    requires Inv(s) && m !in s.delivered && k != "" && k in s.shared.waiting
    ensures Inv(AfterDeliver(s, m, k))
  {
    var t := AfterDeliver(s, m, k);
    assert WaitingOk(s, k);
    var taken := s.shared.waiting[k];
    assert ChannelOk(s, taken);
    forall n ensures MessageOk(t, n) { assert MessageOk(s, n); assert SendingOk(s, n); }
    forall c ensures ArrivalOk(t, c) { assert ArrivalOk(s, c); }
    forall c ensures WaitingOk(t, c) { assert WaitingOk(s, c); }
    forall n ensures SendingOk(t, n) { assert SendingOk(s, n); }
    forall call ensures ChannelOk(t, call) { assert ChannelOk(s, call); }
    forall call ensures CallOk(t, call) { assert CallOk(s, call); }
  }

  lemma StoreKeepsMessage(s: State, m: Message, k: string, n: Message)
    requires Inv(s) && m !in s.delivered && k != "" && k !in s.shared.waiting
    ensures MessageOk(AfterStore(s, m, k), n)
  {
    assert MessageOk(s, n) && ArrivalOk(s, k);
  }

  lemma StoreKeepsArrival(s: State, m: Message, k: string, c: string)
    requires Inv(s) && m !in s.delivered && k != "" && k !in s.shared.waiting
    ensures ArrivalOk(AfterStore(s, m, k), c)
  {
    assert ArrivalOk(s, c) && ArrivalOk(s, k);
  }

  lemma StoreKeepsInv(s: State, m: Message, k: string)
    requires Inv(s) && m !in s.delivered && k != "" && k !in s.shared.waiting
    ensures Inv(AfterStore(s, m, k))
  {
    var t := AfterStore(s, m, k);
    forall n ensures MessageOk(t, n) { StoreKeepsMessage(s, m, k, n); }
    forall c ensures ArrivalOk(t, c) { StoreKeepsArrival(s, m, k, c); }
    assert ArrivalOk(s, k);
    forall c ensures WaitingOk(t, c) { assert WaitingOk(s, c); }
    forall n ensures SendingOk(t, n) { assert SendingOk(s, n); }
    forall call ensures ChannelOk(t, call) { assert ChannelOk(s, call); }
    forall call ensures CallOk(t, call) { assert CallOk(s, call); }
  }

  lemma TrimKeepsInv(s: State)
    requires Inv(s) && |s.shared.order| > HeldMessagesCap
    ensures Inv(AfterTrim(s))
  {
    var t, oldest := AfterTrim(s), s.shared.order[0];
    assert ArrivalOk(s, oldest);
    if oldest in s.shared.arrivals { assert MessageOk(s, s.shared.arrivals[oldest]); }
    forall n ensures MessageOk(t, n) { assert MessageOk(s, n); }
    forall c ensures ArrivalOk(t, c) {
      assert ArrivalOk(s, c);
      assert s.shared.order == [oldest] + t.shared.order;
    }
    forall c ensures WaitingOk(t, c) { assert WaitingOk(s, c); }
    forall n ensures SendingOk(t, n) { assert SendingOk(s, n); }
    forall call ensures ChannelOk(t, call) { assert ChannelOk(s, call); }
    forall call ensures CallOk(t, call) { assert CallOk(s, call); }
  }

  lemma SendKeepsInv(s: State, m: Message)
    requires Inv(s) && Enabled(s, Send(m))
    ensures Inv(After(s, Send(m)))
  {
    var t := After(s, Send(m));
    assert SendingOk(s, m) && MessageOk(s, m);
    assert ChannelOk(s, s.sending[m]) && CallOk(s, s.sending[m]);
    forall n ensures MessageOk(t, n) { assert MessageOk(s, n); }
    forall c ensures ArrivalOk(t, c) { assert ArrivalOk(s, c); }
    forall c ensures WaitingOk(t, c) { assert WaitingOk(s, c); }
    forall n ensures SendingOk(t, n) { assert SendingOk(s, n); }
    forall call ensures ChannelOk(t, call) { assert ChannelOk(s, call); }
    forall call ensures CallOk(t, call) { assert CallOk(s, call); }
  }

  lemma AwaitHitKeepsInv(s: State, call: Call, k: string)
    requires Inv(s) && call !in s.waiters && k in s.shared.arrivals
    ensures Inv(AfterAwait(s, call, k))
  {
    var t := AfterAwait(s, call, k);
    assert ChannelOk(s, call) && ArrivalOk(s, k) && MessageOk(s, s.shared.arrivals[k]);
    forall n ensures MessageOk(t, n) { assert MessageOk(s, n); }
    forall c ensures ArrivalOk(t, c) { assert ArrivalOk(s, c); }
    forall c ensures WaitingOk(t, c) { assert WaitingOk(s, c); }
    forall n ensures SendingOk(t, n) { assert SendingOk(s, n); }
    forall other ensures ChannelOk(t, other) { assert ChannelOk(s, other); }
    forall other ensures CallOk(t, other) { assert CallOk(s, other); }
  }

  lemma AwaitRegisterKeepsInv(s: State, call: Call, k: string)
    requires Inv(s) && call !in s.waiters && k !in s.shared.arrivals
    ensures Inv(AfterAwait(s, call, k))
  {
    var t := AfterAwait(s, call, k);
    assert ChannelOk(s, call);
    forall n ensures MessageOk(t, n) { assert MessageOk(s, n); }
    forall c ensures ArrivalOk(t, c) { assert ArrivalOk(s, c); }
    forall c ensures WaitingOk(t, c) { assert WaitingOk(s, c); }
    forall n ensures SendingOk(t, n) { assert SendingOk(s, n); }
    forall other ensures ChannelOk(t, other) { assert ChannelOk(s, other); }
    forall other ensures CallOk(t, other) { assert CallOk(s, other); }
  }

  lemma TakenKeepsInv(s: State, call: Call)
    requires Inv(s) && call in s.waiters && Readable(s, call) && !s.waiters[call].phase.Got?
    ensures Inv(Taken(s, call))
  {
    var t := Taken(s, call);
    assert ChannelOk(s, call) && MessageOk(s, s.channels[call][0]);
    forall n ensures MessageOk(t, n) { assert MessageOk(s, n); }
    forall c ensures ArrivalOk(t, c) { assert ArrivalOk(s, c); }
    forall c ensures WaitingOk(t, c) { assert WaitingOk(s, c); }
    forall n ensures SendingOk(t, n) { assert SendingOk(s, n); }
    forall other ensures ChannelOk(t, other) { assert ChannelOk(s, other); }
    forall other ensures CallOk(t, other) { assert CallOk(s, other); }
  }

  /** A waiter that moves on without a message, unregistering its correlation on the way or not. */
  lemma MovedKeepsInv(s: State, call: Call, phase: WaitPhase, shared: Shared)
    requires Inv(s) && call in s.waiters && !s.waiters[call].phase.Got? && !phase.Got?
    requires || (phase == GivingUp && shared == s.shared)
             || (phase == LastLook && shared == GiveUpLocked(s.shared, s.waiters[call].correlation))
             || (phase == Nothing && shared == s.shared && s.waiters[call].phase == LastLook)
    ensures Inv(Moved(s, call, phase).(shared := shared))
  {
    var t := Moved(s, call, phase).(shared := shared);
    forall n ensures MessageOk(t, n) { assert MessageOk(s, n); }
    forall c ensures ArrivalOk(t, c) { assert ArrivalOk(s, c); }
    forall c ensures WaitingOk(t, c) { assert WaitingOk(s, c); }
    forall n ensures SendingOk(t, n) { assert SendingOk(s, n); }
    forall other ensures ChannelOk(t, other) { assert ChannelOk(s, other); }
    forall other ensures CallOk(t, other) { assert CallOk(s, other); }
  }

  lemma {:induction false} StepKeepsInv(s: State, step: Step)
    requires Inv(s) && Bounded(s) && Enabled(s, step)
    ensures Inv(After(s, step)) && Bounded(After(s, step))
  {
    hide Inv;
    match step
    case Deliver(m, c) =>
      if c == "" {
        DeliverIgnoredKeepsInv(s, m);
      } else if c in s.shared.waiting {
        DeliverToWaiterKeepsInv(s, m, c);
      } else {
        StoreKeepsInv(s, m, c);
        if |AfterStore(s, m, c).shared.order| > HeldMessagesCap {
          TrimKeepsInv(AfterStore(s, m, c));
        }
      }
    case Send(m) => SendKeepsInv(s, m);
    case Await(call, c) =>
      if c in s.shared.arrivals {
        AwaitHitKeepsInv(s, call, c);
      } else {
        AwaitRegisterKeepsInv(s, call, c);
      }
    case Receive(call) => TakenKeepsInv(s, call);
    case TimeOut(call) => MovedKeepsInv(s, call, GivingUp, s.shared);
    case Unregister(call) => MovedKeepsInv(s, call, LastLook, GiveUpLocked(s.shared, s.waiters[call].correlation));
    case LookAgain(call) =>
      if Readable(s, call) {
        TakenKeepsInv(s, call);
      } else {
        MovedKeepsInv(s, call, Nothing, s.shared);
      }
  }

  // ----- Over whole runs -----

  lemma StartIsFine()
    ensures Inv(Start) && Bounded(Start)
  {
  }

  lemma {:induction false} EveryRunKeepsInv(steps: seq<Step>)
    requires Run(steps).Some?
    ensures Inv(Run(steps).value) && Bounded(Run(steps).value)
  {
    hide Inv;
    if steps == [] {
      StartIsFine();
    } else {
      EveryRunKeepsInv(steps[..|steps| - 1]);
      StepKeepsInv(Run(steps[..|steps| - 1]).value, steps[|steps| - 1]);
    }
  }

  /** Where a message is, read off the structures themselves wherever it is still in one. */
  ghost predicate IsAt(s: State, m: Message, place: Place) {
    match place
    case Held => exists c :: c in s.shared.arrivals && s.shared.arrivals[c] == m
    case BeingSent(call) => m in s.sending && s.sending[m] == call
    case InChannel(call) => call in s.channels && m in s.channels[call]
    case Returned(call) => InPhase(s, call, Got(m))
    case _ => m in s.place && s.place[m] == place
  }

  /** Every delivered message is in exactly one place: nothing is duplicated and nothing vanishes.
      A message that is held, being sent, in a channel or returned is in no other structure, and
      what went to a call carries the correlation that call awaits. */
  lemma {:induction false} EveryMessageIsInOnePlace(steps: seq<Step>, m: Message)
    requires Run(steps).Some? && m in Run(steps).value.delivered
    ensures exists p :: IsAt(Run(steps).value, m, p)
    ensures forall p, q :: IsAt(Run(steps).value, m, p) && IsAt(Run(steps).value, m, q) ==> p == q
    ensures forall p :: IsAt(Run(steps).value, m, p) && (p.BeingSent? || p.InChannel? || p.Returned?) ==>
              Awaits(Run(steps).value, p.call, Run(steps).value.delivered[m])
  {
    EveryRunKeepsInv(steps);
    var s := Run(steps).value;
    assert MessageOk(s, m);
    assert IsAt(s, m, s.place[m]);
    forall p | IsAt(s, m, p) ensures p == s.place[m] {
      OnlyOnePlace(s, m, p);
    }
  }

  lemma OnlyOnePlace(s: State, m: Message, p: Place)
    requires Inv(s) && m in s.delivered && IsAt(s, m, p)
    ensures p == s.place[m]
  {
    match p
    case Held =>
      var c :| c in s.shared.arrivals && s.shared.arrivals[c] == m;
      assert ArrivalOk(s, c);
    case BeingSent(call) => assert SendingOk(s, m);
    case InChannel(call) => assert ChannelOk(s, call);
    case Returned(call) => assert CallOk(s, call);
    case _ =>
  }

  /** An await returns only a message delivered under its own correlation, and no two awaits
      return the same message. */
  lemma {:induction false} AwaitReturnsItsOwn(steps: seq<Step>, call: Call)
    requires Run(steps).Some? && call in Run(steps).value.waiters && Run(steps).value.waiters[call].phase.Got?
    ensures var s := Run(steps).value;
            var m := s.waiters[call].phase.m;
            && m in s.delivered && s.delivered[m] == s.waiters[call].correlation
            && forall other :: InPhase(s, other, Got(m)) ==> other == call
  {
    EveryRunKeepsInv(steps);
    var s := Run(steps).value;
    var m := s.waiters[call].phase.m;
    assert CallOk(s, call) && MessageOk(s, m);
    forall other | InPhase(s, other, Got(m)) ensures other == call {
      assert CallOk(s, other);
    }
  }

  predicate IsFinal(place: Place) {
    place.Returned? || place == Evicted || place == Overwritten || place == Ignored
  }

  lemma DeliverKeepsFinalPlaces(s: State, n: Message, c: string, m: Message)
    requires Inv(s) && n !in s.delivered && m in s.place && IsFinal(s.place[m])
    ensures m in AfterDeliver(s, n, c).place && AfterDeliver(s, n, c).place[m] == s.place[m]
  {
    assert MessageOk(s, m) && ArrivalOk(s, c);
    if c != "" && c !in s.shared.waiting {
      assert ArrivalOk(s, (s.shared.order + [c])[0]);
    }
    hide Inv, MessageOk;
  }

  lemma TakenKeepsFinalPlaces(s: State, call: Call, m: Message)
    requires Inv(s) && call in s.waiters && Readable(s, call) && m in s.place && IsFinal(s.place[m])
    ensures m in Taken(s, call).place && Taken(s, call).place[m] == s.place[m]
  {
    assert ChannelOk(s, call);
    hide Inv;
  }

  /** A message that was returned, evicted, overwritten or ignored stays that way. */
  lemma StepKeepsFinalPlaces(s: State, step: Step, m: Message)
    requires Inv(s) && Enabled(s, step) && m in s.place && IsFinal(s.place[m])
    ensures m in After(s, step).place && After(s, step).place[m] == s.place[m]
  {
    assert step.Send? ==> SendingOk(s, step.m);
    assert step.Await? ==> ArrivalOk(s, step.correlation);
    hide Inv, AfterDeliver, Taken;
    match step
    case Deliver(n, c) => DeliverKeepsFinalPlaces(s, n, c, m);
    case Receive(call) => TakenKeepsFinalPlaces(s, call, m);
    case LookAgain(call) => if Readable(s, call) { TakenKeepsFinalPlaces(s, call, m); }
    case _ =>
  }

  lemma {:induction false} FinalPlacesLast(steps: seq<Step>, more: seq<Step>, m: Message)
    requires Run(steps).Some? && Run(steps + more).Some? && m in Run(steps).value.place
    requires IsFinal(Run(steps).value.place[m])
    ensures m in Run(steps + more).value.place
    ensures Run(steps + more).value.place[m] == Run(steps).value.place[m]
  {
    hide Inv, After;
    if more == [] {
      assert steps + more == steps;
    } else {
      var all, fewer := steps + more, more[..|more| - 1];
      assert all[..|all| - 1] == steps + fewer;
      FinalPlacesLast(steps, fewer, m);
      EveryRunKeepsInv(steps + fewer);
      StepKeepsFinalPlaces(Run(steps + fewer).value, more[|more| - 1], m);
    }
  }

  /** How often the run put a message into the channel of this call. */
  ghost function SendsTo(steps: seq<Step>, call: Call): nat
    requires Run(steps).Some?
  {
    if steps == [] then 0 else
    var before, last := steps[..|steps| - 1], steps[|steps| - 1];
    SendsTo(before, call) + if last.Send? && Run(before).value.sending[last.m] == call then 1 else 0
  }

  lemma SendNeverBlocks(s: State, m: Message)
    requires Inv(s) && m in s.sending
    ensures Enabled(s, Send(m)) && s.sending[m] !in s.sent
  {
    assert SendingOk(s, m) && ChannelOk(s, s.sending[m]);
  }

  lemma SentAfter(s: State, step: Step)
    requires Enabled(s, step)
    ensures After(s, step).sent == s.sent + if step.Send? then {s.sending[step.m]} else {}
  {
  }

  /** No channel is sent to twice, so its one slot is always free and a send never blocks. */
  lemma {:induction false} ChannelsAreSentToOnce(steps: seq<Step>, call: Call)
    requires Run(steps).Some?
    ensures SendsTo(steps, call) == if call in Run(steps).value.sent then 1 else 0
    ensures forall m :: m in Run(steps).value.sending ==> Enabled(Run(steps).value, Send(m))
  {
    hide Inv, After;
    EveryRunKeepsInv(steps);
    var s := Run(steps).value;
    forall m | m in s.sending ensures Enabled(s, Send(m)) {
      SendNeverBlocks(s, m);
    }
    if steps != [] {
      var before, last := steps[..|steps| - 1], steps[|steps| - 1];
      ChannelsAreSentToOnce(before, call);
      EveryRunKeepsInv(before);
      SentAfter(Run(before).value, last);
      if last.Send? {
        SendNeverBlocks(Run(before).value, last.m);
      }
    }
  }

  /** Held keys are never also waiting, all of them are queued, and at most 50000 are held. */
  lemma {:induction false} HeldMessagesAreBounded(steps: seq<Step>)
    requires Run(steps).Some?
    ensures var s := Run(steps).value.shared;
            && s.arrivals.Keys !! s.waiting.Keys
            && (forall c :: c in s.arrivals ==> c in s.order)
            && |s.arrivals| <= |s.order| <= 50000
  {
    EveryRunKeepsInv(steps);
    var s := Run(steps).value;
    forall c | c in s.shared.arrivals ensures c in s.shared.order && c !in s.shared.waiting {
      assert ArrivalOk(s, c);
    }
    KeysFitTheQueue(s.shared.arrivals.Keys, s.shared.order);
  }

  lemma {:induction false} KeysFitTheQueue(keys: set<string>, queue: seq<string>)
    requires forall c :: c in keys ==> c in queue
    ensures |keys| <= |queue|
  {
    if queue != [] {
      var last := queue[|queue| - 1];
      KeysFitTheQueue(keys - {last}, queue[..|queue| - 1]);
      assert |keys| <= |keys - {last}| + 1;
    } else {
      assert keys == {};
    }
  }

  // ----- Which message is held -----

  predicate DeliversUnder(step: Step, c: string) { step.Deliver? && step.correlation == c }

  /** No step from this one on delivers under the correlation. */
  ghost predicate NoneLater(steps: seq<Step>, i: nat, c: string) {
    forall j :: i < j < |steps| ==> !DeliversUnder(steps[j], c)
  }

  lemma DeliveredAfter(s: State, step: Step)
    requires Enabled(s, step)
    ensures After(s, step).delivered == if step.Deliver? then s.delivered[step.m := step.correlation] else s.delivered
  {
    hide DeliverLocked, AwaitLocked, Trimmed, GiveUpLocked;
    match step
    case Deliver(m, c) => DeliverAdds(s, m, c);
    case Await(call, c) => hide AfterDeliver;
    case _ => hide AfterDeliver, AfterAwait;
  }

  lemma DeliverAdds(s: State, m: Message, c: string)
    ensures AfterDeliver(s, m, c).delivered == s.delivered[m := c]
  {
    hide DeliverLocked, Trimmed;
  }

  /** What was delivered, and under which correlation, is what the run delivered. */
  lemma {:induction false} DeliveredIs(steps: seq<Step>, m: Message, c: string)
    requires Run(steps).Some?
    ensures (m in Run(steps).value.delivered && Run(steps).value.delivered[m] == c) <==> Deliver(m, c) in steps
  {
    hide After, Enabled;
    if steps != [] {
      var before, last := steps[..|steps| - 1], steps[|steps| - 1];
      DeliveredIs(before, m, c);
      DeliveredAfter(Run(before).value, last);
      FreshDelivery(Run(before).value, last);
      assert steps == before + [last];
    }
  }

  lemma FreshDelivery(s: State, step: Step)
    requires Enabled(s, step)
    ensures step.Deliver? ==> step.m !in s.delivered
  {
  }

  lemma DeliverUnderReplaces(s: State, n: Message, c: string, m: Message)
    requires Inv(s) && n !in s.delivered && m in s.place && m in s.delivered
    ensures var t := AfterDeliver(s, n, c);
            && m in t.place
            && (t.place[m] == Held ==> s.place[m] == Held && s.delivered[m] != c)
            && (t.place[m] == Overwritten && s.place[m] != Overwritten ==> s.delivered[m] == c)
  {
    assert MessageOk(s, m) && ArrivalOk(s, c);
    if c != "" && c !in s.shared.waiting { assert ArrivalOk(s, (s.shared.order + [c])[0]); }
    hide Inv;
  }

  /** A step other than a delivery neither starts nor overwrites a held message. */
  lemma OthersReplaceNothing(s: State, step: Step, m: Message)
    requires Inv(s) && Enabled(s, step) && !step.Deliver? && m in s.place
    ensures var t := After(s, step);
            && m in t.place
            && (t.place[m] == Held ==> s.place[m] == Held)
            && (t.place[m] == Overwritten ==> s.place[m] == Overwritten)
  {
  }

  /** A message is held only while no later one of its correlation was delivered, and overwritten only
      by one that was. */
  lemma {:induction false} HeldIsTheLast(steps: seq<Step>, i: nat)
    requires Run(steps).Some? && i < |steps| && steps[i].Deliver?
    ensures var s, m, c := Run(steps).value, steps[i].m, steps[i].correlation;
            && m in s.place && m in s.delivered && s.delivered[m] == c
            && (s.place[m] == Held ==> NoneLater(steps, i, c))
            && (s.place[m] == Overwritten ==> !NoneLater(steps, i, c))
  {
    hide After, Enabled, Inv, AfterDeliver;
    var before, last, m, c := steps[..|steps| - 1], steps[|steps| - 1], steps[i].m, steps[i].correlation;
    var s := Run(before).value;
    EveryRunKeepsInv(before);
    EveryRunKeepsInv(steps);
    DeliveredIs(steps, m, c);
    assert steps[i] == Deliver(m, c);
    PlacesAreDeliveries(Run(steps).value);
    if i < |before| {
      HeldIsTheLast(before, i);
      assert steps == before + [last];
      if last.Deliver? {
        FreshDelivery(s, last);
        AfterIsDeliver(s, last);
        DeliverUnderReplaces(s, last.m, last.correlation, m);
      } else {
        OthersReplaceNothing(s, last, m);
      }
      if !NoneLater(before, i, c) {
        var j :| i < j < |before| && DeliversUnder(before[j], c);
        assert DeliversUnder(steps[j], c);
      }
      assert DeliversUnder(last, c) ==> DeliversUnder(steps[|before|], c);
    } else {
      AfterIsDeliver(s, last);
      NewIsNotOverwritten(s, m, c);
    }
  }

  lemma PlacesAreDeliveries(s: State)
    requires Inv(s)
    ensures s.place.Keys == s.delivered.Keys
  {
  }

  lemma AfterIsDeliver(s: State, step: Step)
    requires Enabled(s, step) && step.Deliver?
    ensures step.m !in s.delivered && After(s, step) == AfterDeliver(s, step.m, step.correlation)
  {
  }

  lemma NewIsNotOverwritten(s: State, m: Message, c: string)
    requires Inv(s) && m !in s.delivered
    ensures m in AfterDeliver(s, m, c).place && AfterDeliver(s, m, c).place[m] != Overwritten
  {
    assert ArrivalOk(s, c);
    if c != "" && c !in s.shared.waiting { assert ArrivalOk(s, (s.shared.order + [c])[0]); }
    hide Inv;
  }

  /** An await that finds a message held returns the last one delivered under its correlation. */
  lemma {:induction false} AwaitTakesTheLast(steps: seq<Step>, call: Call, c: string)
    requires Run(steps).Some? && Enabled(Run(steps).value, Await(call, c)) && c in Run(steps).value.shared.arrivals
    ensures exists i :: 0 <= i < |steps| && DeliversUnder(steps[i], c) && NoneLater(steps, i, c)
              && InPhase(After(Run(steps).value, Await(call, c)), call, Got(steps[i].m))
  {
    hide Run;
    var s := Run(steps).value;
    EveryRunKeepsInv(steps);
    var m := s.shared.arrivals[c];
    assert ArrivalOk(s, c);
    hide Inv;
    DeliveredIs(steps, m, c);
    var i :| 0 <= i < |steps| && steps[i] == Deliver(m, c);
    HeldIsTheLast(steps, i);
    assert DeliversUnder(steps[i], c);
  }

  // ----- When a held message is evicted -----

  /** A held message is evicted exactly when another one is held under another correlation while the
      queue is full and its oldest entry is of this message's correlation. */
  lemma {:induction false} OnlyAFullQueueEvicts(s: State, step: Step, m: Message)
    requires Inv(s) && Bounded(s) && Enabled(s, step) && m in s.place && s.place[m] == Held
    ensures m in After(s, step).place && m in s.delivered
    ensures After(s, step).place[m] == Evicted <==>
              && step.Deliver? && step.correlation != "" && step.correlation !in s.shared.waiting
              && step.correlation != s.delivered[m]
              && |s.shared.order| == 50000 && s.shared.order[0] == s.delivered[m]
  {
    assert MessageOk(s, m);
    assert step.Send? ==> SendingOk(s, step.m);
    assert step.Await? ==> ArrivalOk(s, step.correlation);
    assert step.Receive? ==> ChannelOk(s, step.call);
    assert step.LookAgain? ==> ChannelOk(s, step.call);
    match step
    case Deliver(n, c) => DeliverEvicts(s, n, c, m);
    case _ => hide Inv, MessageOk;
  }

  lemma DeliverEvicts(s: State, n: Message, c: string, m: Message)
    requires Inv(s) && Bounded(s) && n !in s.delivered && m in s.place && s.place[m] == Held
    ensures m in AfterDeliver(s, n, c).place && m in s.delivered
    ensures AfterDeliver(s, n, c).place[m] == Evicted <==>
              && c != "" && c !in s.shared.waiting && c != s.delivered[m]
              && |s.shared.order| == 50000 && s.shared.order[0] == s.delivered[m]
  {
    assert MessageOk(s, m) && ArrivalOk(s, c);
    var order := s.shared.order + [c];
    assert ArrivalOk(s, order[0]);
    assert s.shared.order != [] ==> order[0] == s.shared.order[0];
    hide Inv, MessageOk;
  }

  /** One message taken, the next of its correlation held, and then so many of another correlation
      that the queue is full; its two oldest entries are of the first. */
  ghost function Piling(k: nat): seq<Step> {
    if k == 0 then [Deliver(0, "a"), Await(0, "a"), Deliver(1, "a")] else Piling(k - 1) + [Deliver(k + 1, "b")]
  }

  ghost predicate Piled(s: State, k: nat) {
    && s.shared.order == ["a", "a"] + seq(k, _ => "b") && s.shared.waiting == map[]
    && "a" in s.shared.arrivals && s.shared.arrivals["a"] == 1
    && s.shared.arrivals.Keys <= {"a", "b"} && ("b" in s.shared.arrivals ==> s.shared.arrivals["b"] != 1)
    && 1 in s.place && s.place[1] == Held
    && forall m :: m in s.delivered ==> m < k + 2
  }

  lemma TakenOnce()
    ensures var steps := [Deliver(0, "a"), Await(0, "a")];
            && Run(steps).Some?
            && var t := Run(steps).value;
               && t.shared == Shared(map[], ["a"], map[]) && t.delivered.Keys == {0}
  {
    hide Run;
    var a, b := Deliver(0, "a"), Await(0, "a");
    RunNothing();
    RunOne([], Start, a);
    assert [] + [a] == [a];
    var s := After(Start, a);
    assert s.shared.arrivals["a"] == 0 && s.shared.order == ["a"];
    RunOne([a], s, b);
    assert [a] + [b] == [a, b];
    assert After(s, b).shared.arrivals == map[];
  }

  lemma PilingStarts()
    ensures Run(Piling(0)).Some? && Piled(Run(Piling(0)).value, 0)
  {
    hide Run;
    TakenOnce();
    var before, c := [Deliver(0, "a"), Await(0, "a")], Deliver(1, "a");
    var t := Run(before).value;
    RunOne(before, t, c);
    assert before + [c] == Piling(0);
    assert After(t, c).shared.order == ["a", "a"] + seq(0, _ => "b");
    assert After(t, c).shared.arrivals == map["a" := 1];
  }

  lemma RunNothing()
    ensures Run([]) == Some(Start)
  {
  }

  lemma PilingGoesOn(s: State, k: nat)
    requires Piled(s, k) && k < HeldMessagesCap - 2
    ensures Enabled(s, Deliver(k + 2, "b")) && Piled(After(s, Deliver(k + 2, "b")), k + 1)
  {
    var t := After(s, Deliver(k + 2, "b"));
    assert t.shared.order == ["a", "a"] + seq(k, _ => "b") + ["b"] == ["a", "a"] + seq(k + 1, _ => "b");
    assert t.shared.arrivals == s.shared.arrivals["b" := k + 2];
  }

  lemma {:induction false} PilingUp(k: nat)
    requires k <= HeldMessagesCap - 2
    ensures Run(Piling(k)).Some? && Piled(Run(Piling(k)).value, k)
  {
    hide Run, Piled;
    if k == 0 {
      PilingStarts();
    } else {
      PilingUp(k - 1);
      var s := Run(Piling(k - 1)).value;
      PilingGoesOn(s, k - 1);
      RunOne(Piling(k - 1), s, Deliver(k + 1, "b"));
    }
  }

  /** The queue counts entries, not messages: here a message is evicted, by its own correlation's stale
      entry, while no more than two are held. */
  lemma {:induction false} EvictedWhileTwoAreHeld()
    ensures var steps, last := Piling(HeldMessagesCap - 2), Deliver(HeldMessagesCap, "b");
            && Run(steps).Some? && Run(steps + [last]).Some?
            && |Run(steps).value.shared.arrivals| <= 2
            && IsAt(Run(steps).value, 1, Held) && IsAt(Run(steps + [last]).value, 1, Evicted)
  {
    var k := HeldMessagesCap - 2;
    var steps, last := Piling(k), Deliver(HeldMessagesCap, "b");
    PilingUp(k);
    EveryRunKeepsInv(steps);
    hide Run, Piling;
    var s := Run(steps).value;
    RunOne(steps, s, last);
    assert s.shared.arrivals["a"] == 1;
    SmallerSet(s.shared.arrivals.Keys, {"a", "b"});
    assert MessageOk(s, 1);
    OnlyAFullQueueEvicts(s, last, 1);
  }

  lemma SmallerSet<T>(a: set<T>, b: set<T>)
    requires a <= b
    ensures |a| <= |b|
  {
    if a != {} {
      var x :| x in a;
      SmallerSet(a - {x}, b - {x});
    }
  }

  // ----- When a waiter is forgotten -----

  /** The call is reachable: registered, or a message was already taken out for it. */
  ghost predicate Reached(s: State, call: Call) {
    InPhase(s, call, Listening) || InPhase(s, call, GivingUp) ==>
      var c := s.waiters[call].correlation;
      call in s.matched || (c in s.shared.waiting && s.shared.waiting[c] == call)
  }

  ghost predicate AllReached(s: State) { forall call :: Reached(s, call) }

  /** The two branches that remove somebody else's registration: an await registers over another
      call, and one that gives up unregisters whoever is registered under its correlation. */
  predicate Hazard(s: State, step: Step) {
    match step
    case Await(_, c) => c !in s.shared.arrivals && c in s.shared.waiting
    case Unregister(call) =>
      && call in s.waiters
      && var c := s.waiters[call].correlation;
         c in s.shared.waiting && s.shared.waiting[c] != call
    case _ => false
  }

  lemma DeliverKeepsReached(s: State, m: Message, c: string, call: Call)
    requires Inv(s) && m !in s.delivered && Reached(s, call)
    ensures Reached(AfterDeliver(s, m, c), call)
  {
    assert WaitingOk(s, c);
  }

  lemma AwaitKeepsReached(s: State, other: Call, c: string, call: Call)
    requires other !in s.waiters && !Hazard(s, Await(other, c)) && Reached(s, call)
    ensures Reached(AfterAwait(s, other, c), call)
  {
  }

  lemma TakenKeepsReached(s: State, other: Call, call: Call)
    requires other in s.waiters && Readable(s, other) && Reached(s, call)
    ensures Reached(Taken(s, other), call)
  {
  }

  lemma UnregisterKeepsReached(s: State, other: Call, call: Call)
    requires Enabled(s, Unregister(other)) && !Hazard(s, Unregister(other)) && Reached(s, call)
    ensures Reached(After(s, Unregister(other)), call)
  {
  }

  lemma StepKeepsReached(s: State, step: Step, call: Call)
    requires Inv(s) && Enabled(s, step) && !Hazard(s, step) && Reached(s, call)
    ensures Reached(After(s, step), call)
  {
    hide Inv, Hazard;
    match step
    case Deliver(m, c) => DeliverKeepsReached(s, m, c, call);
    case Await(other, c) => AwaitKeepsReached(s, other, c, call);
    case Receive(other) => TakenKeepsReached(s, other, call);
    case Unregister(other) => UnregisterKeepsReached(s, other, call);
    case LookAgain(other) => if Readable(s, other) { TakenKeepsReached(s, other, call); }
    case _ =>
  }

  /** The call whose registration a hazard removes. */
  function Victim(s: State, step: Step): Call
    requires Hazard(s, step)
  {
    if step.Await? then s.shared.waiting[step.correlation] else s.shared.waiting[s.waiters[step.call].correlation]
  }

  lemma HazardForgets(s: State, step: Step)
    requires Inv(s) && Enabled(s, step) && Hazard(s, step)
    ensures !Reached(After(s, step), Victim(s, step))
  {
    assert WaitingOk(s, if step.Await? then step.correlation else s.waiters[step.call].correlation);
    hide Inv;
  }

  /** One step forgets a waiter exactly when it is a hazard. */
  lemma {:induction false} OnlyHazardsForget(s: State, step: Step)
    requires Inv(s) && Enabled(s, step) && AllReached(s)
    ensures AllReached(After(s, step)) <==> !Hazard(s, step)
  {
    hide Inv, After, Enabled, Reached, Hazard;
    if Hazard(s, step) {
      HazardForgets(s, step);
    } else {
      forall call ensures Reached(After(s, step), call) { StepKeepsReached(s, step, call); }
    }
  }

  /** The state a run was in after its first k steps. */
  ghost function At(steps: seq<Step>, k: nat): (s: State)
    requires Run(steps).Some? && k <= |steps|
    ensures Run(steps[..k]) == Some(s)
    decreases |steps|
  {
    if k == |steps| then
      assert steps[..k] == steps;
      Run(steps).value
    else
      var before := steps[..|steps| - 1];
      assert before[..k] == steps[..k];
      At(before, k)
  }

  lemma AtOfPrefix(steps: seq<Step>, k: nat)
    requires Run(steps).Some? && k < |steps|
    ensures Run(steps[..|steps| - 1]).Some? && At(steps[..|steps| - 1], k) == At(steps, k)
  {
    assert steps[..|steps| - 1][..k] == steps[..k];
  }

  lemma {:induction false} NextAt(steps: seq<Step>, k: nat)
    requires Run(steps).Some? && k < |steps|
    ensures Enabled(At(steps, k), steps[k]) && At(steps, k + 1) == After(At(steps, k), steps[k])
  {
    var next := steps[..k + 1];
    assert next[..k] == steps[..k];
    assert Run(next) == Some(At(steps, k + 1));
  }

  ghost predicate NoHazard(steps: seq<Step>)
    requires Run(steps).Some?
  {
    forall k :: 0 <= k < |steps| ==> !Hazard(At(steps, k), steps[k])
  }

  lemma StartReaches(call: Call)
    ensures Reached(Start, call)
  {
  }

  lemma {:induction false} ReachedUpTo(steps: seq<Step>, n: nat)
    requires Run(steps).Some? && n <= |steps| && forall k :: 0 <= k < n ==> !Hazard(At(steps, k), steps[k])
    ensures AllReached(At(steps, n))
  {
    hide Reached, After, Enabled, Inv, Hazard;
    if n == 0 {
      forall call ensures Reached(Start, call) { StartReaches(call); }
      assert steps[..0] == [];
    } else {
      ReachedUpTo(steps, n - 1);
      EveryRunKeepsInv(steps[..n - 1]);
      NextAt(steps, n - 1);
      OnlyHazardsForget(At(steps, n - 1), steps[n - 1]);
    }
  }

  /** A waiter that is still listening is never forgotten, it stays registered until a message is
      taken out for it, exactly in the runs where no await registers over another call and none
      that gives up unregisters another. */
  lemma {:induction false} ListenersAreNeverForgotten(steps: seq<Step>)
    requires Run(steps).Some?
    ensures (forall k :: 0 <= k <= |steps| ==> AllReached(At(steps, k))) <==> NoHazard(steps)
  {
    hide AllReached, After, Enabled, Inv, Hazard;
    if NoHazard(steps) {
      forall k | 0 <= k <= |steps| ensures AllReached(At(steps, k)) { ReachedUpTo(steps, k); }
    } else {
      var k :| 0 <= k < |steps| && Hazard(At(steps, k), steps[k]);
      NextAt(steps, k);
      EveryRunKeepsInv(steps[..k]);
      if AllReached(At(steps, k)) {
        OnlyHazardsForget(At(steps, k), steps[k]);
        assert !AllReached(At(steps, k + 1));
      }
    }
  }

  /** Listening, but neither registered nor assigned a message. */
  ghost predicate Forgotten(s: State, call: Call) {
    && call in s.waiters && call !in s.matched && call in s.channels && s.channels[call] == []
    && !s.waiters[call].phase.Got?
    && forall c :: c in s.shared.waiting ==> s.shared.waiting[c] != call
  }

  lemma UnreachedIsForgotten(s: State, call: Call)
    requires Inv(s) && !Reached(s, call)
    ensures Forgotten(s, call)
  {
    assert ChannelOk(s, call) && CallOk(s, call);
    forall c | c in s.shared.waiting ensures s.shared.waiting[c] != call { assert WaitingOk(s, c); }
  }

  lemma DeliverKeepsForgotten(s: State, m: Message, c: string, call: Call)
    requires Forgotten(s, call)
    ensures Forgotten(AfterDeliver(s, m, c), call)
  {
  }

  lemma AwaitKeepsForgotten(s: State, other: Call, c: string, call: Call)
    requires Forgotten(s, call) && other !in s.waiters
    ensures Forgotten(AfterAwait(s, other, c), call)
  {
  }

  lemma StepKeepsForgotten(s: State, step: Step, call: Call)
    requires Inv(s) && Enabled(s, step) && Forgotten(s, call)
    ensures Forgotten(After(s, step), call)
  {
    assert step.Send? ==> SendingOk(s, step.m);
    hide Inv, AfterDeliver, AfterAwait;
    match step
    case Deliver(m, c) => DeliverKeepsForgotten(s, m, c, call);
    case Await(other, c) => AwaitKeepsForgotten(s, other, c, call);
    case _ =>
  }

  /** A waiter once forgotten stays so: no message ever comes to it, whatever happens later. */
  lemma {:induction false} ForgottenForGood(steps: seq<Step>, more: seq<Step>, call: Call)
    requires Run(steps).Some? && Run(steps + more).Some? && !Reached(Run(steps).value, call)
    ensures Forgotten(Run(steps + more).value, call)
    ensures forall m :: !IsAt(Run(steps + more).value, m, Returned(call))
  {
    hide Inv, After, Enabled, Reached;
    if more == [] {
      assert steps + more == steps;
      EveryRunKeepsInv(steps);
      UnreachedIsForgotten(Run(steps).value, call);
    } else {
      var all, fewer := steps + more, more[..|more| - 1];
      assert all[..|all| - 1] == steps + fewer;
      ForgottenForGood(steps, fewer, call);
      EveryRunKeepsInv(steps + fewer);
      StepKeepsForgotten(Run(steps + fewer).value, more[|more| - 1], call);
    }
  }

  /** No two await calls ever used the same correlation. */
  ghost predicate OneAwaitEach(s: State) {
    forall a, b :: a in s.waiters && b in s.waiters && s.waiters[a].correlation == s.waiters[b].correlation ==> a == b
  }

  lemma HazardSharesACorrelation(s: State, step: Step)
    requires Inv(s) && Enabled(s, step) && Hazard(s, step)
    ensures !OneAwaitEach(After(s, step))
  {
    var c := if step.Await? then step.correlation else s.waiters[step.call].correlation;
    assert WaitingOk(s, c);
    hide Inv;
    var a, b, t := step.call, s.shared.waiting[c], After(s, step);
    assert a in t.waiters && b in t.waiters && t.waiters[a].correlation == c == t.waiters[b].correlation && a != b;
  }

  lemma CorrelationsAreKept(s: State, step: Step, call: Call)
    requires Enabled(s, step) && call in s.waiters
    ensures call in After(s, step).waiters
    ensures After(s, step).waiters[call].correlation == s.waiters[call].correlation
  {
    hide DeliverLocked, AwaitLocked, Trimmed, GiveUpLocked;
    match step
    case Deliver(m, c) => assert AfterDeliver(s, m, c).waiters == s.waiters;
    case Await(other, c) => hide AfterDeliver;
    case _ => hide AfterDeliver, AfterAwait;
  }

  lemma WaitersOnlyGrow(s: State, step: Step)
    requires Enabled(s, step) && OneAwaitEach(After(s, step))
    ensures OneAwaitEach(s)
  {
    hide After, Enabled;
    forall a | a in s.waiters
      ensures a in After(s, step).waiters && After(s, step).waiters[a].correlation == s.waiters[a].correlation
    {
      CorrelationsAreKept(s, step, a);
    }
  }

  /** A caller who never uses a correlation twice is on the safe side. */
  lemma {:induction false} OwnCorrelationsAreEnough(steps: seq<Step>)
    requires Run(steps).Some? && OneAwaitEach(Run(steps).value)
    ensures NoHazard(steps)
  {
    hide Inv, After, Enabled, Hazard, OneAwaitEach;
    if steps != [] {
      var n := |steps| - 1;
      var before, last := steps[..n], steps[n];
      assert steps[..n + 1] == steps;
      WaitersOnlyGrow(Run(before).value, last);
      OwnCorrelationsAreEnough(before);
      EveryRunKeepsInv(before);
      NextAt(steps, n);
      if Hazard(At(steps, n), last) { HazardSharesACorrelation(At(steps, n), last); }
      forall k | 0 <= k < n ensures !Hazard(At(steps, k), steps[k]) {
        AtOfPrefix(steps, k);
        assert !Hazard(At(before, k), before[k]);
      }
    }
  }

  /** Such a run: of two awaits under one correlation the one that gives up unregisters the other,
      which keeps listening while its message is held. */
  lemma {:induction false} SharedCorrelationForgetsAListener()
    ensures var steps := [Await(0, "c"), Await(1, "c"), TimeOut(0), Unregister(0), Deliver(0, "c")];
            && Run(steps).Some?
            && InPhase(Run(steps).value, 1, Listening) && !Reached(Run(steps).value, 1)
            && IsAt(Run(steps).value, 0, Held)
  {
    hide Run;
    var a, b, c, d, e := Await(0, "c"), Await(1, "c"), TimeOut(0), Unregister(0), Deliver(0, "c");
    TwoListeners();
    RunOne([a, b], TwoListening, c);
    assert [a, b] + [c] == [a, b, c];
    RunOne([a, b, c], After(TwoListening, c), d);
    assert [a, b, c] + [d] == [a, b, c, d];
    var s := After(After(TwoListening, c), d);
    RunOne([a, b, c, d], s, e);
    assert [a, b, c, d] + [e] == [a, b, c, d, e];
    assert "c" !in s.shared.waiting && s.shared.order == [];
    assert After(s, e).shared.arrivals["c"] == 0;
  }

  /** Two calls listening under one correlation: only the second is registered. */
  ghost const TwoListening :=
    Start.(waiters := map[0 := Waiter("c", Listening), 1 := Waiter("c", Listening)],
           channels := map[0 := [], 1 := []], shared := Shared(map[], [], map["c" := 1]))

  lemma TwoListeners()
    ensures Run([Await(0, "c"), Await(1, "c")]) == Some(TwoListening)
  {
    hide Run;
    var a, b := Await(0, "c"), Await(1, "c");
    OneListener();
    RunOne([a], OneListening, b);
    assert [a] + [b] == [a, b];
    var s := After(OneListening, b);
    assert s.waiters == TwoListening.waiters;
    assert s.channels == TwoListening.channels;
    assert s.shared.waiting == TwoListening.shared.waiting;
  }

  ghost const OneListening :=
    Start.(waiters := map[0 := Waiter("c", Listening)], channels := map[0 := []],
           shared := Shared(map[], [], map["c" := 0]))

  lemma OneListener()
    ensures Run([Await(0, "c")]) == Some(OneListening)
  {
    assert Run([]) == Some(Start);
    RunOne([], Start, Await(0, "c"));
    assert [] + [Await(0, "c")] == [Await(0, "c")];
  }

  lemma RunOne(steps: seq<Step>, s: State, step: Step)
    requires Run(steps) == Some(s) && Enabled(s, step)
    ensures Run(steps + [step]) == Some(After(s, step))
  {
    assert (steps + [step])[..|steps|] == steps;
  }

  /** A waiter may give up between the delivery's unlock and its send: the message then sits in
      the channel of a call that already returned nothing. */
  lemma {:induction false} GivingUpLeavesAMessageUnread()
    ensures var steps := [Await(0, "c"), TimeOut(0), Deliver(0, "c"), Unregister(0), LookAgain(0), Send(0)];
            && Run(steps).Some?
            && InPhase(Run(steps).value, 0, Nothing) && IsAt(Run(steps).value, 0, InChannel(0))
  {
    hide Run;
    var a, b, c, d, e, f := Await(0, "c"), TimeOut(0), Deliver(0, "c"), Unregister(0), LookAgain(0), Send(0);
    HandedOverLate();
    var s3 := HandedOver;
    var s4 := After(s3, d);
    RunOne([a, b, c], s3, d);
    assert [a, b, c] + [d] == [a, b, c, d];
    RunOne([a, b, c, d], s4, e);
    assert [a, b, c, d] + [e] == [a, b, c, d, e];
    assert s4.channels[0] == [] && s4.sending[0] == 0;
    RunOne([a, b, c, d, e], After(s4, e), f);
    assert [a, b, c, d, e] + [f] == [a, b, c, d, e, f];
  }

  /** The time is up for the call when its message is taken out for it. */
  ghost const HandedOver :=
    OneListening.(waiters := map[0 := Waiter("c", GivingUp)], shared := Shared(map[], [], map[]),
                  delivered := map[0 := "c"], sending := map[0 := 0], place := map[0 := BeingSent(0)],
                  matched := map[0 := 0])

  lemma HandedOverLate()
    ensures Run([Await(0, "c"), TimeOut(0), Deliver(0, "c")]) == Some(HandedOver)
  {
    hide Run;
    var a, b, c := Await(0, "c"), TimeOut(0), Deliver(0, "c");
    OneListener();
    RunOne([a], OneListening, b);
    assert [a] + [b] == [a, b];
    RunOne([a, b], After(OneListening, b), c);
    assert [a, b] + [c] == [a, b, c];
    assert After(After(OneListening, b), c) == HandedOver;
  }

  // ----- When a message is missed -----

  /** A message taken out for a call is on its way to it, in its channel or returned by it. */
  ghost predicate MatchedOk(s: State, call: Call) {
    call in s.matched ==>
      var m := s.matched[call];
      m in s.place && (s.place[m] == BeingSent(call) || s.place[m] == InChannel(call) || s.place[m] == Returned(call))
  }

  lemma DeliverKeepsMatched(s: State, m: Message, c: string, call: Call)
    requires Inv(s) && m !in s.delivered && MatchedOk(s, call)
    ensures MatchedOk(AfterDeliver(s, m, c), call)
  {
    assert ArrivalOk(s, c) && WaitingOk(s, c);
    if c != "" && c !in s.shared.waiting { assert ArrivalOk(s, (s.shared.order + [c])[0]); }
    hide Inv;
  }

  lemma TakenKeepsMatched(s: State, other: Call, call: Call)
    requires Inv(s) && other in s.waiters && Readable(s, other) && MatchedOk(s, call)
    ensures MatchedOk(Taken(s, other), call)
  {
    assert ChannelOk(s, other);
    hide Inv;
  }

  lemma StepKeepsMatched(s: State, step: Step, call: Call)
    requires Inv(s) && Enabled(s, step) && MatchedOk(s, call)
    ensures MatchedOk(After(s, step), call)
  {
    assert step.Send? ==> SendingOk(s, step.m);
    assert step.Await? ==> ArrivalOk(s, step.correlation);
    hide Inv, AfterDeliver, Taken;
    match step
    case Deliver(m, c) => DeliverKeepsMatched(s, m, c, call);
    case Receive(other) => TakenKeepsMatched(s, other, call);
    case LookAgain(other) => if Readable(s, other) { TakenKeepsMatched(s, other, call); }
    case _ =>
  }

  lemma {:induction false} EveryRunKeepsMatched(steps: seq<Step>, call: Call)
    requires Run(steps).Some?
    ensures MatchedOk(Run(steps).value, call)
  {
    hide Inv, After, Enabled;
    if steps != [] {
      EveryRunKeepsMatched(steps[..|steps| - 1], call);
      EveryRunKeepsInv(steps[..|steps| - 1]);
      StepKeepsMatched(Run(steps[..|steps| - 1]).value, steps[|steps| - 1], call);
    }
  }

  /** When a call takes its last look a message was on its way to it or none was.  It comes away with
      nothing exactly when none was, or when the one that was is still being sent. */
  lemma {:induction false} OnlyAnUnfinishedSendIsMissed(steps: seq<Step>, call: Call)
    requires Run(steps).Some? && InPhase(Run(steps).value, call, LastLook)
    ensures var s := Run(steps).value;
            && (InPhase(After(s, LookAgain(call)), call, Nothing) <==>
                  call in s.matched ==> IsAt(s, s.matched[call], BeingSent(call)))
            && (call in s.matched <==> exists m :: IsAt(s, m, BeingSent(call)) || IsAt(s, m, InChannel(call)))
            && (forall m, n :: IsAt(s, m, BeingSent(call)) && IsAt(s, n, BeingSent(call)) ==> m == n)
  {
    EveryRunKeepsInv(steps);
    EveryRunKeepsMatched(steps, call);
    var s := Run(steps).value;
    hide Run;
    assert ChannelOk(s, call);
    forall m | IsAt(s, m, BeingSent(call)) ensures call in s.matched && s.matched[call] == m { assert SendingOk(s, m); }
    if call in s.matched {
      var m := s.matched[call];
      assert MessageOk(s, m) && SendingOk(s, m);
      hide Inv;
      assert IsAt(s, m, BeingSent(call)) || IsAt(s, m, InChannel(call));
    }
  }

  /** The call answered that nothing came, though a message had been taken out for it. */
  ghost predicate Missed(s: State, call: Call) { InPhase(s, call, Nothing) && call in s.matched }

  lemma StepKeepsMissed(s: State, step: Step, call: Call)
    requires Inv(s) && Enabled(s, step) && Missed(s, call)
    ensures Missed(After(s, step), call) && After(s, step).matched[call] == s.matched[call]
  {
    assert step.Deliver? ==> WaitingOk(s, step.correlation);
    hide Inv;
  }

  /** A missed message is never read, by that call or any other: it is being sent to the channel
      nobody looks at any more, or lies in it, for the rest of the run. */
  lemma {:induction false} MissedForGood(steps: seq<Step>, more: seq<Step>, call: Call)
    requires Run(steps).Some? && Run(steps + more).Some? && Missed(Run(steps).value, call)
    ensures var s, m := Run(steps + more).value, Run(steps).value.matched[call];
            && Missed(s, call) && s.matched[call] == m
            && (IsAt(s, m, BeingSent(call)) || IsAt(s, m, InChannel(call)))
            && forall other :: !IsAt(s, m, Returned(other))
  {
    hide After, Enabled, Inv;
    if more == [] {
      assert steps + more == steps;
    } else {
      var all, fewer := steps + more, more[..|more| - 1];
      assert all[..|all| - 1] == steps + fewer;
      MissedForGood(steps, fewer, call);
      EveryRunKeepsInv(steps + fewer);
      StepKeepsMissed(Run(steps + fewer).value, more[|more| - 1], call);
    }
    EveryRunKeepsInv(steps + more);
    EveryRunKeepsMatched(steps + more, call);
    MissedIsNotReturned(Run(steps + more).value, call);
  }

  lemma MissedIsNotReturned(s: State, call: Call)
    requires Inv(s) && MatchedOk(s, call) && Missed(s, call)
    ensures var m := s.matched[call];
            && (IsAt(s, m, BeingSent(call)) || IsAt(s, m, InChannel(call)))
            && forall other :: !IsAt(s, m, Returned(other))
  {
    var m := s.matched[call];
    assert MessageOk(s, m);
    forall other ensures !IsAt(s, m, Returned(other)) { assert CallOk(s, other); }
  }

  lemma StepKeepsUnread(s: State, step: Step, call: Call)
    requires Inv(s) && Enabled(s, step) && InPhase(s, call, Nothing) && Readable(s, call)
    ensures InPhase(After(s, step), call, Nothing)
    ensures call in After(s, step).channels && After(s, step).channels[call] == s.channels[call]
  {
    assert ChannelOk(s, call);
    if step.Send? { SendNeverBlocks(s, step.m); }
    hide Inv;
  }

  /** And once in the channel of a call that already answered, it stays in that channel. */
  lemma {:induction false} UnreadStaysUnread(steps: seq<Step>, more: seq<Step>, call: Call)
    requires Run(steps).Some? && Run(steps + more).Some?
    requires InPhase(Run(steps).value, call, Nothing) && Readable(Run(steps).value, call)
    ensures InPhase(Run(steps + more).value, call, Nothing) && call in Run(steps + more).value.channels
    ensures Run(steps + more).value.channels[call] == Run(steps).value.channels[call]
  {
    hide After, Enabled, Inv;
    if more == [] {
      assert steps + more == steps;
    } else {
      var all, fewer := steps + more, more[..|more| - 1];
      assert all[..|all| - 1] == steps + fewer;
      UnreadStaysUnread(steps, fewer, call);
      EveryRunKeepsInv(steps + fewer);
      StepKeepsUnread(Run(steps + fewer).value, more[|more| - 1], call);
    }
  }
}
