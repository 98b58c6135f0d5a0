/** A run of the server, from start to stream (internal/server/runs.go).

    Handlers cancel and follow a run while another goroutine arms, appends to and finishes it.
    Every section under the run's mutex and every operation on a channel is one atomic step; any
    number of cancels and followers interleave.  */
module RunLifecycle {
  import opened Basics

  datatype Status = Running | Done | Failed | Interrupted

  type Line = string
  type Id = nat

  /** Capacity of a watcher's channel. */
  const Capacity := 64

  /** What the mutex protects; a watcher is known by its follower. */
  datatype Shared = Shared(
    canceled: bool, status: Status, armed: bool, closed: bool, lines: seq<Line>, watchers: seq<Id>)

  const Fresh := Shared(false, Running, false, false, [], [])

  // ----- The sections under the lock -----

  /** cancel: whether it is the first, and whether there is already something to stop. */
  function CancelLocked(s: Shared): (Shared, bool, bool) {
    (s.(canceled := true), !s.canceled && s.status == Running, s.armed)
  }

  /** arm: whether a cancel came before there was something to stop. */
  function ArmLocked(s: Shared): (Shared, bool) { (s.(armed := true), s.canceled) }

  function SettleLocked(s: Shared, status: Status): Shared { s.(status := status) }

  function AppendLocked(s: Shared, line: Line): Shared { s.(lines := s.lines + [line]) }

  function CloseLocked(s: Shared): Shared { s.(closed := true, watchers := []) }

  /** follow: the history so far, and a watcher for the rest unless the run is over. */
  function FollowLocked(s: Shared, follower: Id): Shared {
    if s.closed then s else s.(watchers := s.watchers + [follower])
  }

  /** A watcher's channel: the lines not yet received, and whether it is open. */
  datatype Channel = Channel(buffer: seq<Line>, open: bool)

  /** A send that does not wait: a full channel misses the line. */
  function Sent(c: Channel, line: Line): Channel {
    if |c.buffer| < Capacity then c.(buffer := c.buffer + [line]) else c
  }

  function SentTo(channels: map<Id, Channel>, watchers: seq<Id>, line: Line): map<Id, Channel> {
    map id | id in channels :: if id in watchers then Sent(channels[id], line) else channels[id]
  }

  function ClosedAll(channels: map<Id, Channel>, watchers: seq<Id>): map<Id, Channel> {
    map id | id in channels :: if id in watchers then channels[id].(open := false) else channels[id]
  }

  class RunRecord {
    var canceled: bool
    var status: Status
    var armed: bool
    var closed: bool
    var lines: seq<Line>
    var watchers: seq<Id>
    var channels: map<Id, Channel>

    ghost function Contents(): Shared
      reads this
    {
      Shared(canceled, status, armed, closed, lines, watchers)
    }

    /** Every watcher has an open channel of its own: sending to a closed one, or closing one twice,
        would end the process. */
    ghost predicate Valid()
      reads this
    {
      && Distinct(watchers)
      && (forall id :: id in watchers ==> id in channels && channels[id].open)
      && (closed ==> watchers == [])
    }

    constructor ()
      ensures Valid() && Contents() == Fresh && channels == map[]
    {
      canceled, status, armed, closed, lines, watchers := false, Running, false, false, [], [];
      channels := map[];
    }

    method Cancel() returns (first: bool, stop: bool)
      requires Valid()
      modifies this
      ensures Valid() && (Contents(), first, stop) == CancelLocked(old(Contents())) && channels == old(channels)
    {
      var already := canceled || status != Running;
      canceled := true;
      stop := armed;
      first := !already;
    }

    method Arm() returns (stop: bool)
      requires Valid()
      modifies this
      ensures Valid() && (Contents(), stop) == ArmLocked(old(Contents())) && channels == old(channels)
    {
      armed := true;
      stop := canceled;
    }

    method Settle(settled: Status)
      requires Valid()
      modifies this
      ensures Valid() && Contents() == SettleLocked(old(Contents()), settled) && channels == old(channels)
    {
      status := settled;
    }

    method Append(line: Line)
      requires Valid()
      modifies this
      ensures Valid() && Contents() == AppendLocked(old(Contents()), line)
      ensures channels == SentTo(old(channels), old(watchers), line)
    {
      lines := lines + [line];
      for k := 0 to |watchers|
        invariant Valid() && Contents() == AppendLocked(old(Contents()), line)
        invariant channels == SentTo(old(channels), watchers[..k], line)
      {
        var id := watchers[k];
        assert watchers[..k + 1] == watchers[..k] + [id];
        assert id !in watchers[..k] && id in watchers;
        if |channels[id].buffer| < Capacity {
          channels := channels[id := channels[id].(buffer := channels[id].buffer + [line])];
        }
      }
      assert watchers[..|watchers|] == watchers;
    }

    method Close()
      requires Valid()
      modifies this
      ensures Valid() && Contents() == CloseLocked(old(Contents()))
      ensures channels == ClosedAll(old(channels), old(watchers))
    {
      closed := true;
      for k := 0 to |watchers|
        invariant Contents() == old(Contents()).(closed := true)
        invariant channels == ClosedAll(old(channels), watchers[..k])
      {
        var id := watchers[k];
        assert watchers[..k + 1] == watchers[..k] + [id];
        assert id in watchers && id !in watchers[..k];
        assert channels[id].open;
        channels := channels[id := channels[id].(open := false)];
      }
      assert watchers[..|watchers|] == watchers;
      watchers := [];
    }

    method Follow(follower: Id) returns (replay: seq<Line>)
      requires Valid() && follower !in channels
      modifies this
      ensures Valid() && Contents() == FollowLocked(old(Contents()), follower) && replay == old(lines)
      ensures channels == if old(closed) then old(channels) else old(channels)[follower := Channel([], true)]
    {
      replay := lines;
      if closed {
        return;
      }
      assert follower !in watchers;
      watchers := watchers + [follower];
      channels := channels[follower := Channel([], true)];
    }

    /** finish, when nothing happens between its sections: the status says how the run ended, the
        last line went to every watcher, and then all of them were closed. */
    method Finish(failed: bool, lastLine: Line)
      requires Valid()
      modifies this
      ensures Valid() && closed && watchers == [] && lines == old(lines) + [lastLine]
      ensures status == if failed then Failed else if old(canceled) then Interrupted else Done
      ensures channels == ClosedAll(SentTo(old(channels), old(watchers), lastLine), old(watchers))
    {
      if failed {
        Settle(Failed);
      } else if canceled {
        Settle(Interrupted);
      } else {
        Settle(Done);
      }
      Append(lastLine);
      Close();
    }
  }

  // ----- All goroutines together -----

  /** How far finish got.  `saw` is what wasCanceled answered. */
  datatype Finish =
    | NotFinishing | Checked(saw: bool) | Settled(saw: bool) | Told(saw: bool) | Over(saw: bool)
    | Broken | BrokenTold | BrokenOver

  /** A follower: the history it was given and how much of it went out, its channel with the line
      in hand and those still buffered, and what went out.  The last three are history: which later
      lines the channel accepted (by their number), how many of them went out, and whether a line
      was ever dropped because the channel was full. */
  datatype Follower = Follower(
    replay: seq<Line>, replayed: nat, buffer: seq<Line>, holding: Option<Line>, open: bool, out: seq<Line>,
    accepted: seq<nat>, passed: nat, full: bool)

  /** `stopped` counts calls of stop; `owed` are the cancels, and `armOwes` the arm, that are still
      to call it; `answers` what each cancel returned. */
  datatype State = State(
    shared: Shared, finish: Finish, stopped: nat, owed: set<Id>, armOwes: bool,
    answers: map<Id, bool>, followers: map<Id, Follower>)

  const Start := State(Fresh, NotFinishing, 0, {}, false, map[], map[])

  datatype Step =
    | Cancel(id: Id) | CancelStops(id: Id)
    | Arm | ArmStops
    | Append(line: Line)
    | FinishCheck | FinishSettle | FinishTell(line: Line) | FinishClose
    | FinishFails | FinishFailTell(line: Line) | FinishFailClose
    | Follow(id: Id) | Replay(id: Id) | Take(id: Id) | Pass(id: Id)

  predicate MayTake(f: Follower) {
    f.replayed == |f.replay| && f.holding.None? && f.buffer != []
  }

  predicate Enabled(s: State, step: Step) {
    match step
    case Cancel(id) => id !in s.answers
    case CancelStops(id) => id in s.owed
    case Arm => !s.shared.armed
    case ArmStops => s.armOwes
    case Append(_) => true
    case FinishCheck => s.finish.NotFinishing?
    case FinishSettle => s.finish.Checked?
    case FinishTell(_) => s.finish.Settled?
    case FinishClose => s.finish.Told?
    case FinishFails => s.finish.NotFinishing?
    case FinishFailTell(_) => s.finish.Broken?
    case FinishFailClose => s.finish.BrokenTold?
    case Follow(id) => id !in s.followers
    case Replay(id) => id in s.followers && s.followers[id].replayed < |s.followers[id].replay|
    case Take(id) => id in s.followers && MayTake(s.followers[id])
    case Pass(id) => id in s.followers && s.followers[id].holding.Some?
  }

  /** A line offered to a watcher: it is accepted unless the channel is full. */
  function Offered(f: Follower, line: Line, number: nat): Follower {
    if |f.buffer| < Capacity then f.(buffer := f.buffer + [line], accepted := f.accepted + [number])
    else f.(full := true)
  }

  function Told(s: State, line: Line): State {
    s.(shared := AppendLocked(s.shared, line),
       followers := map id | id in s.followers ::
         if id in s.shared.watchers then Offered(s.followers[id], line, |s.shared.lines|) else s.followers[id])
  }

  function Shut(s: State): State {
    s.(shared := CloseLocked(s.shared),
       followers := map id | id in s.followers ::
         if id in s.shared.watchers then s.followers[id].(open := false) else s.followers[id])
  }

  function ChannelsOf(s: State): map<Id, Channel> {
    map id | id in s.followers :: Channel(s.followers[id].buffer, s.followers[id].open)
  }

  /** The steps do to the shared part and to the channels what the methods do. */
  lemma {:induction false} StepsFollowTheMethods(s: State, line: Line)
    ensures Told(s, line).shared == AppendLocked(s.shared, line)
    ensures ChannelsOf(Told(s, line)) == SentTo(ChannelsOf(s), s.shared.watchers, line)
    ensures Shut(s).shared == CloseLocked(s.shared)
    ensures ChannelsOf(Shut(s)) == ClosedAll(ChannelsOf(s), s.shared.watchers)
  {
  }

  function NewFollower(s: Shared): Follower {
    Follower(s.lines, 0, [], None, !s.closed, [], [], 0, false)
  }

  function Replayed(f: Follower): Follower
    requires f.replayed < |f.replay|
  {
    f.(replayed := f.replayed + 1, out := f.out + [f.replay[f.replayed]])
  }

  function TookOne(f: Follower): Follower
    requires MayTake(f)
  {
    f.(holding := Some(f.buffer[0]), buffer := f.buffer[1..])
  }

  function PassedOn(f: Follower): Follower
    requires f.holding.Some?
  {
    f.(holding := None, out := f.out + [f.holding.value], passed := f.passed + 1)
  }

  function After(s: State, step: Step): State
    requires Enabled(s, step)
  {
    match step
    case Cancel(id) =>
      var (shared, first, stop) := CancelLocked(s.shared);
      s.(shared := shared, answers := s.answers[id := first], owed := if stop then s.owed + {id} else s.owed)
    case CancelStops(id) => s.(stopped := s.stopped + 1, owed := s.owed - {id})
    case Arm =>
      var (shared, stop) := ArmLocked(s.shared);
      s.(shared := shared, armOwes := stop)
    case ArmStops => s.(stopped := s.stopped + 1, armOwes := false)
    case Append(line) => Told(s, line)
    case FinishCheck => s.(finish := Checked(s.shared.canceled))
    case FinishSettle =>
      s.(shared := SettleLocked(s.shared, if s.finish.saw then Interrupted else Done), finish := Settled(s.finish.saw))
    case FinishTell(line) => Told(s, line).(finish := Finish.Told(s.finish.saw))
    case FinishClose => Shut(s).(finish := Over(s.finish.saw))
    case FinishFails => s.(shared := SettleLocked(s.shared, Failed), finish := Broken)
    case FinishFailTell(line) => Told(s, line).(finish := BrokenTold)
    case FinishFailClose => Shut(s).(finish := BrokenOver)
    case Follow(id) =>
      s.(shared := FollowLocked(s.shared, id), followers := s.followers[id := NewFollower(s.shared)])
    case Replay(id) => s.(followers := s.followers[id := Replayed(s.followers[id])])
    case Take(id) => s.(followers := s.followers[id := TookOne(s.followers[id])])
    case Pass(id) => s.(followers := s.followers[id := PassedOn(s.followers[id])])
  }

  /** Some interleaving: None as soon as a step is taken that its goroutine could not take. */
  function Run(steps: seq<Step>): Option<State> {
    if steps == [] then Some(Start) else
    match Run(steps[..|steps| - 1])
    case None => None
    case Some(s) => if Enabled(s, steps[|steps| - 1]) then Some(After(s, steps[|steps| - 1])) else None
  }

  // ----- What every step keeps -----

  /** A cancelled run that has something to stop was stopped, or someone is about to. */
  ghost predicate StopInv(s: State) {
    s.shared.canceled && s.shared.armed ==> s.stopped > 0 || s.armOwes || s.owed != {}
  }

  /** Until stop was called, every cancel still has to, unless the arm does. */
  ghost predicate OwedInv(s: State) {
    && (s.shared.armed && !s.armOwes && s.stopped == 0 ==> forall id :: id in s.answers ==> id in s.owed)
    && (s.answers != map[] ==> s.shared.canceled)
    && (s.shared.canceled ==> s.answers != map[])
  }

  ghost predicate AnswerInv(s: State) {
    && (forall id :: id in s.answers && s.answers[id] ==> s.shared.canceled)
    && (forall a, b :: a in s.answers && b in s.answers && s.answers[a] && s.answers[b] ==> a == b)
  }

  /** The status is what finish saw. */
  ghost predicate FinishInv(s: State) {
    match s.finish
    case NotFinishing => s.shared.status == Running
    case Checked(saw) => s.shared.status == Running && (saw ==> s.shared.canceled)
    case Broken => s.shared.status == Failed
    case BrokenTold => s.shared.status == Failed
    case BrokenOver => s.shared.status == Failed
    case _ => s.shared.status == if s.finish.saw then Interrupted else Done
  }

  ghost predicate WatchInv(s: State) {
    && Distinct(s.shared.watchers)
    && (forall id :: id in s.shared.watchers ==> id in s.followers)
    && (forall id :: id in s.followers ==> (s.followers[id].open <==> id in s.shared.watchers))
    && (s.shared.closed ==> s.shared.watchers == [])
  }

  ghost function Picked(lines: seq<Line>, numbers: seq<nat>): (r: seq<Line>)
    requires forall k :: 0 <= k < |numbers| ==> numbers[k] < |lines|
    ensures |r| == |numbers| && forall k :: 0 <= k < |numbers| ==> r[k] == lines[numbers[k]]
  {
    seq(|numbers|, k requires 0 <= k < |numbers| => lines[numbers[k]])
  }

  /** Later lines, in order and none twice; all of them as long as the channel never was full. */
  ghost predicate NumbersOk(f: Follower, lines: seq<Line>) {
    && (forall k :: 0 <= k < |f.accepted| ==> |f.replay| <= f.accepted[k] < |lines|)
    && (forall j, k :: 0 <= j < k < |f.accepted| ==> f.accepted[j] < f.accepted[k])
    && (!f.full ==> forall k :: 0 <= k < |f.accepted| ==> f.accepted[k] == |f.replay| + k)
    && (!f.full && f.open ==> |f.accepted| == |lines| - |f.replay|)
  }

  ghost predicate Within(numbers: seq<nat>, n: nat) {
    forall k :: 0 <= k < |numbers| ==> numbers[k] < n
  }

  function InHand(f: Follower): nat { if f.holding.Some? then 1 else 0 }

  /** What went out is the history and then the accepted lines; the rest is in hand or buffered. */
  ghost predicate FlowOk(f: Follower, lines: seq<Line>)
    requires Within(f.accepted, |lines|)
  {
    && |f.buffer| <= Capacity && f.replayed <= |f.replay|
    && f.passed + InHand(f) + |f.buffer| == |f.accepted|
    && (f.passed + InHand(f) > 0 ==> f.replayed == |f.replay|)
    && f.out == f.replay[..f.replayed] + Picked(lines, f.accepted[..f.passed])
    && (f.holding.Some? ==> f.holding.value == lines[f.accepted[f.passed]])
    && f.buffer == Picked(lines, f.accepted[f.passed + InHand(f)..])
  }

  ghost predicate FollowerOk(f: Follower, lines: seq<Line>) {
    f.replay <= lines && Within(f.accepted, |lines|) && NumbersOk(f, lines) && FlowOk(f, lines)
  }

  ghost predicate FollowersInv(s: State) {
    forall id :: id in s.followers ==> FollowerOk(s.followers[id], s.shared.lines)
  }

  lemma OfferedNumbers(f: Follower, lines: seq<Line>, line: Line)
    requires f.replay <= lines && NumbersOk(f, lines) && f.open
    ensures NumbersOk(Offered(f, line, |lines|), lines + [line])
  {
  }

  /** Lines already there stay the same lines. */
  lemma PickedStays(lines: seq<Line>, line: Line, numbers: seq<nat>)
    requires Within(numbers, |lines|)
    ensures Within(numbers, |lines + [line]|) && Picked(lines + [line], numbers) == Picked(lines, numbers)
  {
  }

  lemma FlowStays(f: Follower, lines: seq<Line>, line: Line)
    requires Within(f.accepted, |lines|) && FlowOk(f, lines)
    ensures Within(f.accepted, |lines + [line]|) && FlowOk(f, lines + [line])
  {
    PickedStays(lines, line, f.accepted[..f.passed]);
    PickedStays(lines, line, f.accepted[f.passed + InHand(f)..]);
    hide Picked;
  }

  lemma OfferedFlow(f: Follower, lines: seq<Line>, line: Line)
    requires Within(f.accepted, |lines|) && FlowOk(f, lines)
    ensures Within(Offered(f, line, |lines|).accepted, |lines + [line]|)
    ensures FlowOk(Offered(f, line, |lines|), lines + [line])
  {
    FlowStays(f, lines, line);
    var more, g, h := lines + [line], Offered(f, line, |lines|), f.passed + InHand(f);
    if |f.buffer| < Capacity {
      assert more[|lines|] == line;
      PickedOneMore(more, f.accepted[h..], |lines|);
      hide Picked;
      assert g.accepted == f.accepted + [|lines|];
      assert g.accepted[..g.passed] == f.accepted[..f.passed];
      assert g.accepted[h..] == f.accepted[h..] + [|lines|];
    }
  }

  lemma PickedOneMore(lines: seq<Line>, numbers: seq<nat>, n: nat)
    requires Within(numbers, |lines|) && n < |lines|
    ensures Within(numbers + [n], |lines|)
    ensures Picked(lines, numbers + [n]) == Picked(lines, numbers) + [lines[n]]
  {
  }

  lemma OfferedIsOk(f: Follower, lines: seq<Line>, line: Line)
    requires FollowerOk(f, lines) && f.open
    ensures FollowerOk(Offered(f, line, |lines|), lines + [line])
  {
    hide FlowOk, NumbersOk;
    OfferedNumbers(f, lines, line);
    OfferedFlow(f, lines, line);
  }

  lemma MoreLinesAreOk(f: Follower, lines: seq<Line>, line: Line)
    requires FollowerOk(f, lines) && !f.open
    ensures FollowerOk(f, lines + [line])
  {
    hide FlowOk;
    FlowStays(f, lines, line);
  }

  lemma ReplayingIsOk(f: Follower, lines: seq<Line>)
    requires FollowerOk(f, lines) && f.replayed < |f.replay|
    ensures FollowerOk(Replayed(f), lines)
  {
    assert f.replay[..f.replayed + 1] == f.replay[..f.replayed] + [f.replay[f.replayed]];
    assert f.accepted[..0] == [] && Picked(lines, []) == [];
  }

  lemma TakingIsOk(f: Follower, lines: seq<Line>)
    requires FollowerOk(f, lines) && MayTake(f)
    ensures FollowerOk(TookOne(f), lines)
  {
    assert f.accepted[f.passed + 1..] == f.accepted[f.passed..][1..];
    assert Picked(lines, f.accepted[f.passed + 1..]) == Picked(lines, f.accepted[f.passed..])[1..];
  }

  lemma PassingIsOk(f: Follower, lines: seq<Line>)
    requires FollowerOk(f, lines) && f.holding.Some?
    ensures FollowerOk(PassedOn(f), lines)
  {
    assert f.accepted[..f.passed + 1] == f.accepted[..f.passed] + [f.accepted[f.passed]];
    PickedOneMore(lines, f.accepted[..f.passed], f.accepted[f.passed]);
    hide Picked, NumbersOk;
  }

  lemma ShutIsOk(f: Follower, lines: seq<Line>)
    requires FollowerOk(f, lines)
    ensures FollowerOk(f.(open := false), lines)
  {
    hide Picked;
  }

  lemma NewIsOk(s: Shared)
    ensures FollowerOk(NewFollower(s), s.lines)
  {
  }

  // ----- Every interleaving -----

  ghost predicate Inv(s: State) {
    StopInv(s) && OwedInv(s) && AnswerInv(s) && FinishInv(s) && WatchInv(s) && FollowersInv(s)
  }

  lemma TellingKeeps(s: State, line: Line)
    requires WatchInv(s) && FollowersInv(s)
    ensures WatchInv(Told(s, line)) && FollowersInv(Told(s, line))
  {
    hide FollowerOk;
    var t := Told(s, line);
    forall id | id in t.followers ensures FollowerOk(t.followers[id], t.shared.lines) {
      if id in s.shared.watchers {
        OfferedIsOk(s.followers[id], s.shared.lines, line);
      } else {
        MoreLinesAreOk(s.followers[id], s.shared.lines, line);
      }
    }
  }

  lemma ShuttingKeeps(s: State)
    requires WatchInv(s) && FollowersInv(s)
    ensures WatchInv(Shut(s)) && FollowersInv(Shut(s))
  {
    hide FollowerOk;
    var t := Shut(s);
    forall id | id in t.followers ensures FollowerOk(t.followers[id], t.shared.lines) {
      ShutIsOk(s.followers[id], s.shared.lines);
    }
  }

  lemma FollowingKeeps(s: State, id: Id)
    requires WatchInv(s) && FollowersInv(s) && id !in s.followers
    ensures WatchInv(After(s, Follow(id))) && FollowersInv(After(s, Follow(id)))
  {
    hide FollowerOk;
    NewIsOk(s.shared);
    if !s.shared.closed {
      assert id !in s.shared.watchers;
    }
  }

  lemma FollowerStepKeeps(s: State, id: Id, f: Follower)
    requires WatchInv(s) && FollowersInv(s) && id in s.followers
    requires FollowerOk(f, s.shared.lines) && f.open == s.followers[id].open
    ensures var t := s.(followers := s.followers[id := f]); WatchInv(t) && FollowersInv(t)
  {
    hide FollowerOk;
  }

  lemma FollowerIsOk(s: State, id: Id)
    requires FollowersInv(s) && id in s.followers
    ensures FollowerOk(s.followers[id], s.shared.lines)
  {
  }

  lemma OthersKeep(s: State, t: State)
    requires WatchInv(s) && FollowersInv(s) && t.followers == s.followers
    requires t.shared.lines == s.shared.lines && t.shared.watchers == s.shared.watchers
    requires t.shared.closed == s.shared.closed
    ensures WatchInv(t) && FollowersInv(t)
  {
    hide FollowerOk;
  }

  /** Watchers and followers through every step. */
  lemma StepKeepsFollowers(s: State, step: Step)
    requires Enabled(s, step) && WatchInv(s) && FollowersInv(s)
    ensures WatchInv(After(s, step)) && FollowersInv(After(s, step))
  {
    hide FollowerOk, WatchInv, FollowersInv;
    match step
    case Append(line) => TellingKeeps(s, line);
    case FinishTell(line) =>
      TellingKeeps(s, line);
      OthersKeep(Told(s, line), After(s, step));
    case FinishFailTell(line) =>
      TellingKeeps(s, line);
      OthersKeep(Told(s, line), After(s, step));
    case FinishClose =>
      ShuttingKeeps(s);
      OthersKeep(Shut(s), After(s, step));
    case FinishFailClose =>
      ShuttingKeeps(s);
      OthersKeep(Shut(s), After(s, step));
    case Follow(id) => FollowingKeeps(s, id);
    case Replay(id) =>
      FollowerIsOk(s, id);
      ReplayingIsOk(s.followers[id], s.shared.lines);
      FollowerStepKeeps(s, id, Replayed(s.followers[id]));
    case Take(id) =>
      FollowerIsOk(s, id);
      TakingIsOk(s.followers[id], s.shared.lines);
      FollowerStepKeeps(s, id, TookOne(s.followers[id]));
    case Pass(id) =>
      FollowerIsOk(s, id);
      PassingIsOk(s.followers[id], s.shared.lines);
      FollowerStepKeeps(s, id, PassedOn(s.followers[id]));
    case _ => OthersKeep(s, After(s, step));
  }

  lemma StepKeepsOwed(s: State, step: Step)
    requires Enabled(s, step) && OwedInv(s)
    ensures OwedInv(After(s, step))
  {
    var t := After(s, step);
    match step
    case Cancel(id) => assert id in t.answers;
    case _ => assert t.answers == s.answers;
  }

  /** The cancel, arm and finish protocol through every step. */
  lemma StepKeepsProtocol(s: State, step: Step)
    requires Enabled(s, step) && StopInv(s) && AnswerInv(s) && FinishInv(s)
    ensures StopInv(After(s, step)) && AnswerInv(After(s, step)) && FinishInv(After(s, step))
  {
    hide StopInv, AnswerInv, FinishInv;
    StepKeepsStop(s, step);
    StepKeepsAnswers(s, step);
    StepKeepsFinish(s, step);
  }

  lemma StepKeepsStop(s: State, step: Step)
    requires Enabled(s, step) && StopInv(s)
    ensures StopInv(After(s, step))
  {
    match step
    case Cancel(id) => assert s.shared.armed ==> id in After(s, step).owed;
    case _ =>
  }

  lemma StepKeepsAnswers(s: State, step: Step)
    requires Enabled(s, step) && AnswerInv(s)
    ensures AnswerInv(After(s, step))
  {
  }

  lemma StepKeepsFinish(s: State, step: Step)
    requires Enabled(s, step) && FinishInv(s)
    ensures FinishInv(After(s, step))
  {
  }

  lemma {:induction false} EveryRunKeepsInv(steps: seq<Step>)
    requires Run(steps).Some?
    ensures Inv(Run(steps).value)
  {
    hide After, Enabled, StopInv, OwedInv, AnswerInv, FinishInv, WatchInv, FollowersInv;
    if steps == [] {
      StartIsFine();
    } else {
      var before, last := steps[..|steps| - 1], steps[|steps| - 1];
      EveryRunKeepsInv(before);
      StepKeepsFollowers(Run(before).value, last);
      StepKeepsOwed(Run(before).value, last);
      StepKeepsProtocol(Run(before).value, last);
    }
  }

  lemma StartIsFine()
    ensures Inv(Start)
  {
  }

  /** Once a cancel and the arm are both through, stop has been called, whatever other cancels still
      have to do; and it has once nobody still has to call it. */
  lemma {:induction false} CancelledRunsAreStopped(steps: seq<Step>, id: Id)
    requires Run(steps).Some?
    ensures var s := Run(steps).value;
            && (id in s.answers && id !in s.owed && s.shared.armed && !s.armOwes ==> s.stopped > 0)
            && (s.shared.canceled && s.shared.armed && s.owed == {} && !s.armOwes ==> s.stopped > 0)
  {
    EveryRunKeepsInv(steps);
  }

  /** However many cancels race, at most one is told it was the one. */
  lemma {:induction false} OneCancelWins(steps: seq<Step>, a: Id, b: Id)
    requires Run(steps).Some? && a in Run(steps).value.answers && b in Run(steps).value.answers
    requires Run(steps).value.answers[a] && Run(steps).value.answers[b]
    ensures a == b
  {
    EveryRunKeepsInv(steps);
  }

  /** A channel misses a line exactly when 64 are waiting in it, and takes every other line at its end. */
  lemma {:induction false} OnlyAFullChannelMisses(f: Follower, line: Line, number: nat)
    ensures var g := Offered(f, line, number);
            && (|f.buffer| < 64 ==> g.buffer == f.buffer + [line] && g.full == f.full)
            && (|f.buffer| >= 64 ==> g.buffer == f.buffer && g.full)
  {
  }

  /** Every channel a line is sent to, or that is closed, is open at that moment, and listed once:
      no line is sent on a closed channel and no channel is closed twice. */
  lemma {:induction false} WatchersAreOpen(steps: seq<Step>)
    requires Run(steps).Some?
    ensures var s := Run(steps).value;
            && (forall id :: id in s.shared.watchers ==> id in s.followers && s.followers[id].open)
            && Distinct(s.shared.watchers)
            && (s.shared.closed ==> forall id :: id in s.followers ==> !s.followers[id].open)
  {
    hide FollowersInv;
    EveryRunKeepsInv(steps);
  }

  /** What is left of a stream whose channel is closed: the history it was given and the lines its
      channel accepted are settled, and only how much of them went out can change. */
  ghost predicate Sealed(f: Follower, g: Follower) {
    !f.open && !g.open && g.replay == f.replay && g.accepted == f.accepted && g.full == f.full
  }

  lemma StepKeepsSealed(s: State, step: Step, id: Id)
    requires Enabled(s, step) && WatchInv(s) && id in s.followers && !s.followers[id].open
    ensures id in After(s, step).followers && Sealed(s.followers[id], After(s, step).followers[id])
  {
    hide Distinct;
  }

  /** A closed channel stays closed, and accepts nothing more. */
  lemma {:induction false} ClosedChannelsStayClosed(steps: seq<Step>, more: seq<Step>, id: Id)
    requires Run(steps).Some? && Run(steps + more).Some?
    requires id in Run(steps).value.followers && !Run(steps).value.followers[id].open
    ensures id in Run(steps + more).value.followers
    ensures Sealed(Run(steps).value.followers[id], Run(steps + more).value.followers[id])
  {
    hide After, Enabled, WatchInv, FollowersInv;
    if more == [] {
      assert steps + more == steps;
    } else {
      var all, fewer := steps + more, more[..|more| - 1];
      assert all[..|all| - 1] == steps + fewer;
      ClosedChannelsStayClosed(steps, fewer, id);
      EveryRunKeepsInv(steps + fewer);
      StepKeepsSealed(Run(steps + fewer).value, more[|more| - 1], id);
    }
  }

  /** A follower sees the history before it connected, then later lines in order and none twice;
      all of them while its channel is open, unless the channel was full at some time. */
  lemma {:induction false} FollowersSeeTheRun(steps: seq<Step>, id: Id)
    requires Run(steps).Some? && id in Run(steps).value.followers
    ensures var s := Run(steps).value;
            var f := s.followers[id];
            && Within(f.accepted, |s.shared.lines|) && f.passed <= |f.accepted| && f.replayed <= |f.replay|
            && f.replay <= s.shared.lines
            && f.out == f.replay[..f.replayed] + Picked(s.shared.lines, f.accepted[..f.passed])
            && (f.passed > 0 ==> f.replayed == |f.replay|)
            && (forall j, k :: 0 <= j < k < |f.accepted| ==> |f.replay| <= f.accepted[j] < f.accepted[k])
            && (!f.full ==> f.out <= s.shared.lines)
            && (!f.full && f.open ==> |f.replay| + |f.accepted| == |s.shared.lines|)
  {
    hide StopInv, AnswerInv, FinishInv, WatchInv, Run;
    EveryRunKeepsInv(steps);
    var s := Run(steps).value;
    var f := s.followers[id];
    assert FollowerOk(f, s.shared.lines);
    if !f.full { CompleteOut(f, s.shared.lines); }
  }

  // ----- The end of a stream -----

  lemma LinesAfter(s: State, step: Step)
    requires Enabled(s, step)
    ensures s.shared.lines <= After(s, step).shared.lines
  {
  }

  /** Lines are only ever added. */
  lemma {:induction false} LinesOnlyGrow(steps: seq<Step>, more: seq<Step>)
    requires Run(steps).Some? && Run(steps + more).Some?
    ensures Run(steps).value.shared.lines <= Run(steps + more).value.shared.lines
  {
    hide After, Enabled;
    if more == [] {
      assert steps + more == steps;
    } else {
      var all, fewer := steps + more, more[..|more| - 1];
      assert all[..|all| - 1] == steps + fewer;
      LinesOnlyGrow(steps, fewer);
      LinesAfter(Run(steps + fewer).value, more[|more| - 1]);
    }
  }

  /** Everything the follower was given or its channel accepted went out. */
  predicate Drained(f: Follower) { f.replayed == |f.replay| && f.holding.None? && f.buffer == [] }

  lemma DrainedOut(f: Follower, lines: seq<Line>)
    requires FollowerOk(f, lines) && Drained(f)
    ensures f.out == f.replay + Picked(lines, f.accepted)
  {
    assert f.accepted[..f.passed] == f.accepted;
  }

  predicate Closes(step: Step) { step == FinishClose || step == FinishFailClose }

  lemma ClosingSeals(s: State, step: Step, id: Id)
    requires Enabled(s, step) && Closes(step) && WatchInv(s) && id in s.followers
    ensures After(s, step).shared.lines == s.shared.lines
    ensures id in After(s, step).followers && Sealed(s.followers[id].(open := false), After(s, step).followers[id])
  {
  }

  lemma RunOne(steps: seq<Step>, step: Step)
    requires Run(steps + [step]).Some?
    ensures Run(steps).Some? && Enabled(Run(steps).value, step)
    ensures Run(steps + [step]) == Some(After(Run(steps).value, step))
  {
    assert (steps + [step])[..|steps|] == steps;
  }

  /** The end of a stream: when the run is closed and everything went out, a follower that was
      connected saw exactly the lines the run had when it closed, the last one included, unless its
      channel was full at some time. */
  lemma {:induction false} EndedStreamsAreComplete(before: seq<Step>, close: Step, more: seq<Step>, id: Id)
    requires Closes(close) && Run(before).Some? && Run(before + [close]).Some? && Run(before + [close] + more).Some?
    requires id in Run(before).value.followers && Run(before).value.followers[id].open
    ensures id in Run(before + [close] + more).value.followers
    ensures var f := Run(before + [close] + more).value.followers[id];
            Drained(f) && !f.full ==> f.out == Run(before).value.shared.lines
  {
    hide After, Enabled, FlowOk, StopInv, AnswerInv, FinishInv, WatchInv;
    var closed := before + [close];
    var s, t := Run(before).value, Run(closed + more).value;
    RunOne(before, close);
    EveryRunKeepsInv(before);
    EveryRunKeepsInv(closed + more);
    ClosingSeals(s, close, id);
    ClosedChannelsStayClosed(closed, more, id);
    LinesOnlyGrow(closed, more);
    var f, g := s.followers[id], t.followers[id];
    assert FollowerOk(f, s.shared.lines) && FollowerOk(g, t.shared.lines);
    if Drained(g) && !g.full {
      DrainedOut(g, t.shared.lines);
      WholeRun(g, s.shared.lines, t.shared.lines);
    }
  }

  lemma WholeRun(f: Follower, lines: seq<Line>, more: seq<Line>)
    requires f.replay <= lines <= more && Within(f.accepted, |more|)
    requires forall k :: 0 <= k < |f.accepted| ==> f.accepted[k] == |f.replay| + k
    requires |f.accepted| == |lines| - |f.replay|
    ensures f.replay + Picked(more, f.accepted) == lines
  {
    PickedRun(more, f.accepted, |f.replay|);
    hide Picked;
    if f.accepted != [] { assert more[|f.replay|..|lines|] == lines[|f.replay|..]; }
  }

  /** A follower that connects after the run was closed sees the history and nothing else. */
  lemma {:induction false} LateFollowersSeeTheHistory(before: seq<Step>, more: seq<Step>, id: Id)
    requires Run(before).Some? && Run(before + [Follow(id)]).Some? && Run(before + [Follow(id)] + more).Some?
    requires Run(before).value.shared.closed
    ensures id in Run(before + [Follow(id)] + more).value.followers
    ensures var f := Run(before + [Follow(id)] + more).value.followers[id];
            && f.out <= Run(before).value.shared.lines
            && (Drained(f) ==> f.out == Run(before).value.shared.lines)
  {
    hide Enabled, StopInv, AnswerInv, FinishInv, WatchInv;
    var followed := before + [Follow(id)];
    RunOne(before, Follow(id));
    hide After;
    EveryRunKeepsInv(followed + more);
    ClosedChannelsStayClosed(followed, more, id);
    var t := Run(followed + more).value;
    assert FollowerOk(t.followers[id], t.shared.lines);
  }

  lemma CompleteOut(f: Follower, lines: seq<Line>)
    requires FollowerOk(f, lines) && !f.full
    ensures f.out <= lines
  {
    var picked := Picked(lines, f.accepted[..f.passed]);
    PickedRun(lines, f.accepted[..f.passed], |f.replay|);
    hide Picked;
    if f.passed == 0 {
      assert picked == [];
      assert f.out == f.replay[..f.replayed];
    } else {
      assert f.out == f.replay + picked;
      assert f.out == lines[..|f.replay| + f.passed];
    }
  }

  lemma PickedRun(lines: seq<Line>, numbers: seq<nat>, start: nat)
    requires Within(numbers, |lines|) && forall k :: 0 <= k < |numbers| ==> numbers[k] == start + k
    ensures start + |numbers| <= |lines| || numbers == []
    ensures numbers != [] ==> Picked(lines, numbers) == lines[start..start + |numbers|]
  {
    if numbers != [] {
      assert numbers[|numbers| - 1] == start + |numbers| - 1;
    }
  }

  // ----- What finish decides -----

  ghost predicate CancelledBefore(steps: seq<Step>, n: nat) {
    exists i :: 0 <= i < n && i < |steps| && steps[i].Cancel?
  }

  /** The run is marked cancelled exactly when a cancel happened. */
  lemma {:induction false} CancelledMeansCancel(steps: seq<Step>)
    requires Run(steps).Some?
    ensures Run(steps).value.shared.canceled <==> CancelledBefore(steps, |steps|)
  {
    if steps != [] {
      var before, last := steps[..|steps| - 1], steps[|steps| - 1];
      CancelledMeansCancel(before);
      CanceledAfter(Run(before).value, last);
      hide After, Enabled;
      assert last.Cancel? ==> steps[|steps| - 1].Cancel?;
      assert CancelledBefore(before, |before|) ==> CancelledBefore(steps, |steps|) by {
        if CancelledBefore(before, |before|) {
          var i :| 0 <= i < |before| && before[i].Cancel?;
          assert steps[i].Cancel?;
        }
      }
      if CancelledBefore(steps, |steps|) && !last.Cancel? {
        var i :| 0 <= i < |steps| && steps[i].Cancel?;
        assert before[i].Cancel?;
      }
    }
  }

  /** A step that ends the run, one way or another. */
  predicate Settles(step: Step) { step == FinishSettle || step == FinishFails }

  ghost predicate SettledBefore(steps: seq<Step>) { exists i :: 0 <= i < |steps| && Settles(steps[i]) }

  lemma StatusAfter(s: State, step: Step)
    requires Enabled(s, step) && FinishInv(s)
    ensures After(s, step).shared.status == Running <==> s.shared.status == Running && !Settles(step)
  {
  }

  lemma {:induction false} RunningMeansNotSettled(steps: seq<Step>)
    requires Run(steps).Some?
    ensures Run(steps).value.shared.status == Running <==> !SettledBefore(steps)
  {
    hide After, Enabled;
    if steps != [] {
      var before, last := steps[..|steps| - 1], steps[|steps| - 1];
      RunningMeansNotSettled(before);
      EveryRunKeepsInv(before);
      StatusAfter(Run(before).value, last);
      hide Inv;
      assert steps == before + [last];
      if SettledBefore(before) {
        var i :| 0 <= i < |before| && Settles(before[i]);
        assert Settles(steps[i]);
      }
      assert Settles(last) ==> Settles(steps[|before|]);
    }
  }

  /** A cancel is told it was the one exactly when it is the first, of a run that has not ended. */
  lemma {:induction false} CancelAnswers(steps: seq<Step>, id: Id)
    requires Run(steps).Some? && Enabled(Run(steps).value, Cancel(id))
    ensures var t := After(Run(steps).value, Cancel(id));
            && id in t.answers
            && (t.answers[id] <==> !CancelledBefore(steps, |steps|) && !SettledBefore(steps))
  {
    CancelledMeansCancel(steps);
    RunningMeansNotSettled(steps);
    hide Run, CancelledBefore, SettledBefore;
  }

  lemma CanceledAfter(s: State, step: Step)
    requires Enabled(s, step)
    ensures After(s, step).shared.canceled == (s.shared.canceled || step.Cancel?)
  {
  }

  /** Finish looks once; what it saw is whether a cancel came before that look. */
  ghost predicate SawAt(s: State, steps: seq<Step>, n: nat) {
    (s.finish.Checked? || s.finish.Settled? || s.finish.Told? || s.finish.Over?) &&
    n < |steps| && steps[n] == FinishCheck && (s.finish.saw <==> CancelledBefore(steps, n))
  }

  lemma FinishAfter(s: State, step: Step)
    requires Enabled(s, step)
    ensures var t := After(s, step);
            && (step == FinishCheck ==> t.finish == Checked(s.shared.canceled) && s.finish == NotFinishing)
            && (t.finish.Checked? && step != FinishCheck ==> t.finish == s.finish)
            && (t.finish.Settled? || t.finish.Told? || t.finish.Over? ==>
                  && (s.finish.Checked? || s.finish.Settled? || s.finish.Told? || s.finish.Over?)
                  && s.finish.saw == t.finish.saw)
  {
  }

  lemma {:induction false} FinishLooksOnce(steps: seq<Step>) returns (n: nat)
    requires Run(steps).Some?
    requires var f := Run(steps).value.finish; f.Checked? || f.Settled? || f.Told? || f.Over?
    ensures SawAt(Run(steps).value, steps, n)
  {
    var before, last := steps[..|steps| - 1], steps[|steps| - 1];
    var s := Run(before).value;
    FinishAfter(s, last);
    if last == FinishCheck {
      n := |before|;
      CancelledMeansCancel(before);
      SamePrefix(before, steps, n);
    } else {
      n := FinishLooksOnce(before);
      SamePrefix(before, steps, n);
    }
  }

  lemma SamePrefix(before: seq<Step>, steps: seq<Step>, n: nat)
    requires before <= steps && n <= |before|
    ensures CancelledBefore(before, n) <==> CancelledBefore(steps, n)
  {
    if CancelledBefore(before, n) {
      var i :| 0 <= i < n && i < |before| && before[i].Cancel?;
      assert steps[i].Cancel?;
    }
    if CancelledBefore(steps, n) {
      var i :| 0 <= i < n && i < |steps| && steps[i].Cancel?;
      assert before[i].Cancel?;
    }
  }

  /** A run that finishes without error ends as done exactly when no cancel came before finish
      looked; a cancel in time is never reported as done. */
  lemma {:induction false} DoneMeansNotCancelledInTime(steps: seq<Step>) returns (n: nat)
    requires Run(steps).Some?
    requires var f := Run(steps).value.finish; f.Settled? || f.Told? || f.Over?
    ensures n < |steps| && steps[n] == FinishCheck
    ensures Run(steps).value.shared.status == if CancelledBefore(steps, n) then Interrupted else Done
  {
    EveryRunKeepsInv(steps);
    n := FinishLooksOnce(steps);
  }
}
