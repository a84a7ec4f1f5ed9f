/** Polling until shutdown: any number of poller loops and one StopPollers, interleaved in any way and
    talking through one-slot channels. */
module Poller {
  import opened Protocol

  /** A polled task; what is in it does not matter here. */
  type Polled(==, !new)

  // ----- registration -----

  class PollerShutdownManager {
    /** The registered pollers' channel pairs, numbered, by name. */
    var registeredPollers: map<string, nat>

    constructor ()
      ensures registeredPollers == map[]
    {
      registeredPollers := map[];
    }

    method Register(name: string, channels: nat)
      modifies this
      ensures registeredPollers == old(registeredPollers)[name := channels]
    {
      registeredPollers := registeredPollers[name := channels];
    }

    method Deregister(name: string)
      modifies this
      ensures registeredPollers == old(registeredPollers) - {name}
    {
      registeredPollers := registeredPollers - {name};
    }
  }

  // ----- the transition system -----

  /** Where a poller's loop is: choosing between stop and poll, polling, holding a polled task, running
      the callback, sending its acknowledgement, or gone. */
  datatype Place = AtSelect | Polling | Holding(task: Polled) | InCallback | Acking | Left {
    predicate InLoop() {
      !Acking? && !Left?
    }
  }

  /** `stop` and `ack` count what the channels hold. The rest is history: the tasks obtained by polls, the
      tasks given to the callback, and the number of polls begun. */
  datatype Loop = Loop(
    name: string,
    place: Place,
    stop: nat,
    ack: nat,
    obtained: seq<Polled>,
    given: seq<Polled>,
    polls: nat)

  /** StopPollers: both of its loops pick the registered pollers in any order and then may block. */
  datatype Manager =
    | Idle
    | Sending(todo: set<string>)
    | SendingTo(name: string, todo: set<string>)
    | Awaiting(todo: set<string>)
    | AwaitingFrom(name: string, todo: set<string>)
    | Returned

  datatype System = System(registered: map<string, nat>, loops: seq<Loop>, manager: Manager)

  datatype Move =
    | CallStop
    | PickSend(name: string)
    | Send
    | FinishSending
    | PickAwait(name: string)
    | Receive
    | Return
    | Select(i: nat)
    | PollReturns(i: nat, result: Option<Polled>)
    | StartCallback(i: nat, task: Polled)
    | CallbackReturns(i: nat)
    | Acknowledge(i: nat)

  const CAPACITY := 1

  /** A send needs a free slot, a receive a filled one. */
  predicate Enabled(s: System, m: Move) {
    match m
    case CallStop => s.manager.Idle?
    case PickSend(name) => s.manager.Sending? && name in s.manager.todo
    case Send => s.manager.SendingTo? && s.manager.name in s.registered
                 && s.registered[s.manager.name] < |s.loops| && s.loops[s.registered[s.manager.name]].stop < CAPACITY
    case FinishSending => s.manager.Sending? && s.manager.todo == {}
    case PickAwait(name) => s.manager.Awaiting? && name in s.manager.todo
    case Receive => s.manager.AwaitingFrom? && s.manager.name in s.registered
                    && s.registered[s.manager.name] < |s.loops| && s.loops[s.registered[s.manager.name]].ack > 0
    case Return => s.manager.Awaiting? && s.manager.todo == {}
    case Select(i) => i < |s.loops| && s.loops[i].place.AtSelect?
    case PollReturns(i, _) => i < |s.loops| && s.loops[i].place.Polling?
    case StartCallback(i, task) => i < |s.loops| && s.loops[i].place == Holding(task)
    case CallbackReturns(i) => i < |s.loops| && s.loops[i].place.InCallback?
    case Acknowledge(i) => i < |s.loops| && s.loops[i].place.Acking? && s.loops[i].ack < CAPACITY
  }

  function Apply(s: System, m: Move): System
    requires Enabled(s, m)
  {
    match m
    case CallStop => s.(manager := Sending(s.registered.Keys))
    case PickSend(name) => s.(manager := SendingTo(name, s.manager.todo - {name}))
    case Send =>
      var i := s.registered[s.manager.name];
      s.(loops := s.loops[i := s.loops[i].(stop := s.loops[i].stop + 1)], manager := Sending(s.manager.todo))
    case FinishSending => s.(manager := Awaiting(s.registered.Keys))
    case PickAwait(name) => s.(manager := AwaitingFrom(name, s.manager.todo - {name}))
    case Receive =>
      var i := s.registered[s.manager.name];
      s.(loops := s.loops[i := s.loops[i].(ack := s.loops[i].ack - 1)], manager := Awaiting(s.manager.todo))
    case Return => s.(manager := Returned)
    case Select(i) =>
      var l := s.loops[i];
      s.(loops := s.loops[i := if l.stop > 0 then l.(stop := l.stop - 1, place := Acking)
                               else l.(place := Polling, polls := l.polls + 1)])
    case PollReturns(i, result) =>
      var l := s.loops[i];
      s.(loops := s.loops[i :=
           if result.Some? then l.(place := Holding(result.value), obtained := l.obtained + [result.value])
           else l.(place := AtSelect)])
    case StartCallback(i, task) =>
      var l := s.loops[i];
      s.(loops := s.loops[i := l.(place := InCallback, given := l.given + [task])])
    case CallbackReturns(i) => s.(loops := s.loops[i := s.loops[i].(place := AtSelect)])
    case Acknowledge(i) => s.(loops := s.loops[i := s.loops[i].(place := Left, ack := s.loops[i].ack + 1)])
  }

  predicate Legal(s: System, moves: seq<Move>)
    decreases |moves|
  {
    moves == [] || (Enabled(s, moves[0]) && Legal(Apply(s, moves[0]), moves[1..]))
  }

  function After(s: System, moves: seq<Move>): System
    requires Legal(s, moves)
    decreases |moves|
  {
    if moves == [] then s else After(Apply(s, moves[0]), moves[1..])
  }

  /** All pollers registered under distinct names and in their loops, before StopPollers is called. */
  ghost predicate Initial(s: System) {
    && s.manager == Idle && NamesMatch(s)
    && forall i :: 0 <= i < |s.loops| ==>
         s.loops[i].place == AtSelect && s.loops[i].stop == 0 && s.loops[i].ack == 0
         && s.loops[i].obtained == [] && s.loops[i].given == []
  }

  ghost predicate NamesMatch(s: System) {
    && (forall i :: 0 <= i < |s.loops| ==> s.loops[i].name in s.registered && s.registered[s.loops[i].name] == i)
    && (forall name :: name in s.registered ==>
          s.registered[name] < |s.loops| && s.loops[s.registered[name]].name == name)
  }

  /** What registering the loops one after the other, each with its own channels, leaves in the manager. */
  function RegisteredInOrder(loops: seq<Loop>): map<string, nat> {
    if loops == [] then map[]
    else RegisteredInOrder(loops[..|loops| - 1])[loops[|loops| - 1].name := |loops| - 1]
  }

  /** A name stands for the last loop registered under it. */
  ghost predicate StandsForLast(loops: seq<Loop>, r: map<string, nat>, name: string) {
    if name in r then
      r[name] < |loops| && loops[r[name]].name == name && forall i :: r[name] < i < |loops| ==> loops[i].name != name
    else
      forall i :: 0 <= i < |loops| ==> loops[i].name != name
  }

  lemma {:induction false} LastRegistrationCounts(loops: seq<Loop>, name: string)
    ensures StandsForLast(loops, RegisteredInOrder(loops), name)
    decreases |loops|
  {
    if loops != [] {
      var n := |loops| - 1;
      var r := RegisteredInOrder(loops[..n]);
      LastRegistrationCounts(loops[..n], name);
      assert forall i :: 0 <= i < n ==> loops[i] == loops[..n][i];
    }
  }

  ghost predicate DistinctNames(loops: seq<Loop>) {
    forall i, j :: 0 <= i < j < |loops| ==> loops[i].name != loops[j].name
  }

  /** The manager can reach every loop exactly when no two were registered under the same name. */
  lemma NamesMatchIffDistinct(loops: seq<Loop>)
    ensures NamesMatch(System(RegisteredInOrder(loops), loops, Idle)) <==> DistinctNames(loops)
  {
    hide RegisteredInOrder;
    var r := RegisteredInOrder(loops);
    var s := System(r, loops, Idle);
    if NamesMatch(s) {
      forall i, j | 0 <= i < j < |loops|
        ensures loops[i].name != loops[j].name
      {
        assert r[loops[i].name] == i && r[loops[j].name] == j;
      }
    }
    if DistinctNames(loops) {
      forall i | 0 <= i < |loops|
        ensures loops[i].name in r && r[loops[i].name] == i
      {
        LastRegistrationCounts(loops, loops[i].name);
      }
      forall name | name in r
        ensures r[name] < |loops| && loops[r[name]].name == name
      {
        LastRegistrationCounts(loops, name);
      }
    }
  }

  // ----- the invariant -----

  /** Has the manager sent stop to the poller of this name? */
  predicate Sent(m: Manager, name: string) {
    match m
    case Idle => false
    case Sending(todo) => name !in todo
    case SendingTo(current, todo) => name !in todo && name != current
    case _ => true
  }

  /** Has the manager received the acknowledgement of the poller of this name? */
  predicate Acked(m: Manager, name: string) {
    match m
    case Awaiting(todo) => name !in todo
    case AwaitingFrom(current, todo) => name !in todo && name != current
    case Returned => true
    case _ => false
  }

  function InFlight(l: Loop): seq<Polled> {
    if l.place.Holding? then [l.place.task] else []
  }

  ghost predicate LoopOK(m: Manager, l: Loop) {
    && l.obtained == l.given + InFlight(l)
    && (if l.place.InLoop() then l.stop == (if Sent(m, l.name) then 1 else 0) && l.ack == 0 && !Acked(m, l.name)
        else
          && Sent(m, l.name) && l.stop == 0
          && l.ack == (if l.place.Left? && !Acked(m, l.name) then 1 else 0)
          && (l.place.Acking? ==> !Acked(m, l.name)))
  }

  ghost predicate ManagerOK(s: System) {
    match s.manager
    case Idle => true
    case Sending(todo) => todo <= s.registered.Keys
    case SendingTo(name, todo) => todo <= s.registered.Keys && name in s.registered && name !in todo
    case Awaiting(todo) => todo <= s.registered.Keys
    case AwaitingFrom(name, todo) => todo <= s.registered.Keys && name in s.registered && name !in todo
    case Returned => true
  }

  ghost predicate Inv(s: System) {
    && NamesMatch(s) && ManagerOK(s)
    && forall i :: 0 <= i < |s.loops| ==> LoopOK(s.manager, s.loops[i])
  }

  predicate ByPoller(m: Move) {
    m.Select? || m.PollReturns? || m.StartCallback? || m.CallbackReturns? || m.Acknowledge?
  }

  /** A poller's move changes its own loop only. */
  lemma PollerMoveIsLocal(s: System, m: Move)
    requires Enabled(s, m) && ByPoller(m)
    ensures m.i < |s.loops| && |Apply(s, m).loops| == |s.loops|
    ensures Apply(s, m) == s.(loops := s.loops[m.i := Apply(s, m).loops[m.i]])
    ensures Apply(s, m).loops[m.i].name == s.loops[m.i].name
  {
  }

  lemma PollerMoveKeepsLoop(s: System, m: Move)
    requires Enabled(s, m) && ByPoller(m) && m.i < |s.loops| && LoopOK(s.manager, s.loops[m.i])
    ensures m.i < |Apply(s, m).loops| && LoopOK(s.manager, Apply(s, m).loops[m.i])
  {
  }

  lemma PollerMoveKeepsInv(s: System, m: Move)
    requires Inv(s) && Enabled(s, m) && ByPoller(m)
    ensures Inv(Apply(s, m))
  {
    hide Enabled, Apply, LoopOK;
    PollerMoveIsLocal(s, m);
    assert LoopOK(s.manager, s.loops[m.i]);
    PollerMoveKeepsLoop(s, m);
  }

  lemma ManagerMoveKeepsInv(s: System, m: Move)
    requires Inv(s) && Enabled(s, m) && !ByPoller(m)
    ensures Inv(Apply(s, m))
  {
    var s' := Apply(s, m);
    forall j | 0 <= j < |s'.loops|
      ensures LoopOK(s'.manager, s'.loops[j])
    {
      assert LoopOK(s.manager, s.loops[j]);
    }
  }

  lemma MoveKeepsInv(s: System, m: Move)
    requires Inv(s) && Enabled(s, m)
    ensures Inv(Apply(s, m))
  {
    if ByPoller(m) {
      PollerMoveKeepsInv(s, m);
    } else {
      ManagerMoveKeepsInv(s, m);
    }
  }

  lemma {:induction false} RunsKeepInv(s: System, moves: seq<Move>)
    requires Inv(s) && Legal(s, moves)
    ensures Inv(After(s, moves))
    decreases |moves|
  {
    hide Enabled, Apply, Inv;
    if moves != [] {
      MoveKeepsInv(s, moves[0]);
      RunsKeepInv(Apply(s, moves[0]), moves[1..]);
    }
  }

  // ----- tasks, counted over the moves -----

  /** The tasks that the polls of loop `i` returned. */
  function PolledBy(moves: seq<Move>, i: nat): seq<Polled> {
    if moves == [] then []
    else
      (match moves[0]
       case PollReturns(j, Some(task)) => if j == i then [task] else []
       case _ => [])
      + PolledBy(moves[1..], i)
  }

  /** The tasks that loop `i` ran its callback with. */
  function CallbacksOf(moves: seq<Move>, i: nat): seq<Polled> {
    if moves == [] then []
    else
      (match moves[0]
       case StartCallback(j, task) => if j == i then [task] else []
       case _ => [])
      + CallbacksOf(moves[1..], i)
  }

  /** How many polls of loop `i` returned, with a task or without. */
  function PollsReturned(moves: seq<Move>, i: nat): nat {
    if moves == [] then 0
    else (if moves[0].PollReturns? && moves[0].i == i then 1 else 0) + PollsReturned(moves[1..], i)
  }

  lemma MoveConservesTasks(s: System, m: Move, i: nat)
    requires Enabled(s, m) && i < |s.loops|
    ensures |Apply(s, m).loops| == |s.loops|
    ensures InFlight(s.loops[i]) + PolledBy([m], i) == CallbacksOf([m], i) + InFlight(Apply(s, m).loops[i])
    ensures Apply(s, m).loops[i].given == s.loops[i].given + CallbacksOf([m], i)
    ensures Apply(s, m).loops[i].obtained == s.loops[i].obtained + PolledBy([m], i)
  {
    assert [m][1..] == [];
  }

  lemma FirstMove(moves: seq<Move>, i: nat)
    requires moves != []
    ensures PolledBy(moves, i) == PolledBy([moves[0]], i) + PolledBy(moves[1..], i)
    ensures CallbacksOf(moves, i) == CallbacksOf([moves[0]], i) + CallbacksOf(moves[1..], i)
  {
    assert [moves[0]][1..] == [];
  }

  /** Whatever a loop held, and whatever its polls return, is what its callbacks are run with, in that order,
      but for the task it holds. */
  lemma {:induction false} NoTaskIsDropped(s: System, moves: seq<Move>, i: nat)
    requires Legal(s, moves) && i < |s.loops|
    ensures var s' := After(s, moves);
            && |s'.loops| == |s.loops|
            && InFlight(s.loops[i]) + PolledBy(moves, i) == CallbacksOf(moves, i) + InFlight(s'.loops[i])
            && s'.loops[i].given == s.loops[i].given + CallbacksOf(moves, i)
            && s'.loops[i].obtained == s.loops[i].obtained + PolledBy(moves, i)
    decreases |moves|
  {
    hide Enabled, Apply, PolledBy, CallbacksOf, InFlight;
    if moves == [] {
      NoMoves(i);
    } else {
      var s1, m, rest := Apply(s, moves[0]), moves[0], moves[1..];
      MoveConservesTasks(s, m, i);
      FirstMove(moves, i);
      NoTaskIsDropped(s1, rest, i);
      AppendAgain(InFlight(s.loops[i]), PolledBy([m], i), PolledBy(rest, i));
      AppendAgain(CallbacksOf([m], i), InFlight(s1.loops[i]), PolledBy(rest, i));
      AppendAgain(CallbacksOf([m], i), CallbacksOf(rest, i), InFlight(After(s, moves).loops[i]));
      AppendAgain(s.loops[i].given, CallbacksOf([m], i), CallbacksOf(rest, i));
      AppendAgain(s.loops[i].obtained, PolledBy([m], i), PolledBy(rest, i));
    }
  }

  lemma {:induction false} SameNumberOfLoops(s: System, moves: seq<Move>)
    requires Legal(s, moves)
    ensures |After(s, moves).loops| == |s.loops|
    decreases |moves|
  {
    if moves != [] {
      SameNumberOfLoops(Apply(s, moves[0]), moves[1..]);
    }
  }

  lemma NoMoves(i: nat)
    ensures PolledBy([], i) == [] && CallbacksOf([], i) == []
  {
  }

  // ----- safety -----

  /** The tasks polled in the moves are those that callbacks were run with, and the one that the loop holds. */
  ghost predicate TasksGiven(l: Loop, moves: seq<Move>, i: nat) {
    && l.given == CallbacksOf(moves, i) && l.obtained == PolledBy(moves, i)
    && PolledBy(moves, i) == CallbacksOf(moves, i) + (if l.place.Holding? then [l.place.task] else [])
    && (l.place.Acking? || l.place.Left? ==> PolledBy(moves, i) == CallbacksOf(moves, i))
  }

  /** In every interleaving: a send of stop finds a free slot, a stopped poller holds at most one stop, and
      every task that its polls returned has been given to its callback, once and in poll order, but for the
      one it holds; and before it leaves it has given them all. */
  lemma ShutdownIsSafe(s: System, moves: seq<Move>)
    requires Initial(s) && Legal(s, moves)
    ensures var s' := After(s, moves);
            && Inv(s')
            && (s'.manager.SendingTo? ==> Enabled(s', Send))
            && |s'.loops| == |s.loops|
            && (forall i :: 0 <= i < |s'.loops| ==> TasksGiven(s'.loops[i], moves, i))
            && (s'.manager.Returned? ==> forall i :: 0 <= i < |s'.loops| ==> s'.loops[i].place.Left?)
  {
    RunsKeepInv(s, moves);
    var s' := After(s, moves);
    SameNumberOfLoops(s, moves);
    forall i | 0 <= i < |s'.loops|
      ensures TasksGiven(s'.loops[i], moves, i)
    {
      NoTaskIsDropped(s, moves, i);
    }
    assert forall i :: 0 <= i < |s'.loops| ==> LoopOK(s'.manager, s'.loops[i]);
    if s'.manager.SendingTo? {
      var i := s'.registered[s'.manager.name];
      assert LoopOK(s'.manager, s'.loops[i]);
    }
  }

  /** Once StopPollers has returned nothing moves any more: no loop polls and no callback runs or will. */
  lemma NothingMovesAfterReturn(s: System, m: Move)
    requires Inv(s) && s.manager.Returned?
    ensures !Enabled(s, m)
  {
    if ByPoller(m) && m.i < |s.loops| {
      assert LoopOK(s.manager, s.loops[m.i]);
    }
  }

  function InPoll(l: Loop): nat {
    if l.place.Polling? then 1 else 0
  }

  lemma SentForGood(s: System, m: Move, i: nat)
    requires Inv(s) && Enabled(s, m) && i < |s.loops| && Sent(s.manager, s.loops[i].name)
    ensures var s' := Apply(s, m);
            && |s'.loops| == |s.loops| && s'.loops[i].name == s.loops[i].name && Sent(s'.manager, s.loops[i].name)
            && s'.loops[i].polls == s.loops[i].polls
            && PollsReturned([m], i) + InPoll(s'.loops[i]) <= InPoll(s.loops[i])
  {
    assert [m][1..] == [];
    assert LoopOK(s.manager, s.loops[i]);
  }

  /** From the moment its stop is buffered a poller begins no further poll, whatever happens: no poll returns to
      it any more, but for the one it is in at that moment. */
  lemma {:induction false} NoPollOnceStopIsBuffered(s: System, moves: seq<Move>, i: nat)
    requires Inv(s) && Legal(s, moves) && i < |s.loops| && Sent(s.manager, s.loops[i].name)
    ensures |After(s, moves).loops| == |s.loops| && After(s, moves).loops[i].polls == s.loops[i].polls
    ensures PollsReturned(moves, i) + InPoll(After(s, moves).loops[i]) <= InPoll(s.loops[i])
    decreases |moves|
  {
    hide Enabled, Apply, Inv, Sent, InPoll;
    if moves != [] {
      assert [moves[0]][1..] == [];
      MoveKeepsInv(s, moves[0]);
      SentForGood(s, moves[0], i);
      NoPollOnceStopIsBuffered(Apply(s, moves[0]), moves[1..], i);
    }
  }

  // ----- progress -----

  function Sum(s: seq<nat>): nat {
    if s == [] then 0 else s[0] + Sum(s[1..])
  }

  lemma {:induction false} SumUpdate(s: seq<nat>, t: seq<nat>, i: nat)
    requires |s| == |t| && i < |s| && forall j :: 0 <= j < |s| && j != i ==> s[j] == t[j]
    ensures Sum(s) + t[i] == Sum(t) + s[i]
  {
    if i == 0 {
      assert s[1..] == t[1..];
    } else {
      SumUpdate(s[1..], t[1..], i - 1);
    }
  }

  /** How many moves a loop can still make once it has been sent its stop. */
  function Rank(m: Manager, l: Loop): nat {
    if !Sent(m, l.name) then 6
    else
      match l.place
      case Polling => 5
      case Holding(_) => 4
      case InCallback => 3
      case AtSelect => 2
      case Acking => 1
      case Left => 0
  }

  function Ranks(s: System): seq<nat> {
    seq(|s.loops|, i requires 0 <= i < |s.loops| => Rank(s.manager, s.loops[i]))
  }

  /** How many moves StopPollers can still make. */
  function ManagerRank(s: System): nat {
    var n := |s.registered|;
    match s.manager
    case Idle => 4 * n + 3
    case Sending(todo) => 2 * n + 2 + 2 * |todo|
    case SendingTo(_, todo) => 2 * n + 3 + 2 * |todo|
    case Awaiting(todo) => 1 + 2 * |todo|
    case AwaitingFrom(_, todo) => 2 + 2 * |todo|
    case Returned => 0
  }

  function Measure(s: System): nat {
    ManagerRank(s) + Sum(Ranks(s))
  }

  /** A move of StopPollers, or of a poller that has been sent its stop. */
  predicate Stopping(s: System, m: Move) {
    !ByPoller(m) || (m.i < |s.loops| && Sent(s.manager, s.loops[m.i].name))
  }

  lemma PollerMoveLowersRank(s: System, m: Move)
    requires Enabled(s, m) && ByPoller(m) && m.i < |s.loops| && LoopOK(s.manager, s.loops[m.i])
    ensures m.i < |Apply(s, m).loops|
    ensures Rank(s.manager, Apply(s, m).loops[m.i]) <= Rank(s.manager, s.loops[m.i])
    ensures Stopping(s, m) ==> Rank(s.manager, Apply(s, m).loops[m.i]) < Rank(s.manager, s.loops[m.i])
  {
  }

  lemma PollerMoveCountsDown(s: System, m: Move)
    requires Inv(s) && Enabled(s, m) && ByPoller(m)
    ensures Measure(Apply(s, m)) <= Measure(s)
    ensures Stopping(s, m) ==> Measure(Apply(s, m)) < Measure(s)
  {
    hide Enabled, Apply, LoopOK, Rank;
    PollerMoveIsLocal(s, m);
    assert LoopOK(s.manager, s.loops[m.i]);
    PollerMoveLowersRank(s, m);
    SumUpdate(Ranks(s), Ranks(Apply(s, m)), m.i);
  }

  lemma SendCountsDown(s: System)
    requires Inv(s) && Enabled(s, Send)
    ensures Measure(Apply(s, Send)) < Measure(s)
  {
    var s', i := Apply(s, Send), s.registered[s.manager.name];
    SumUpdate(Ranks(s), Ranks(s'), i);
  }

  lemma RanksUnmoved(s: System, m: Move)
    requires Inv(s) && Enabled(s, m) && !ByPoller(m) && !m.Send?
    ensures Ranks(Apply(s, m)) == Ranks(s)
  {
    var s' := Apply(s, m);
    forall i | 0 <= i < |s.loops|
      ensures Rank(s'.manager, s'.loops[i]) == Rank(s.manager, s.loops[i])
    {
      assert LoopOK(s.manager, s.loops[i]) && s.loops[i].name in s.registered;
    }
  }

  lemma OneLess(todo: set<string>, name: string)
    requires name in todo
    ensures |todo - {name}| == |todo| - 1
  {
  }

  lemma ManagerRankFalls(s: System, m: Move)
    requires Enabled(s, m) && !ByPoller(m) && !m.Send?
    ensures ManagerRank(Apply(s, m)) < ManagerRank(s)
  {
    assert |s.registered.Keys| == |s.registered|;
    if m.PickSend? || m.PickAwait? {
      OneLess(s.manager.todo, m.name);
    }
  }

  lemma OtherManagerMoveCountsDown(s: System, m: Move)
    requires Inv(s) && Enabled(s, m) && !ByPoller(m) && !m.Send?
    ensures Measure(Apply(s, m)) < Measure(s)
  {
    hide Inv, Enabled, Apply, Ranks, ManagerRank;
    RanksUnmoved(s, m);
    ManagerRankFalls(s, m);
  }

  /** Every move keeps the measure from growing, and every stopping move makes it smaller. */
  lemma MoveCountsDown(s: System, m: Move)
    requires Inv(s) && Enabled(s, m)
    ensures Measure(Apply(s, m)) <= Measure(s)
    ensures Stopping(s, m) ==> Measure(Apply(s, m)) < Measure(s)
  {
    if ByPoller(m) {
      PollerMoveCountsDown(s, m);
    } else if m.Send? {
      SendCountsDown(s);
    } else {
      OtherManagerMoveCountsDown(s, m);
    }
  }

  /** The next move of a loop. */
  function NextMove(l: Loop, i: nat): Move {
    match l.place
    case AtSelect => Select(i)
    case Polling => PollReturns(i, None)
    case Holding(task) => StartCallback(i, task)
    case InCallback => CallbackReturns(i)
    case _ => Acknowledge(i)
  }

  /** Whoever is waited for has acknowledged already or can still move on. */
  lemma AwaitedMovesOn(s: System) returns (m: Move)
    requires Inv(s) && s.manager.AwaitingFrom?
    ensures Enabled(s, m) && Stopping(s, m)
  {
    var i := s.registered[s.manager.name];
    assert LoopOK(s.manager, s.loops[i]);
    m := if s.loops[i].ack > 0 then Receive else NextMove(s.loops[i], i);
  }

  /** No reachable state is deadlocked: until StopPollers has returned there is always a stopping move
      that can be made, so that the call returns if each of these moves is made in the end. */
  lemma NeverDeadlocked(s: System) returns (m: Move)
    requires Inv(s) && !s.manager.Returned?
    ensures Enabled(s, m) && Stopping(s, m)
  {
    match s.manager
    case Idle => m := CallStop;
    case Sending(todo) =>
      if todo == {} {
        m := FinishSending;
      } else {
        var name :| name in todo;
        m := PickSend(name);
      }
    case SendingTo(name, _) =>
      assert LoopOK(s.manager, s.loops[s.registered[name]]);
      m := Send;
    case Awaiting(todo) =>
      if todo == {} {
        m := Return;
      } else {
        var name :| name in todo;
        m := PickAwait(name);
      }
    case AwaitingFrom(_, _) => m := AwaitedMovesOn(s);
    case Returned => assert false;
  }

  /** A loop that has not left can always move, so a poll or callback that ends leads on. */
  lemma LoopsNeverBlock(s: System, i: nat)
    requires Inv(s) && i < |s.loops| && !s.loops[i].place.Left?
    ensures Enabled(s, NextMove(s.loops[i], i))
  {
    assert LoopOK(s.manager, s.loops[i]);
  }

  function StoppingMoves(s: System, moves: seq<Move>): nat
    requires Legal(s, moves)
    decreases |moves|
  {
    if moves == [] then 0
    else (if Stopping(s, moves[0]) then 1 else 0) + StoppingMoves(Apply(s, moves[0]), moves[1..])
  }

  /** Every run makes only boundedly many stopping moves. */
  lemma {:induction false} StoppingIsBounded(s: System, moves: seq<Move>)
    requires Inv(s) && Legal(s, moves)
    ensures StoppingMoves(s, moves) + Measure(After(s, moves)) <= Measure(s)
    decreases |moves|
  {
    hide Enabled, Apply, Inv, Measure, Stopping;
    if moves != [] {
      MoveKeepsInv(s, moves[0]);
      MoveCountsDown(s, moves[0]);
      StoppingIsBounded(Apply(s, moves[0]), moves[1..]);
    }
  }

  predicate AllSent(m: Manager) {
    m.Awaiting? || m.AwaitingFrom? || m.Returned?
  }

  /** Once all stops are sent every run is finite: no longer than the measure. */
  lemma {:induction false} ShutdownTerminates(s: System, moves: seq<Move>)
    requires Inv(s) && Legal(s, moves) && AllSent(s.manager)
    ensures |moves| <= Measure(s)
    decreases |moves|
  {
    hide Apply, Inv, Measure;
    if moves != [] {
      MoveKeepsInv(s, moves[0]);
      MoveCountsDown(s, moves[0]);
      assert AllSent(Apply(s, moves[0]).manager) by {
        AllSentForGood(s, moves[0]);
      }
      ShutdownTerminates(Apply(s, moves[0]), moves[1..]);
    }
  }

  lemma AllSentForGood(s: System, m: Move)
    requires Enabled(s, m) && AllSent(s.manager)
    ensures AllSent(Apply(s, m).manager)
  {
  }
}
