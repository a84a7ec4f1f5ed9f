/** A second account of a tick, told as a story instead of a computation: which events count, whom each of
    them is shown to in which context, and what the tick leaves behind. It shares no function with the engine
    and spells out every name, and it has exactly one result for every task: the engine's. */
module Reference {
  import opened Protocol
  import opened Correlator
  import opened Model
  import opened Engine
  import opened TickLaws
  import Fsm

  // ----- which events count -----

  datatype Role = Ignored | Alarm | Delivered

  function RoleOf(b: EventBody): Role {
    match b
    case DecisionTaskScheduled => Ignored
    case DecisionTaskStarted => Ignored
    case DecisionTaskCompleted => Ignored
    case MarkerRecorded(name, _) => if name == "FSM.State" then Ignored else Delivered
    case WorkflowExecutionSignaled(name, _) =>
      if name == "FSM.Error" || name == "FSM.SystemError" then Alarm else Delivered
    case _ => Delivered
  }

  /** The events of one role that are newer than the previous task's start, newest first. */
  function Select(events: seq<Event>, previous: int, role: Role): seq<Event> {
    if events == [] || events[0].id == previous then []
    else (if RoleOf(events[0].body) == role then [events[0]] else []) + Select(events[1..], previous, role)
  }

  function Selected(t: Task, role: Role): seq<Event> {
    Select(t.events, t.previousStartedEventID, role)
  }

  /** The event that comes after `i` older ones. */
  function Turn(events: seq<Event>, i: nat): Event
    requires i < |events|
  {
    events[|events| - 1 - i]
  }

  // ----- the last checkpoint -----

  predicate Holds(b: EventBody) {
    (b.MarkerRecorded? && b.markerName == "FSM.State") || b.WorkflowExecutionStarted?
  }

  function Read(f: Machine, b: EventBody): Result<SerializedState>
    requires Holds(b)
  {
    if b.MarkerRecorded? then f.serializer.decodeState(b.details)
    else
      match f.serializer.decodeState(b.input)
      case Ok(SerializedState(ReplicationData(version, "", data), pending)) =>
        Ok(SerializedState(ReplicationData(version, f.initialState.name, data), pending))
      case other => other
  }

  /** The newest event that holds a checkpoint is the one that counts. */
  ghost predicate Finds(f: Machine, events: seq<Event>, found: Result<SerializedState>) {
    if forall i :: 0 <= i < |events| ==> !Holds(events[i].body) then found == Err("Cant Find Current Data")
    else exists i :: NewestHolder(events, i) && found == Read(f, events[i].body)
  }

  ghost predicate NewestHolder(events: seq<Event>, i: int) {
    0 <= i < |events| && Holds(events[i].body) && forall j :: 0 <= j < i ==> !Holds(events[j].body)
  }

  // ----- one answer -----

  /** Where a tick stands between two events. */
  datatype Moment = Moment(name: string, data: Value, pending: Pending)

  function NameAfter(name: string, o: Outcome): string {
    match o
    case Pass => name
    case StayOutcome(_, _) => name
    case ContinueOutcome(_, _) => ""
    case TransitionOutcome(_, next, _) => next
    case CompleteOutcome(_, _) => "complete"
    case ErrorOutcome(_, _) => "error"
  }

  function DataAfter(data: Value, o: Outcome): Value {
    match o
    case Pass => data
    case StayOutcome(d, _) => d
    case ContinueOutcome(d, _) => d
    case TransitionOutcome(d, _, _) => d
    case CompleteOutcome(d, _) => d
    case ErrorOutcome(d, _) => d
  }

  function SaidIn(o: Outcome): seq<Decision> {
    match o
    case Pass => []
    case StayOutcome(_, ds) => ds
    case ContinueOutcome(_, ds) => ds
    case TransitionOutcome(_, _, ds) => ds
    case CompleteOutcome(_, ds) => ds
    case ErrorOutcome(_, ds) => ds
  }

  function PendingAfter(pending: Pending, e: Event): Pending {
    match e.body
    case ActivityTaskScheduled(id, kind) => pending[Itoa(e.id) := ActivityInfo(id, kind)]
    case ActivityTaskCompleted(id) => pending - {Itoa(id)}
    case ActivityTaskFailed(id) => pending - {Itoa(id)}
    case ActivityTaskTimedOut(id) => pending - {Itoa(id)}
    case ActivityTaskCanceled(id) => pending - {Itoa(id)}
    case _ => pending
  }

  function After(m: Moment, e: Event, o: Outcome): Moment {
    Moment(NameAfter(m.name, o), DataAfter(m.data, o), PendingAfter(m.pending, e))
  }

  /** The answer to an event. The error state is asked about alarms, on the zero data and version 0; the
      current state about delivered events, if it exists. */
  function Answer(f: Machine, t: Task, role: Role, version: uint64, m: Moment, e: Event): Option<Verdict> {
    if role.Alarm? then
      var ctx := Context(f.serializer, t.workflowType, t.execution, m.pending, f.errorState.name, Ptr(f.zero), 0);
      Some(f.errorState.decider(ctx, e, m.data))
    else if m.name in f.states then
      var ctx := Context(f.serializer, t.workflowType, t.execution, m.pending, m.name, m.data, version);
      Some(f.states[m.name].decider(ctx, e, m.data))
    else None
  }

  predicate Answered(a: Option<Verdict>) {
    a.Some? && a.value.Returned? && a.value.outcome != Pass
  }

  // ----- the events of one role -----

  /** The answers to the oldest events, as far as they go, and the moments before and after each. */
  datatype Story = Story(outcomes: seq<Outcome>, moments: seq<Moment>) {
    function Length(): nat {
      |outcomes|
    }

    function Last(): Moment
      requires |moments| == |outcomes| + 1
    {
      moments[|outcomes|]
    }

    function Said(): seq<Decision> {
      SaidInAll(outcomes)
    }
  }

  function SaidInAll(outcomes: seq<Outcome>): seq<Decision> {
    if outcomes == [] then [] else SaidIn(outcomes[0]) + SaidInAll(outcomes[1..])
  }

  /** A story begins as given, goes from answer to answer, and ends only where there is none. */
  ghost predicate Tells(f: Machine, t: Task, role: Role, version: uint64, events: seq<Event>, start: Moment, s: Story) {
    && |s.moments| == s.Length() + 1 && s.Length() <= |events|
    && s.moments[0] == start
    && (forall i :: 0 <= i < s.Length() ==>
          && s.outcomes[i] != Pass
          && Answer(f, t, role, version, s.moments[i], Turn(events, i)) == Some(Returned(s.outcomes[i]))
          && s.moments[i + 1] == After(s.moments[i], Turn(events, i), s.outcomes[i]))
    && (s.Length() < |events| ==> !Answered(Answer(f, t, role, version, s.Last(), Turn(events, s.Length()))))
  }

  // ----- what a tick leaves behind -----

  /** As many zeros as there are events, and then their IDs. */
  function Listed(events: seq<Event>): seq<int> {
    var n := |events|;
    seq(2 * n, i requires 0 <= i < 2 * n => if i < n then 0 else events[i - n].id)
  }

  /** The `n` oldest events. */
  function Oldest(events: seq<Event>, n: nat): seq<Event>
    requires n <= |events|
  {
    events[|events| - n..]
  }

  /** The same in the order in which they are shown. */
  function Shown(events: seq<Event>, n: nat): seq<Event>
    requires n <= |events|
  {
    seq(n, i requires 0 <= i < n => Turn(events, i))
  }

  /** A signal to the tick's own execution, after the decisions made so far; or a panic, if the record cannot be
      encoded. */
  function Report(f: Machine, t: Task, said: seq<Decision>, record: ErrorRecord, seen: seq<Event>): TickResult {
    var signal :=
      match record
      case DecisionError(_, _, _, _, _) => "FSM.Error"
      case SystemError(_, _, _) => "FSM.SystemError";
    match f.serializer.encodeError(record)
    case Encoded(_, Some(_)) => Crash
    case Encoded(text, None) =>
      var notice := SignalExternalWorkflowExecution(t.execution.workflowID, t.execution.runID, signal, text);
      Failure(said, notice, record, seen)
  }

  /** The end of a tick one of whose stories stops before the end of its events. */
  function Stop(f: Machine, t: Task, role: Role, version: uint64, events: seq<Event>, s: Story, prior: seq<Decision>)
    : TickResult
    requires |s.moments| == s.Length() + 1 && s.Length() < |events|
  {
    var n, m, said := s.Length(), s.Last(), prior + s.Said();
    var e := Turn(events, n);
    match Answer(f, t, role, version, m, e)
    case None =>
      var record := SystemError("MissingFsmStateError", Listed(Oldest(events, n + 1)), m.name);
      Report(f, t, said, record, Shown(events, n))
    case Some(Panicked(reason)) =>
      var record := DecisionError(e.id, Listed(Oldest(events, n)), m.name, m.data, reason);
      Report(f, t, said, record, if role.Alarm? then [] else Shown(events, n + 1))
    case Some(Returned(_)) => Crash
  }

  /** The end of a tick whose events were all answered: a checkpoint, one version on, recorded in front of the
      decisions. */
  function Record(f: Machine, t: Task, version: uint64, m: Moment, said: seq<Decision>, seen: seq<Event>): TickResult {
    var next: uint64 := if version == 18446744073709551615 then 0 else version + 1;
    var data := f.serializer.encodeData(m.data).text;
    var checkpoint := SerializedState(ReplicationData(next, m.name, data), m.pending);
    match f.serializer.encodeState(checkpoint)
    case Encoded(_, Some(why)) => Report(f, t, said, SystemError("StateSerializationError", [], why), seen)
    case Encoded(text, None) => Success([RecordMarker("FSM.State", text)] + said, checkpoint, seen)
  }

  function EndOf(f: Machine, t: Task, version: uint64, s: Story, prior: seq<Decision>): TickResult
    requires |s.moments| == s.Length() + 1
  {
    var events := Selected(t, Delivered);
    if s.Length() < |events| then Stop(f, t, Delivered, version, events, s, prior)
    else Record(f, t, version, s.Last(), prior + s.Said(), Shown(events, |events|))
  }

  ghost predicate Delivers(f: Machine, t: Task, version: uint64, start: Moment, prior: seq<Decision>, r: TickResult) {
    exists s: Story :: Tells(f, t, Delivered, version, Selected(t, Delivered), start, s)
                       && r == EndOf(f, t, version, s, prior)
  }

  /** Once no alarm is left: where there is neither data nor a name, all three of data, name and version come from
      the checkpoint. */
  ghost predicate GoesOn(f: Machine, t: Task, found: SerializedState, m: Moment, said: seq<Decision>, r: TickResult) {
    if m.data == Nil && m.name == "" then
      match f.serializer.decodeData(found.replicationData.stateData)
      case Err(why) => r == Report(f, t, said, SystemError("DeserializeStateError", Listed(t.events), why), [])
      case Ok(d) =>
        Delivers(f, t, found.replicationData.stateVersion,
          Moment(found.replicationData.stateName, Ptr(d), m.pending), said, r)
    else Delivers(f, t, 0, m, said, r)
  }

  function Beginning(f: Machine, t: Task, pending: Pending): Moment {
    if Selected(t, Alarm) == [] then Moment("", Nil, pending) else Moment(f.errorState.name, Ptr(f.zero), pending)
  }

  ghost predicate BeginsWith(f: Machine, t: Task, found: SerializedState, s: Story, r: TickResult) {
    var alarms := Selected(t, Alarm);
    && Tells(f, t, Alarm, 0, alarms, Beginning(f, t, found.pendingActivities), s)
    && if s.Length() < |alarms| then r == Stop(f, t, Alarm, 0, alarms, s, [])
       else GoesOn(f, t, found, s.Last(), s.Said(), r)
  }

  ghost predicate BeginsFrom(f: Machine, t: Task, found: SerializedState, r: TickResult) {
    exists s :: BeginsWith(f, t, found, s, r)
  }

  ghost predicate Begins(f: Machine, t: Task, found: Result<SerializedState>, r: TickResult) {
    match found
    case Err(why) => r == Report(f, t, [], SystemError("FindSerializedStateError", Listed(t.events), why), [])
    case Ok(state) => BeginsFrom(f, t, state, r)
  }

  /** `r` is what the task should result in. */
  ghost predicate ResultsIn(f: Machine, t: Task, r: TickResult) {
    exists found :: Finds(f, t.events, found) && Begins(f, t, found, r)
  }

  // ----- there is one such result -----

  lemma FindsOnce(f: Machine, events: seq<Event>, a: Result<SerializedState>, b: Result<SerializedState>)
    requires Finds(f, events, a) && Finds(f, events, b)
    ensures a == b
  {
    if k :| 0 <= k < |events| && Holds(events[k].body) {
      var i :| NewestHolder(events, i) && a == Read(f, events[i].body);
      var j :| NewestHolder(events, j) && b == Read(f, events[j].body);
      assert i == j;
    }
  }

  lemma {:induction false} SameUpTo(f: Machine, t: Task, role: Role, version: uint64, events: seq<Event>, start: Moment,
                                    a: Story, b: Story, n: nat)
    requires Tells(f, t, role, version, events, start, a) && Tells(f, t, role, version, events, start, b)
    requires n <= a.Length() && n <= b.Length()
    ensures a.outcomes[..n] == b.outcomes[..n] && a.moments[n] == b.moments[n]
  {
    if n > 0 {
      SameUpTo(f, t, role, version, events, start, a, b, n - 1);
      assert a.outcomes[n - 1] == b.outcomes[n - 1];
      assert a.outcomes[..n] == a.outcomes[..n - 1] + [a.outcomes[n - 1]];
      assert b.outcomes[..n] == b.outcomes[..n - 1] + [b.outcomes[n - 1]];
    }
  }

  /** Stories do not differ. */
  lemma ToldOnce(f: Machine, t: Task, role: Role, version: uint64, events: seq<Event>, start: Moment,
                 a: Story, b: Story)
    requires Tells(f, t, role, version, events, start, a) && Tells(f, t, role, version, events, start, b)
    ensures a == b
  {
    var n := if a.Length() <= b.Length() then a.Length() else b.Length();
    SameUpTo(f, t, role, version, events, start, a, b, n);
    assert a.Length() == b.Length();
    assert a.outcomes[..n] == a.outcomes && b.outcomes[..n] == b.outcomes;
    forall i | 0 <= i <= n
      ensures a.moments[i] == b.moments[i]
    {
      SameUpTo(f, t, role, version, events, start, a, b, i);
    }
    assert a.moments == b.moments;
  }

  lemma DeliversOnce(f: Machine, t: Task, version: uint64, start: Moment, prior: seq<Decision>,
                     r: TickResult, r': TickResult)
    requires Delivers(f, t, version, start, prior, r) && Delivers(f, t, version, start, prior, r')
    ensures r == r'
  {
    hide EndOf, Selected;
    var events := Selected(t, Delivered);
    var s: Story :| Tells(f, t, Delivered, version, events, start, s) && r == EndOf(f, t, version, s, prior);
    var s': Story :| Tells(f, t, Delivered, version, events, start, s') && r' == EndOf(f, t, version, s', prior);
    ToldOnce(f, t, Delivered, version, events, start, s, s');
  }

  lemma GoesOnOnce(f: Machine, t: Task, found: SerializedState, m: Moment, said: seq<Decision>, r: TickResult,
                   r': TickResult)
    requires GoesOn(f, t, found, m, said, r) && GoesOn(f, t, found, m, said, r')
    ensures r == r'
  {
    hide Delivers;
    if m.data == Nil && m.name == "" {
      match f.serializer.decodeData(found.replicationData.stateData)
      case Err(_) =>
      case Ok(d) =>
        DeliversOnce(f, t, found.replicationData.stateVersion,
          Moment(found.replicationData.stateName, Ptr(d), m.pending), said, r, r');
    } else {
      DeliversOnce(f, t, 0, m, said, r, r');
    }
  }

  lemma BeginsOnce(f: Machine, t: Task, found: SerializedState, r: TickResult, r': TickResult)
    requires BeginsFrom(f, t, found, r) && BeginsFrom(f, t, found, r')
    ensures r == r'
  {
    hide Selected, Beginning, GoesOn, Stop;
    var s :| BeginsWith(f, t, found, s, r);
    var s' :| BeginsWith(f, t, found, s', r');
    ToldOnce(f, t, Alarm, 0, Selected(t, Alarm), Beginning(f, t, found.pendingActivities), s, s');
    if s.Length() == |Selected(t, Alarm)| {
      GoesOnOnce(f, t, found, s.Last(), s.Said(), r, r');
    }
  }

  lemma ResultsOnce(f: Machine, t: Task, r: TickResult, r': TickResult)
    requires ResultsIn(f, t, r) && ResultsIn(f, t, r')
    ensures r == r'
  {
    hide Finds, BeginsFrom;
    var a :| Finds(f, t.events, a) && Begins(f, t, a, r);
    var b :| Finds(f, t.events, b) && Begins(f, t, b, r');
    FindsOnce(f, t.events, a, b);
    if a.Ok? {
      BeginsOnce(f, t, a.value, r, r');
    }
  }

  // ----- the engine tells the story -----

  lemma {:induction false} SelectsBoth(events: seq<Event>, previous: int)
    ensures Deliverables(NewerThan(previous, events)) == Select(events, previous, Delivered)
    ensures ErrorSignals(NewerThan(previous, events)) == Select(events, previous, Alarm)
  {
    if events != [] && events[0].id != previous {
      SelectsBoth(events[1..], previous);
      assert NewerThan(previous, events)[1..] == NewerThan(previous, events[1..]);
    }
  }

  lemma {:induction false} FindsNewest(f: Machine, events: seq<Event>)
    ensures Finds(f, events, Engine.FindSerializedState(f, events))
  {
    if events != [] {
      if Holds(events[0].body) {
        assert NewestHolder(events, 0);
      } else {
        FindsNewest(f, events[1..]);
        assert forall i :: 1 <= i < |events| ==> events[i] == events[1..][i - 1];
        if forall i :: 0 <= i < |events[1..]| ==> !Holds(events[1..][i].body) {
        } else {
          var i :| NewestHolder(events[1..], i) &&
            Engine.FindSerializedState(f, events[1..]) == Read(f, events[1..][i].body);
          assert NewestHolder(events, i + 1);
        }
      }
    }
  }

  function At(p: Progress): Moment {
    Moment(p.state, p.data, p.pending)
  }

  function Then(m: Moment, o: Outcome, s: Story): Story {
    Story([o] + s.outcomes, [m] + s.moments)
  }

  /** One more answer in front of a story. */
  lemma TellsOneMore(f: Machine, t: Task, role: Role, version: uint64, events: seq<Event>, m: Moment,
                     o: Outcome, s: Story)
    requires events != []
    requires var n := |events| - 1;
             && Answer(f, t, role, version, m, events[n]) == Some(Returned(o)) && o != Pass
             && Tells(f, t, role, version, events[..n], After(m, events[n], o), s)
    ensures var s' := Then(m, o, s);
            && Tells(f, t, role, version, events, m, s') && s'.Length() == s.Length() + 1
            && s'.Last() == s.Last() && s'.Said() == SaidIn(o) + s.Said()
  {
    var n, s' := |events| - 1, Then(m, o, s);
    assert s'.outcomes[1..] == s.outcomes;
    forall i | 0 <= i < s.Length()
      ensures Turn(events, i + 1) == Turn(events[..n], i)
    {
    }
    forall i | 0 <= i < s'.Length()
      ensures s'.outcomes[i] != Pass
      ensures Answer(f, t, role, version, s'.moments[i], Turn(events, i)) == Some(Returned(s'.outcomes[i]))
      ensures s'.moments[i + 1] == After(s'.moments[i], Turn(events, i), s'.outcomes[i])
    {
      if i > 0 {
        assert s'.outcomes[i] == s.outcomes[i - 1] && s'.moments[i] == s.moments[i - 1];
      }
    }
    if s'.Length() < |events| {
      assert Turn(events, s'.Length()) == Turn(events[..n], s.Length());
    }
  }

  function NoStory(m: Moment): Story {
    Story([], [m])
  }

  /** The fold and the story of the delivered events. */
  ghost predicate Matches(f: Machine, t: Task, env: Env, events: seq<Event>, p: Progress, s: Story) {
    var r := DecideAll(f, env, events, p);
    && Tells(f, t, Delivered, env.stateVersion, events, At(p), s)
    && At(r.p) == s.Last() && r.p.decisions == p.decisions + s.Said() && r.p.stateVersion == p.stateVersion
    && EndsAlike(f, t, env, events, p, s, r)
  }

  ghost predicate EndsAlike(f: Machine, t: Task, env: Env, events: seq<Event>, p: Progress, s: Story, r: Sweep)
    requires |s.moments| == s.Length() + 1 && s.Length() <= |events|
  {
    var n := s.Length();
    match r
    case Done(q) => n == |events| && q.seen == p.seen + Shown(events, n)
    case Halted(q, why, at) =>
      && n < |events| && at == |events| - 1 - n
      && Answer(f, t, Delivered, env.stateVersion, s.Last(), Turn(events, n)) == Reason(why)
      && q.seen == p.seen + Shown(events, if why.StateMissing? then n else n + 1)
  }

  function Reason(why: Halt): Option<Verdict> {
    match why
    case StateMissing => None
    case NilOutcome => Some(Returned(Pass))
    case DeciderPanicked(reason) => Some(Panicked(reason))
  }

  lemma ShownNext(events: seq<Event>, k: nat)
    requires k < |events|
    ensures Shown(events, k + 1) == [Turn(events, 0)] + Shown(events[..|events| - 1], k)
  {
  }

  lemma {:induction false} FoldTells(f: Machine, t: Task, env: Env, events: seq<Event>, p: Progress) returns (s: Story)
    requires env == EnvOf(t).(stateVersion := env.stateVersion)
    ensures Matches(f, t, env, events, p, s)
    decreases |events|
  {
    if events == [] {
      s := NoStory(At(p));
    } else {
      var n := |events| - 1;
      match Decide(f, env, p, events[n])
      case Stuck(q, why) =>
        s := NoStory(At(p));
        StuckMatches(f, t, env, events, p);
      case Moved(q) =>
        var rest := FoldTells(f, t, env, events[..n], q);
        s := MovedMatches(f, t, env, events, p, rest);
    }
  }

  lemma StuckMatches(f: Machine, t: Task, env: Env, events: seq<Event>, p: Progress)
    requires env == EnvOf(t).(stateVersion := env.stateVersion)
    requires events != [] && Decide(f, env, p, events[|events| - 1]).Stuck?
    ensures Matches(f, t, env, events, p, NoStory(At(p)))
  {
    assert Shown(events, 1) == [events[|events| - 1]];
    assert Shown(events, 0) == [];
    assert Turn(events, 0) == events[|events| - 1];
  }

  lemma MovedMatches(f: Machine, t: Task, env: Env, events: seq<Event>, p: Progress, rest: Story) returns (s: Story)
    requires env == EnvOf(t).(stateVersion := env.stateVersion)
    requires events != [] && Decide(f, env, p, events[|events| - 1]).Moved?
    requires Matches(f, t, env, events[..|events| - 1], Decide(f, env, p, events[|events| - 1]).p, rest)
    ensures Matches(f, t, env, events, p, s)
  {
    hide Tells, DecideAll;
    var n := |events| - 1;
    var o := f.states[p.state].decider(ContextOf(f, env, p), events[n], p.data).outcome;
    var q := Decide(f, env, p, events[n]).p;
    s := Then(At(p), o, rest);
    TellsOneMore(f, t, Delivered, env.stateVersion, events, At(p), o, rest);
    AllAfterOne(f, env, events, p);
    assert p.decisions + SaidIn(o) + rest.Said() == p.decisions + s.Said();
    EndsAlikeNext(f, t, env, events, p, q, rest, s, DecideAll(f, env, events, p));
  }

  lemma AllAfterOne(f: Machine, env: Env, events: seq<Event>, p: Progress)
    requires events != [] && Decide(f, env, p, events[|events| - 1]).Moved?
    ensures DecideAll(f, env, events, p) ==
            DecideAll(f, env, events[..|events| - 1], Decide(f, env, p, events[|events| - 1]).p)
  {
  }

  lemma EndsAlikeNext(f: Machine, t: Task, env: Env, events: seq<Event>, p: Progress, q: Progress,
                      rest: Story, s: Story, r: Sweep)
    requires events != [] && q.seen == p.seen + [Turn(events, 0)]
    requires |rest.moments| == rest.Length() + 1 && rest.Length() < |events|
    requires |s.moments| == s.Length() + 1 && s.Length() == rest.Length() + 1 && s.Last() == rest.Last()
    requires EndsAlike(f, t, env, events[..|events| - 1], q, rest, r)
    ensures EndsAlike(f, t, env, events, p, s, r)
  {
    hide Answer;
    var n, older := rest.Length(), events[..|events| - 1];
    ShownNext(events, n);
    assert q.seen + Shown(older, n) == p.seen + Shown(events, n + 1);
    if n < |older| {
      ShownNext(events, n + 1);
      assert Turn(older, n) == Turn(events, n + 1);
      assert q.seen + Shown(older, n + 1) == p.seen + Shown(events, n + 2);
    }
  }

  /** The fold and the story of the alarms. */
  ghost predicate MatchesAlarms(f: Machine, t: Task, errors: seq<Event>, p: Progress, s: Story) {
    var r, n := DecideErrors(f, EnvOf(t), errors, p), s.Length();
    && Tells(f, t, Alarm, 0, errors, At(p), s)
    && r.p == p.(state := s.Last().name, data := s.Last().data, pending := s.Last().pending,
                 decisions := p.decisions + s.Said())
    && match r
       case Done(q) => n == |errors|
       case Halted(q, why, at) =>
         && n < |errors| && at == |errors| - 1 - n && !why.StateMissing?
         && Answer(f, t, Alarm, 0, s.Last(), Turn(errors, n)) == Reason(why)
  }

  lemma {:induction false} FoldTellsAlarms(f: Machine, t: Task, errors: seq<Event>, p: Progress) returns (s: Story)
    ensures MatchesAlarms(f, t, errors, p, s)
    decreases |errors|
  {
    if errors == [] {
      s := NoStory(At(p));
    } else {
      var n := |errors| - 1;
      match DecideError(f, EnvOf(t), p, errors[n])
      case Stuck(q, why) =>
        s := NoStory(At(p));
      case Moved(q) =>
        var rest := FoldTellsAlarms(f, t, errors[..n], q);
        s := MovedMatchesAlarms(f, t, errors, p, rest);
    }
  }

  lemma AllAlarmsAfterOne(f: Machine, t: Task, errors: seq<Event>, p: Progress)
    requires errors != [] && DecideError(f, EnvOf(t), p, errors[|errors| - 1]).Moved?
    ensures DecideErrors(f, EnvOf(t), errors, p) ==
            DecideErrors(f, EnvOf(t), errors[..|errors| - 1], DecideError(f, EnvOf(t), p, errors[|errors| - 1]).p)
  {
  }

  lemma MovedMatchesAlarms(f: Machine, t: Task, errors: seq<Event>, p: Progress, rest: Story) returns (s: Story)
    requires errors != [] && DecideError(f, EnvOf(t), p, errors[|errors| - 1]).Moved?
    requires MatchesAlarms(f, t, errors[..|errors| - 1], DecideError(f, EnvOf(t), p, errors[|errors| - 1]).p, rest)
    ensures MatchesAlarms(f, t, errors, p, s)
  {
    hide Tells, DecideErrors;
    var n := |errors| - 1;
    AllAlarmsAfterOne(f, t, errors, p);
    var o := f.errorState.decider(ErrorContext(f, EnvOf(t), p.pending), errors[n], p.data).outcome;
    s := Then(At(p), o, rest);
    TellsOneMore(f, t, Alarm, 0, errors, At(p), o, rest);
    assert p.decisions + SaidIn(o) + rest.Said() == p.decisions + s.Said();
    if rest.Length() < n {
      assert Turn(errors[..n], rest.Length()) == Turn(errors, s.Length());
    }
  }

  lemma ListedIsUnprocessed(events: seq<Event>)
    ensures UnprocessedIDs(events) == Listed(events)
  {
  }

  /** The engine's reports are those of the story. */
  lemma CapturesReport(f: Machine, t: Task, env: Env, p: Progress, record: ErrorRecord)
    requires env.execution == t.execution
    ensures CaptureError(f, env, p, record) == Report(f, t, p.decisions, record, p.seen)
  {
  }

  lemma RecordsAlike(f: Machine, t: Task, env: Env, p: Progress)
    requires env.execution == t.execution
    ensures RecordCheckpoint(f, env, p) == Record(f, t, p.stateVersion, At(p), p.decisions, p.seen)
  {
    assert Listed([]) == [];
    CapturesSystem(f, t, env, p, "StateSerializationError", []);
  }

  lemma CapturesSystem(f: Machine, t: Task, env: Env, p: Progress, errorType: string, events: seq<Event>)
    requires env.execution == t.execution
    ensures forall reason :: CaptureSystemError(f, env, p, errorType, events, reason) ==
                             Report(f, t, p.decisions, SystemError(errorType, Listed(events), reason), p.seen)
  {
    ListedIsUnprocessed(events);
  }

  lemma FinishTickDelivers(f: Machine, t: Task, env: Env, p: Progress)
    requires env == EnvOf(t).(stateVersion := p.stateVersion) && p.seen == []
    ensures Delivers(f, t, p.stateVersion, At(p), p.decisions, FinishTick(f, env, Selected(t, Delivered), p))
  {
    hide DecideAll, Selected, Answer, CaptureError, RecordCheckpoint, Record, Report;
    var events := Selected(t, Delivered);
    var s := FoldTells(f, t, env, events, p);
    var n := s.Length();
    match DecideAll(f, env, events, p)
    case Done(q) =>
      assert [] + Shown(events, n) == Shown(events, n);
      RecordsAlike(f, t, env, q);
    case Halted(q, why, at) =>
      assert events[at..] == Oldest(events, n + 1) && events[at + 1..] == Oldest(events, n);
      ListedIsUnprocessed(events[at..]);
      ListedIsUnprocessed(events[at + 1..]);
      match why
      case NilOutcome =>
      case StateMissing =>
        assert q.seen == Shown(events, n);
        CapturesReport(f, t, env, q, SystemError("MissingFsmStateError", Listed(events[at..]), q.state));
      case DeciderPanicked(reason) =>
        assert q.seen == Shown(events, n + 1);
        CapturesReport(f, t, env, q,
          DecisionError(events[at].id, Listed(events[at + 1..]), q.state, q.data, reason));
  }

  lemma AfterErrorsGoesOn(f: Machine, t: Task, found: SerializedState, p: Progress)
    requires p.stateVersion == 0 && p.seen == []
    ensures GoesOn(f, t, found, At(p), p.decisions,
              AfterErrors(f, EnvOf(t), t.events, Selected(t, Delivered), found, p))
  {
    hide FinishTick, Delivers, Selected;
    ListedIsUnprocessed(t.events);
    if Recovers(p) {
      match f.serializer.decodeData(found.replicationData.stateData)
      case Err(_) =>
      case Ok(d) =>
        FinishTickDelivers(f, t, EnvOf(t).(stateVersion := found.replicationData.stateVersion), Resumed(p, found, d));
    } else {
      FinishTickDelivers(f, t, EnvOf(t), p);
    }
  }

  lemma TickBegins(f: Machine, t: Task, found: SerializedState)
    ensures BeginsFrom(f, t, found, TickFrom(f, EnvOf(t), t.events, Selected(t, Delivered), Selected(t, Alarm), found))
  {
    hide DecideErrors, AfterErrors, GoesOn, Selected, Answer;
    var alarms, start := Selected(t, Alarm), Beginning(f, t, found.pendingActivities);
    var p := Fresh(found.pendingActivities).(data := start.data, state := start.name);
    var s := FoldTellsAlarms(f, t, alarms, p);
    PhaseIsFold(f, t, alarms, found.pendingActivities, p);
    assert [] + s.Said() == s.Said();
    var r := TickFrom(f, EnvOf(t), t.events, Selected(t, Delivered), alarms, found);
    match DecideErrors(f, EnvOf(t), alarms, p)
    case Done(q) =>
      AfterErrorsGoesOn(f, t, found, q);
      assert BeginsWith(f, t, found, s, r);
    case Halted(q, why, at) =>
      var n := s.Length();
      assert alarms[at + 1..] == Oldest(alarms, n);
      ListedIsUnprocessed(alarms[at + 1..]);
      assert BeginsWith(f, t, found, s, r);
  }

  lemma PhaseIsFold(f: Machine, t: Task, errors: seq<Event>, pending: Pending, p: Progress)
    requires p == if errors == [] then Fresh(pending)
                  else Fresh(pending).(data := Ptr(f.zero), state := f.errorState.name)
    ensures ErrorPhase(f, EnvOf(t), errors, pending) == DecideErrors(f, EnvOf(t), errors, p)
  {
  }

  /** Every task results in what the engine computes, and in nothing else. */
  lemma TickIsItsStory(f: Machine, t: Task, r: TickResult)
    ensures ResultsIn(f, t, r) <==> r == Engine.Tick(f, t)
  {
    hide TickFrom, Finds, BeginsFrom;
    var found := Engine.FindSerializedState(f, t.events);
    FindsNewest(f, t.events);
    SelectsBoth(t.events, t.previousStartedEventID);
    ListedIsUnprocessed(t.events);
    if found.Ok? {
      TickBegins(f, t, found.value);
    }
    assert Begins(f, t, found, Engine.Tick(f, t));
    if ResultsIn(f, t, r) {
      ResultsOnce(f, t, r, Engine.Tick(f, t));
    }
  }

  // ----- ticks without alarms -----

  /** A tick that has no alarms and can load the newest checkpoint. */
  ghost predicate Quiet(f: Machine, t: Task, found: SerializedState, d: Data) {
    && Finds(f, t.events, Ok(found)) && f.serializer.decodeData(found.replicationData.stateData) == Ok(d)
    && Selected(t, Alarm) == []
  }

  function Loaded(found: SerializedState, d: Data): Moment {
    Moment(found.replicationData.stateName, Ptr(d), found.pendingActivities)
  }

  lemma QuietTickEnds(f: Machine, t: Task, found: SerializedState, d: Data, s: Story)
    requires Quiet(f, t, found, d)
    requires Tells(f, t, Delivered, found.replicationData.stateVersion, Selected(t, Delivered), Loaded(found, d), s)
    ensures Engine.Tick(f, t) == EndOf(f, t, found.replicationData.stateVersion, s, [])
  {
    hide EndOf, Finds, Engine.Tick;
    var r := EndOf(f, t, found.replicationData.stateVersion, s, []);
    var silent := NoStory(Moment("", Nil, found.pendingActivities));
    assert Delivers(f, t, found.replicationData.stateVersion, Loaded(found, d), [], r);
    assert GoesOn(f, t, found, silent.Last(), silent.Said(), r);
    assert BeginsWith(f, t, found, silent, r);
    assert Begins(f, t, Ok(found), r);
    TickIsItsStory(f, t, r);
  }

  /** The name after all answers is that of the last one that was not to stay, and the data are those of the last
      answer. */
  lemma {:induction false} LastWord(f: Machine, t: Task, version: uint64, events: seq<Event>, start: Moment, s: Story,
                                    k: nat)
    requires Tells(f, t, Delivered, version, events, start, s)
    requires k < s.Length() && forall i :: k < i < s.Length() ==> s.outcomes[i].StayOutcome?
    ensures match s.outcomes[k]
            case StayOutcome(_, _) => s.Last().name == s.moments[k].name
            case ContinueOutcome(_, _) => s.Last().name == ""
            case TransitionOutcome(_, name, _) => s.Last().name == name
            case CompleteOutcome(_, _) => s.Last().name == "complete"
            case ErrorOutcome(_, _) => s.Last().name == "error"
    ensures s.Last().data == s.outcomes[s.Length() - 1].data
    decreases s.Length() - k
  {
    if k + 1 < s.Length() {
      LastWord(f, t, version, events, start, s, k + 1);
    }
  }

  /** The tick that answers any number of events succeeds exactly if its checkpoint can be encoded. */
  lemma AnsweredTick(f: Machine, t: Task, found: SerializedState, d: Data, s: Story)
    requires Quiet(f, t, found, d)
    requires Tells(f, t, Delivered, found.replicationData.stateVersion, Selected(t, Delivered), Loaded(found, d), s)
    requires s.Length() == |Selected(t, Delivered)|
    ensures var r, version := Engine.Tick(f, t), found.replicationData.stateVersion;
            var next: uint64 := if version == 18446744073709551615 then 0 else version + 1;
            var data := f.serializer.encodeData(s.Last().data).text;
            var checkpoint := SerializedState(ReplicationData(next, s.Last().name, data), s.Last().pending);
            var marker := f.serializer.encodeState(checkpoint);
            if marker.error == None
            then && r.Success? && r.checkpoint == checkpoint && r.seen == Shown(Selected(t, Delivered), s.Length())
                 && r.decisions == [RecordMarker("FSM.State", marker.text)] + s.Said()
            else !r.Success?
  {
    hide Quiet, Engine.Tick, Tells, Answer;
    QuietTickEnds(f, t, found, d, s);
    assert [] + s.Said() == s.Said();
  }

  lemma OneAnswer(f: Machine, t: Task, version: uint64, m: Moment, e: Event, o: Outcome) returns (s: Story)
    requires Answer(f, t, Delivered, version, m, e) == Some(Returned(o)) && o != Pass
    ensures Tells(f, t, Delivered, version, [e], m, s) && s.Length() == 1
    ensures s.Last() == After(m, e, o) && s.Said() == o.decisions
  {
    s := Story([o], [m, After(m, e, o)]);
    assert Turn([e], 0) == e;
    assert s.Said() == SaidIn(o) + SaidInAll([o][1..]) && [o][1..] == [];
  }

  /** The tick that answers one event. Its checkpoint has the answer's data, and the state that the answer leads
      to; its decisions are the marker and then those of the answer. */
  lemma OneEventTick(f: Machine, t: Task, found: SerializedState, d: Data, e: Event, o: Outcome)
    requires Quiet(f, t, found, d) && Selected(t, Delivered) == [e]
    requires found.replicationData.stateName in f.states && o != Pass
    requires f.states[found.replicationData.stateName].decider(
               Context(f.serializer, t.workflowType, t.execution, found.pendingActivities,
                       found.replicationData.stateName, Ptr(d), found.replicationData.stateVersion),
               e, Ptr(d)) == Returned(o)
    ensures var r := Engine.Tick(f, t);
            r.Success? ==>
              && r.decisions == [RecordMarker("FSM.State", f.serializer.encodeState(r.checkpoint).text)] + o.decisions
              && r.checkpoint.replicationData.stateData == f.serializer.encodeData(o.data).text
              && r.checkpoint.pendingActivities == PendingAfter(found.pendingActivities, e)
              && r.seen == Shown([e], 1)
              && match o
                 case StayOutcome(_, _) => r.checkpoint.replicationData.stateName == found.replicationData.stateName
                 case ContinueOutcome(_, _) => r.checkpoint.replicationData.stateName == ""
                 case TransitionOutcome(_, name, _) => r.checkpoint.replicationData.stateName == name
                 case CompleteOutcome(_, _) => r.checkpoint.replicationData.stateName == "complete"
                 case ErrorOutcome(_, _) => r.checkpoint.replicationData.stateName == "error"
  {
    hide Quiet, Engine.Tick;
    var s := OneAnswer(f, t, found.replicationData.stateVersion, Loaded(found, d), e, o);
    AnsweredTick(f, t, found, d, s);
  }

  // ----- completion -----

  /** A decider that completes ends the workflow in the state "complete" and asks, after everything else, for its
      completion with the data as the result. */
  lemma CompletingTick(f: Machine, t: Task, found: SerializedState, d: Data, e: Event, data: Value, ds: seq<Decision>)
    requires Quiet(f, t, found, d) && Selected(t, Delivered) == [e]
    requires found.replicationData.stateName in f.states
    requires var ctx := Context(f.serializer, t.workflowType, t.execution, found.pendingActivities,
                          found.replicationData.stateName, Ptr(d), found.replicationData.stateVersion);
             f.states[found.replicationData.stateName].decider(ctx, e, Ptr(d)) == Complete(ctx, data, ds)
    ensures var r, text := Engine.Tick(f, t), f.serializer.encodeData(data);
            && (r.Success? ==>
                  && text.error == None && r.checkpoint.replicationData.stateName == "complete"
                  && r.decisions == [RecordMarker("FSM.State", f.serializer.encodeState(r.checkpoint).text)] + ds
                                    + [CompleteWorkflowExecution(text.text)]
                  && r.checkpoint.replicationData.stateData == text.text)
            && (r.Failure? && text.error.Some? ==> r.record.DecisionError? && r.record.reason == text.error.value)
  {
    hide Quiet, Engine.Tick;
    var m, version := Loaded(found, d), found.replicationData.stateVersion;
    var text := f.serializer.encodeData(data);
    if text.error == None {
      var o := CompleteOutcome(data, ds + [CompleteWorkflowExecution(text.text)]);
      OneEventTick(f, t, found, d, e, o);
    } else {
      QuietTickEnds(f, t, found, d, NoStory(m));
    }
  }

  function Repeated<T>(x: T, n: nat): seq<T> {
    seq(n, _ => x)
  }

  /** The story of events that all get the same answer, which changes neither the name nor the data. */
  lemma {:induction false} SameAnswers(f: Machine, t: Task, version: uint64, events: seq<Event>, m: Moment, o: Outcome)
    returns (s: Story)
    requires o != Pass && NameAfter(m.name, o) == m.name && DataAfter(m.data, o) == m.data
    requires forall e, pending :: Answer(f, t, Delivered, version, m.(pending := pending), e) == Some(Returned(o))
    ensures Tells(f, t, Delivered, version, events, m, s) && s.outcomes == Repeated(o, |events|)
    ensures s.Last().name == m.name && s.Last().data == m.data
    decreases |events|
  {
    if events == [] {
      s := NoStory(m);
    } else {
      var n := |events| - 1;
      var next := After(m, events[n], o);
      assert next == m.(pending := next.pending);
      var rest := SameAnswers(f, t, version, events[..n], next, o);
      assert Answer(f, t, Delivered, version, m.(pending := m.pending), events[n]) == Some(Returned(o));
      s := Then(m, o, rest);
      TellsOneMore(f, t, Delivered, version, events, m, o, rest);
    }
  }

  lemma {:induction false} RepeatedSaid(o: Outcome, x: Decision, n: nat)
    requires SaidIn(o) == [x]
    ensures SaidInAll(Repeated(o, n)) == Repeated(x, n)
  {
    if n > 0 {
      RepeatedSaid(o, x, n - 1);
      assert Repeated(o, n)[1..] == Repeated(o, n - 1);
    }
  }

  /** In the default complete state every further event is one more attempt to complete the workflow with its
      data, and the workflow stays complete. */
  lemma CompletionIsRetried(f: Machine, t: Task, found: SerializedState, d: Data)
    requires Quiet(f, t, found, d) && found.replicationData.stateName == "complete"
    requires "complete" in f.states && f.states["complete"] == Fsm.DefaultCompleteState()
    requires f.serializer.encodeData(Ptr(d)).error == None
    ensures var r, text := Engine.Tick(f, t), f.serializer.encodeData(Ptr(d)).text;
            r.Success? ==>
              && r.checkpoint.replicationData.stateName == "complete"
              && r.checkpoint.replicationData.stateData == text
              && r.decisions == [RecordMarker("FSM.State", f.serializer.encodeState(r.checkpoint).text)]
                                + Repeated(CompleteWorkflowExecution(text), |Selected(t, Delivered)|)
  {
    hide Quiet, Engine.Tick, Tells, Selected;
    var events, version := Selected(t, Delivered), found.replicationData.stateVersion;
    var x := CompleteWorkflowExecution(f.serializer.encodeData(Ptr(d)).text);
    var o := CompleteOutcome(Ptr(d), [x]);
    forall e, pending
      ensures Answer(f, t, Delivered, version, Loaded(found, d).(pending := pending), e) == Some(Returned(o))
    {
      var ctx := Context(f.serializer, t.workflowType, t.execution, pending, "complete", Ptr(d), version);
      Fsm.DefaultStatesAnswer(f.serializer, ctx, e, Ptr(d));
    }
    var s := SameAnswers(f, t, version, events, Loaded(found, d), o);
    RepeatedSaid(o, x, |events|);
    AnsweredTick(f, t, found, d, s);
  }

  // ----- failed ticks -----

  /** An event of the task made a decider panic: that of the error state, or that of the current state. */
  ghost predicate PanickedOn(f: Machine, t: Task, record: ErrorRecord, e: Event, pending: Pending, version: uint64)
    requires record.DecisionError?
  {
    var DecisionError(id, _, name, data, reason) := record;
    var onAlarm := Context(f.serializer, t.workflowType, t.execution, pending, f.errorState.name, Ptr(f.zero), 0);
    var onEvent := Context(f.serializer, t.workflowType, t.execution, pending, name, data, version);
    && e.id == id
    && (|| (e in Selected(t, Alarm) && f.errorState.decider(onAlarm, e, data) == Panicked(reason))
        || (&& e in Selected(t, Delivered) && name in f.states
            && f.states[name].decider(onEvent, e, data) == Panicked(reason)))
  }

  /** What made a tick fail. */
  ghost predicate CausedBy(f: Machine, t: Task, record: ErrorRecord) {
    match record
    case DecisionError(_, _, _, _, _) => exists e, pending, version :: PanickedOn(f, t, record, e, pending, version)
    case SystemError(errorType, _, reason) =>
      || (errorType == "FindSerializedStateError" && Finds(f, t.events, Err(reason)))
      || (errorType == "DeserializeStateError" && NotLoaded(f, t, reason))
      || (errorType == "MissingFsmStateError" && reason !in f.states)
      || (errorType == "StateSerializationError" && NotEncoded(f, reason))
  }

  ghost predicate NotEncoded(f: Machine, reason: string) {
    exists state :: f.serializer.encodeState(state).error == Some(reason)
  }

  ghost predicate NotLoaded(f: Machine, t: Task, reason: string) {
    exists found ::
      Finds(f, t.events, Ok(found)) && f.serializer.decodeData(found.replicationData.stateData) == Err(reason)
  }

  lemma StopRecords(f: Machine, t: Task, role: Role, version: uint64, events: seq<Event>, s: Story,
                    prior: seq<Decision>)
    requires |s.moments| == s.Length() + 1 && s.Length() < |events|
    requires Stop(f, t, role, version, events, s, prior).Failure?
    ensures var record, m := Stop(f, t, role, version, events, s, prior).record, s.Last();
            var e, listed := Turn(events, s.Length()), Listed(Oldest(events, s.Length()));
            match Answer(f, t, role, version, m, e)
            case None => record == SystemError("MissingFsmStateError", Listed(Oldest(events, s.Length() + 1)), m.name)
            case Some(Panicked(reason)) => record == DecisionError(e.id, listed, m.name, m.data, reason)
            case Some(Returned(_)) => false
  {
    hide Answer, Listed;
  }

  lemma StopIsCaused(f: Machine, t: Task, role: Role, version: uint64, s: Story, prior: seq<Decision>)
    requires !role.Ignored? && |s.moments| == s.Length() + 1 && s.Length() < |Selected(t, role)|
    requires Stop(f, t, role, version, Selected(t, role), s, prior).Failure?
    ensures CausedBy(f, t, Stop(f, t, role, version, Selected(t, role), s, prior).record)
  {
    hide Selected, Finds, NotLoaded, Stop, Listed, Oldest;
    var events, m := Selected(t, role), s.Last();
    StopRecords(f, t, role, version, events, s, prior);
    var e, record := Turn(events, s.Length()), Stop(f, t, role, version, events, s, prior).record;
    if record.DecisionError? {
      assert PanickedOn(f, t, record, e, m.pending, version);
    }
  }

  lemma DeliveryIsCaused(f: Machine, t: Task, version: uint64, start: Moment, prior: seq<Decision>, r: TickResult)
    requires Delivers(f, t, version, start, prior, r) && r.Failure?
    ensures CausedBy(f, t, r.record)
  {
    hide Selected, Stop, Record, CausedBy;
    var events := Selected(t, Delivered);
    var s: Story :| Tells(f, t, Delivered, version, events, start, s) && r == EndOf(f, t, version, s, prior);
    if s.Length() < |events| {
      StopIsCaused(f, t, Delivered, version, s, prior);
    } else {
      RecordIsCaused(f, t, version, s.Last(), prior + s.Said(), Shown(events, |events|));
    }
  }

  lemma RecordIsCaused(f: Machine, t: Task, version: uint64, m: Moment, said: seq<Decision>, seen: seq<Event>)
    requires Record(f, t, version, m, said, seen).Failure?
    ensures CausedBy(f, t, Record(f, t, version, m, said, seen).record)
  {
    hide Finds, NotLoaded, PanickedOn;
  }

  lemma LoadingIsCaused(f: Machine, t: Task, found: SerializedState, m: Moment, said: seq<Decision>, r: TickResult)
    requires Finds(f, t.events, Ok(found)) && GoesOn(f, t, found, m, said, r) && r.Failure?
    ensures CausedBy(f, t, r.record)
  {
    hide Finds, Delivers, PanickedOn, NotEncoded, Listed;
    if m.data != Nil || m.name != "" {
      DeliveryIsCaused(f, t, 0, m, said, r);
    } else {
      match f.serializer.decodeData(found.replicationData.stateData)
      case Err(_) =>
      case Ok(d) =>
        DeliveryIsCaused(f, t, found.replicationData.stateVersion,
          Moment(found.replicationData.stateName, Ptr(d), m.pending), said, r);
    }
  }

  lemma FindingIsCaused(f: Machine, t: Task, reason: string)
    requires Finds(f, t.events, Err(reason))
    requires Report(f, t, [], SystemError("FindSerializedStateError", Listed(t.events), reason), []).Failure?
    ensures CausedBy(f, t,
              Report(f, t, [], SystemError("FindSerializedStateError", Listed(t.events), reason), []).record)
  {
    hide Finds, NotLoaded, NotEncoded, PanickedOn, Listed;
  }

  lemma FailureIsCaused(f: Machine, t: Task)
    requires Engine.Tick(f, t).Failure?
    ensures CausedBy(f, t, Engine.Tick(f, t).record)
  {
    hide Engine.Tick, Selected, Finds, GoesOn, Stop, Beginning, Report, CausedBy;
    var r := Engine.Tick(f, t);
    TickIsItsStory(f, t, r);
    var found :| Finds(f, t.events, found) && Begins(f, t, found, r);
    match found
    case Err(reason) => FindingIsCaused(f, t, reason);
    case Ok(state) =>
      var s :| BeginsWith(f, t, state, s, r);
      if s.Length() < |Selected(t, Alarm)| {
        StopIsCaused(f, t, Alarm, 0, s, []);
      } else {
        LoadingIsCaused(f, t, state, s.Last(), s.Said(), r);
      }
  }

  /** Whatever made a tick fail, its last decision is a signal to its own execution that carries the record:
      "FSM.Error" where a decider panicked, "FSM.SystemError" where no checkpoint was found or loaded, a state
      was missing, or the checkpoint could not be encoded. */
  lemma FailureIsSignalled(f: Machine, t: Task)
    requires Engine.Tick(f, t).Failure?
    ensures var r := Engine.Tick(f, t);
            && CausedBy(f, t, r.record)
            && r.notice.SignalExternalWorkflowExecution?
            && r.notice.workflowID == t.execution.workflowID && r.notice.runID == t.execution.runID
            && r.notice.input == f.serializer.encodeError(r.record).text
            && (r.record.DecisionError? ==> r.notice.signalName == "FSM.Error")
            && (r.record.SystemError? ==> r.notice.signalName == "FSM.SystemError")
  {
    hide Engine.Tick, CausedBy;
    FailureIsCaused(f, t);
    FailedTickNotifies(f, t);
  }

  // ----- the notice comes back -----

  lemma {:induction false} SelectsByRole(events: seq<Event>, previous: int, i: nat, role: Role)
    requires i < |events| && RoleOf(events[i].body) == role && forall j :: 0 <= j <= i ==> events[j].id != previous
    ensures events[i] in Select(events, previous, role)
  {
    if i > 0 {
      assert events[i] == events[1..][i - 1];
      SelectsByRole(events[1..], previous, i - 1, role);
    }
  }

  lemma {:induction false} SelectsNothingElse(events: seq<Event>, previous: int, role: Role)
    ensures forall e :: e in Select(events, previous, role) ==> RoleOf(e.body) == role
  {
    if events != [] && events[0].id != previous {
      SelectsNothingElse(events[1..], previous, role);
    }
  }

  predicate StartsWith(said: seq<Decision>, r: TickResult) {
    match r
    case Success(decisions, _, _) => decisions != [] && said <= decisions[1..]
    case Failure(sofar, _, _, _) => said <= sofar
    case Crash => true
  }

  lemma DeliveryStartsWith(f: Machine, t: Task, version: uint64, start: Moment, prior: seq<Decision>, r: TickResult)
    requires Delivers(f, t, version, start, prior, r)
    ensures StartsWith(prior, r)
  {
    hide EndOf, Selected;
    var events := Selected(t, Delivered);
    var s: Story :| Tells(f, t, Delivered, version, events, start, s) && r == EndOf(f, t, version, s, prior);
    EndStartsWith(f, t, version, s, prior);
  }

  lemma EndStartsWith(f: Machine, t: Task, version: uint64, s: Story, prior: seq<Decision>)
    requires |s.moments| == s.Length() + 1
    ensures StartsWith(prior, EndOf(f, t, version, s, prior))
  {
    hide Answer, Selected, Report, Listed, StartsWith;
    forall record, seen
      ensures StartsWith(prior, Report(f, t, prior + s.Said(), record, seen))
    {
      ReportStartsWith(f, t, prior, s.Said(), record, seen);
    }
    RecordStartsWith(f, t, version, s.Last(), prior, s.Said(), Shown(Selected(t, Delivered), |Selected(t, Delivered)|));
    CrashStartsWith(prior);
  }

  lemma CrashStartsWith(prior: seq<Decision>)
    ensures StartsWith(prior, Crash)
  {
  }

  lemma ReportStartsWith(f: Machine, t: Task, prior: seq<Decision>, said: seq<Decision>, record: ErrorRecord,
                         seen: seq<Event>)
    ensures StartsWith(prior, Report(f, t, prior + said, record, seen))
  {
  }

  lemma RecordStartsWith(f: Machine, t: Task, version: uint64, m: Moment, prior: seq<Decision>, said: seq<Decision>,
                         seen: seq<Event>)
    ensures StartsWith(prior, Record(f, t, version, m, prior + said, seen))
  {
    assert prior <= prior + said;
  }

  lemma GoingOnStartsWith(f: Machine, t: Task, found: SerializedState, m: Moment, said: seq<Decision>, r: TickResult)
    requires GoesOn(f, t, found, m, said, r)
    ensures StartsWith(said, r)
  {
    hide Delivers;
    if m.data != Nil || m.name != "" {
      DeliveryStartsWith(f, t, 0, m, said, r);
    } else {
      match f.serializer.decodeData(found.replicationData.stateData)
      case Err(_) =>
      case Ok(d) =>
        DeliveryStartsWith(f, t, found.replicationData.stateVersion,
          Moment(found.replicationData.stateName, Ptr(d), m.pending), said, r);
    }
  }

  /** The oldest alarm goes to the error state, about the zero data and under version 0, before anything else is
      asked. If that panics, the tick reports it with nothing decided; if it answers, its decisions come first. */
  ghost predicate HandedToErrorState(f: Machine, t: Task, pending: Pending, e: Event, r: TickResult) {
    var ctx := Context(f.serializer, t.workflowType, t.execution, pending, f.errorState.name, Ptr(f.zero), 0);
    match f.errorState.decider(ctx, e, Ptr(f.zero))
    case Panicked(reason) =>
      r == Report(f, t, [], DecisionError(e.id, [], f.errorState.name, Ptr(f.zero), reason), [])
    case Returned(Pass) => r == Crash
    case Returned(o) => StartsWith(o.decisions, r)
  }

  lemma OldestAlarm(f: Machine, t: Task, found: SerializedState)
    requires Finds(f, t.events, Ok(found)) && Selected(t, Alarm) != []
    ensures HandedToErrorState(f, t, found.pendingActivities, Turn(Selected(t, Alarm), 0), Engine.Tick(f, t))
  {
    hide Engine.Tick, Finds, Selected, BeginsWith, HandedToErrorState;
    var r := Engine.Tick(f, t);
    TickIsItsStory(f, t, r);
    var found' :| Finds(f, t.events, found') && Begins(f, t, found', r);
    FindsOnce(f, t.events, found', Ok(found));
    var s :| BeginsWith(f, t, found, s, r);
    FirstAsked(f, t, found, s, r);
  }

  lemma FirstAsked(f: Machine, t: Task, found: SerializedState, s: Story, r: TickResult)
    requires BeginsWith(f, t, found, s, r) && Selected(t, Alarm) != []
    ensures HandedToErrorState(f, t, found.pendingActivities, Turn(Selected(t, Alarm), 0), r)
  {
    hide Selected, GoesOn, Stop, StartsWith, HandedToErrorState;
    var e := Turn(Selected(t, Alarm), 0);
    if s.Length() == 0 {
      FirstUnanswered(f, t, found, s);
    } else {
      assert Answer(f, t, Alarm, 0, s.moments[0], e) == Some(Returned(s.outcomes[0]));
      SaidFirst(f, t, found, s, r);
      FirstAnswered(f, t, found.pendingActivities, e, s, r);
    }
  }

  lemma FirstUnanswered(f: Machine, t: Task, found: SerializedState, s: Story)
    requires Selected(t, Alarm) != [] && s.Length() == 0
    requires Tells(f, t, Alarm, 0, Selected(t, Alarm), Beginning(f, t, found.pendingActivities), s)
    ensures var alarms := Selected(t, Alarm);
            HandedToErrorState(f, t, found.pendingActivities, Turn(alarms, 0), Stop(f, t, Alarm, 0, alarms, s, []))
  {
    hide Selected, StartsWith, Report;
    assert [] + s.Said() == [] && Listed(Oldest(Selected(t, Alarm), 0)) == [];
  }

  lemma FirstAnswered(f: Machine, t: Task, pending: Pending, e: Event, s: Story, r: TickResult)
    requires s.Length() > 0 && s.outcomes[0] != Pass && StartsWith(s.Said(), r)
    requires Answer(f, t, Alarm, 0, Moment(f.errorState.name, Ptr(f.zero), pending), e)
             == Some(Returned(s.outcomes[0]))
    ensures HandedToErrorState(f, t, pending, e, r)
  {
    hide Report;
    assert SaidIn(s.outcomes[0]) <= s.Said();
  }

  lemma SaidFirst(f: Machine, t: Task, found: SerializedState, s: Story, r: TickResult)
    requires BeginsWith(f, t, found, s, r)
    ensures StartsWith(s.Said(), r)
  {
    hide Answer, Selected, GoesOn;
    assert [] + s.Said() == s.Said();
    var alarms := Selected(t, Alarm);
    if s.Length() == |alarms| {
      GoingOnStartsWith(f, t, found, s.Last(), s.Said(), r);
    }
  }

  /** The event by which an external signal arrives. */
  predicate BecomesEvent(d: Decision, b: EventBody) {
    d.SignalExternalWorkflowExecution? && b == WorkflowExecutionSignaled(d.signalName, d.input)
  }

  /** Once the notice of a failed tick is an event of the workflow, the next task has it among the alarms and not
      among the delivered events, and as the oldest alarm it is handed to the error state. */
  lemma NoticeComesBack(f: Machine, t: Task, t': Task, i: nat, found: SerializedState)
    requires Engine.Tick(f, t).Failure?
    requires i < |t'.events| && forall j :: 0 <= j <= i ==> t'.events[j].id != t'.previousStartedEventID
    requires BecomesEvent(Engine.Tick(f, t).notice, t'.events[i].body)
    requires Finds(f, t'.events, Ok(found))
    ensures var e, alarms := t'.events[i], Selected(t', Alarm);
            && e in alarms && e !in Selected(t', Delivered)
            && (e == Turn(alarms, 0) ==> HandedToErrorState(f, t', found.pendingActivities, e, Engine.Tick(f, t')))
  {
    hide Engine.Tick, Finds, HandedToErrorState;
    FailureIsSignalled(f, t);
    SelectsByRole(t'.events, t'.previousStartedEventID, i, Alarm);
    SelectsNothingElse(t'.events, t'.previousStartedEventID, Delivered);
    OldestAlarm(f, t', found);
  }
}
