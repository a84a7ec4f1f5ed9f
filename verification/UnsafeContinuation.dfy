/** Two concrete runs that show why safe continuation speaks of successful ticks and of past events only:
    after a failed tick managed continuations continue over an activity that is still running, and on an
    early signal over one that the same tick schedules. */
module UnsafeContinuation {
  import opened Protocol
  import opened Correlator
  import opened Model
  import opened Engine
  import opened Deciders
  import opened TickLaws
  import opened Runs
  import opened Continuations

  // ----- the machine -----

  /** Starts one activity and the continue timer, cannot handle one kind of signal, and leaves the timer to
      managed continuations. */
  function FragileVerdict(ctx: Context, e: Event, data: Value): Verdict {
    if e.body.WorkflowExecutionStarted? then
      Returned(StayOutcome(data, [ScheduleActivityTask("a", ActivityType("work", "1")), RetryTimer(5)]))
    else if e.body == WorkflowExecutionSignaled("boom", "") then Panicked("boom")
    else if Triggers(e) then ManagedContinuations(1000, 5)(ctx, e, data)
    else Returned(StayOutcome(data, []))
  }

  function FragileDecider(): Decider {
    (ctx: Context, e: Event, data: Value) => FragileVerdict(ctx, e, data)
  }

  /** Leaves error signals to normal recovery. */
  function TransparentDecider(): Decider {
    (ctx: Context, e: Event, data: Value) =>
      if e.body.ErrorSignal() then Returned(ContinueOutcome(Nil, [])) else Returned(StayOutcome(data, []))
  }

  /** Both states are registered, as AddInitialState and AddErrorState leave them. */
  function FragileMachine(s: Serializer, zero: Data): Machine {
    var state, error := FSMState("go", FragileDecider()), FSMState(ERROR_STATE, TransparentDecider());
    Machine(s, zero, map["go" := state, ERROR_STATE := error], state, error, "")
  }

  lemma FragileMachineIsDiscreet(s: Serializer, zero: Data)
    ensures Discreet(FragileMachine(s, zero))
  {
    forall ctx, e, v, x | x in DecisionsOf(FragileDecider()(ctx, e, v))
      ensures !x.Checkpoint()
    {
      ManagedContinuationsTable(1000, 5, ctx, e, v);
    }
  }

  ghost predicate Encodes(s: Serializer) {
    && StatesRoundTrip(s) && DataRoundTrips(s)
    && (forall state :: s.encodeState(state).Fine()) && (forall v :: s.encodeData(v).Fine())
    && (forall record :: s.encodeError(record).Fine())
  }

  // ----- the run -----

  /** The states that its ticks recover: version 0 from the start input, version 1 from the only marker. */
  function FragileState(s: Serializer, d: Data, version: uint64): SerializedState {
    SerializedState(ReplicationData(version, "go", s.encodeData(Ptr(d)).text), map[])
  }

  function FragileMarker(s: Serializer, d: Data): EventBody {
    MarkerRecorded(STATE_MARKER, s.encodeState(FragileState(s, d, 1)).text)
  }

  /** The first task starts an activity and a timer. A signal arrives that makes the second task fail, and
      its error signal is on its way when the timer fires and the third task starts. */
  function FragileSteps(s: Serializer, d: Data): seq<Step> {
    [Schedule, Step.Start,
     Commit([[FragileMarker(s, d)], [ActivityTaskScheduled("a", ActivityType("work", "1"))],
             [OtherEvent("TimerStarted")]], false),
     External(WorkflowExecutionSignaled("boom", "")), Schedule, Step.Start,
     Commit([[OtherEvent("SignalExternalWorkflowExecutionInitiated")]], false),
     External(TimerFired(CONTINUE_TIMER)), Schedule, Step.Start]
  }

  function FragileHistory(s: Serializer, d: Data, input: string): seq<Event> {
    [Event(15, DecisionTaskStarted), Event(14, DecisionTaskScheduled), Event(13, TimerFired(CONTINUE_TIMER)),
     Event(12, OtherEvent("SignalExternalWorkflowExecutionInitiated")), Event(11, DecisionTaskCompleted),
     Event(10, DecisionTaskStarted), Event(9, DecisionTaskScheduled), Event(8, WorkflowExecutionSignaled("boom", "")),
     Event(7, OtherEvent("TimerStarted")), Event(6, ActivityTaskScheduled("a", ActivityType("work", "1"))),
     Event(5, FragileMarker(s, d)), Event(4, DecisionTaskCompleted),
     Event(3, DecisionTaskStarted), Event(2, DecisionTaskScheduled), Event(1, WorkflowExecutionStarted(input))]
  }

  /** The history of the run once `n` events have happened. */
  function Stage(s: Serializer, d: Data, input: string, n: nat): seq<Event>
    requires n <= 15
  {
    FragileHistory(s, d, input)[15 - n..]
  }

  // ----- what its tasks see -----

  lemma {:induction false} NothingMarked(events: seq<Event>)
    requires forall i :: 0 <= i < |events| ==> !events[i].body.StateMarker()
    ensures Markers(events) == []
  {
    if events != [] {
      NothingMarked(events[1..]);
    }
  }

  lemma {:induction false} NothingSignaled(events: seq<Event>)
    requires forall i :: 0 <= i < |events| ==> !events[i].body.ErrorSignal()
    ensures ErrorSignals(events) == []
  {
    if events != [] {
      NothingSignaled(events[1..]);
    }
  }

  lemma NextDeliverable(h: seq<Event>, i: nat, j: nat)
    requires i < j <= |h|
    ensures Deliverables(h[i..j]) == (if h[i].body.Deliverable() then [h[i]] else []) + Deliverables(h[i + 1..j])
  {
    assert h[i..j][1..] == h[i + 1..j];
  }

  lemma NoDeliverables(h: seq<Event>, i: nat)
    requires i <= |h|
    ensures Deliverables(h[i..i]) == []
  {
  }

  lemma FirstTask(s: Serializer, d: Data, input: string)
    ensures var h := FragileHistory(s, d, input); Deliverables(h[12..15]) == [h[14]]
  {
    hide Deliverables;
    var h := FragileHistory(s, d, input);
    NoDeliverables(h, 15);
    NextDeliverable(h, 14, 15);
    NextDeliverable(h, 13, 15);
    NextDeliverable(h, 12, 15);
  }

  lemma SecondTask(s: Serializer, d: Data, input: string)
    ensures var h := FragileHistory(s, d, input); Deliverables(h[5..12]) == [h[7], h[8], h[9]]
  {
    hide Deliverables;
    var h := FragileHistory(s, d, input);
    NoDeliverables(h, 12);
    NextDeliverable(h, 11, 12);
    NextDeliverable(h, 10, 12);
    NextDeliverable(h, 9, 12);
    NextDeliverable(h, 8, 12);
    NextDeliverable(h, 7, 12);
    NextDeliverable(h, 6, 12);
    NextDeliverable(h, 5, 12);
  }

  lemma ThirdTask(s: Serializer, d: Data, input: string)
    ensures var h := FragileHistory(s, d, input); Deliverables(h[0..5]) == [h[2], h[3]]
  {
    hide Deliverables;
    var h := FragileHistory(s, d, input);
    NoDeliverables(h, 5);
    NextDeliverable(h, 4, 5);
    NextDeliverable(h, 3, 5);
    NextDeliverable(h, 2, 5);
    NextDeliverable(h, 1, 5);
    NextDeliverable(h, 0, 5);
  }

  lemma FragileNumbered(s: Serializer, d: Data, input: string)
    ensures var h := FragileHistory(s, d, input);
            forall i :: 0 <= i < |h| ==> h[i].id == 15 - i && !h[i].body.ErrorSignal()
  {
  }

  /** The events that are new to a task whose predecessor started at `previousStartedEventID`. */
  lemma FragileRecent(s: Serializer, d: Data, input: string, t: Task, n: nat)
    requires n <= 15 && 0 <= t.previousStartedEventID <= n && t.events == Stage(s, d, input, n)
    ensures var h := FragileHistory(s, d, input);
            Recent(t) == h[15 - n..15 - t.previousStartedEventID] && ErrorSignals(Recent(t)) == []
  {
    var h := FragileHistory(s, d, input);
    assert |h| == 15;
    hide FragileHistory, NewerThan;
    FragileNumbered(s, d, input);
    NewerThanNumbered(t.events, t.previousStartedEventID);
    NothingSignaled(Recent(t));
  }

  lemma FragileAnchors(s: Serializer, d: Data, input: string)
    ensures var h := FragileHistory(s, d, input);
            && (forall i :: 0 <= i < |h| ==> (h[i].body.StateMarker() <==> i == 10))
            && (forall i :: 0 <= i < |h| ==> (h[i].body.WorkflowExecutionStarted? <==> i == 14))
  {
  }

  /** The first task recovers the start input, the other two the marker of the first. */
  lemma FragileRecovery(s: Serializer, d: Data, n: nat)
    requires Encodes(s) && StartFSMWorkflowInput(s, Ptr(d)).Some? && n in {3, 10, 15}
    ensures var h := Stage(s, d, StartFSMWorkflowInput(s, Ptr(d)).value, n);
            FindSerializedState(FragileMachine(s, d), h) == Ok(FragileState(s, d, if n == 3 then 0 else 1))
  {
    var f, input := FragileMachine(s, d), StartFSMWorkflowInput(s, Ptr(d)).value;
    var h := Stage(s, d, input, n);
    var all := FragileHistory(s, d, input);
    assert |all| == 15 && all[10].body == FragileMarker(s, d) && all[14].body == WorkflowExecutionStarted(input);
    hide FindSerializedState, FragileHistory;
    FragileAnchors(s, d, input);
    var k := if n == 3 then 2 else n - 5;
    assert h == h[..k] + h[k..];
    NothingMarked(h[..k]);
    SkipQuiet(f, h[..k], h[k..]);
    FindAtOnce(f, h[k..]);
    var started := SerializedState(ReplicationData(0, "", s.encodeData(Ptr(d)).text), map[]);
    assert s.encodeState(started).Fine() && s.encodeState(FragileState(s, d, 1)).Fine();
  }

  lemma FindAtOnce(f: Machine, events: seq<Event>)
    requires events != [] && Anchors(events[0])
    ensures FindSerializedState(f, events) ==
            if events[0].body.StateMarker() then f.serializer.decodeState(events[0].body.details)
            else StartState(f, events[0].body.input)
  {
  }

  /** The progress from which a tick that recovered that version decides. */
  function FragileStart(d: Data, version: uint64): Progress {
    Progress(version, "go", Ptr(d), [], map[], [])
  }

  lemma FragileOutset(s: Serializer, d: Data, t: Task, version: uint64)
    requires Encodes(s) && ErrorSignals(Recent(t)) == []
    requires FindSerializedState(FragileMachine(s, d), t.events) == Ok(FragileState(s, d, version))
    ensures OutsetOf(FragileMachine(s, d), t)
            == Some(Outset(Env(t.workflowType, t.execution, version), FragileStart(d, version)))
    ensures ErrorDecisions(FragileMachine(s, d), t) == []
  {
    assert s.encodeData(Ptr(d)).Fine();
  }

  // ----- what its ticks decide -----

  /** One event that is neither the start nor a trigger nor the signal: the machine stays as it is. */
  lemma FragileStays(s: Serializer, d: Data, env: Env, p: Progress, e: Event)
    requires p.state == "go" && !e.body.WorkflowExecutionStarted? && !Triggers(e)
    requires e.body != WorkflowExecutionSignaled("boom", "")
    ensures Decide(FragileMachine(s, d), env, p, e) == Moved(p.(seen := p.seen + [e], pending := Tracked(p.pending, e)))
  {
    assert p.decisions + [] == p.decisions;
  }

  lemma DecideNext(f: Machine, env: Env, events: seq<Event>, p: Progress, q: Progress)
    requires events != [] && Decide(f, env, p, events[|events| - 1]) == Moved(q)
    ensures DecideAll(f, env, events, p) == DecideAll(f, env, events[..|events| - 1], q)
  {
  }

  lemma DecideStuck(f: Machine, env: Env, events: seq<Event>, p: Progress, q: Progress, why: Halt)
    requires events != [] && Decide(f, env, p, events[|events| - 1]) == Stuck(q, why)
    ensures DecideAll(f, env, events, p) == Halted(q, why, |events| - 1)
  {
  }

  lemma FirstTick(s: Serializer, d: Data, t: Task)
    requires Encodes(s) && StartFSMWorkflowInput(s, Ptr(d)).Some? && t.previousStartedEventID == 0
    requires t.events == Stage(s, d, StartFSMWorkflowInput(s, Ptr(d)).value, 3)
    ensures var f, r := FragileMachine(s, d), Tick(FragileMachine(s, d), t);
            && r.Success? && r.checkpoint == FragileState(s, d, 1)
            && r.decisions == [StateMarker(s.encodeState(FragileState(s, d, 1)).text),
                               ScheduleActivityTask("a", ActivityType("work", "1")), RetryTimer(5)]
  {
    hide Tick, OutsetOf, Recent, FindSerializedState, DecideAll, Deliverables, StartFSMWorkflowInput, FragileState,
      ErrorSignals, Itoa, FinishTick, ErrorDecisions, FragileMachine, FragileStart, RetryTimer;
    var f, input := FragileMachine(s, d), StartFSMWorkflowInput(s, Ptr(d)).value;
    var h, env := FragileHistory(s, d, input), Env(t.workflowType, t.execution, 0);
    assert |h| == 15 && h[14].body == WorkflowExecutionStarted(input);
    hide FragileHistory;
    FragileRecent(s, d, input, t, 3);
    FirstTask(s, d, input);
    FragileRecovery(s, d, 3);
    FragileOutset(s, d, t, 0);
    TickFromOutset(f, t);
    FirstFinish(s, d, env, h[14]);
  }

  lemma FirstFinish(s: Serializer, d: Data, env: Env, e: Event)
    requires Encodes(s) && e.body.WorkflowExecutionStarted?
    ensures var r := FinishTick(FragileMachine(s, d), env, [e], FragileStart(d, 0));
            && r.Success? && r.checkpoint == FragileState(s, d, 1)
            && r.decisions == [StateMarker(s.encodeState(FragileState(s, d, 1)).text),
                               ScheduleActivityTask("a", ActivityType("work", "1")), RetryTimer(5)]
  {
    hide DecideAll, Itoa;
    var f, p := FragileMachine(s, d), FragileStart(d, 0);
    var ds := [ScheduleActivityTask("a", ActivityType("work", "1")), RetryTimer(5)];
    assert [] + ds == ds && [] + [e] == [e];
    var q := p.(decisions := ds, seen := [e]);
    assert Decide(f, env, p, e) == Moved(q);
    DecideNext(f, env, [e], p, q);
    assert [e][..0] == [];
    DecideNothing(f, env, q);
    assert s.encodeState(FragileState(s, d, 1)).Fine();
  }

  lemma DecideNothing(f: Machine, env: Env, p: Progress)
    ensures DecideAll(f, env, [], p) == Done(p)
  {
  }

  lemma SecondSweep(s: Serializer, d: Data, input: string, env: Env)
    ensures var h := FragileHistory(s, d, input);
            var sweep := DecideAll(FragileMachine(s, d), env, [h[7], h[8], h[9]], FragileStart(d, 1));
            sweep.Halted? && sweep.why == DeciderPanicked("boom") && sweep.p.decisions == []
  {
    hide DecideAll, Itoa, FragileMachine;
    var f, h, p := FragileMachine(s, d), FragileHistory(s, d, input), FragileStart(d, 1);
    var p1 := p.(seen := p.seen + [h[9]], pending := Tracked(p.pending, h[9]));
    var p2 := p1.(seen := p1.seen + [h[8]], pending := Tracked(p1.pending, h[8]));
    FragileStays(s, d, env, p, h[9]);
    FragileStays(s, d, env, p1, h[8]);
    assert [h[7], h[8], h[9]][..2] == [h[7], h[8]] && [h[7], h[8]][..1] == [h[7]];
    DecideNext(f, env, [h[7], h[8], h[9]], p, p1);
    DecideNext(f, env, [h[7], h[8]], p1, p2);
    FragileBreaks(s, d, env, p2, h[7]);
    DecideStuck(f, env, [h[7]], p2, p2.(seen := p2.seen + [h[7]]), DeciderPanicked("boom"));
  }

  lemma FragileBreaks(s: Serializer, d: Data, env: Env, p: Progress, e: Event)
    requires p.state == "go" && e.body == WorkflowExecutionSignaled("boom", "")
    ensures Decide(FragileMachine(s, d), env, p, e) == Stuck(p.(seen := p.seen + [e]), DeciderPanicked("boom"))
  {
  }

  lemma SecondTick(s: Serializer, d: Data, t: Task)
    requires Encodes(s) && StartFSMWorkflowInput(s, Ptr(d)).Some? && t.previousStartedEventID == 3
    requires t.events == Stage(s, d, StartFSMWorkflowInput(s, Ptr(d)).value, 10)
    ensures var r := Tick(FragileMachine(s, d), t); r.Failure? && r.sofar == []
    ensures FragileHistory(s, d, StartFSMWorkflowInput(s, Ptr(d)).value)[9] in Deliverables(Recent(t))
  {
    hide Tick, OutsetOf, Recent, FindSerializedState, DecideAll;
    var f, input := FragileMachine(s, d), StartFSMWorkflowInput(s, Ptr(d)).value;
    FragileRecent(s, d, input, t, 10);
    SecondTask(s, d, input);
    FragileRecovery(s, d, 10);
    FragileOutset(s, d, t, 1);
    TickFromOutset(f, t);
    SecondSweep(s, d, input, Env(t.workflowType, t.execution, 1));
    assert forall record :: f.serializer.encodeError(record).Fine();
  }

  // ----- the steps -----

  lemma ExtendStep(history: seq<Event>, e: Event, rest: seq<EventBody>)
    requires e.id == |history| + 1
    ensures Extend(history, [e.body] + rest) == Extend([e] + history, rest)
    ensures Extend(history, [e.body]) == [e] + history
  {
    assert ([e.body] + rest)[1..] == rest && [e.body][1..] == [];
    assert Extend([e] + history, []) == [e] + history;
  }

  /** The steps are legal and lead there. */
  ghost predicate Leads(f: Machine, r: Run, steps: seq<Step>, r': Run) {
    Legal(f, r, steps) && After(f, r, steps) == r'
  }

  lemma LeadsTo(f: Machine, r: Run, steps: seq<Step>, r': Run)
    requires Leads(f, r, steps, r')
    ensures Legal(f, r, steps) && After(f, r, steps) == r'
  {
  }

  lemma LeadsBy(f: Machine, r: Run, step: Step)
    requires Enabled(f, r, step)
    ensures Leads(f, r, [step], Apply(f, r, step))
  {
    assert [step][1..] == [];
  }

  lemma {:induction false} LeadsOn(f: Machine, r: Run, steps: seq<Step>, next: Run, rest: seq<Step>, r': Run)
    requires Leads(f, r, steps, next) && Leads(f, next, rest, r')
    ensures Leads(f, r, steps + rest, r')
    decreases |steps|
  {
    hide Apply, Enabled;
    if steps == [] {
      assert steps + rest == rest;
    } else {
      assert (steps + rest)[1..] == steps[1..] + rest;
      LeadsOn(f, Apply(f, r, steps[0]), steps[1..], next, rest, r');
    }
  }

  /** Something else happens. */
  lemma EventArrives(f: Machine, r: Run, e: Event)
    requires Admissible(e.body) && e.id == |r.history| + 1
    ensures Leads(f, r, [External(e.body)], r.(history := [e] + r.history))
  {
    ExtendStep(r.history, e, []);
    LeadsBy(f, r, External(e.body));
  }

  /** A task is scheduled and starts. */
  lemma TaskStarts(f: Machine, r: Run, h: seq<Event>)
    requires r.started == None && |h| == |r.history| + 2 && h[2..] == r.history
    requires h[1] == Event(|r.history| + 1, DecisionTaskScheduled) && h[0] == Event(|h|, DecisionTaskStarted)
    ensures Leads(f, r, [Schedule, Step.Start], r.(history := h, started := Some(|h|)))
  {
    hide Leads;
    var scheduled := r.(history := h[1..]);
    assert h[1..] == [h[1]] + r.history && h == [h[0]] + h[1..];
    ExtendStep(r.history, h[1], []);
    ExtendStep(h[1..], h[0], []);
    LeadsBy(f, r, Schedule);
    LeadsBy(f, scheduled, Step.Start);
    LeadsOn(f, r, [Schedule], scheduled, [Step.Start], r.(history := h, started := Some(|h|)));
    assert [Schedule] + [Step.Start] == [Schedule, Step.Start];
  }

  /** The run when `n` events have happened. */
  function FragileRun(r: Run, s: Serializer, d: Data, input: string, n: nat, previous: nat, started: Option<nat>): Run
    requires n <= 15
  {
    r.(history := Stage(s, d, input, n), previous := previous, started := started)
  }

  lemma ConcatThree(a: EventBody, b: EventBody, c: EventBody)
    ensures Concat([[a], [b], [c]]) == [a] + ([b] + [c])
  {
    assert [[a], [b], [c]][1..] == [[b], [c]] && [[b], [c]][1..] == [[c]];
    ConcatOne(c);
  }

  lemma ConcatOne(c: EventBody)
    ensures Concat([[c]]) == [c]
  {
    assert [[c]][1..] == [];
  }

  lemma FirstCommit(s: Serializer, d: Data, r: Run)
    requires Encodes(s) && StartFSMWorkflowInput(s, Ptr(d)).Some?
    requires r == FragileRun(r, s, d, StartFSMWorkflowInput(s, Ptr(d)).value, 3, 0, Some(3))
    ensures var f, input := FragileMachine(s, d), StartFSMWorkflowInput(s, Ptr(d)).value;
            var commit := FragileSteps(s, d)[2];
            && Enabled(f, r, commit)
            && Apply(f, r, commit) == FragileRun(r.(log := Apply(f, r, commit).log), s, d, input, 7, 3, None)
            && |Apply(f, r, commit).log.committed| == |r.log.committed| + 1
            && Apply(f, r, commit).log.failures == r.log.failures
  {
    hide Tick, Logged, StartFSMWorkflowInput, FragileMachine, FragileState, FragileSteps, FragileHistory, Itoa, Extend,
      EffectsOf;
    var f, input := FragileMachine(s, d), StartFSMWorkflowInput(s, Ptr(d)).value;
    FirstExtension(s, d, input);
    assert |r.history| == 3 && TaskOf(r).events == r.history;
    FirstTick(s, d, TaskOf(r));
    FirstEffects(s, d);
    LogTracks(f, r, FragileSteps(s, d)[2]);
  }

  lemma FirstEffects(s: Serializer, d: Data)
    ensures |FragileSteps(s, d)| == 10 && FragileSteps(s, d)[2].Commit? && !FragileSteps(s, d)[2].delivered
    ensures EffectsOf([StateMarker(s.encodeState(FragileState(s, d, 1)).text),
                       ScheduleActivityTask("a", ActivityType("work", "1")), RetryTimer(5)],
              FragileSteps(s, d)[2].effects)
  {
  }

  lemma FirstExtension(s: Serializer, d: Data, input: string)
    ensures |FragileHistory(s, d, input)| == 15 && |FragileSteps(s, d)| == 10 && FragileSteps(s, d)[2].Commit?
    ensures Extend(Stage(s, d, input, 3), [DecisionTaskCompleted] + Concat(FragileSteps(s, d)[2].effects))
            == Stage(s, d, input, 7)
  {
    var h := FragileHistory(s, d, input);
    ConcatThree(h[10].body, h[9].body, h[8].body);
    ExtendStep(h[12..], h[11], [h[10].body] + ([h[9].body] + [h[8].body]));
    ExtendStep(h[11..], h[10], [h[9].body] + [h[8].body]);
    ExtendStep(h[10..], h[9], [h[8].body]);
    ExtendStep(h[9..], h[8], []);
    assert [h[11]] + h[12..] == h[11..] && [h[10]] + h[11..] == h[10..] && [h[9]] + h[10..] == h[9..];
    assert [h[8]] + h[9..] == h[8..];
  }

  lemma SecondCommit(s: Serializer, d: Data, r: Run)
    requires Encodes(s) && StartFSMWorkflowInput(s, Ptr(d)).Some?
    requires r == FragileRun(r, s, d, StartFSMWorkflowInput(s, Ptr(d)).value, 10, 3, Some(10))
    ensures var f, input := FragileMachine(s, d), StartFSMWorkflowInput(s, Ptr(d)).value;
            var commit := FragileSteps(s, d)[6];
            && Enabled(f, r, commit)
            && Apply(f, r, commit) == FragileRun(r.(log := Apply(f, r, commit).log), s, d, input, 12, 10, None)
            && FragileHistory(s, d, input)[9] in Apply(f, r, commit).log.lost
            && Apply(f, r, commit).log.committed == r.log.committed
            && Apply(f, r, commit).log.failures == r.log.failures + 1
  {
    hide Tick, Logged, StartFSMWorkflowInput, Deliverables, Recent, FragileMachine;
    var f, input := FragileMachine(s, d), StartFSMWorkflowInput(s, Ptr(d)).value;
    var h, commit := FragileHistory(s, d, input), FragileSteps(s, d)[6];
    SecondTick(s, d, TaskOf(r));
    FailedTickNotifies(f, TaskOf(r));
    assert Enabled(f, r, commit);
    ConcatOne(h[3].body);
    ExtendStep(h[5..], h[4], [h[3].body]);
    ExtendStep(h[4..], h[3], []);
    assert [h[4]] + h[5..] == h[4..] && [h[3]] + h[4..] == h[3..];
    LogTracks(f, r, commit);
  }

  /** From the start of the run to its second task. */
  lemma FirstHalf(s: Serializer, d: Data, r0: Run) returns (r: Run)
    requires Encodes(s) && StartFSMWorkflowInput(s, Ptr(d)).Some?
    requires r0 == Begin(r0.execution, r0.workflowType, StartFSMWorkflowInput(s, Ptr(d)).value)
    ensures Leads(FragileMachine(s, d), r0, FragileSteps(s, d)[..6], r)
    ensures r.execution == r0.execution && r.workflowType == r0.workflowType
    ensures r == FragileRun(r, s, d, StartFSMWorkflowInput(s, Ptr(d)).value, 10, 3, Some(10))
    ensures |r.log.committed| == 1 && r.log.failures == 0
  {
    hide Leads, StartFSMWorkflowInput, Tick, Apply, Enabled;
    var f, input, steps := FragileMachine(s, d), StartFSMWorkflowInput(s, Ptr(d)).value, FragileSteps(s, d);
    var h := FragileHistory(s, d, input);
    var r3 := FragileRun(r0, s, d, input, 3, 0, Some(3));
    TaskStarts(f, r0, h[12..]);
    FirstCommit(s, d, r3);
    var r7 := Apply(f, r3, steps[2]);
    LeadsBy(f, r3, steps[2]);
    var r8 := FragileRun(r7, s, d, input, 8, 3, None);
    assert h[7..] == [h[7]] + h[8..];
    EventArrives(f, r7, h[7]);
    r := FragileRun(r7, s, d, input, 10, 3, Some(10));
    TaskStarts(f, r8, h[5..]);
    LeadsOn(f, r0, [Schedule, Step.Start], r3, [steps[2]], r7);
    LeadsOn(f, r0, [Schedule, Step.Start] + [steps[2]], r7, [steps[3]], r8);
    LeadsOn(f, r0, [Schedule, Step.Start] + [steps[2]] + [steps[3]], r8, [Schedule, Step.Start], r);
    assert steps[..6] == [Schedule, Step.Start] + [steps[2]] + [steps[3]] + [Schedule, Step.Start];
  }

  /** From the second task to the third. */
  lemma SecondHalf(s: Serializer, d: Data, r: Run) returns (r': Run)
    requires Encodes(s) && StartFSMWorkflowInput(s, Ptr(d)).Some?
    requires r == FragileRun(r, s, d, StartFSMWorkflowInput(s, Ptr(d)).value, 10, 3, Some(10))
    ensures Leads(FragileMachine(s, d), r, FragileSteps(s, d)[6..], r')
    ensures r'.execution == r.execution && r'.workflowType == r.workflowType
    ensures r' == FragileRun(r', s, d, StartFSMWorkflowInput(s, Ptr(d)).value, 15, 10, Some(15))
    ensures FragileHistory(s, d, StartFSMWorkflowInput(s, Ptr(d)).value)[9] in r'.log.lost
  {
    hide Leads, StartFSMWorkflowInput, Tick, Apply, Enabled;
    var f, input, steps := FragileMachine(s, d), StartFSMWorkflowInput(s, Ptr(d)).value, FragileSteps(s, d);
    var h := FragileHistory(s, d, input);
    SecondCommit(s, d, r);
    var r12 := Apply(f, r, steps[6]);
    LeadsBy(f, r, steps[6]);
    var r13 := FragileRun(r12, s, d, input, 13, 10, None);
    assert h[2..] == [h[2]] + h[3..] && h[0..] == h;
    EventArrives(f, r12, h[2]);
    r' := FragileRun(r12, s, d, input, 15, 10, Some(15));
    TaskStarts(f, r13, h);
    LeadsOn(f, r, [steps[6]], r12, [steps[7]], r13);
    LeadsOn(f, r, [steps[6]] + [steps[7]], r13, [Schedule, Step.Start], r');
    assert steps[6..] == [steps[6]] + [steps[7]] + [Schedule, Step.Start];
  }

  // ----- the timer's turn -----

  /** The progress when the timer's turn comes: nothing is pending. */
  function FragileProgress(s: Serializer, d: Data, input: string): Progress {
    FragileStart(d, 1).(seen := [FragileHistory(s, d, input)[3]])
  }

  lemma FragileTurn(s: Serializer, d: Data, r: Run)
    requires Encodes(s) && StartFSMWorkflowInput(s, Ptr(d)).Some?
    requires r == FragileRun(r, s, d, StartFSMWorkflowInput(s, Ptr(d)).value, 15, 10, Some(15))
    ensures var f, input := FragileMachine(s, d), StartFSMWorkflowInput(s, Ptr(d)).value;
            && Turn(f, r, 0, FragileProgress(s, d, input))
            && OutsetOf(f, TaskOf(r)).value.env == Env(r.workflowType, r.execution, 1)
            && Deliverables(Between(r))[0] == FragileHistory(s, d, input)[2]
  {
    hide Tick, OutsetOf, Recent, FindSerializedState, DecideAll, Deliverables, StartFSMWorkflowInput, ErrorSignals,
      FragileProgress, ErrorDecisions;
    var f, input, t := FragileMachine(s, d), StartFSMWorkflowInput(s, Ptr(d)).value, TaskOf(r);
    var h := FragileHistory(s, d, input);
    assert |h| == 15;
    hide FragileHistory, FragileMachine;
    FragileRecent(s, d, input, t, 15);
    ThirdTask(s, d, input);
    FragileRecovery(s, d, 15);
    FragileOutset(s, d, t, 1);
    assert Between(r) == h[0..5];
    assert [h[2], h[3]][1..] == [h[3]];
    ThirdSweep(s, d, input, Env(r.workflowType, r.execution, 1));
  }

  lemma ThirdSweep(s: Serializer, d: Data, input: string, env: Env)
    ensures DecideAll(FragileMachine(s, d), env, [FragileHistory(s, d, input)[3]], FragileStart(d, 1))
            == Done(FragileProgress(s, d, input))
  {
    hide DecideAll, FragileMachine;
    var f, e, p := FragileMachine(s, d), FragileHistory(s, d, input)[3], FragileStart(d, 1);
    FragileStays(s, d, env, p, e);
    assert [] + [e] == [e];
    DecideNext(f, env, [e], p, FragileProgress(s, d, input));
    assert [e][..0] == [];
    DecideNothing(f, env, FragileProgress(s, d, input));
  }

  /** At that turn the current state decides to continue as new. */
  ghost predicate ContinuesAt(f: Machine, r: Run, n: nat, p: Progress)
    requires Turn(f, r, n, p) && p.state in f.states
  {
    var ctx := ContextOf(f, OutsetOf(f, TaskOf(r)).value.env, p);
    var verdict := f.states[p.state].decider(ctx, Deliverables(Between(r))[n], p.data);
    exists x :: x in DecisionsOf(verdict) && x.ContinueAsNewWorkflowExecution?
  }

  lemma FragileContinues(s: Serializer, d: Data, ctx: Context, e: Event, v: Value)
    requires Encodes(s) && ctx.serializer == s && ctx.pendingActivities == map[] && e.body == TimerFired(CONTINUE_TIMER)
    ensures exists x :: x in DecisionsOf(FragileDecider()(ctx, e, v)) && x.ContinueAsNewWorkflowExecution?
  {
    ManagedContinuationsTable(1000, 5, ctx, e, v);
    assert s.encodeData(ctx.stateData).Fine() && s.encodeState(HandedOver(ctx, ctx.state)).Fine();
    var ds := DecisionsOf(FragileDecider()(ctx, e, v));
    assert ds[0] in ds;
  }

  lemma FragileContinuesAtLast(s: Serializer, d: Data, r: Run)
    requires Encodes(s) && StartFSMWorkflowInput(s, Ptr(d)).Some?
    requires r == FragileRun(r, s, d, StartFSMWorkflowInput(s, Ptr(d)).value, 15, 10, Some(15))
    ensures var f, p := FragileMachine(s, d), FragileProgress(s, d, StartFSMWorkflowInput(s, Ptr(d)).value);
            Turn(f, r, 0, p) && p.state in f.states && ContinuesAt(f, r, 0, p)
  {
    hide Tick, OutsetOf, Deliverables, Between, FragileDecider, Turn, StartFSMWorkflowInput;
    var f, input := FragileMachine(s, d), StartFSMWorkflowInput(s, Ptr(d)).value;
    var p := FragileProgress(s, d, input);
    FragileTurn(s, d, r);
    FragileContinues(s, d, ContextOf(f, Env(r.workflowType, r.execution, 1), p),
      FragileHistory(s, d, input)[2], p.data);
  }

  /** Nothing in the history ends the activity. */
  lemma StillRunning(s: Serializer, d: Data, input: string)
    ensures var h := FragileHistory(s, d, input);
            |h| == 15 && h[9].body.ActivityTaskScheduled? && forall x :: x in h ==> !Ends(x, h[9].id)
  {
  }

  /** The whole run. */
  lemma FragileStepsLead(s: Serializer, d: Data, r0: Run) returns (r: Run)
    requires Encodes(s) && StartFSMWorkflowInput(s, Ptr(d)).Some?
    requires r0 == Begin(r0.execution, r0.workflowType, StartFSMWorkflowInput(s, Ptr(d)).value)
    ensures Legal(FragileMachine(s, d), r0, FragileSteps(s, d))
    ensures After(FragileMachine(s, d), r0, FragileSteps(s, d)) == r
    ensures r == FragileRun(r, s, d, StartFSMWorkflowInput(s, Ptr(d)).value, 15, 10, Some(15))
    ensures r.history == FragileHistory(s, d, StartFSMWorkflowInput(s, Ptr(d)).value)
    ensures FragileHistory(s, d, StartFSMWorkflowInput(s, Ptr(d)).value)[9] in r.log.lost
  {
    hide Leads, StartFSMWorkflowInput, Legal, After;
    var f, steps := FragileMachine(s, d), FragileSteps(s, d);
    var half := FirstHalf(s, d, r0);
    r := SecondHalf(s, d, half);
    LeadsOn(f, r0, steps[..6], half, steps[6..], r);
    assert steps == steps[..6] + steps[6..];
    LeadsTo(f, r0, steps, r);
  }

  /** A run in which managed continuations continue over a running activity: it was scheduled by the first
      task's decisions, the failed second tick lost its scheduling, nothing in the history ends it, and yet
      the continue timer is answered with ContinueAsNew. */
  lemma FailureMakesContinuationUnsafe(s: Serializer, d: Data, execution: WorkflowExecution, workflowType: WorkflowType)
    requires Encodes(s)
    ensures StartFSMWorkflowInput(s, Ptr(d)).Some? && Discreet(FragileMachine(s, d))
    ensures var input := StartFSMWorkflowInput(s, Ptr(d)).value;
            var f, r0, p := FragileMachine(s, d), Begin(execution, workflowType, input), FragileProgress(s, d, input);
            && Legal(f, r0, FragileSteps(s, d))
            && var r := After(f, r0, FragileSteps(s, d));
               && Turn(f, r, 0, p) && p.state in f.states && ContinuesAt(f, r, 0, p)
               && (exists a :: && a in r.log.lost && a.body.ActivityTaskScheduled?
                               && forall x :: x in r.history ==> !Ends(x, a.id))
  {
    hide Legal, After, Turn, ContinuesAt, FragileProgress, FragileMachine, FragileSteps, FragileHistory, Discreet,
      Stage;
    assert s.encodeData(Ptr(d)).Fine();
    assert s.encodeState(SerializedState(ReplicationData(0, "", s.encodeData(Ptr(d)).text), map[])).Fine();
    FragileMachineIsDiscreet(s, d);
    var r := FragileStepsLead(s, d, Begin(execution, workflowType, StartFSMWorkflowInput(s, Ptr(d)).value));
    FragileContinuesAtLast(s, d, r);
    StillRunning(s, d, StartFSMWorkflowInput(s, Ptr(d)).value);
  }

  // ----- an early signal -----

  /** The continue signal arrives before the first task starts. */
  function EarlySteps(): seq<Step> {
    [Schedule, External(WorkflowExecutionSignaled(CONTINUE_SIGNAL, "")), Step.Start]
  }

  function EarlyHistory(input: string): seq<Event> {
    [Event(4, DecisionTaskStarted), Event(3, WorkflowExecutionSignaled(CONTINUE_SIGNAL, "")),
     Event(2, DecisionTaskScheduled), Event(1, WorkflowExecutionStarted(input))]
  }

  lemma EarlyStepsLead(f: Machine, r0: Run, input: string)
    requires r0 == Begin(r0.execution, r0.workflowType, input)
    ensures Legal(f, r0, EarlySteps())
    ensures After(f, r0, EarlySteps()) == r0.(history := EarlyHistory(input), started := Some(4))
  {
    hide Leads;
    var h := EarlyHistory(input);
    var r2, r3, r4 := r0.(history := h[2..]), r0.(history := h[1..]), r0.(history := h, started := Some(4));
    assert h[2..] == [h[2]] + r0.history && h[1..] == [h[1]] + h[2..] && h == [h[0]] + h[1..];
    ExtendStep(r0.history, h[2], []);
    ExtendStep(h[1..], h[0], []);
    LeadsBy(f, r0, Schedule);
    EventArrives(f, r2, h[1]);
    LeadsBy(f, r3, Step.Start);
    LeadsOn(f, r0, [Schedule], r2, [External(h[1].body)], r3);
    LeadsOn(f, r0, [Schedule] + [External(h[1].body)], r3, [Step.Start], r4);
    assert EarlySteps() == [Schedule] + [External(h[1].body)] + [Step.Start];
    LeadsTo(f, r0, EarlySteps(), r4);
  }

  lemma EarlyTask(s: Serializer, d: Data, t: Task)
    requires Encodes(s) && StartFSMWorkflowInput(s, Ptr(d)).Some? && t.previousStartedEventID == 0
    requires t.events == EarlyHistory(StartFSMWorkflowInput(s, Ptr(d)).value)
    ensures var h := t.events;
            && Recent(t) == h && Deliverables(h) == [h[1], h[3]]
            && OutsetOf(FragileMachine(s, d), t)
               == Some(Outset(Env(t.workflowType, t.execution, 0), FragileStart(d, 0)))
  {
    hide Deliverables, FindSerializedState, OutsetOf, Recent;
    var f, h := FragileMachine(s, d), t.events;
    RecentFromTheStart(t);
    NoDeliverables(h, 4);
    NextDeliverable(h, 3, 4);
    NextDeliverable(h, 2, 4);
    NextDeliverable(h, 1, 4);
    NextDeliverable(h, 0, 4);
    assert h[0..4] == h && h == h[..3] + h[3..];
    NothingSignaled(h);
    NothingMarked(h[..3]);
    SkipQuiet(f, h[..3], h[3..]);
    FindAtOnce(f, h[3..]);
    var started := SerializedState(ReplicationData(0, "", s.encodeData(Ptr(d)).text), map[]);
    assert s.encodeState(started).Fine();
    FragileOutset(s, d, t, 0);
  }

  lemma RecentFromTheStart(t: Task)
    requires t.previousStartedEventID == 0 && forall i :: 0 <= i < |t.events| ==> t.events[i].id == |t.events| - i
    ensures Recent(t) == t.events
  {
    NewerThanNumbered(t.events, 0);
  }

  /** Both events of the task: the start schedules the activity, the signal finds nothing pending. */
  lemma EarlySweep(s: Serializer, d: Data, env: Env, e1: Event, e2: Event)
    requires Encodes(s) && env.stateVersion == 0
    requires e1.body.WorkflowExecutionStarted? && e2.body == WorkflowExecutionSignaled(CONTINUE_SIGNAL, "")
    ensures var sweep := DecideAll(FragileMachine(s, d), env, [e2, e1], FragileStart(d, 0));
            && sweep.Done? && |sweep.p.decisions| == 3
            && sweep.p.decisions[0].ScheduleActivityTask? && sweep.p.decisions[2].ContinueAsNewWorkflowExecution?
    ensures DecideAll(FragileMachine(s, d), env, [e1], FragileStart(d, 0)).Done?
    ensures DecideAll(FragileMachine(s, d), env, [e1], FragileStart(d, 0)).p.pending == map[]
  {
    hide DecideAll, Itoa, FragileVerdict;
    var f, p := FragileMachine(s, d), FragileStart(d, 0);
    var ds := [ScheduleActivityTask("a", ActivityType("work", "1")), RetryTimer(5)];
    var q := p.(decisions := ds, seen := [e1]);
    EarlyStart(s, d, env, e1);
    var last := EarlyContinue(s, d, env, q, e2);
    assert [e2, e1][..1] == [e2] && [e2][..0] == [] && [e1][..0] == [];
    DecideNext(f, env, [e2, e1], p, q);
    DecideNext(f, env, [e1], p, q);
    DecideNothing(f, env, q);
    DecideNext(f, env, [e2], q, last);
    DecideNothing(f, env, last);
  }

  lemma EarlyStart(s: Serializer, d: Data, env: Env, e1: Event)
    requires e1.body.WorkflowExecutionStarted?
    ensures Decide(FragileMachine(s, d), env, FragileStart(d, 0), e1) == Moved(FragileStart(d, 0).(
              decisions := [ScheduleActivityTask("a", ActivityType("work", "1")), RetryTimer(5)], seen := [e1]))
  {
    hide Itoa;
    var ds := [ScheduleActivityTask("a", ActivityType("work", "1")), RetryTimer(5)];
    assert [] + ds == ds && [] + [e1] == [e1];
  }

  lemma EarlyContinue(s: Serializer, d: Data, env: Env, q: Progress, e2: Event) returns (last: Progress)
    requires Encodes(s) && q.state == "go" && q.pending == map[]
    requires e2.body == WorkflowExecutionSignaled(CONTINUE_SIGNAL, "")
    ensures Decide(FragileMachine(s, d), env, q, e2) == Moved(last)
    ensures exists x: Decision :: x.ContinueAsNewWorkflowExecution? && last.decisions == q.decisions + [x]
  {
    hide ManagedContinuations, Itoa;
    var f := FragileMachine(s, d);
    var ctx := ContextOf(f, env, q);
    ManagedContinuationsTable(1000, 5, ctx, e2, q.data);
    assert s.encodeData(ctx.stateData).Fine() && s.encodeState(HandedOver(ctx, ctx.state)).Fine();
    last := Decide(f, env, q, e2).p;
    var x := ContinueWorkflowDecision(ctx, ctx.state).value;
    assert last.decisions == q.decisions + [x];
  }

  /** A run in which one tick schedules an activity and continues the workflow: the signal found nothing
      pending, as the activity had only just been decided. */
  lemma EarlySignalBreaksContinuation(s: Serializer, d: Data, execution: WorkflowExecution, workflowType: WorkflowType)
    requires Encodes(s)
    ensures StartFSMWorkflowInput(s, Ptr(d)).Some?
    ensures var input := StartFSMWorkflowInput(s, Ptr(d)).value;
            var f, r0 := FragileMachine(s, d), Begin(execution, workflowType, input);
            && Legal(f, r0, EarlySteps())
            && var r := After(f, r0, EarlySteps());
               && r.started == Some(|r.history|) && Tick(f, TaskOf(r)).Success?
               && (exists p :: Turn(f, r, 0, p) && p.pending == map[])
               && Schedules(Decided(Tick(f, TaskOf(r))))
               && (exists x :: x in Decided(Tick(f, TaskOf(r))) && x.ContinueAsNewWorkflowExecution?)
  {
    hide Tick, Legal, After, OutsetOf, DecideAll, Deliverables, Recent, FragileMachine;
    assert s.encodeData(Ptr(d)).Fine();
    assert s.encodeState(SerializedState(ReplicationData(0, "", s.encodeData(Ptr(d)).text), map[])).Fine();
    var f, input := FragileMachine(s, d), StartFSMWorkflowInput(s, Ptr(d)).value;
    EarlyStepsLead(f, Begin(execution, workflowType, input), input);
    var r := Begin(execution, workflowType, input).(history := EarlyHistory(input), started := Some(4));
    var t, h, env := TaskOf(r), r.history, Env(workflowType, execution, 0);
    assert t.events == h && Between(r) == h;
    EarlyTask(s, d, t);
    EarlySweep(s, d, env, h[3], h[1]);
    EarlyTick(s, d, t);
    assert [h[1], h[3]][1..] == [h[3]];
    assert Turn(f, r, 0, DecideAll(f, env, [h[3]], FragileStart(d, 0)).p);
  }

  lemma EarlyTick(s: Serializer, d: Data, t: Task)
    requires Encodes(s) && StartFSMWorkflowInput(s, Ptr(d)).Some? && t.previousStartedEventID == 0
    requires t.events == EarlyHistory(StartFSMWorkflowInput(s, Ptr(d)).value)
    ensures var r := Tick(FragileMachine(s, d), t);
            && r.Success? && Schedules(Decided(r)) && exists x :: x in Decided(r) && x.ContinueAsNewWorkflowExecution?
  {
    hide Tick, OutsetOf, DecideAll, Deliverables, Recent;
    var f, h, env := FragileMachine(s, d), t.events, Env(t.workflowType, t.execution, 0);
    EarlyTask(s, d, t);
    EarlySweep(s, d, env, h[3], h[1]);
    TickFromOutset(f, t);
    FinishTickDecides(f, env, [h[1], h[3]], FragileStart(d, 0));
    var ds := DecideAll(f, env, [h[1], h[3]], FragileStart(d, 0)).p.decisions;
    assert ds[0] in ds && ds[2] in ds;
    assert forall state :: f.serializer.encodeState(state).Fine();
  }
}
