/** A machine that meets every condition put on deciders, its error state registered like any other, and a run
    of it that fails, handles its own error signal, and goes on. */
module FailureRecovery {
  import opened Protocol
  import opened Model
  import opened Engine
  import opened Deciders
  import opened TickLaws
  import opened Runs
  import opened RunLaws
  import opened Chains
  import opened UnsafeContinuation

  // ----- the conditions can be met together -----

  lemma FragileDeciderIgnoresVersion(s: Serializer)
    requires Encodes(s)
    ensures IgnoresVersion(s, FragileDecider())
  {
    hide ManagedContinuations;
    assert VersionsEncodeAlike(s);
    ManagedContinuationsIgnoreVersion(s, 1000, 5);
    var d := FragileDecider();
    forall ctx: Context, version: uint64, e, v | ctx.serializer == s && Events.Of(e)
      ensures VerdictsAgree(s, d(ctx, e, v), d(ctx.(stateVersion := version), e, v))
    {
    }
  }

  lemma FragileAnswers(ctx: Context, e: Event, v: Value)
    ensures var w := FragileDecider()(ctx, e, v);
            w.Panicked? || (w.outcome.StayOutcome? && w.outcome.data == v)
  {
    ManagedContinuationsTable(1000, 5, ctx, e, v);
  }

  lemma FragileDeciderContinuesWithin(f: Machine)
    ensures ContinuesWithin(Events, f, "go", FragileDecider())
  {
    hide ManagedContinuations;
    ManagedContinuationsContinueProperly(Events, f, "go", 1000, 5);
    forall ctx: Context, e, v, x |
      Events.Of(e) && ctx.serializer == f.serializer && ctx.state == "go"
      && x in DecisionsOf(FragileDecider()(ctx, e, v))
      ensures BuiltWithin(f, ctx, x)
    {
    }
  }

  /** The machine is discreet, blind to versions, never answers events with nil data, leads inside, continues
      inside and always answers, while its registered error state is transparent. */
  lemma ConditionsAreMetTogether(s: Serializer, zero: Data)
    requires Encodes(s)
    ensures var f := FragileMachine(s, zero);
            && f.errorState.name in f.states && f.states[f.errorState.name] == f.errorState
            && f.initialState.name in f.states && f.states[f.initialState.name] == f.initialState
            && Discreet(f) && VersionBlind(f) && DataNeverNil(f) && TransparentErrorState(f)
            && ContinuesProperly(f) && ContinuesInside(f) && Closed(f) && Answers(f)
  {
    hide ManagedContinuations, FragileDecider, IgnoresVersion, ContinuesWithin, ContinuesThrough;
    var f := FragileMachine(s, zero);
    FragileMachineIsDiscreet(s, zero);
    FragileDeciderIgnoresVersion(s);
    FragileDeciderContinuesWithin(f);
    TransparentDeciderIsProper(f);
    WithinMeansThrough(Events, f, "go", FragileDecider());
    WithinMeansThrough(Events, f, ERROR_STATE, TransparentDecider());
    forall ctx, e, v
      ensures var w := FragileDecider()(ctx, e, v); w.Panicked? || (w.outcome.StayOutcome? && w.outcome.data == v)
    {
      FragileAnswers(ctx, e, v);
    }
  }

  lemma TransparentDeciderIsProper(f: Machine)
    ensures IgnoresVersion(f.serializer, TransparentDecider())
    ensures ContinuesWithin(Events, f, ERROR_STATE, TransparentDecider())
    ensures ContinuesWithin(Signals, f, ERROR_STATE, TransparentDecider())
  {
  }

  // ----- the run -----

  /** The second task fails. Its error signal arrives, and the third task handles it. */
  function RecoverySteps(s: Serializer, d: Data, report: string): seq<Step> {
    FragileSteps(s, d)[..7] +
      [External(WorkflowExecutionSignaled(ERROR_SIGNAL, report)), Schedule, Step.Start,
       Commit([[RecoveryMarker(s, d)]], false)]
  }

  function RecoveryMarker(s: Serializer, d: Data): EventBody {
    MarkerRecorded(STATE_MARKER, s.encodeState(FragileState(s, d, 2)).text)
  }

  function RecoveryHistory(s: Serializer, d: Data, input: string, report: string): seq<Event> {
    [Event(15, DecisionTaskStarted), Event(14, DecisionTaskScheduled),
     Event(13, WorkflowExecutionSignaled(ERROR_SIGNAL, report))] + Stage(s, d, input, 12)
  }

  lemma RecoveryEvents(s: Serializer, d: Data, input: string, report: string)
    ensures var h := RecoveryHistory(s, d, input, report);
            && |h| == 15 && (forall i :: 0 <= i < 15 ==> h[i].id == 15 - i)
            && h[2].body == WorkflowExecutionSignaled(ERROR_SIGNAL, report)
            && h[3].body == OtherEvent("SignalExternalWorkflowExecutionInitiated")
            && h[10].body == FragileMarker(s, d)
            && (forall i :: 0 <= i < 5 && i != 3 ==> !h[i].body.Deliverable())
            && (forall i :: 0 <= i < 5 && i != 2 ==> !h[i].body.ErrorSignal())
            && (forall i :: 0 <= i < 10 ==> !Anchors(h[i]))
  {
  }

  lemma RecoveryTask(s: Serializer, d: Data, input: string, report: string, t: Task)
    requires t.events == RecoveryHistory(s, d, input, report) && t.previousStartedEventID == 10
    ensures var h := t.events; Deliverables(Recent(t)) == [h[3]] && ErrorSignals(Recent(t)) == [h[2]]
  {
    var h := t.events;
    RecoveryEvents(s, d, input, report);
    hide Deliverables, ErrorSignals, RecoveryHistory;
    NewerThanNumbered(h, 10);
    assert Recent(t) == h[..5] == h[..2] + ([h[2]] + ([h[3]] + [h[4]]));
    OnlyOne(h[..2], h[2], h[3], h[4]);
  }

  lemma OnlyOne(newer: seq<Event>, signal: Event, e: Event, older: Event)
    requires forall x :: x in newer + [older] ==> !x.body.Deliverable() && !x.body.ErrorSignal()
    requires signal.body.ErrorSignal() && e.body.Deliverable()
    ensures var all := newer + ([signal] + ([e] + [older])); Deliverables(all) == [e] && ErrorSignals(all) == [signal]
  {
    DeliverablesAppend(newer, [signal] + ([e] + [older]));
    DeliverablesAppend([signal], [e] + [older]);
    DeliverablesAppend([e], [older]);
    ErrorSignalsAppend(newer, [signal] + ([e] + [older]));
    ErrorSignalsAppend([signal], [e] + [older]);
    ErrorSignalsAppend([e], [older]);
    assert older in newer + [older] && forall x :: x in newer ==> x in newer + [older];
    NothingDelivered(newer);
    NothingSignaled(newer);
    assert forall x: Event :: [x][1..] == [];
  }

  lemma {:induction false} NothingDelivered(events: seq<Event>)
    requires forall x :: x in events ==> !x.body.Deliverable()
    ensures Deliverables(events) == []
  {
    if events != [] {
      NothingDelivered(events[1..]);
    }
  }

  lemma RecoveryFinds(s: Serializer, d: Data, input: string, report: string)
    requires Encodes(s)
    ensures var h := RecoveryHistory(s, d, input, report);
            FindSerializedState(FragileMachine(s, d), h) == Ok(FragileState(s, d, 1))
  {
    var f, h := FragileMachine(s, d), RecoveryHistory(s, d, input, report);
    RecoveryEvents(s, d, input, report);
    hide FindSerializedState, RecoveryHistory, FragileState;
    assert h == h[..10] + h[10..];
    NothingMarked(h[..10]);
    SkipQuiet(f, h[..10], h[10..]);
    FindAtOnce(f, h[10..]);
    assert s.encodeState(FragileState(s, d, 1)).Fine();
  }

  /** The error signal is answered with nothing at all. */
  lemma SignalLeavesNothing(s: Serializer, d: Data, env: Env, e: Event)
    requires e.body.ErrorSignal()
    ensures ErrorPhase(FragileMachine(s, d), env, [e], map[]) == Done(Fresh(map[]))
  {
    var f, p := FragileMachine(s, d), Fresh(map[]).(data := Ptr(d), state := ERROR_STATE);
    assert p.decisions + [] == [];
    assert DecideError(f, env, p, e) == Moved(Fresh(map[]));
    assert [e][..0] == [];
    assert DecideErrors(f, env, [e], p) == DecideErrors(f, env, [], Fresh(map[]));
  }

  lemma RecoveryOutset(s: Serializer, d: Data, input: string, report: string, t: Task)
    requires Encodes(s)
    requires t.events == RecoveryHistory(s, d, input, report) && t.previousStartedEventID == 10
    ensures OutsetOf(FragileMachine(s, d), t) == Some(Outset(Env(t.workflowType, t.execution, 1), FragileStart(d, 1)))
  {
    hide FindSerializedState, ErrorPhase, RecoveryHistory, Deliverables, ErrorSignals, Recent;
    RecoveryEvents(s, d, input, report);
    RecoveryTask(s, d, input, report, t);
    RecoveryFinds(s, d, input, report);
    SignalLeavesNothing(s, d, EnvOf(t), t.events[2]);
    assert s.encodeData(Ptr(d)).Fine();
  }

  lemma RecoveryTick(s: Serializer, d: Data, input: string, report: string, t: Task)
    requires Encodes(s)
    requires t.events == RecoveryHistory(s, d, input, report) && t.previousStartedEventID == 10
    ensures var r := Tick(FragileMachine(s, d), t);
            && r.Success? && r.decisions == [StateMarker(s.encodeState(FragileState(s, d, 2)).text)]
  {
    hide Tick, OutsetOf, DecideAll, Deliverables, ErrorSignals, Recent, RecoveryHistory;
    var f, env, p := FragileMachine(s, d), Env(t.workflowType, t.execution, 1), FragileStart(d, 1);
    RecoveryEvents(s, d, input, report);
    var e := t.events[3];
    RecoveryTask(s, d, input, report, t);
    RecoveryOutset(s, d, input, report, t);
    TickFromOutset(f, t);
    var q := p.(seen := [e]);
    QuietEventStays(s, d, env, e);
    DecideNext(f, env, [e], p, q);
    assert [e][..0] == [];
    DecideNothing(f, env, q);
    assert s.encodeState(FragileState(s, d, 2)).Fine();
  }

  lemma QuietEventStays(s: Serializer, d: Data, env: Env, e: Event)
    requires e.body == OtherEvent("SignalExternalWorkflowExecutionInitiated")
    ensures Decide(FragileMachine(s, d), env, FragileStart(d, 1), e) == Moved(FragileStart(d, 1).(seen := [e]))
  {
    FragileStays(s, d, env, FragileStart(d, 1), e);
    assert [] + [e] == [e];
  }

  lemma RecoveryStarts(s: Serializer, d: Data, r: Run, input: string, report: string) returns (r': Run)
    requires r == FragileRun(r, s, d, input, 12, 10, None)
    ensures Leads(FragileMachine(s, d), r,
              [External(WorkflowExecutionSignaled(ERROR_SIGNAL, report)), Schedule, Step.Start], r')
    ensures r' == r.(history := RecoveryHistory(s, d, input, report), started := Some(15))
  {
    hide Leads, FragileMachine;
    var f, h := FragileMachine(s, d), RecoveryHistory(s, d, input, report);
    RecoveryEvents(s, d, input, report);
    assert h[3..] == r.history && h[2..] == [h[2]] + h[3..];
    var signaled := r.(history := h[2..]);
    r' := r.(history := h, started := Some(15));
    EventArrives(f, r, h[2]);
    TaskStarts(f, signaled, h);
    LeadsOn(f, r, [External(h[2].body)], signaled, [Schedule, Step.Start], r');
    assert [External(h[2].body)] + [Schedule, Step.Start] == [External(h[2].body), Schedule, Step.Start];
  }

  lemma RecoveryCommits(s: Serializer, d: Data, r: Run, input: string, report: string) returns (r': Run)
    requires Encodes(s)
    requires r.history == RecoveryHistory(s, d, input, report) && r.previous == 10 && r.started == Some(15)
    ensures Leads(FragileMachine(s, d), r, [Commit([[RecoveryMarker(s, d)]], false)], r')
    ensures |r'.log.committed| == |r.log.committed| + 1 && r'.log.failures == r.log.failures
  {
    hide Leads, Tick, Logged, FragileMachine, RecoveryHistory, FragileState;
    var f, commit := FragileMachine(s, d), Commit([[RecoveryMarker(s, d)]], false);
    RecoveryEvents(s, d, input, report);
    assert TaskOf(r).events == r.history;
    RecoveryTick(s, d, input, report, TaskOf(r));
    assert Enabled(f, r, commit);
    LogTracks(f, r, commit);
    LeadsBy(f, r, commit);
    r' := Apply(f, r, commit);
  }

  /** A decider fails, its error signal is answered with neither data nor a state, and the workflow goes on: the
      second task's tick fails, the third handles the signal, whatever it reports, and succeeds, and the newest
      checkpoint is again where the fold over the events of the two successful ticks ends. */
  lemma FailureIsRecoveredFrom(s: Serializer, d: Data, execution: WorkflowExecution, workflowType: WorkflowType,
                               report: string)
    requires Encodes(s)
    ensures StartFSMWorkflowInput(s, Ptr(d)).Some?
    ensures var f := FragileMachine(s, d);
            var r0 := Begin(execution, workflowType, StartFSMWorkflowInput(s, Ptr(d)).value);
            && Legal(f, r0, RecoverySteps(s, d, report))
            && var r := After(f, r0, RecoverySteps(s, d, report));
               && r.log.failures == 1 && |r.log.committed| == 2 && Resumable(r) && Replayed(f, r)
  {
    hide Leads, Legal, After, FragileMachine, FragileSteps, FragileRun, Tick, Apply, Enabled, TransparentErrorState,
      VersionBlind, DataNeverNil, Discreet, ContinuesProperly, ContinuesInside, Closed, Answers, Replayed;
    assert s.encodeData(Ptr(d)).Fine();
    assert s.encodeState(SerializedState(ReplicationData(0, "", s.encodeData(Ptr(d)).text), map[])).Fine();
    var f, input := FragileMachine(s, d), StartFSMWorkflowInput(s, Ptr(d)).value;
    hide StartFSMWorkflowInput;
    var r0 := Begin(execution, workflowType, input);
    var r := RecoveryLeads(s, d, r0, report);
    LeadsTo(f, r0, RecoverySteps(s, d, report), r);
    ConditionsAreMetTogether(s, d);
    BeginsInShape(f, execution, workflowType, input);
    UndisturbedRunsTakeNothingOver(f, r0, RecoverySteps(s, d, report));
    RunsEndNothingNil(f, r0, RecoverySteps(s, d, report));
    SerializerOf(s, d);
    CheckpointingRefinesReplay(f, execution, workflowType, input, RecoverySteps(s, d, report));
  }

  lemma SerializerOf(s: Serializer, d: Data)
    ensures FragileMachine(s, d).serializer == s
  {
  }

  lemma RecoveryLeads(s: Serializer, d: Data, r0: Run, report: string) returns (r: Run)
    requires Encodes(s) && StartFSMWorkflowInput(s, Ptr(d)).Some?
    requires r0 == Begin(r0.execution, r0.workflowType, StartFSMWorkflowInput(s, Ptr(d)).value)
    ensures Leads(FragileMachine(s, d), r0, RecoverySteps(s, d, report), r)
    ensures r.log.failures == 1 && |r.log.committed| == 2
  {
    hide Leads, FragileMachine, StartFSMWorkflowInput, Tick, Apply, Enabled;
    var f, input, steps := FragileMachine(s, d), StartFSMWorkflowInput(s, Ptr(d)).value, FragileSteps(s, d);
    var r10 := FirstHalf(s, d, r0);
    SecondCommit(s, d, r10);
    var r12 := Apply(f, r10, steps[6]);
    LeadsBy(f, r10, steps[6]);
    var r15 := RecoveryStarts(s, d, r12, input, report);
    r := RecoveryCommits(s, d, r15, input, report);
    var signal := External(WorkflowExecutionSignaled(ERROR_SIGNAL, report));
    var commit := Commit([[RecoveryMarker(s, d)]], false);
    LeadsOn(f, r0, steps[..6], r10, [steps[6]], r12);
    LeadsOn(f, r0, steps[..6] + [steps[6]], r12, [signal, Schedule, Step.Start], r15);
    LeadsOn(f, r0, steps[..6] + [steps[6]] + [signal, Schedule, Step.Start], r15, [commit], r);
    assert RecoverySteps(s, d, report) == steps[..6] + [steps[6]] + [signal, Schedule, Step.Start] + [commit];
  }
}
