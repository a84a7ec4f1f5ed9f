/** The FSM object: its configuration, and Tick as the loops that the engine runs. */
module Fsm {
  import opened Protocol
  import opened Correlator
  import opened Model
  import opened Engine

  /** The state used where no error state was added: it panics on a signal it cannot decode and
      otherwise stays in error. */
  function DefaultErrorState(s: Serializer): FSMState {
    FSMState(ERROR_STATE, (ctx: Context, e: Event, data: Value) =>
      if e.body.ErrorSignal() && !s.decodesAsError(e.body.signalName, e.body.signalInput)
      then Panicked("undecodable error")
      else Returned(ErrorOutcome(data, [])))
  }

  /** The state used where no complete state was added: it tries to complete the workflow again. */
  function DefaultCompleteState(): FSMState {
    FSMState(COMPLETE_STATE, (ctx: Context, e: Event, data: Value) => Complete(ctx, data, []))
  }

  /** The default error state keeps the workflow and its data in error, unless it is given an error signal that it
      cannot decode; the default complete state answers everything by completing the workflow with its data. */
  lemma DefaultStatesAnswer(s: Serializer, ctx: Context, e: Event, data: Value)
    ensures DefaultErrorState(s).name == "error" && DefaultCompleteState().name == "complete"
    ensures forall input :: e.body == WorkflowExecutionSignaled("FSM.Error", input) ==>
              (DefaultErrorState(s).decider(ctx, e, data).Panicked? <==> !s.decodesAsError("FSM.Error", input))
    ensures forall input :: e.body == WorkflowExecutionSignaled("FSM.SystemError", input) ==>
              (DefaultErrorState(s).decider(ctx, e, data).Panicked? <==> !s.decodesAsError("FSM.SystemError", input))
    ensures DefaultErrorState(s).decider(ctx, e, data).Panicked? ==>
              e.body.WorkflowExecutionSignaled? && e.body.signalName in ["FSM.Error", "FSM.SystemError"]
    ensures DefaultErrorState(s).decider(ctx, e, data).Returned? ==>
              DefaultErrorState(s).decider(ctx, e, data).outcome == ErrorOutcome(data, [])
    ensures var text := ctx.serializer.encodeData(data);
            DefaultCompleteState().decider(ctx, e, data) ==
            if text.error == None then Returned(CompleteOutcome(data, [CompleteWorkflowExecution(text.text)]))
            else Panicked(text.error.value)
  {
    assert DefaultErrorState(s).decider(ctx, e, data) ==
           if e.body.ErrorSignal() && !s.decodesAsError(e.body.signalName, e.body.signalInput)
           then Panicked("undecodable error")
           else Returned(ErrorOutcome(data, []));
    assert DefaultCompleteState().decider(ctx, e, data) == Complete(ctx, data, []);
    var done := CompleteWorkflowExecution(ctx.serializer.encodeData(data).text);
    assert [] + [done] == [done];
  }

  /** The outcome of a failed tick, as the loops return it. */
  predicate Reported(crashed: bool, decisions: seq<Decision>, r: TickResult) {
    crashed == r.Crash? && (!crashed ==> r.Failure? && decisions == r.Decisions())
  }

  /** What a tick returns, for each way it can end. */
  ghost predicate Ended(crashed: bool, decisions: seq<Decision>, state: Option<SerializedState>, r: TickResult) {
    crashed == r.Crash? && (!crashed ==> decisions == r.Decisions() && state == r.State())
  }

  /** What the scan for recent events still has to collect, one event further on. */
  lemma NextRecent(prevStarted: int, events: seq<Event>, i: nat)
    requires i < |events| && events[i].id != prevStarted
    ensures var e, now, next := events[i], NewerThan(prevStarted, events[i..]), NewerThan(prevStarted, events[i + 1..]);
            && Deliverables(now) == (if e.body.Deliverable() then [e] else []) + Deliverables(next)
            && ErrorSignals(now) == (if e.body.ErrorSignal() then [e] else []) + ErrorSignals(next)
  {
    var next := NewerThan(prevStarted, events[i + 1..]);
    assert events[i..][1..] == events[i + 1..];
    assert ([events[i]] + next)[1..] == next;
  }

  /** At the previous start, or at the end, nothing is left to collect. */
  lemma NoMoreRecent(prevStarted: int, events: seq<Event>, i: nat)
    requires i == |events| || (i < |events| && events[i].id == prevStarted)
    ensures var rest := NewerThan(prevStarted, events[i..]); Deliverables(rest) == [] && ErrorSignals(rest) == []
  {
  }

  class IntermediateOutcome {
    var stateVersion: uint64
    var state: string
    var data: Value
    var decisions: seq<Decision>

    constructor ()
      ensures stateVersion == 0 && state == "" && data == Nil && decisions == []
    {
      stateVersion, state, data, decisions := 0, "", Nil, [];
    }

    /** The outcome as a value, with the pending activities and the events seen so far. */
    function View(pending: Pending, seen: seq<Event>): Progress
      reads this
    {
      Progress(stateVersion, state, data, decisions, pending, seen)
    }
  }

  class FsmContext {
    const serializer: Serializer
    const workflowType: WorkflowType
    const execution: WorkflowExecution
    const pendingActivities: ActivityCorrelator
    var state: string
    var stateData: Value
    var stateVersion: uint64

    constructor (serializer: Serializer, workflowType: WorkflowType, execution: WorkflowExecution,
                 pendingActivities: ActivityCorrelator, state: string, stateData: Value, stateVersion: uint64)
      ensures this.serializer == serializer && this.workflowType == workflowType && this.execution == execution
      ensures this.pendingActivities == pendingActivities
      ensures this.state == state && this.stateData == stateData && this.stateVersion == stateVersion
    {
      this.serializer, this.workflowType, this.execution := serializer, workflowType, execution;
      this.pendingActivities := pendingActivities;
      this.state, this.stateData, this.stateVersion := state, stateData, stateVersion;
    }

    function View(): Context
      reads this, pendingActivities
    {
      Context(serializer, workflowType, execution, pendingActivities.activities, state, stateData, stateVersion)
    }

    /** Runs a decider and then tracks the event, unless the decider panicked. */
    method Decide(e: Event, data: Value, decider: Decider) returns (verdict: Verdict)
      modifies pendingActivities
      ensures verdict == decider(old(View()), e, data)
      ensures pendingActivities.activities ==
              if verdict.Panicked? then old(pendingActivities.activities)
              else Tracked(old(pendingActivities.activities), e)
    {
      verdict := decider(View(), e, data);
      if verdict.Returned? {
        pendingActivities.Track(e);
      }
    }
  }

  class FSM {
    const serializer: Serializer
    const zero: Data
    const kinesisStream: string
    var states: map<string, FSMState>
    var initialState: Option<FSMState>
    var errorState: Option<FSMState>
    var completeState: Option<FSMState>

    constructor (serializer: Serializer, zero: Data, kinesisStream: string)
      ensures this.serializer == serializer && this.zero == zero && this.kinesisStream == kinesisStream
      ensures states == map[] && initialState == None && errorState == None && completeState == None
    {
      this.serializer, this.zero, this.kinesisStream := serializer, zero, kinesisStream;
      states, initialState, errorState, completeState := map[], None, None, None;
    }

    /** Every distinguished state is registered under its name. */
    ghost predicate Valid()
      reads this
    {
      && (initialState.Some? ==> initialState.value.name in states)
      && (errorState.Some? ==> errorState.value.name in states)
      && (completeState.Some? ==> completeState.value.name in states)
    }

    ghost predicate Initialized()
      reads this
    {
      Valid() && initialState.Some? && errorState.Some? && completeState.Some?
    }

    ghost function View(): Machine
      requires Initialized()
      reads this
    {
      Machine(serializer, zero, states, initialState.value, errorState.value, kinesisStream)
    }

    method AddState(state: FSMState)
      requires Valid()
      modifies this`states
      ensures Valid() && states == old(states)[state.name := state]
    {
      states := states[state.name := state];
    }

    method AddInitialState(state: FSMState)
      requires Valid()
      modifies this`states, this`initialState
      ensures Valid() && states == old(states)[state.name := state] && initialState == Some(state)
    {
      AddState(state);
      initialState := Some(state);
    }

    method AddErrorState(state: FSMState)
      requires Valid()
      modifies this`states, this`errorState
      ensures Valid() && states == old(states)[state.name := state] && errorState == Some(state)
    {
      AddState(state);
      errorState := Some(state);
    }

    method AddCompleteState(state: FSMState)
      requires Valid()
      modifies this`states, this`completeState
      ensures Valid() && states == old(states)[state.name := state] && completeState == Some(state)
    {
      AddState(state);
      completeState := Some(state);
    }

    /** Supplies the missing error and complete states. Without an initial state it panics and changes nothing. */
    method Init() returns (panicked: bool)
      requires Valid()
      modifies this`states, this`errorState, this`completeState
      ensures panicked <==> old(initialState) == None
      ensures panicked ==> states == old(states) && errorState == old(errorState) && completeState == old(completeState)
      ensures !panicked ==> Initialized()
      ensures old(errorState) == None && !panicked ==>
                && errorState == Some(DefaultErrorState(serializer))
                && ERROR_STATE in states && states[ERROR_STATE] == DefaultErrorState(serializer)
      ensures old(completeState) == None && !panicked ==>
                && completeState == Some(DefaultCompleteState())
                && COMPLETE_STATE in states && states[COMPLETE_STATE] == DefaultCompleteState()
      ensures old(errorState) != None ==> errorState == old(errorState)
      ensures old(completeState) != None ==> completeState == old(completeState)
      ensures old(errorState) != None && old(completeState) != None ==> states == old(states)
      ensures !panicked ==>
                var withError :=
                  if old(errorState) == None then old(states)["error" := DefaultErrorState(serializer)]
                  else old(states);
                states == if old(completeState) == None then withError["complete" := DefaultCompleteState()]
                          else withError
      ensures old(states).Keys <= states.Keys <= old(states).Keys + {ERROR_STATE, COMPLETE_STATE}
      ensures forall name :: name in old(states) && name != ERROR_STATE && name != COMPLETE_STATE ==>
                states[name] == old(states)[name]
    {
      if initialState.None? {
        return true;
      }
      if errorState.None? {
        AddErrorState(DefaultErrorState(serializer));
      }
      if completeState.None? {
        AddCompleteState(DefaultCompleteState());
      }
      panicked := false;
    }

    /** Scans from the newest event for the last checkpoint, or else the start input. */
    method FindSerializedState(events: seq<Event>) returns (r: Result<SerializedState>)
      requires Initialized()
      ensures r == Engine.FindSerializedState(View(), events)
    {
      var i := 0;
      while i < |events|
        invariant 0 <= i <= |events|
        invariant Engine.FindSerializedState(View(), events) == Engine.FindSerializedState(View(), events[i..])
      {
        var e := events[i];
        if e.body.StateMarker() {
          return serializer.decodeState(e.body.details);
        } else if e.body.WorkflowExecutionStarted? {
          r := serializer.decodeState(e.body.input);
          if r.Ok? && r.value.replicationData.stateName == "" {
            r := Ok(r.value.(replicationData := r.value.replicationData.(stateName := initialState.value.name)));
          }
          return;
        }
        i := i + 1;
      }
      r := Err("Cant Find Current Data");
    }

    /** Collects what is newer than the previous task's start: events to decide and error signals. */
    method FindLastEvents(prevStarted: int, events: seq<Event>) returns (last: seq<Event>, errors: seq<Event>)
      ensures last == Deliverables(NewerThan(prevStarted, events))
      ensures errors == ErrorSignals(NewerThan(prevStarted, events))
    {
      hide Deliverables, ErrorSignals, NewerThan;
      last, errors := [], [];
      assert events[0..] == events;
      ghost var recent := NewerThan(prevStarted, events);
      var i := 0;
      while i < |events|
        invariant 0 <= i <= |events|
        invariant last + Deliverables(NewerThan(prevStarted, events[i..])) == Deliverables(recent)
        invariant errors + ErrorSignals(NewerThan(prevStarted, events[i..])) == ErrorSignals(recent)
      {
        var e := events[i];
        if e.id == prevStarted {
          NoMoreRecent(prevStarted, events, i);
          return;
        }
        ghost var last0, errors0 := last, errors;
        NextRecent(prevStarted, events, i);
        match e.body {
          case DecisionTaskCompleted =>
          case DecisionTaskScheduled =>
          case DecisionTaskStarted =>
          case MarkerRecorded(name, _) =>
            if name != STATE_MARKER {
              last := last + [e];
            }
          case WorkflowExecutionSignaled(name, _) =>
            if name == SYSTEM_ERROR_SIGNAL || name == ERROR_SIGNAL {
              errors := errors + [e];
            } else {
              last := last + [e];
            }
          case _ =>
            last := last + [e];
        }
        assert last == last0 + (if e.body.Deliverable() then [e] else []);
        assert errors == errors0 + (if e.body.ErrorSignal() then [e] else []);
        i := i + 1;
      }
      NoMoreRecent(prevStarted, events, i);
    }

    method MergeOutcomes(final: IntermediateOutcome, o: Outcome, ghost pending: Pending, ghost seen: seq<Event>)
      requires !o.Pass?
      modifies final
      ensures final.View(pending, seen) == Engine.MergeOutcomes(old(final.View(pending, seen)), o)
      ensures final.decisions == old(final.decisions) + o.decisions && final.data == o.data
      ensures final.stateVersion == old(final.stateVersion)
      ensures final.state ==
              match o
              case StayOutcome(_, _) => old(final.state)
              case ContinueOutcome(_, _) => ""
              case TransitionOutcome(_, name, _) => name
              case CompleteOutcome(_, _) => "complete"
              case ErrorOutcome(_, _) => "error"
    {
      final.decisions := final.decisions + o.decisions;
      final.data := o.data;
      if !o.StayOutcome? {
        final.state := o.State();
      }
    }

    /** The signal that reports an error; `crashed` when even the report cannot be serialized. */
    method CaptureError(t: Task, sofar: seq<Decision>, record: ErrorRecord)
      returns (crashed: bool, decisions: seq<Decision>)
      requires Initialized()
      ensures forall env: Env, p: Progress :: env.execution == t.execution && p.decisions == sofar ==>
                Reported(crashed, decisions, Engine.CaptureError(View(), env, p, record))
      ensures crashed <==> serializer.encodeError(record).error.Some?
      ensures !crashed ==>
                && |decisions| == |sofar| + 1 && sofar <= decisions
                && decisions[|sofar|].SignalExternalWorkflowExecution?
                && decisions[|sofar|].workflowID == t.execution.workflowID
                && decisions[|sofar|].runID == t.execution.runID
                && decisions[|sofar|].input == serializer.encodeError(record).text
                && match record
                   case DecisionError(_, _, _, _, _) => decisions[|sofar|].signalName == "FSM.Error"
                   case SystemError(_, _, _) => decisions[|sofar|].signalName == "FSM.SystemError"
    {
      var details := serializer.encodeError(record);
      if details.error.Some? {
        return true, [];
      }
      var signal := if record.DecisionError? then ERROR_SIGNAL else SYSTEM_ERROR_SIGNAL;
      decisions := sofar +
        [SignalExternalWorkflowExecution(t.execution.workflowID, t.execution.runID, signal, details.text)];
      crashed := false;
    }

    method RecordStateMarker(outcome: IntermediateOutcome, pending: ActivityCorrelator)
      returns (r: Result<(seq<Decision>, SerializedState)>)
      requires Initialized()
      ensures var state := CheckpointOf(View(), outcome.View(pending.activities, []));
              var details := serializer.encodeState(state);
              r == match details.error
                   case Some(e) => Err(e)
                   case None => Ok(([StateMarker(details.text)] + outcome.decisions, state))
      ensures r.Ok? ==>
                var (ds, state) := r.value;
                && ds == [RecordMarker("FSM.State", serializer.encodeState(state).text)] + outcome.decisions
                && state.replicationData.stateVersion as int ==
                   (if outcome.stateVersion == 18446744073709551615 then 0 else outcome.stateVersion + 1)
                && state.replicationData.stateName == outcome.state
                && state.replicationData.stateData == serializer.encodeData(outcome.data).text
                && state.pendingActivities == pending.activities
    {
      var data := serializer.encodeData(outcome.data);
      var state := SerializedState(
        ReplicationData(NextVersion(outcome.stateVersion), outcome.state, data.text),
        pending.activities);
      var details := serializer.encodeState(state);
      match details.error {
        case Some(e) => r := Err(e);
        case None => r := Ok(([StateMarker(details.text)] + outcome.decisions, state));
      }
    }

    /** Gives the error signals to the error state, the oldest first. When it stops, the tick is over. */
    method HandleErrors(t: Task, errors: seq<Event>, outcome: IntermediateOutcome, context: FsmContext)
      returns (stopped: bool, crashed: bool, decisions: seq<Decision>)
      requires Initialized()
      requires context.View() == ErrorContext(View(), EnvOf(t), context.pendingActivities.activities)
      modifies outcome, context.pendingActivities
      ensures match DecideErrors(View(), EnvOf(t), errors, old(outcome.View(context.pendingActivities.activities, [])))
              case Done(p) => !stopped && outcome.View(context.pendingActivities.activities, []) == p
              case Halted(_, NilOutcome, _) => stopped && crashed
              case Halted(p, StateMissing, _) => false
              case Halted(p, DeciderPanicked(reason), at) =>
                stopped && Reported(crashed, decisions, CaptureDecisionError(View(), EnvOf(t), p, at, errors, reason))
    {
      ghost var f, pending := View(), context.pendingActivities;
      ghost var start := outcome.View(pending.activities, []);
      assert errors[..|errors|] == errors;
      var i := |errors| - 1;
      while i >= 0
        invariant -1 <= i < |errors|
        invariant context.View() == ErrorContext(f, EnvOf(t), pending.activities)
        invariant DecideErrors(f, EnvOf(t), errors, start) ==
                  DecideErrors(f, EnvOf(t), errors[..i + 1], outcome.View(pending.activities, []))
      {
        var e := errors[i];
        assert errors[..i + 1][..i] == errors[..i];
        var verdict := context.Decide(e, outcome.data, errorState.value.decider);
        match verdict {
          case Panicked(reason) =>
            crashed, decisions := CaptureError(t, outcome.decisions,
              DecisionError(e.id, UnprocessedIDs(errors[i + 1..]), outcome.state, outcome.data, reason));
            return true, crashed, decisions;
          case Returned(o) =>
            if o.Pass? {
              return true, true, [];
            }
            MergeOutcomes(outcome, o, context.pendingActivities.activities, []);
        }
        i := i - 1;
      }
      assert errors[..0] == [];
      return false, false, [];
    }

    /** Decides one event in the current state: the reason it could not, if it could not. Then the outcome
        stays as it was, and so do the pending activities, but for a nil outcome, which comes too late. */
    method ProcessEvent(e: Event, outcome: IntermediateOutcome, context: FsmContext, ghost env: Env,
                        ghost seen: seq<Event>)
      returns (why: Option<Halt>)
      requires Initialized()
      requires context.serializer == serializer && context.workflowType == env.workflowType
      requires context.execution == env.execution && context.stateVersion == env.stateVersion
      modifies outcome, context, context.pendingActivities
      ensures context.stateVersion == old(context.stateVersion)
      ensures match Engine.Decide(View(), env, old(outcome.View(context.pendingActivities.activities, seen)), e)
              case Moved(p) => why == None && p == outcome.View(context.pendingActivities.activities, seen + [e])
              case Stuck(p, halt) =>
                && why == Some(halt) && outcome.View(p.pending, p.seen) == p
                && context.pendingActivities.activities ==
                   if halt.NilOutcome? then Tracked(old(context.pendingActivities.activities), e)
                   else old(context.pendingActivities.activities)
      ensures if old(outcome.state) !in states
              then context.state == old(context.state) && context.stateData == old(context.stateData)
              else context.state == old(outcome.state) && context.stateData == old(outcome.data)
    {
      if outcome.state !in states {
        return Some(StateMissing);
      }
      context.state, context.stateData := outcome.state, outcome.data;
      var verdict := context.Decide(e, outcome.data, states[outcome.state].decider);
      match verdict {
        case Panicked(reason) => return Some(DeciderPanicked(reason));
        case Returned(o) =>
          context.pendingActivities.Track(e);
          if o.Pass? {
            return Some(NilOutcome);
          }
          MergeOutcomes(outcome, o, context.pendingActivities.activities, seen + [e]);
          why := None;
      }
    }

    /** Gives the events to the decider of the current state, the oldest first. */
    method ProcessEvents(t: Task, last: seq<Event>, outcome: IntermediateOutcome, context: FsmContext, ghost env: Env)
      returns (stopped: bool, crashed: bool, decisions: seq<Decision>, ghost seen: seq<Event>)
      requires Initialized()
      requires context.serializer == serializer && context.workflowType == env.workflowType
      requires context.execution == env.execution == t.execution && context.stateVersion == env.stateVersion
      modifies outcome, context, context.pendingActivities
      ensures match DecideAll(View(), env, last, old(outcome.View(context.pendingActivities.activities, [])))
              case Done(p) => !stopped && outcome.View(context.pendingActivities.activities, seen) == p
              case Halted(_, NilOutcome, _) => stopped && crashed
              case Halted(p, StateMissing, at) =>
                stopped && Reported(crashed, decisions,
                             CaptureSystemError(View(), env, p, "MissingFsmStateError", last[at..], p.state))
              case Halted(p, DeciderPanicked(reason), at) =>
                stopped && Reported(crashed, decisions, CaptureDecisionError(View(), env, p, at, last, reason))
    {
      hide Engine.Decide, Engine.CaptureError, Tracked;
      ghost var f, pending := View(), context.pendingActivities;
      ghost var start := outcome.View(pending.activities, []);
      seen := [];
      assert last[..|last|] == last;
      var i := |last| - 1;
      while i >= 0
        invariant -1 <= i < |last|
        invariant context.stateVersion == env.stateVersion
        invariant DecideAll(f, env, last, start) ==
                  DecideAll(f, env, last[..i + 1], outcome.View(pending.activities, seen))
      {
        var e := last[i];
        assert last[..i + 1][..i] == last[..i];
        var why := ProcessEvent(e, outcome, context, env, seen);
        match why {
          case None =>
          case Some(NilOutcome) => return true, true, [], seen;
          case Some(StateMissing) =>
            crashed, decisions := CaptureError(t, outcome.decisions,
              SystemError("MissingFsmStateError", UnprocessedIDs(last[i..]), outcome.state));
            return true, crashed, decisions, seen;
          case Some(DeciderPanicked(reason)) =>
            crashed, decisions := CaptureError(t, outcome.decisions,
              DecisionError(e.id, UnprocessedIDs(last[i + 1..]), outcome.state, outcome.data, reason));
            return true, crashed, decisions, seen;
        }
        seen := seen + [e];
        i := i - 1;
      }
      assert last[..0] == [];
      return false, false, [], seen;
    }

    /** Decides the events and records the checkpoint. */
    method FinishTick(t: Task, last: seq<Event>, outcome: IntermediateOutcome, context: FsmContext, ghost env: Env)
      returns (crashed: bool, decisions: seq<Decision>, state: Option<SerializedState>)
      requires Initialized()
      requires context.serializer == serializer && context.workflowType == env.workflowType
      requires context.execution == env.execution == t.execution && context.stateVersion == env.stateVersion
      modifies outcome, context, context.pendingActivities
      ensures Ended(crashed, decisions, state,
                Engine.FinishTick(View(), env, last, old(outcome.View(context.pendingActivities.activities, []))))
    {
      var stopped;
      ghost var seen;
      state := None;
      stopped, crashed, decisions, seen := ProcessEvents(t, last, outcome, context, env);
      if stopped {
        return;
      }
      var final := RecordStateMarker(outcome, context.pendingActivities);
      match final {
        case Err(e) =>
          crashed, decisions := CaptureError(t, outcome.decisions,
            SystemError("StateSerializationError", UnprocessedIDs([]), e));
        case Ok((ds, checkpoint)) =>
          crashed, decisions, state := false, ds, Some(checkpoint);
      }
    }

    /** Without error handling, or when that left neither data nor state, loads both from the checkpoint. */
    method RecoverAndFinish(t: Task, last: seq<Event>, found: SerializedState, outcome: IntermediateOutcome,
                            context: FsmContext)
      returns (crashed: bool, decisions: seq<Decision>, state: Option<SerializedState>)
      requires Initialized()
      requires context.serializer == serializer && context.workflowType == t.workflowType
      requires context.execution == t.execution && context.stateVersion == 0
      modifies outcome, context, context.pendingActivities
      ensures Ended(crashed, decisions, state,
                AfterErrors(View(), EnvOf(t), t.events, last, found,
                  old(outcome.View(context.pendingActivities.activities, []))))
    {
      ghost var env := EnvOf(t);
      if outcome.data == Nil && outcome.state == "" {
        var data := serializer.decodeData(found.replicationData.stateData);
        if data.Err? {
          crashed, decisions := CaptureError(t, outcome.decisions,
            SystemError("DeserializeStateError", UnprocessedIDs(t.events), data.error));
          return crashed, decisions, None;
        }
        outcome.data := Ptr(data.value);
        outcome.state := found.replicationData.stateName;
        outcome.stateVersion := found.replicationData.stateVersion;
        context.stateVersion := found.replicationData.stateVersion;
        env := env.(stateVersion := found.replicationData.stateVersion);
      }
      crashed, decisions, state := FinishTick(t, last, outcome, context, env);
    }

    /** One decision task. On errors no state is returned and the decisions end in an error signal. */
    method Tick(t: Task) returns (crashed: bool, decisions: seq<Decision>, state: Option<SerializedState>)
      requires Initialized()
      ensures Ended(crashed, decisions, state, Engine.Tick(View(), t))
    {
      hide AfterErrors, DecideErrors, Engine.FindSerializedState, Deliverables, ErrorSignals, NewerThan;
      var last, errors := FindLastEvents(t.previousStartedEventID, t.events);
      var found := FindSerializedState(t.events);
      crashed, decisions, state := false, [], None;
      if found.Err? {
        crashed, decisions := CaptureError(t, [],
          SystemError("FindSerializedStateError", UnprocessedIDs(t.events), found.error));
        return;
      }
      var outcome := new IntermediateOutcome();
      var pending := new ActivityCorrelator(found.value.pendingActivities);
      var context := new FsmContext(serializer, t.workflowType, t.execution, pending, "", Nil, 0);
      ghost var f := View();
      if |errors| > 0 {
        outcome.data, outcome.state := Ptr(zero), errorState.value.name;
        context.state, context.stateData := errorState.value.name, Ptr(zero);
        var stopped;
        stopped, crashed, decisions := HandleErrors(t, errors, outcome, context);
        if stopped {
          return;
        }
      }
      assert ErrorPhase(f, EnvOf(t), errors, found.value.pendingActivities)
             == Done(outcome.View(pending.activities, []));
      crashed, decisions, state := RecoverAndFinish(t, last, found.value, outcome, context);
    }

    /** Ticks, responds, and replicates the new state once the response has been accepted. Whether the
        service accepts the response and the stream accepts the record is up to the environment. */
    method HandleDecisionTask(t: Task, accepted: bool, delivered: bool)
      returns (crashed: bool, completion: Completion, put: Option<string>)
      requires Initialized()
      ensures crashed <==> Engine.Tick(View(), t).Crash?
      ensures !crashed ==> completion == CompletionOf(t, Engine.Tick(View(), t))
      ensures !crashed ==> put == RecordPut(View(), Engine.Tick(View(), t), accepted, delivered)
      ensures match Engine.Tick(View(), t)
              case Crash => crashed
              case Failure(sofar, notice, _, _) =>
                completion == Completion(sofar + [notice], t.taskToken, "") && put == None
              case Success(ds, SerializedState(data, _), _) =>
                && completion == Completion(ds, t.taskToken, data.stateName)
                && put == (if accepted && delivered && kinesisStream != ""
                              && serializer.encodeReplication(data).error == None
                           then Some(serializer.encodeReplication(data).text) else None)
    {
      var decisions, state;
      crashed, decisions, state := Tick(t);
      completion := Completion(decisions, t.taskToken, "");
      put := None;
      if crashed {
        return;
      }
      if state.Some? {
        completion := completion.(executionContext := state.value.replicationData.stateName);
      }
      if !accepted || state.None? || kinesisStream == "" {
        return;
      }
      var record := serializer.encodeReplication(state.value.replicationData);
      if record.error.None? && delivered {
        put := Some(record.text);
      }
    }
  }
}
