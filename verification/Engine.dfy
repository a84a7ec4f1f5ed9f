/** What one tick of the engine computes, as a function of the machine and the decision task. */
module Engine {
  import opened Protocol
  import opened Correlator
  import opened Model

  /** An initialized FSM: Init has supplied the error state where none was added. */
  datatype Machine = Machine(
    serializer: Serializer,
    zero: Data,
    states: map<string, FSMState>,
    initialState: FSMState,
    errorState: FSMState,
    kinesisStream: string)

  // ----- recovering the last checkpoint -----

  function StartState(f: Machine, input: string): Result<SerializedState> {
    match f.serializer.decodeState(input)
    case Err(e) => Err(e)
    case Ok(s) =>
      if s.replicationData.stateName == ""
      then Ok(s.(replicationData := s.replicationData.(stateName := f.initialState.name)))
      else Ok(s)
  }

  function FindSerializedState(f: Machine, events: seq<Event>): Result<SerializedState> {
    if events == [] then Err("Cant Find Current Data")
    else if events[0].body.StateMarker() then f.serializer.decodeState(events[0].body.details)
    else if events[0].body.WorkflowExecutionStarted? then StartState(f, events[0].body.input)
    else FindSerializedState(f, events[1..])
  }

  // ----- deciding events -----

  /** The intermediate outcome of a tick with the activities pending so far; `seen` lists the events
      handed to normal-state deciders, oldest first. */
  datatype Progress = Progress(
    stateVersion: uint64,
    state: string,
    data: Value,
    decisions: seq<Decision>,
    pending: Pending,
    seen: seq<Event>)

  datatype Halt = DeciderPanicked(reason: string) | StateMissing | NilOutcome

  datatype Advance = Moved(p: Progress) | Stuck(p: Progress, why: Halt)

  /** `at` is the index, newest first, of the event that could not be processed. */
  datatype Sweep = Done(p: Progress) | Halted(p: Progress, why: Halt, at: nat)

  function MergeOutcomes(p: Progress, o: Outcome): Progress
    requires !o.Pass?
  {
    p.(decisions := p.decisions + o.decisions,
       data := o.data,
       state := if o.StayOutcome? then p.state else o.State())
  }

  /** What stays fixed for the deciders of one tick. */
  datatype Env = Env(workflowType: WorkflowType, execution: WorkflowExecution, stateVersion: uint64)

  function ContextOf(f: Machine, env: Env, p: Progress): Context {
    Context(f.serializer, env.workflowType, env.execution, p.pending, p.state, p.data, env.stateVersion)
  }

  /** One event, decided by the current state. */
  function Decide(f: Machine, env: Env, p: Progress, e: Event): Advance {
    if p.state !in f.states then Stuck(p, StateMissing)
    else
      var q := p.(seen := p.seen + [e]);
      match f.states[p.state].decider(ContextOf(f, env, p), e, p.data)
      case Panicked(reason) => Stuck(q, DeciderPanicked(reason))
      case Returned(Pass) => Stuck(q, NilOutcome)
      case Returned(o) => Moved(MergeOutcomes(q.(pending := Tracked(p.pending, e)), o))
  }

  /** All events of a newest-first list, the oldest first. */
  function DecideAll(f: Machine, env: Env, events: seq<Event>, p: Progress): (r: Sweep)
    ensures r.Halted? ==> r.at < |events|
  {
    if events == [] then Done(p)
    else
      var n := |events| - 1;
      match Decide(f, env, p, events[n])
      case Moved(q) => DecideAll(f, env, events[..n], q)
      case Stuck(q, why) => Halted(q, why, n)
  }

  // ----- handling error signals -----

  /** The context of the error state: the zero data, version 0. */
  function ErrorContext(f: Machine, env: Env, pending: Pending): Context {
    Context(f.serializer, env.workflowType, env.execution, pending, f.errorState.name, Ptr(f.zero), 0)
  }

  function DecideError(f: Machine, env: Env, p: Progress, e: Event): Advance {
    match f.errorState.decider(ErrorContext(f, env, p.pending), e, p.data)
    case Panicked(reason) => Stuck(p, DeciderPanicked(reason))
    case Returned(Pass) => Stuck(p, NilOutcome)
    case Returned(o) => Moved(MergeOutcomes(p.(pending := Tracked(p.pending, e)), o))
  }

  function DecideErrors(f: Machine, env: Env, errors: seq<Event>, p: Progress): (r: Sweep)
    ensures r.Halted? ==> r.at < |errors|
  {
    if errors == [] then Done(p)
    else
      var n := |errors| - 1;
      match DecideError(f, env, p, errors[n])
      case Moved(q) => DecideErrors(f, env, errors[..n], q)
      case Stuck(q, why) => Halted(q, why, n)
  }

  // ----- results -----

  /** Success carries the new checkpoint. Failure carries the decisions made so far and the signal that
      reports `record`. Crash is a panic that leaves Tick. */
  datatype TickResult =
    | Success(decisions: seq<Decision>, checkpoint: SerializedState, seen: seq<Event>)
    | Failure(sofar: seq<Decision>, notice: Decision, record: ErrorRecord, seen: seq<Event>)
    | Crash
  {
    function Decisions(): seq<Decision>
      requires !Crash?
    {
      if Success? then decisions else sofar + [notice]
    }

    function State(): Option<SerializedState> {
      if Success? then Some(checkpoint) else None
    }
  }

  /** The IDs as the Go code collects them: a zero for every event, then the IDs. */
  function UnprocessedIDs(events: seq<Event>): seq<int> {
    seq(|events|, _ => 0) + EventIDs(events)
  }

  function SignalOf(record: ErrorRecord): string {
    if record.DecisionError? then ERROR_SIGNAL else SYSTEM_ERROR_SIGNAL
  }

  /** Signals the error to the workflow itself; when even the report cannot be serialized, the tick panics. */
  function CaptureError(f: Machine, env: Env, p: Progress, record: ErrorRecord): TickResult {
    var details := f.serializer.encodeError(record);
    if !details.Fine() then Crash
    else
      var notice := SignalExternalWorkflowExecution(
        env.execution.workflowID, env.execution.runID, SignalOf(record), details.text);
      Failure(p.decisions, notice, record, p.seen)
  }

  function CaptureDecisionError(f: Machine, env: Env, p: Progress, at: nat, events: seq<Event>, reason: string)
    : TickResult
    requires at < |events|
  {
    CaptureError(f, env, p, DecisionError(events[at].id, UnprocessedIDs(events[at + 1..]), p.state, p.data, reason))
  }

  function CaptureSystemError(f: Machine, env: Env, p: Progress, errorType: string, events: seq<Event>, reason: string)
    : TickResult
  {
    CaptureError(f, env, p, SystemError(errorType, UnprocessedIDs(events), reason))
  }

  // ----- handling a decision task -----

  datatype Completion = Completion(decisions: seq<Decision>, taskToken: string, executionContext: string)

  /** The response to a decision task; only a successful tick names its state. */
  function CompletionOf(t: Task, r: TickResult): Completion
    requires !r.Crash?
  {
    Completion(r.Decisions(), t.taskToken, if r.Success? then r.checkpoint.replicationData.stateName else "")
  }

  /** The stream record put for a tick, when the response was accepted and the put succeeds. */
  function RecordPut(f: Machine, r: TickResult, accepted: bool, delivered: bool): Option<string> {
    if !accepted || !r.Success? || f.kinesisStream == "" then None
    else
      var record := f.serializer.encodeReplication(r.checkpoint.replicationData);
      if record.Fine() && delivered then Some(record.text) else None
  }

  // ----- the tick -----

  function Fresh(pending: Pending): Progress {
    Progress(0, "", Nil, [], pending, [])
  }

  function StateMarker(text: string): Decision {
    RecordMarker(STATE_MARKER, text)
  }

  /** The checkpoint of a finished tick; an error in encoding the data goes unnoticed. */
  function CheckpointOf(f: Machine, p: Progress): SerializedState {
    SerializedState(
      ReplicationData(NextVersion(p.stateVersion), p.state, f.serializer.encodeData(p.data).text),
      p.pending)
  }

  function RecordCheckpoint(f: Machine, env: Env, p: Progress): TickResult {
    var state := CheckpointOf(f, p);
    var details := f.serializer.encodeState(state);
    match details.error
    case Some(e) => CaptureSystemError(f, env, p, "StateSerializationError", [], e)
    case None => Success([StateMarker(details.text)] + p.decisions, state, p.seen)
  }

  function FinishTick(f: Machine, env: Env, last: seq<Event>, p: Progress): TickResult {
    match DecideAll(f, env, last, p)
    case Done(q) => RecordCheckpoint(f, env, q)
    case Halted(q, NilOutcome, _) => Crash
    case Halted(q, StateMissing, at) => CaptureSystemError(f, env, q, "MissingFsmStateError", last[at..], q.state)
    case Halted(q, DeciderPanicked(reason), at) => CaptureDecisionError(f, env, q, at, last, reason)
  }

  /** The progress with which normal processing starts after recovery from a checkpoint. */
  function Resumed(p: Progress, state: SerializedState, d: Data): Progress {
    p.(data := Ptr(d),
       state := state.replicationData.stateName,
       stateVersion := state.replicationData.stateVersion)
  }

  /** The error phase; without error signals it does nothing. */
  function ErrorPhase(f: Machine, env: Env, errors: seq<Event>, pending: Pending): (r: Sweep)
    ensures r.Halted? ==> r.at < |errors|
  {
    if errors == [] then Done(Fresh(pending))
    else DecideErrors(f, env, errors, Fresh(pending).(data := Ptr(f.zero), state := f.errorState.name))
  }

  /** Normal recovery happens when there was no error handling, or its last outcome had neither data nor state. */
  predicate Recovers(p: Progress) {
    p.data == Nil && p.state == ""
  }

  function AfterErrors(f: Machine, env: Env, events: seq<Event>, last: seq<Event>, state: SerializedState, p: Progress)
    : TickResult
  {
    if Recovers(p) then
      match f.serializer.decodeData(state.replicationData.stateData)
      case Err(e) => CaptureSystemError(f, env, p, "DeserializeStateError", events, e)
      case Ok(d) =>
        FinishTick(f, env.(stateVersion := state.replicationData.stateVersion), last, Resumed(p, state, d))
    else
      FinishTick(f, env, last, p)
  }

  function TickFrom(f: Machine, env: Env, events: seq<Event>, last: seq<Event>, errors: seq<Event>,
                    state: SerializedState): TickResult
  {
    match ErrorPhase(f, env, errors, state.pendingActivities)
    case Done(p) => AfterErrors(f, env, events, last, state, p)
    case Halted(p, DeciderPanicked(reason), at) => CaptureDecisionError(f, env, p, at, errors, reason)
    case Halted(_, _, _) => Crash
  }

  function EnvOf(t: Task): Env {
    Env(t.workflowType, t.execution, 0)
  }

  function Tick(f: Machine, t: Task): TickResult {
    var recent := NewerThan(t.previousStartedEventID, t.events);
    match FindSerializedState(f, t.events)
    case Err(e) => CaptureSystemError(f, EnvOf(t), Fresh(map[]), "FindSerializedStateError", t.events, e)
    case Ok(state) => TickFrom(f, EnvOf(t), t.events, Deliverables(recent), ErrorSignals(recent), state)
  }
}
