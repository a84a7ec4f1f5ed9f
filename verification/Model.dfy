/** Outcomes, deciders, the decider's context and the serializer contract. */
module Model {
  import opened Protocol
  import opened Correlator

  /** What the user's data type is does not matter to the engine. */
  type Data(==, !new)

  /** The data handed around by deciders: an interface value, which may be nil. */
  datatype Value = Nil | Ptr(data: Data)

  const VERSION_LIMIT := 0x1_0000_0000_0000_0000

  type uint64 = n: int | 0 <= n < VERSION_LIMIT

  /** Version arithmetic wraps around like the 64-bit counter it is kept in. */
  function NextVersion(version: uint64): uint64 {
    (version + 1) % VERSION_LIMIT
  }

  datatype ReplicationData = ReplicationData(stateVersion: uint64, stateName: string, stateData: string)

  datatype SerializedState = SerializedState(replicationData: ReplicationData, pendingActivities: Pending)

  /** The payload of the signals by which a failed tick reports itself. */
  datatype ErrorRecord =
    | DecisionError(eventID: int, unprocessedEventIDs: seq<int>, stateName: string, stateData: Value, reason: string)
    | SystemError(errorType: string, unprocessedEventIDs: seq<int>, reason: string)

  /** The text a serializer returns and, separately, its error: callers may ignore the latter. */
  datatype Encoded = Encoded(text: string, error: Option<string>) {
    predicate Fine() {
      error == None
    }
  }

  datatype Serializer = Serializer(
    encodeState: SerializedState -> Encoded,
    decodeState: string -> Result<SerializedState>,
    encodeData: Value -> Encoded,
    decodeData: string -> Result<Data>,
    encodeReplication: ReplicationData -> Encoded,
    encodeError: ErrorRecord -> Encoded,
    decodesAsError: (string, string) -> bool)

  /** What is encoded without error decodes to itself. */
  ghost predicate StatesRoundTrip(s: Serializer) {
    forall state :: s.encodeState(state).Fine() ==> s.decodeState(s.encodeState(state).text) == Ok(state)
  }

  /** The same for data that are not nil; and what was encoded with an error does not decode. */
  ghost predicate DataRoundTrips(s: Serializer) {
    forall d ::
      var encoded := s.encodeData(Ptr(d));
      if encoded.Fine() then s.decodeData(encoded.text) == Ok(d) else s.decodeData(encoded.text).Err?
  }

  datatype Outcome =
    | Pass
    | ContinueOutcome(data: Value, decisions: seq<Decision>)
    | TransitionOutcome(data: Value, state: string, decisions: seq<Decision>)
    | StayOutcome(data: Value, decisions: seq<Decision>)
    | CompleteOutcome(data: Value, decisions: seq<Decision>)
    | ErrorOutcome(data: Value, decisions: seq<Decision>)
  {
    /** The next state the outcome reports; the empty name means none. */
    function State(): string
      requires !Pass?
    {
      match this
      case TransitionOutcome(_, name, _) => name
      case CompleteOutcome(_, _) => COMPLETE_STATE
      case ErrorOutcome(_, _) => ERROR_STATE
      case _ => ""
    }

    function WithDecisions(ds: seq<Decision>): Outcome {
      match this
      case Pass => Pass
      case ContinueOutcome(d, _) => ContinueOutcome(d, ds)
      case TransitionOutcome(d, name, _) => TransitionOutcome(d, name, ds)
      case StayOutcome(d, _) => StayOutcome(d, ds)
      case CompleteOutcome(d, _) => CompleteOutcome(d, ds)
      case ErrorOutcome(d, _) => ErrorOutcome(d, ds)
    }
  }

  /** A decider returns an outcome or panics. */
  datatype Verdict = Panicked(reason: string) | Returned(outcome: Outcome)

  datatype Context = Context(
    serializer: Serializer,
    workflowType: WorkflowType,
    execution: WorkflowExecution,
    pendingActivities: Pending,
    state: string,
    stateData: Value,
    stateVersion: uint64)

  type Decider = (Context, Event, Value) -> Verdict

  datatype FSMState = FSMState(name: string, decider: Decider)

  /** The decision that continues the workflow in `continuedState`, with the data and version the context
      was given and with no pending activities. Serialization errors panic. */
  function ContinueWorkflowDecision(ctx: Context, continuedState: string): Result<Decision> {
    var data := ctx.serializer.encodeData(ctx.stateData);
    match data.error
    case Some(e) => Err(e)
    case None =>
      var input := ctx.serializer.encodeState(
        SerializedState(ReplicationData(ctx.stateVersion, continuedState, data.text), map[]));
      match input.error
      case Some(e) => Err(e)
      case None => Ok(ContinueAsNewWorkflowExecution(input.text))
  }

  /** Complete: the outcome that appends a CompleteWorkflowExecution decision carrying the data. */
  function Complete(ctx: Context, data: Value, decisions: seq<Decision>): Verdict {
    var result := ctx.serializer.encodeData(data);
    match result.error
    case Some(e) => Panicked(e)
    case None => Returned(CompleteOutcome(data, decisions + [CompleteWorkflowExecution(result.text)]))
  }

  /** The input of a new workflow; None stands for the panic on a serialization error. */
  function StartFSMWorkflowInput(s: Serializer, data: Value): Option<string> {
    var d := s.encodeData(data);
    if !d.Fine() then None
    else
      var input := s.encodeState(SerializedState(ReplicationData(0, "", d.text), map[]));
      if input.Fine() then Some(input.text) else None
  }

  /** The input of a continued workflow that restarts in the initial state. */
  function ContinueFSMWorkflowInput(ctx: Context, initialState: string, data: Value): Option<string> {
    var d := ctx.serializer.encodeData(data);
    if !d.Fine() then None
    else
      var input := ctx.serializer.encodeState(
        SerializedState(ReplicationData(ctx.stateVersion, initialState, d.text), map[]));
      if input.Fine() then Some(input.text) else None
  }
}
