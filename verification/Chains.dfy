/** Chains of runs linked by continue-as-new: how versions grow along them, and why the names of their
    states stay registered. */
module Chains {
  import opened Protocol
  import opened Model
  import opened Engine
  import opened Deciders
  import opened TickLaws
  import opened Runs
  import opened RunLaws
  import opened Continuations
  import opened Fsm

  // ----- the state machine -----

  /** A committed checkpoint of the chain. `first` marks the first one of its run, `repeat` one whose tick
      recovered the version that the checkpoint before it had been made from. */
  datatype Entry = Entry(version: uint64, first: bool, repeat: bool)

  /** `offers` are the inputs of the continue-as-new decisions of the commit just made, `offeredByMarked`
      says whether that commit recorded a checkpoint. `behind` holds while the start input is one version
      behind the newest entry. */
  datatype Chain = Chain(
    finished: seq<Run>,        // the runs continued from, oldest first
    run: Run,
    entries: seq<Entry>,       // newest first
    offers: seq<string>,
    offeredByMarked: bool,
    behind: bool,
    failures: nat,             // committed ticks that failed
    resets: nat)               // committed ticks whose error handling started over from version 0

  datatype Link = Inside(step: Step) | HandOff(input: string, runID: string)

  function BeginChain(execution: WorkflowExecution, workflowType: WorkflowType, input: string): Chain {
    Chain([], Begin(execution, workflowType, input), [], [], false, false, 0, 0)
  }

  function Inputs(ds: seq<Decision>): seq<string> {
    if ds == [] then []
    else (if ds[0].ContinueAsNewWorkflowExecution? then [ds[0].input] else []) + Inputs(ds[1..])
  }

  /** Error handling works under version 0. The tick starts over from it when error handling replaces
      normal recovery, and so does the next run when error handling itself decides to continue. */
  predicate Resets(f: Machine, t: Task) {
    TakesOver(f, t) || Inputs(ErrorDecisions(f, t)) != []
  }

  predicate LinkEnabled(f: Machine, c: Chain, link: Link) {
    match link
    case Inside(step) => Enabled(f, c.run, step)
    case HandOff(input, _) => input in c.offers
  }

  /** The continued run is started by the service right after the commit that decided it. */
  function Extended(f: Machine, c: Chain, link: Link): Chain
    requires LinkEnabled(f, c, link)
  {
    match link
    case HandOff(input, runID) =>
      c.(finished := c.finished + [c.run],
         run := Begin(c.run.execution.(runID := runID), c.run.workflowType, input),
         offers := [],
         behind := c.offeredByMarked || c.behind)
    case Inside(step) =>
      var next := c.(run := Apply(f, c.run, step), offers := []);
      if !step.Commit? then next else Committed(f, c, next)
  }

  function Committed(f: Machine, c: Chain, next: Chain): Chain
    requires c.run.started.Some? && c.run.started.value <= |c.run.history| && !Tick(f, TaskOf(c.run)).Crash?
  {
    var t := TaskOf(c.run);
    var result := Tick(f, t);
    var counted := next.(offers := Inputs(Decided(result)),
                         offeredByMarked := result.Success?,
                         resets := c.resets + if Resets(f, t) then 1 else 0);
    if result.Failure? then counted.(failures := c.failures + 1)
    else
      var entry := Entry(result.checkpoint.replicationData.stateVersion, c.run.log.committed == [], c.behind);
      counted.(entries := [entry] + c.entries, behind := false)
  }

  predicate LegalChain(f: Machine, c: Chain, links: seq<Link>)
    decreases |links|
  {
    links == [] || (LinkEnabled(f, c, links[0]) && LegalChain(f, Extended(f, c, links[0]), links[1..]))
  }

  function AfterChain(f: Machine, c: Chain, links: seq<Link>): Chain
    requires LegalChain(f, c, links)
    decreases |links|
  {
    if links == [] then c else AfterChain(f, Extended(f, c, links[0]), links[1..])
  }

  // ----- continue-as-new decisions of a tick -----

  /** Continue-as-new is decided only with the two builders: through the context, for any state, or with the
      input that starts over in the initial state. */
  ghost predicate ContinuesThrough(kind: Kind, f: Machine, name: string, d: Decider) {
    forall ctx: Context, e, v, x ::
      kind.Of(e) && ctx.serializer == f.serializer && ctx.state == name && x in DecisionsOf(d(ctx, e, v))
      ==> BuiltToContinue(f, ctx, x)
  }

  ghost predicate BuiltToContinue(f: Machine, ctx: Context, x: Decision) {
    x.ContinueAsNewWorkflowExecution? ==>
      || (exists target :: ContinueWorkflowDecision(ctx, target) == Ok(x))
      || (exists data :: ContinueFSMWorkflowInput(ctx, f.initialState.name, data) == Some(x.input))
  }

  /** The same, for the current state, a registered one, or the unnamed one, which stands for the initial
      state. */
  ghost predicate ContinuesWithin(kind: Kind, f: Machine, name: string, d: Decider) {
    forall ctx: Context, e, v, x ::
      kind.Of(e) && ctx.serializer == f.serializer && ctx.state == name && x in DecisionsOf(d(ctx, e, v))
      ==> BuiltWithin(f, ctx, x)
  }

  ghost predicate BuiltWithin(f: Machine, ctx: Context, x: Decision) {
    x.ContinueAsNewWorkflowExecution? ==>
      || (exists target ::
            (target == ctx.state || target == "" || target in f.states)
            && ContinueWorkflowDecision(ctx, target) == Ok(x))
      || (exists data :: ContinueFSMWorkflowInput(ctx, f.initialState.name, data) == Some(x.input))
  }

  /** Every normal state continues only with the builders. */
  ghost predicate ContinuesProperly(f: Machine) {
    forall name :: name in f.states ==> ContinuesThrough(Events, f, name, f.states[name].decider)
  }

  /** Every state, the error state included, continues only with the builders and inside the machine. */
  ghost predicate ContinuesInside(f: Machine) {
    && ContinuesWithin(Signals, f, f.errorState.name, f.errorState.decider)
    && forall name :: name in f.states ==> ContinuesWithin(Events, f, name, f.states[name].decider)
  }

  lemma WithinMeansThrough(kind: Kind, f: Machine, name: string, d: Decider)
    requires ContinuesWithin(kind, f, name, d)
    ensures ContinuesThrough(kind, f, name, d)
  {
    forall ctx: Context, e, v, x |
      kind.Of(e) && ctx.serializer == f.serializer && ctx.state == name && x in DecisionsOf(d(ctx, e, v))
      ensures BuiltToContinue(f, ctx, x)
    {
      assert BuiltWithin(f, ctx, x);
    }
  }

  /** Managed continuations continue through the context, into the current state, and record no markers. */
  lemma ManagedContinuationsContinueProperly(kind: Kind, f: Machine, name: string,
                                             historySize: int, timerRetrySeconds: int)
    ensures ContinuesWithin(kind, f, name, ManagedContinuations(historySize, timerRetrySeconds))
    ensures ContinuesThrough(kind, f, name, ManagedContinuations(historySize, timerRetrySeconds))
    ensures NoCheckpoints(kind, ManagedContinuations(historySize, timerRetrySeconds))
  {
    var d := ManagedContinuations(historySize, timerRetrySeconds);
    forall ctx, e, v, x | x in DecisionsOf(d(ctx, e, v))
      ensures !x.Checkpoint()
    {
      ManagedContinuationsTable(historySize, timerRetrySeconds, ctx, e, v);
    }
    forall ctx: Context, e, v, x | x in DecisionsOf(d(ctx, e, v))
      ensures BuiltWithin(f, ctx, x)
    {
      ContinuesOnlyWhenNothingPends(historySize, timerRetrySeconds, ctx, e, v);
    }
    WithinMeansThrough(kind, f, name, d);
  }

  /** Starts the workflow over in the initial state, with the data at hand, on the events that ask for it. */
  function StartOver(initialState: string, asked: Event -> bool): Decider {
    (ctx: Context, e: Event, data: Value) =>
      if !asked(e) then Returned(Pass)
      else
        match ContinueFSMWorkflowInput(ctx, initialState, data)
        case None => Panicked("serialization error")
        case Some(input) => Returned(StayOutcome(data, [ContinueAsNewWorkflowExecution(input)]))
  }

  /** Deciders that build their continuation with ContinueFSMWorkflowInput are proper, in any state. */
  lemma StartingOverContinuesProperly(kind: Kind, f: Machine, name: string, asked: Event -> bool)
    ensures ContinuesWithin(kind, f, name, StartOver(f.initialState.name, asked))
    ensures ContinuesThrough(kind, f, name, StartOver(f.initialState.name, asked))
    ensures NoCheckpoints(kind, StartOver(f.initialState.name, asked))
  {
    var d := StartOver(f.initialState.name, asked);
    forall ctx: Context, e, v, x | x in DecisionsOf(d(ctx, e, v))
      ensures !x.Checkpoint() && BuiltWithin(f, ctx, x)
    {
      assert ContinueFSMWorkflowInput(ctx, f.initialState.name, v) == Some(x.input);
    }
    WithinMeansThrough(kind, f, name, d);
  }

  /** Compositions of proper deciders are proper. */
  lemma CompositionContinuesProperly(kind: Kind, f: Machine, name: string, deciders: seq<Decider>)
    ensures (forall i :: 0 <= i < |deciders| ==> ContinuesThrough(kind, f, name, deciders[i])) ==>
              ContinuesThrough(kind, f, name, NewComposedDecider(deciders))
    ensures (forall i :: 0 <= i < |deciders| ==> ContinuesWithin(kind, f, name, deciders[i])) ==>
              ContinuesWithin(kind, f, name, NewComposedDecider(deciders))
  {
    forall ctx: Context, e, v, x | x in DecisionsOf(NewComposedDecider(deciders)(ctx, e, v))
      ensures exists i, data :: 0 <= i < |deciders| && x in DecisionsOf(deciders[i](ctx, e, data))
    {
      var i, data := ComposedFrom(deciders, ctx, e, v, [], x);
    }
  }

  /** The input hands over nothing pending and this version. */
  predicate Offers(f: Machine, input: string, version: uint64) {
    var d := f.serializer.decodeState(input);
    d.Ok? && d.value.pendingActivities == map[] && d.value.replicationData.stateVersion == version
  }

  /** The input hands over nothing pending and a registered state, or the unnamed one. */
  predicate Registers(f: Machine, input: string) {
    var d := f.serializer.decodeState(input);
    && d.Ok? && d.value.pendingActivities == map[]
    && (d.value.replicationData.stateName in f.states || d.value.replicationData.stateName == "")
  }

  lemma {:induction false} InputsOf(ds: seq<Decision>, input: string)
    ensures input in Inputs(ds) <==> exists x :: x in ds && x.ContinueAsNewWorkflowExecution? && x.input == input
  {
    if ds != [] {
      assert ds == [ds[0]] + ds[1..];
      InputsOf(ds[1..], input);
    }
  }

  lemma BuiltMeansOffered(f: Machine, ctx: Context, x: Decision)
    requires StatesRoundTrip(f.serializer) && ctx.serializer == f.serializer
    requires x.ContinueAsNewWorkflowExecution? && BuiltToContinue(f, ctx, x)
    ensures Offers(f, x.input, ctx.stateVersion)
  {
    if target :| ContinueWorkflowDecision(ctx, target) == Ok(x) {
      DecisionCarriesState(f, ctx, target, x);
    } else {
      StartingOverCarriesState(f, ctx, x);
    }
  }

  lemma StartingOverCarriesState(f: Machine, ctx: Context, x: Decision)
    requires StatesRoundTrip(f.serializer) && ctx.serializer == f.serializer && x.ContinueAsNewWorkflowExecution?
    requires exists data :: ContinueFSMWorkflowInput(ctx, f.initialState.name, data) == Some(x.input)
    ensures var d := f.serializer.decodeState(x.input);
            && d.Ok? && d.value.pendingActivities == map[]
            && d.value.replicationData.stateName == f.initialState.name
            && d.value.replicationData.stateVersion == ctx.stateVersion
  {
    var data :| ContinueFSMWorkflowInput(ctx, f.initialState.name, data) == Some(x.input);
    EncodedStateDecodes(f, SerializedState(
      ReplicationData(ctx.stateVersion, f.initialState.name, f.serializer.encodeData(data).text), map[]));
  }

  lemma BuiltWithinMeansRegistered(f: Machine, ctx: Context, x: Decision)
    requires StatesRoundTrip(f.serializer) && ctx.serializer == f.serializer
    requires ctx.state in f.states && f.initialState.name in f.states
    requires x.ContinueAsNewWorkflowExecution? && BuiltWithin(f, ctx, x)
    ensures Registers(f, x.input)
  {
    if target :|
      (target == ctx.state || target == "" || target in f.states) && ContinueWorkflowDecision(ctx, target) == Ok(x)
    {
      DecisionCarriesState(f, ctx, target, x);
    } else {
      StartingOverCarriesState(f, ctx, x);
    }
  }

  lemma StatesOffer(f: Machine, version: uint64, P: Decision -> bool)
    requires ContinuesProperly(f) && StatesRoundTrip(f.serializer)
    requires forall x: Decision :: !x.ContinueAsNewWorkflowExecution? || Offers(f, x.input, version) ==> P(x)
    ensures StatesEmit(f, version, P)
  {
    forall name, ctx: Context, e, v, x |
      name in f.states && Events.Of(e)
      && ctx.serializer == f.serializer && ctx.stateVersion == version && ctx.state == name
      && x in DecisionsOf(f.states[name].decider(ctx, e, v))
      ensures P(x)
    {
      if x.ContinueAsNewWorkflowExecution? {
        assert ContinuesThrough(Events, f, name, f.states[name].decider);
        BuiltMeansOffered(f, ctx, x);
      }
    }
  }

  lemma StateRegisters(kind: Kind, f: Machine, name: string, d: Decider, version: uint64, P: Decision -> bool)
    requires ContinuesWithin(kind, f, name, d) && StatesRoundTrip(f.serializer)
    requires name in f.states && f.initialState.name in f.states
    requires forall x: Decision :: !x.ContinueAsNewWorkflowExecution? || Registers(f, x.input) ==> P(x)
    ensures Emits(kind, f, version, d, name, P)
  {
    forall ctx: Context, e, v, x |
      kind.Of(e) && ctx.serializer == f.serializer && ctx.stateVersion == version && ctx.state == name
      && x in DecisionsOf(d(ctx, e, v))
      ensures P(x)
    {
      if x.ContinueAsNewWorkflowExecution? {
        BuiltWithinMeansRegistered(f, ctx, x);
      }
    }
  }

  lemma AllStatesRegister(f: Machine, version: uint64, P: Decision -> bool)
    requires ContinuesInside(f) && StatesRoundTrip(f.serializer) && f.initialState.name in f.states
    requires forall x: Decision :: !x.ContinueAsNewWorkflowExecution? || Registers(f, x.input) ==> P(x)
    ensures StatesEmit(f, version, P)
  {
    forall name | name in f.states
      ensures Emits(Events, f, version, f.states[name].decider, name, P)
    {
      StateRegisters(Events, f, name, f.states[name].decider, version, P);
    }
  }

  lemma NothingDecidedUnfound(f: Machine, t: Task)
    ensures FindSerializedState(f, t.events).Err? ==> Decided(Tick(f, t)) == []
  {
  }

  lemma ContinuesNowhere(f: Machine, t: Task, P: Decision -> bool)
    requires Inputs(ErrorDecisions(f, t)) == []
    requires forall x: Decision :: !x.ContinueAsNewWorkflowExecution? ==> P(x)
    ensures All(ErrorDecisions(f, t), P)
  {
    forall x | x in ErrorDecisions(f, t)
      ensures P(x)
    {
      if x.ContinueAsNewWorkflowExecution? {
        InputsOf(ErrorDecisions(f, t), x.input);
      }
    }
  }

  /** Whatever a tick without reset offers to continue from carries the version that it recovered. */
  lemma TickOffers(f: Machine, t: Task, input: string)
    requires ContinuesProperly(f) && StatesRoundTrip(f.serializer) && !Resets(f, t)
    requires input in Inputs(Decided(Tick(f, t)))
    ensures FindSerializedState(f, t.events).Ok?
    ensures Offers(f, input, FindSerializedState(f, t.events).value.replicationData.stateVersion)
  {
    hide Tick, Offers, ErrorDecisions, TakesOver, OutsetOf, FindSerializedState;
    NothingDecidedUnfound(f, t);
    var version := FindSerializedState(f, t.events).value.replicationData.stateVersion;
    var P := (x: Decision) => x.ContinueAsNewWorkflowExecution? ==> Offers(f, x.input, version);
    ContinuesNowhere(f, t, P);
    StatesOffer(f, version, P);
    if OutsetOf(f, t).Some? {
      OutsetVersion(f, t);
    }
    TickEmits(f, t, P);
    InputsOf(Decided(Tick(f, t)), input);
    var x :| x in Decided(Tick(f, t)) && x.ContinueAsNewWorkflowExecution? && x.input == input;
    assert P(x);
  }

  lemma FinishTickCountsOn(f: Machine, env: Env, events: seq<Event>, p: Progress)
    requires FinishTick(f, env, events, p).Success?
    ensures FinishTick(f, env, events, p).checkpoint.replicationData.stateVersion == NextVersion(p.stateVersion)
  {
    DoneSeesAndTracksAll(f, env, events, p);
  }

  /** A successful tick records the version after the one it recovered; if error handling took over it
      recovered none, and starts again from 1. */
  lemma SuccessCountsOn(f: Machine, t: Task)
    requires Tick(f, t).Success?
    ensures FindSerializedState(f, t.events).Ok?
    ensures Tick(f, t).checkpoint.replicationData.stateVersion ==
            if TakesOver(f, t) then 1
            else NextVersion(FindSerializedState(f, t.events).value.replicationData.stateVersion)
  {
    hide Tick, TakesOver, OutsetOf, FindSerializedState;
    TickFromOutset(f, t);
    OutsetVersion(f, t);
    FinishTickCountsOn(f, OutsetOf(f, t).value.env, Deliverables(Recent(t)), OutsetOf(f, t).value.p);
  }

  lemma SuccessCountsOnUnlessReset(f: Machine, t: Task)
    requires Tick(f, t).Success? && !Resets(f, t)
    ensures FindSerializedState(f, t.events).Ok?
    ensures Tick(f, t).checkpoint.replicationData.stateVersion ==
            NextVersion(FindSerializedState(f, t.events).value.replicationData.stateVersion)
  {
    hide Tick, TakesOver, FindSerializedState, NextVersion;
    SuccessCountsOn(f, t);
  }

  // ----- the version law -----

  /** What the next tick of the chain recovers. */
  function Recoverable(f: Machine, c: Chain): Result<SerializedState> {
    FindSerializedState(f, c.run.history)
  }

  /** Along a chain each checkpoint's version is the one after its predecessor's, except for repeats,
      which occur only as first checkpoints of continued runs; without failed ticks these are repeats. */
  ghost predicate Counted(c: Chain) {
    && (forall i :: 0 <= i < |c.entries| - 1 ==>
          c.entries[i].version
          == if c.entries[i].repeat then c.entries[i + 1].version else NextVersion(c.entries[i + 1].version))
    && (forall i :: 0 <= i < |c.entries| && c.entries[i].repeat ==> c.entries[i].first)
    && (c.failures == 0 ==> forall i :: 0 <= i < |c.entries| - 1 && c.entries[i].first ==> c.entries[i].repeat)
  }

  ghost predicate Versions(f: Machine, c: Chain) {
    && Counted(c)
    && (c.behind ==> c.run.log.committed == [] && c.entries != [])
    && (c.failures == 0 && c.run.log.committed == [] && c.entries != [] ==> c.behind)
    && (Recoverable(f, c).Ok? && c.entries != [] ==>
          var version := Recoverable(f, c).value.replicationData.stateVersion;
          c.entries[0].version == if c.behind then NextVersion(version) else version)
    && (c.offers != [] && c.failures == 0 ==> c.offeredByMarked)
    && (c.offers != [] && c.offeredByMarked ==> c.entries != [] && !c.behind)
    && forall input :: input in c.offers ==>
         exists version :: Offers(f, input, version)
           && (if c.offeredByMarked then c.entries[0].version == NextVersion(version)
               else Recoverable(f, c).Ok? && version == Recoverable(f, c).value.replicationData.stateVersion)
  }

  lemma FreshRunRecovers(f: Machine, execution: WorkflowExecution, workflowType: WorkflowType, input: string)
    ensures FindSerializedState(f, Begin(execution, workflowType, input).history) == StartState(f, input)
  {
  }

  lemma HandOffKeepsVersions(f: Machine, c: Chain, link: Link)
    requires LinkEnabled(f, c, link) && link.HandOff? && Versions(f, c)
    ensures Versions(f, Extended(f, c, link))
  {
    hide NextVersion;
    FreshRunRecovers(f, c.run.execution.(runID := link.runID), c.run.workflowType, link.input);
    var version :| Offers(f, link.input, version)
      && (if c.offeredByMarked then c.entries[0].version == NextVersion(version)
          else Recoverable(f, c).Ok? && version == Recoverable(f, c).value.replicationData.stateVersion);
  }

  lemma QuietStepKeepsVersions(f: Machine, c: Chain, link: Link)
    requires Discreet(f) && StatesRoundTrip(f.serializer) && Shape(f, c.run) && Versions(f, c)
    requires LinkEnabled(f, c, link) && link.Inside? && !link.step.Commit?
    ensures Versions(f, Extended(f, c, link))
  {
    hide Tick, NextVersion;
    StepKeepsStart(f, c.run, link.step);
    SameCheckpointsSameRecovery(f, c.run, Apply(f, c.run, link.step));
  }

  /** What a commit does to what is recoverable. */
  lemma CommitRecovers(f: Machine, r: Run, step: Step)
    requires Discreet(f) && StatesRoundTrip(f.serializer) && Shape(f, r) && Enabled(f, r, step) && step.Commit?
    ensures var found, found' := FindSerializedState(f, r.history), FindSerializedState(f, Apply(f, r, step).history);
            found' == if Tick(f, TaskOf(r)).Success? then Ok(Tick(f, TaskOf(r)).checkpoint) else found
    ensures FindSerializedState(f, TaskOf(r).events) == FindSerializedState(f, r.history)
  {
    hide Tick;
    StepKeepsStart(f, r, step);
    TaskDecomposes(f, r);
    LogTracks(f, r, step);
    if Tick(f, TaskOf(r)).Success? {
      RecoversLastCheckpoint(f, Apply(f, r, step));
    } else {
      SameCheckpointsSameRecovery(f, r, Apply(f, r, step));
    }
  }

  lemma CommitKeepsOffers(f: Machine, c: Chain, link: Link)
    requires Discreet(f) && ContinuesProperly(f) && StatesRoundTrip(f.serializer) && Shape(f, c.run)
    requires LinkEnabled(f, c, link) && link.Inside? && link.step.Commit? && !Resets(f, TaskOf(c.run))
    ensures var c' := Extended(f, c, link);
            forall input :: input in c'.offers ==>
              exists version :: Offers(f, input, version)
                && (if c'.offeredByMarked then c'.entries != [] && c'.entries[0].version == NextVersion(version)
                    else Recoverable(f, c').Ok? && version == Recoverable(f, c').value.replicationData.stateVersion)
  {
    hide Tick, NextVersion, Resets, Offers;
    var t, c' := TaskOf(c.run), Extended(f, c, link);
    CommitRecovers(f, c.run, link.step);
    forall input | input in c'.offers
      ensures exists version :: Offers(f, input, version)
                && (if c'.offeredByMarked then c'.entries != [] && c'.entries[0].version == NextVersion(version)
                    else Recoverable(f, c').Ok? && version == Recoverable(f, c').value.replicationData.stateVersion)
    {
      TickOffers(f, t, input);
      if Tick(f, t).Success? {
        SuccessCountsOnUnlessReset(f, t);
      }
    }
  }

  lemma CountedOn(c: Chain, c': Chain, entry: Entry)
    requires Counted(c) && c'.entries == [entry] + c.entries && c'.failures == c.failures
    requires entry.repeat ==> entry.first
    requires c.entries != [] ==>
               && entry.version == (if entry.repeat then c.entries[0].version else NextVersion(c.entries[0].version))
               && (c.failures == 0 && entry.first ==> entry.repeat)
    ensures Counted(c')
  {
    hide NextVersion;
    assert forall i :: 0 <= i < |c.entries| ==> c'.entries[i + 1] == c.entries[i];
  }

  lemma FailureKeepsVersions(f: Machine, c: Chain, link: Link)
    requires Discreet(f) && ContinuesProperly(f) && StatesRoundTrip(f.serializer) && Shape(f, c.run) && Versions(f, c)
    requires LinkEnabled(f, c, link) && link.Inside? && link.step.Commit? && !Resets(f, TaskOf(c.run))
    requires Tick(f, TaskOf(c.run)).Failure?
    ensures Versions(f, Extended(f, c, link))
  {
    hide Tick, NextVersion, Resets, Offers, Shape, FindSerializedState;
    CommitRecovers(f, c.run, link.step);
    CommitKeepsOffers(f, c, link);
    LogTracks(f, c.run, link.step);
  }

  lemma SuccessKeepsVersions(f: Machine, c: Chain, link: Link)
    requires Discreet(f) && ContinuesProperly(f) && StatesRoundTrip(f.serializer) && Shape(f, c.run) && Versions(f, c)
    requires LinkEnabled(f, c, link) && link.Inside? && link.step.Commit? && !Resets(f, TaskOf(c.run))
    requires Tick(f, TaskOf(c.run)).Success?
    ensures Versions(f, Extended(f, c, link))
  {
    hide Tick, NextVersion, Resets, Offers, Shape, FindSerializedState;
    var c' := Extended(f, c, link);
    CommitRecovers(f, c.run, link.step);
    CommitKeepsOffers(f, c, link);
    LogTracks(f, c.run, link.step);
    SuccessCountsOnUnlessReset(f, TaskOf(c.run));
    assert Counted(c') by {
      CountedOn(c, c', c'.entries[0]);
    }
  }

  lemma CommitKeepsVersions(f: Machine, c: Chain, link: Link)
    requires Discreet(f) && ContinuesProperly(f) && StatesRoundTrip(f.serializer) && Shape(f, c.run) && Versions(f, c)
    requires LinkEnabled(f, c, link) && link.Inside? && link.step.Commit? && !Resets(f, TaskOf(c.run))
    ensures Versions(f, Extended(f, c, link))
  {
    hide Tick, Versions, Shape, Resets;
    if Tick(f, TaskOf(c.run)).Success? {
      SuccessKeepsVersions(f, c, link);
    } else {
      FailureKeepsVersions(f, c, link);
    }
  }

  lemma ResetsCount(f: Machine, c: Chain, link: Link)
    requires LinkEnabled(f, c, link)
    ensures Extended(f, c, link).resets >= c.resets
    ensures Extended(f, c, link).resets == 0 && link.Inside? && link.step.Commit? ==> !Resets(f, TaskOf(c.run))
  {
    hide Tick, Resets;
  }

  lemma LinkKeepsShape(f: Machine, c: Chain, link: Link)
    requires Discreet(f) && Shape(f, c.run) && LinkEnabled(f, c, link)
    ensures Shape(f, Extended(f, c, link).run)
  {
    hide Tick;
    match link
    case Inside(step) => StepKeepsShape(f, c.run, step);
    case HandOff(input, runID) => BeginsInShape(f, c.run.execution.(runID := runID), c.run.workflowType, input);
  }

  lemma {:induction false} ResetsGrow(f: Machine, c: Chain, links: seq<Link>)
    requires LegalChain(f, c, links)
    ensures AfterChain(f, c, links).resets >= c.resets
    decreases |links|
  {
    hide Tick, Extended;
    if links != [] {
      ResetsCount(f, c, links[0]);
      ResetsGrow(f, Extended(f, c, links[0]), links[1..]);
    }
  }

  lemma {:induction false} ChainsStayCounted(f: Machine, c: Chain, links: seq<Link>)
    requires Discreet(f) && ContinuesProperly(f) && StatesRoundTrip(f.serializer)
    requires Shape(f, c.run) && Versions(f, c) && LegalChain(f, c, links) && AfterChain(f, c, links).resets == 0
    ensures Versions(f, AfterChain(f, c, links))
    decreases |links|
  {
    hide Tick, Extended, Versions, Shape;
    if links != [] {
      var link := links[0];
      ResetsGrow(f, Extended(f, c, link), links[1..]);
      ResetsCount(f, c, link);
      LinkKeepsShape(f, c, link);
      if link.HandOff? {
        HandOffKeepsVersions(f, c, link);
      } else if link.step.Commit? {
        CommitKeepsVersions(f, c, link);
      } else {
        QuietStepKeepsVersions(f, c, link);
      }
      ChainsStayCounted(f, Extended(f, c, link), links[1..]);
    }
  }

  /** If no error handling starts over, versions rise by exactly one along a chain, modulo the width of the
      counter, and are repeated only at hand-offs. */
  lemma VersionLaw(f: Machine, execution: WorkflowExecution, workflowType: WorkflowType, input: string,
                   links: seq<Link>)
    requires Discreet(f) && ContinuesProperly(f) && StatesRoundTrip(f.serializer)
    requires LegalChain(f, BeginChain(execution, workflowType, input), links)
    requires AfterChain(f, BeginChain(execution, workflowType, input), links).resets == 0
    ensures Counted(AfterChain(f, BeginChain(execution, workflowType, input), links))
  {
    hide Tick, Extended;
    BeginsInShape(f, execution, workflowType, input);
    ChainsStayCounted(f, BeginChain(execution, workflowType, input), links);
  }

  /** Short of wrapping around, versions never fall along a chain. */
  lemma {:induction false} VersionsNeverFall(c: Chain, i: nat, j: nat)
    requires Counted(c) && i <= j < |c.entries|
    requires forall k :: 0 <= k < |c.entries| ==> c.entries[k].version < VERSION_LIMIT - 1
    ensures c.entries[j].version <= c.entries[i].version
    decreases j - i
  {
    if i < j {
      VersionsNeverFall(c, i + 1, j);
      assert c.entries[i + 1].version < VERSION_LIMIT - 1;
    }
  }

  // ----- state names stay registered -----

  /** An outcome that a normal state may answer with: whatever state it leads to is registered. */
  predicate LeadsInside(f: Machine, v: Verdict) {
    v.Panicked? || v.outcome.Pass? || v.outcome.StayOutcome?
      || (!v.outcome.ContinueOutcome? && v.outcome.State() in f.states)
  }

  /** An outcome that the error state may answer with: a registered state, or neither data nor state. */
  predicate LeadsBack(f: Machine, v: Verdict) {
    v.Panicked? || v.outcome.Pass? ||
      (!v.outcome.StayOutcome?
       && (v.outcome.State() in f.states || (v.outcome.data == Nil && v.outcome.State() == "")))
  }

  ghost predicate StatesLeadInside(f: Machine) {
    forall name, ctx, e, v ::
      name in f.states && Events.Of(e) ==> LeadsInside(f, f.states[name].decider(ctx, e, v))
  }

  /** Normal states lead inside on every event, and the error state leads back on every error signal; the same
      state may do both. */
  ghost predicate Closed(f: Machine) {
    && f.initialState.name in f.states && f.errorState.name in f.states
    && StatesLeadInside(f)
    && forall ctx, e, v :: Signals.Of(e) ==> LeadsBack(f, f.errorState.decider(ctx, e, v))
  }

  /** The states that Init supplies meet every condition put on deciders here. */
  lemma DefaultStatesAreProper(f: Machine, s: Serializer)
    requires ERROR_STATE in f.states && COMPLETE_STATE in f.states
    ensures var error, complete := DefaultErrorState(s).decider, DefaultCompleteState().decider;
            && (forall kind, name :: ContinuesWithin(kind, f, name, error) && ContinuesWithin(kind, f, name, complete))
            && (forall kind, name ::
                  ContinuesThrough(kind, f, name, error) && ContinuesThrough(kind, f, name, complete))
            && (forall kind :: NoCheckpoints(kind, error) && NoCheckpoints(kind, complete))
            && (forall ctx, e, v :: LeadsInside(f, error(ctx, e, v)) && LeadsInside(f, complete(ctx, e, v)))
            && (forall ctx, e, v :: LeadsBack(f, error(ctx, e, v)))
  {
    forall ctx, e, v, x | x in DecisionsOf(DefaultCompleteState().decider(ctx, e, v))
      ensures x.CompleteWorkflowExecution?
    {
      assert DefaultCompleteState().decider(ctx, e, v) == Complete(ctx, v, []);
    }
  }

  lemma {:induction false} DecideAllStaysInside(f: Machine, env: Env, events: seq<Event>, p: Progress)
    requires Closed(f) && AllOf(Events, events) && p.state in f.states
    ensures var r := DecideAll(f, env, events, p); r.p.state in f.states && (r.Halted? ==> !r.why.StateMissing?)
    decreases |events|
  {
    if events != [] {
      var n := |events| - 1;
      assert Events.Of(events[n]);
      assert LeadsInside(f, f.states[p.state].decider(ContextOf(f, env, p), events[n], p.data));
      match Decide(f, env, p, events[n])
      case Moved(q) => DecideAllStaysInside(f, env, events[..n], q);
      case Stuck(_, _) =>
    }
  }

  lemma {:induction false} DecideErrorsLeadsBack(f: Machine, env: Env, errors: seq<Event>, p: Progress)
    requires Closed(f) && AllOf(Signals, errors) && (p.state in f.states || Recovers(p))
    ensures var r := DecideErrors(f, env, errors, p); r.p.state in f.states || Recovers(r.p)
    decreases |errors|
  {
    if errors != [] {
      var n := |errors| - 1;
      assert Signals.Of(errors[n]);
      assert LeadsBack(f, f.errorState.decider(ErrorContext(f, env, p.pending), errors[n], p.data));
      match DecideError(f, env, p, errors[n])
      case Moved(q) => DecideErrorsLeadsBack(f, env, errors[..n], q);
      case Stuck(_, _) =>
    }
  }

  ghost predicate NamesRegistered(f: Machine, r: TickResult) {
    && (r.Success? ==> r.checkpoint.replicationData.stateName in f.states)
    && (r.Failure? && r.record.SystemError? ==> r.record.errorType != "MissingFsmStateError")
  }

  lemma FinishTickStaysInside(f: Machine, env: Env, events: seq<Event>, p: Progress)
    requires Closed(f) && AllOf(Events, events) && p.state in f.states
    ensures NamesRegistered(f, FinishTick(f, env, events, p))
  {
    DecideAllStaysInside(f, env, events, p);
  }

  lemma StartsInside(f: Machine, t: Task)
    requires Closed(f)
    requires FindSerializedState(f, t.events).Ok? ==>
               FindSerializedState(f, t.events).value.replicationData.stateName in f.states
    ensures OutsetOf(f, t).Some? ==> OutsetOf(f, t).value.p.state in f.states
  {
    EveryEventIsOfItsKind(Recent(t));
    match FindSerializedState(f, t.events)
    case Err(_) =>
    case Ok(state) =>
      DecideErrorsLeadsBack(f, EnvOf(t), ErrorSignals(Recent(t)),
        Fresh(state.pendingActivities).(data := Ptr(f.zero), state := f.errorState.name));
  }

  lemma EarlyFailureIsNotMissing(f: Machine, t: Task)
    requires OutsetOf(f, t) == None
    ensures NamesRegistered(f, Tick(f, t))
  {
  }

  /** A tick that recovers a registered state never misses a state, and what it records is registered. */
  lemma ClosedTick(f: Machine, t: Task)
    requires Closed(f)
    requires FindSerializedState(f, t.events).Ok? ==>
               FindSerializedState(f, t.events).value.replicationData.stateName in f.states
    ensures NamesRegistered(f, Tick(f, t))
  {
    hide OutsetOf;
    EveryEventIsOfItsKind(Recent(t));
    StartsInside(f, t);
    TickFromOutset(f, t);
    if OutsetOf(f, t).Some? {
      FinishTickStaysInside(f, OutsetOf(f, t).value.env, Deliverables(Recent(t)), OutsetOf(f, t).value.p);
    } else {
      EarlyFailureIsNotMissing(f, t);
    }
  }

  ghost predicate Registered(f: Machine, c: Chain) {
    && (Recoverable(f, c).Ok? ==> Recoverable(f, c).value.replicationData.stateName in f.states)
    && (forall s :: s in c.run.log.committed ==> s.replicationData.stateName in f.states)
    && forall input :: input in c.offers ==> Registers(f, input)
  }

  /** Continue-as-new decisions hand over registered states, whoever makes them. */
  lemma TickOffersRegistered(f: Machine, t: Task, input: string)
    requires ContinuesInside(f) && Closed(f) && StatesRoundTrip(f.serializer)
    requires input in Inputs(Decided(Tick(f, t)))
    ensures Registers(f, input)
  {
    hide Tick, OutsetOf, Registers, ErrorDecisions;
    var P := (x: Decision) => x.ContinueAsNewWorkflowExecution? ==> Registers(f, x.input);
    StateRegisters(Signals, f, f.errorState.name, f.errorState.decider, 0, P);
    ErrorStateEmits(f, t, P);
    if OutsetOf(f, t).Some? {
      AllStatesRegister(f, OutsetOf(f, t).value.env.stateVersion, P);
    }
    TickEmits(f, t, P);
    InputsOf(Decided(Tick(f, t)), input);
    var x :| x in Decided(Tick(f, t)) && x.ContinueAsNewWorkflowExecution? && x.input == input;
    assert P(x);
  }

  lemma ExtendedByCommit(f: Machine, c: Chain, link: Link)
    requires LinkEnabled(f, c, link) && link.Inside? && link.step.Commit?
    ensures var c' := Extended(f, c, link);
            c'.run == Apply(f, c.run, link.step) && c'.offers == Inputs(Decided(Tick(f, TaskOf(c.run))))
  {
    hide Tick;
  }

  lemma CommitKeepsInside(f: Machine, c: Chain, link: Link)
    requires Discreet(f) && ContinuesInside(f) && Closed(f) && StatesRoundTrip(f.serializer) && Shape(f, c.run)
    requires LinkEnabled(f, c, link) && link.Inside? && link.step.Commit? && Registered(f, c)
    ensures Registered(f, Extended(f, c, link))
  {
    hide Tick, Registers, Closed, ContinuesInside, Discreet, Extended, Apply, FindSerializedState;
    var t, c' := TaskOf(c.run), Extended(f, c, link);
    ExtendedByCommit(f, c, link);
    CommitRecovers(f, c.run, link.step);
    ClosedTick(f, t);
    LogTracks(f, c.run, link.step);
    forall input | input in c'.offers
      ensures Registers(f, input)
    {
      TickOffersRegistered(f, t, input);
    }
  }

  lemma OtherLinksKeepInside(f: Machine, c: Chain, link: Link)
    requires Discreet(f) && Closed(f) && StatesRoundTrip(f.serializer) && Shape(f, c.run)
    requires LinkEnabled(f, c, link) && (link.Inside? ==> !link.step.Commit?) && Registered(f, c)
    ensures Registered(f, Extended(f, c, link))
  {
    hide Tick;
    match link
    case Inside(step) =>
      StepKeepsStart(f, c.run, step);
      SameCheckpointsSameRecovery(f, c.run, Apply(f, c.run, step));
    case HandOff(input, runID) =>
      FreshRunRecovers(f, c.run.execution.(runID := runID), c.run.workflowType, input);
  }

  lemma {:induction false} ChainsStayInside(f: Machine, c: Chain, links: seq<Link>)
    requires Discreet(f) && ContinuesInside(f) && Closed(f) && StatesRoundTrip(f.serializer)
    requires Shape(f, c.run) && Registered(f, c) && LegalChain(f, c, links)
    ensures var c' := AfterChain(f, c, links); Shape(f, c'.run) && Registered(f, c')
    decreases |links|
  {
    hide Tick, Extended, Registered, Shape, Closed;
    if links != [] {
      var link := links[0];
      LinkKeepsShape(f, c, link);
      if link.Inside? && link.step.Commit? {
        CommitKeepsInside(f, c, link);
      } else {
        OtherLinksKeepInside(f, c, link);
      }
      ChainsStayInside(f, Extended(f, c, link), links[1..]);
    }
  }

  /** In any chain begun by StartFSMWorkflowInput every recorded and every handed-over state is registered,
      and no tick fails for want of a state. */
  lemma StateNamesStayRegistered(f: Machine, data: Value, execution: WorkflowExecution, workflowType: WorkflowType,
                                 links: seq<Link>)
    requires Discreet(f) && ContinuesInside(f) && Closed(f) && StatesRoundTrip(f.serializer)
    requires StartFSMWorkflowInput(f.serializer, data).Some?
    requires LegalChain(f, BeginChain(execution, workflowType, StartFSMWorkflowInput(f.serializer, data).value), links)
    ensures var begun := BeginChain(execution, workflowType, StartFSMWorkflowInput(f.serializer, data).value);
            var c := AfterChain(f, begun, links);
            && Registered(f, c)
            && (c.run.started.Some? && c.run.started.value <= |c.run.history| ==>
                 NamesRegistered(f, Tick(f, TaskOf(c.run))))
  {
    hide Tick, Extended;
    var input := StartFSMWorkflowInput(f.serializer, data).value;
    BeginsInShape(f, execution, workflowType, input);
    FreshRunRecovers(f, execution, workflowType, input);
    ChainsStayInside(f, BeginChain(execution, workflowType, input), links);
    var c := AfterChain(f, BeginChain(execution, workflowType, input), links);
    if c.run.started.Some? {
      TaskDecomposes(f, c.run);
      ClosedTick(f, TaskOf(c.run));
    }
  }
}
