/** Replay across hand-offs: a chain of runs, however it was cut into runs and tasks, computes one fold. */
module ChainReplay {
  import opened Protocol
  import opened Model
  import opened Engine
  import opened TickLaws
  import opened Runs
  import opened RunLaws
  import opened Continuations
  import opened Chains

  // ----- the fold -----

  /** The folds of the runs, one after the other, each under its own execution. */
  function ReplayAll(f: Machine, runs: seq<Run>, origin: Progress): Sweep
    decreases |runs|
  {
    if runs == [] then Done(origin)
    else
      match ReplayAll(f, runs[..|runs| - 1], origin)
      case Done(p) => Replay(f, runs[|runs| - 1], p)
      case Halted(p, why, at) => Halted(p, why, at)
  }

  /** The decisions that normal states made in the successful ticks of the runs. */
  function AllDecided(runs: seq<Run>): seq<Decision>
    decreases |runs|
  {
    if runs == [] then [] else AllDecided(runs[..|runs| - 1]) + runs[|runs| - 1].log.decided
  }

  /** No successful tick of the chain was taken over by error handling or left nil data. */
  ghost predicate Calm(c: Chain) {
    Resumable(c.run) && forall r :: r in c.finished ==> Resumable(r)
  }

  /** The input hands over the run's newest checkpoint, but for its version. */
  ghost predicate HandsOn(f: Machine, r: Run, input: string) {
    var found := StartState(f, input);
    && r.log.committed != [] && found.Ok? && Readable(f, found.value)
    && SameStateButVersion(found.value, r.log.committed[0])
  }

  /** Every hand-off of the chain does. */
  ghost predicate HandsOnAlways(f: Machine, c: Chain, links: seq<Link>)
    requires LegalChain(f, c, links)
    decreases |links|
  {
    links == [] ||
      (&& (links[0].HandOff? ==> HandsOn(f, c.run, links[0].input))
       && HandsOnAlways(f, Extended(f, c, links[0]), links[1..]))
  }

  // ----- decisions agree transitively -----

  lemma SameThrough(s: Serializer, x: Decision, y: Decision, z: Decision)
    requires SameButVersion(s, x, y) && SameButVersion(s, y, z)
    ensures SameButVersion(s, x, z)
  {
  }

  lemma AgreeThrough(s: Serializer, xs: seq<Decision>, prior: seq<Decision>, ys: seq<Decision>, zs: seq<Decision>)
    requires DecisionsAgree(s, xs, prior + ys) && DecisionsAgree(s, ys, zs)
    ensures DecisionsAgree(s, xs, prior + zs)
  {
    hide SameButVersion;
    forall i | 0 <= i < |xs|
      ensures SameButVersion(s, xs[i], (prior + zs)[i])
    {
      if i >= |prior| {
        SameThrough(s, xs[i], ys[i - |prior|], zs[i - |prior|]);
      }
    }
  }

  // ----- the invariant -----

  /** The finished runs' fold has arrived where the current run starts, and the current run is replayed. */
  ghost predicate Continued(f: Machine, c: Chain, input: string) {
    && Replayed(f, c.run) && AllOf(Events, c.run.log.tracked)
    && c.run.history != [] && c.run.history[|c.run.history| - 1].body.WorkflowExecutionStarted?
    && (c.finished == [] ==> StartInput(c.run) == input)
    && (c.finished != [] ==> Origin(f, input).Some? && Origin(f, StartInput(c.run)).Some?)
    && (Origin(f, input).Some? && Origin(f, StartInput(c.run)).Some? ==>
          var base := ReplayAll(f, c.finished, Origin(f, input).value);
          && base.Done?
          && Level(f.serializer, base.p, Origin(f, StartInput(c.run)).value, AllDecided(c.finished)))
  }

  /** The newest checkpoint is where the folds of all runs end, and all decisions are theirs. */
  ghost predicate ChainReplayed(f: Machine, c: Chain, input: string) {
    c.run.log.committed != [] ==>
      && Origin(f, input).Some?
      && var replay := ReplayAll(f, c.finished + [c.run], Origin(f, input).value);
         && replay.Done? && Matches(f, c.run.log.committed[0], replay.p)
         && DecisionsAgree(f.serializer, replay.p.decisions, AllDecided(c.finished + [c.run]))
  }

  lemma FoldOfOneMore(f: Machine, runs: seq<Run>, r: Run, origin: Progress)
    requires ReplayAll(f, runs, origin).Done?
    ensures ReplayAll(f, runs + [r], origin) == Replay(f, r, ReplayAll(f, runs, origin).p)
    ensures AllDecided(runs + [r]) == AllDecided(runs) + r.log.decided
  {
    assert (runs + [r])[..|runs|] == runs;
  }

  /** A run's fold from its own origin and from where the finished runs have arrived go on alike. */
  lemma FoldsGoOnAlike(f: Machine, r: Run, base: Progress, origin: Progress, prior: seq<Decision>)
    requires VersionBlind(f) && AllOf(Events, r.log.tracked) && Level(f.serializer, base, origin, prior)
    requires Replay(f, r, origin).Done? && r.log.committed != []
    requires Matches(f, r.log.committed[0], Replay(f, r, origin).p)
    requires DecisionsAgree(f.serializer, Replay(f, r, origin).p.decisions, r.log.decided)
    ensures var q := Replay(f, r, base);
            && q.Done? && Matches(f, r.log.committed[0], q.p)
            && DecisionsAgree(f.serializer, q.p.decisions, prior + r.log.decided)
  {
    hide VersionBlind, DecideAll, DecisionsAgree;
    DecideAllLevel(f, Env(r.workflowType, r.execution, 0), 0, r.log.tracked, base, origin, prior);
    AgreeThrough(f.serializer, Replay(f, r, base).p.decisions, prior, Replay(f, r, origin).p.decisions, r.log.decided);
  }

  lemma ContinuedMeansReplayed(f: Machine, c: Chain, input: string)
    requires VersionBlind(f) && Continued(f, c, input)
    ensures ChainReplayed(f, c, input)
  {
    hide VersionBlind, Replay, ReplayAll, AllDecided, Origin, Level, Matches, DecisionsAgree;
    if c.run.log.committed != [] {
      var base := ReplayAll(f, c.finished, Origin(f, input).value);
      FoldsGoOnAlike(f, c.run, base.p, Origin(f, StartInput(c.run)).value, AllDecided(c.finished));
      FoldOfOneMore(f, c.finished, c.run, Origin(f, input).value);
    }
  }

  lemma LoadedIsOrigin(f: Machine, input: string)
    requires StartState(f, input).Ok? && Readable(f, StartState(f, input).value)
    ensures Origin(f, input) == Some(Loaded(f, StartState(f, input).value))
  {
  }

  lemma HandOffKeepsContinued(f: Machine, c: Chain, link: Link, input: string)
    requires VersionBlind(f) && DataRoundTrips(f.serializer)
    requires LinkEnabled(f, c, link) && link.HandOff? && HandsOn(f, c.run, link.input) && Continued(f, c, input)
    ensures Continued(f, Extended(f, c, link), input)
  {
    hide VersionBlind, ReplayAll, AllDecided, Origin, DecisionsAgree, DataRoundTrips;
    ContinuedMeansReplayed(f, c, input);
    LoadedIsOrigin(f, link.input);
    var replay := ReplayAll(f, c.finished + [c.run], Origin(f, input).value);
    LoadedIsLevel(f, StartState(f, link.input).value, replay.p, AllDecided(c.finished + [c.run]));
  }

  lemma StepKeepsContinued(f: Machine, c: Chain, link: Link, input: string)
    requires Discreet(f) && VersionBlind(f)
    requires StatesRoundTrip(f.serializer) && DataRoundTrips(f.serializer)
    requires LinkEnabled(f, c, link) && link.Inside? && Shape(f, c.run) && Continued(f, c, input)
    requires Calm(Extended(f, c, link))
    ensures Continued(f, Extended(f, c, link), input)
  {
    hide Tick, VersionBlind, ReplayAll, AllDecided, Origin, Level, Replayed, Discreet, StatesRoundTrip,
      DataRoundTrips;
    InsideStep(f, c, link);
    StepKeepsStart(f, c.run, link.step);
    StepKeepsReplayed(f, c.run, link.step);
    TrackedStaysOfItsKind(f, c.run, link.step);
  }

  lemma TrackedStaysOfItsKind(f: Machine, r: Run, step: Step)
    requires Enabled(f, r, step) && AllOf(Events, r.log.tracked)
    ensures AllOf(Events, Apply(f, r, step).log.tracked)
  {
    hide Tick, Deliverables;
    if step.Commit? {
      LogTracks(f, r, step);
      EveryEventIsOfItsKind(Recent(TaskOf(r)));
    }
  }

  lemma InsideStep(f: Machine, c: Chain, link: Link)
    requires LinkEnabled(f, c, link) && link.Inside?
    ensures Extended(f, c, link).run == Apply(f, c.run, link.step) && Extended(f, c, link).finished == c.finished
  {
    hide Tick;
  }

  lemma CalmBefore(f: Machine, c: Chain, link: Link)
    requires LinkEnabled(f, c, link) && Calm(Extended(f, c, link))
    ensures Calm(c)
  {
    hide Tick;
    match link
    case Inside(step) =>
      InsideStep(f, c, link);
      ResumableBefore(f, c.run, step);
    case HandOff(_, _) =>
      assert c.run in c.finished + [c.run];
  }

  lemma {:induction false} ChainsStayContinued(f: Machine, c: Chain, links: seq<Link>, input: string)
    requires Discreet(f) && VersionBlind(f)
    requires StatesRoundTrip(f.serializer) && DataRoundTrips(f.serializer)
    requires LegalChain(f, c, links) && HandsOnAlways(f, c, links)
    requires Shape(f, c.run) && (Calm(c) ==> Continued(f, c, input))
    ensures var c' := AfterChain(f, c, links); Calm(c') ==> Continued(f, c', input)
    decreases |links|
  {
    hide Tick, VersionBlind, Continued, Shape, Extended, Calm, HandsOn;
    if links != [] {
      var link := links[0];
      LinkKeepsShape(f, c, link);
      if Calm(Extended(f, c, link)) {
        CalmBefore(f, c, link);
        if link.HandOff? {
          HandOffKeepsContinued(f, c, link, input);
        } else {
          StepKeepsContinued(f, c, link, input);
        }
      }
      ChainsStayContinued(f, Extended(f, c, link), links[1..], input);
    }
  }

  lemma BeginsContinued(f: Machine, execution: WorkflowExecution, workflowType: WorkflowType, input: string)
    ensures Continued(f, BeginChain(execution, workflowType, input), input)
  {
  }

  /** In a chain whose hand-offs hand on the newest checkpoint, and in which no successful tick was taken over
      by error handling or left nil data, the newest checkpoint is that of one fold of the deciders over the
      events of the successful ticks of all runs, each run's under its own execution, and the decisions of all
      runs are that fold's. */
  lemma ChainsRefineReplay(f: Machine, execution: WorkflowExecution, workflowType: WorkflowType, input: string,
                           links: seq<Link>)
    requires Discreet(f) && VersionBlind(f)
    requires StatesRoundTrip(f.serializer) && DataRoundTrips(f.serializer)
    requires LegalChain(f, BeginChain(execution, workflowType, input), links)
    requires HandsOnAlways(f, BeginChain(execution, workflowType, input), links)
    requires Calm(AfterChain(f, BeginChain(execution, workflowType, input), links))
    ensures ChainReplayed(f, AfterChain(f, BeginChain(execution, workflowType, input), links), input)
  {
    hide Tick, VersionBlind, Continued, ChainReplayed, Extended, Calm, HandsOnAlways;
    var c := BeginChain(execution, workflowType, input);
    BeginsInShape(f, execution, workflowType, input);
    BeginsContinued(f, execution, workflowType, input);
    ChainsStayContinued(f, c, links, input);
    ContinuedMeansReplayed(f, AfterChain(f, c, links), input);
  }

  // ----- chains that are calm -----

  lemma TransparentLinkStaysCalm(f: Machine, c: Chain, link: Link)
    requires Discreet(f) && TransparentErrorState(f) && DataNeverNil(f)
    requires LinkEnabled(f, c, link) && Shape(f, c.run) && Calm(c)
    ensures Calm(Extended(f, c, link))
  {
    hide Tick, TransparentErrorState, DataNeverNil, Discreet, Shape;
    match link
    case Inside(step) =>
      InsideStep(f, c, link);
      StepTakesNothingOver(f, c.run, step);
      StepEndsNothingNil(f, c.run, step);
    case HandOff(_, _) =>
  }

  /** A machine whose error state is transparent and whose states answer no event with nil data has only calm
      chains. */
  lemma {:induction false} TransparentChainsAreCalm(f: Machine, c: Chain, links: seq<Link>)
    requires Discreet(f) && TransparentErrorState(f) && DataNeverNil(f)
    requires Shape(f, c.run) && Calm(c) && LegalChain(f, c, links)
    ensures Calm(AfterChain(f, c, links))
    decreases |links|
  {
    hide Tick, TransparentErrorState, DataNeverNil, Discreet, Shape, Extended, Calm;
    if links != [] {
      LinkKeepsShape(f, c, links[0]);
      TransparentLinkStaysCalm(f, c, links[0]);
      TransparentChainsAreCalm(f, Extended(f, c, links[0]), links[1..]);
    }
  }

  /** In every run of the chain nil data were left only if some tick was taken over. */
  ghost predicate NilOnlyByTakeover(c: Chain) {
    && (c.run.log.takeovers == 0 ==> c.run.log.nils == 0)
    && forall r :: r in c.finished ==> (r.log.takeovers == 0 ==> r.log.nils == 0)
  }

  lemma {:induction false} ChainsEndNothingNil(f: Machine, c: Chain, links: seq<Link>)
    requires DataNeverNil(f) && NilOnlyByTakeover(c) && LegalChain(f, c, links)
    ensures NilOnlyByTakeover(AfterChain(f, c, links))
    decreases |links|
  {
    hide Tick, DataNeverNil;
    if links != [] {
      if links[0].Inside? {
        InsideStep(f, c, links[0]);
        StepEndsNothingNil(f, c.run, links[0].step);
      }
      ChainsEndNothingNil(f, Extended(f, c, links[0]), links[1..]);
    }
  }

  // ----- managed continuations hand on the newest checkpoint -----

  lemma {:induction false} InputsAppend(ds: seq<Decision>, more: seq<Decision>)
    ensures Inputs(ds + more) == Inputs(ds) + Inputs(more)
  {
    if ds == [] {
      assert ds + more == more;
    } else {
      assert (ds + more)[1..] == ds[1..] + more;
      InputsAppend(ds[1..], more);
      AppendAgain(if ds[0].ContinueAsNewWorkflowExecution? then [ds[0].input] else [], Inputs(ds[1..]), Inputs(more));
    }
  }

  /** Managed continuations alone answer the `k`-th newest event, and the rest of the task comes back to what they
      found. */
  ghost predicate ContinuesAndComesBack(f: Machine, t: Task, k: int, p: Progress,
                                        historySize: int, timerRetrySeconds: int)
  {
    Continues(f, t, k, p, historySize, timerRetrySeconds) && ComesBack(f, t, p) && (k == 0 || p.data.Ptr?)
  }

  /** If the tick decides to continue, it succeeds, managed continuations alone decide it, once, and the rest of
      the task comes back to what they found. */
  ghost predicate ContinuesCleanly(f: Machine, t: Task, historySize: int, timerRetrySeconds: int) {
    Inputs(Decided(Tick(f, t))) != [] ==>
      && Tick(f, t).Success? && |Inputs(Decided(Tick(f, t)))| == 1
      && exists k, p :: ContinuesAndComesBack(f, t, k, p, historySize, timerRetrySeconds)
  }

  /** So it does if the only decision to continue is made at the last event of the task. */
  lemma LastEventContinuesCleanly(f: Machine, t: Task, p: Progress, historySize: int, timerRetrySeconds: int)
    requires StatesRoundTrip(f.serializer) && Tick(f, t).Success?
    requires Continues(f, t, 0, p, historySize, timerRetrySeconds) && Inputs(p.decisions) == []
    ensures ContinuesCleanly(f, t, historySize, timerRetrySeconds)
  {
    hide Tick, Continues, ComesBack, Decided;
    var d := HandOffMatchesIffComesBack(f, t, 0, p, historySize, timerRetrySeconds);
    InputsAppend(p.decisions, [d]);
    assert [d][1..] == [];
    assert ContinuesAndComesBack(f, t, 0, p, historySize, timerRetrySeconds);
  }

  /** All committed ticks of the chain continue so. */
  ghost predicate ContinuesCleanlyAlways(f: Machine, c: Chain, links: seq<Link>,
                                         historySize: int, timerRetrySeconds: int)
    requires LegalChain(f, c, links)
    decreases |links|
  {
    links == [] ||
      (&& (links[0].Inside? && links[0].step.Commit? ==>
            ContinuesCleanly(f, TaskOf(c.run), historySize, timerRetrySeconds))
       && ContinuesCleanlyAlways(f, Extended(f, c, links[0]), links[1..], historySize, timerRetrySeconds))
  }

  lemma EncodedDataReadable(f: Machine, state: SerializedState, v: Value)
    requires DataRoundTrips(f.serializer) && v.Ptr? && f.serializer.encodeData(v).Fine()
    requires state.replicationData.stateData == f.serializer.encodeData(v).text
    ensures Readable(f, state)
  {
    assert f.serializer.encodeData(Ptr(v.data)).Fine();
  }

  lemma CommitOffersNewest(f: Machine, r: Run, step: Step, input: string, historySize: int, timerRetrySeconds: int)
    requires StatesRoundTrip(f.serializer) && DataRoundTrips(f.serializer)
    requires Enabled(f, r, step) && step.Commit? && ContinuesCleanly(f, TaskOf(r), historySize, timerRetrySeconds)
    requires Resumable(Apply(f, r, step)) && input in Inputs(Decided(Tick(f, TaskOf(r))))
    ensures HandsOn(f, Apply(f, r, step), input)
  {
    hide Tick, TakesOver, EndsNil, Continues, ComesBack, StatesRoundTrip, DataRoundTrips, Logged, Decided, Readable,
      SameStateButVersion;
    var t := TaskOf(r);
    ResumableBefore(f, r, step);
    LogTracks(f, r, step);
    var k, p :| ContinuesAndComesBack(f, t, k, p, historySize, timerRetrySeconds);
    var d := HandOffMatchesIffComesBack(f, t, k, p, historySize, timerRetrySeconds);
    assert d in p.decisions + [d];
    assert d in Decided(Tick(f, t));
    InputsOf(Decided(Tick(f, t)), d.input);
    assert input == d.input;
    EncodedDataReadable(f, StartState(f, input).value, p.data);
  }

  lemma LinkOffersNewest(f: Machine, c: Chain, link: Link, historySize: int, timerRetrySeconds: int)
    requires StatesRoundTrip(f.serializer) && DataRoundTrips(f.serializer)
    requires LinkEnabled(f, c, link) && Calm(Extended(f, c, link))
    requires link.Inside? && link.step.Commit? ==> ContinuesCleanly(f, TaskOf(c.run), historySize, timerRetrySeconds)
    ensures var c' := Extended(f, c, link); forall input :: input in c'.offers ==> HandsOn(f, c'.run, input)
  {
    hide Tick, HandsOn, ContinuesCleanly, StatesRoundTrip, DataRoundTrips;
    if link.Inside? && link.step.Commit? {
      ExtendedByCommit(f, c, link);
      forall input | input in Inputs(Decided(Tick(f, TaskOf(c.run))))
        ensures HandsOn(f, Apply(f, c.run, link.step), input)
      {
        CommitOffersNewest(f, c.run, link.step, input, historySize, timerRetrySeconds);
      }
    }
  }

  lemma {:induction false} CalmAllAlong(f: Machine, c: Chain, links: seq<Link>)
    requires LegalChain(f, c, links) && Calm(AfterChain(f, c, links))
    ensures Calm(c)
    decreases |links|
  {
    hide Tick, Extended, Calm;
    if links != [] {
      CalmAllAlong(f, Extended(f, c, links[0]), links[1..]);
      CalmBefore(f, c, links[0]);
    }
  }

  lemma {:induction false} ManagedChainsHandOn(f: Machine, c: Chain, links: seq<Link>,
                                               historySize: int, timerRetrySeconds: int)
    requires StatesRoundTrip(f.serializer) && DataRoundTrips(f.serializer)
    requires LegalChain(f, c, links) && Calm(AfterChain(f, c, links))
    requires ContinuesCleanlyAlways(f, c, links, historySize, timerRetrySeconds)
    requires forall input :: input in c.offers ==> HandsOn(f, c.run, input)
    ensures HandsOnAlways(f, c, links)
    decreases |links|
  {
    hide Tick, Extended, Calm, HandsOn, ContinuesCleanly, StatesRoundTrip, DataRoundTrips;
    if links != [] {
      CalmAllAlong(f, Extended(f, c, links[0]), links[1..]);
      LinkOffersNewest(f, c, links[0], historySize, timerRetrySeconds);
      ManagedChainsHandOn(f, Extended(f, c, links[0]), links[1..], historySize, timerRetrySeconds);
    }
  }

  /** A chain whose runs are continued by managed continuations, each cleanly, computes one fold of the deciders:
      where it was cut into runs and tasks makes no difference. */
  lemma ManagedChainsRefineReplay(f: Machine, execution: WorkflowExecution, workflowType: WorkflowType, input: string,
                                  links: seq<Link>, historySize: int, timerRetrySeconds: int)
    requires Discreet(f) && VersionBlind(f)
    requires StatesRoundTrip(f.serializer) && DataRoundTrips(f.serializer)
    requires LegalChain(f, BeginChain(execution, workflowType, input), links)
    requires ContinuesCleanlyAlways(f, BeginChain(execution, workflowType, input), links,
               historySize, timerRetrySeconds)
    requires Calm(AfterChain(f, BeginChain(execution, workflowType, input), links))
    ensures ChainReplayed(f, AfterChain(f, BeginChain(execution, workflowType, input), links), input)
  {
    hide Tick, VersionBlind, ChainReplayed, Extended, Calm, HandsOnAlways, ContinuesCleanlyAlways;
    ManagedChainsHandOn(f, BeginChain(execution, workflowType, input), links, historySize, timerRetrySeconds);
    ChainsRefineReplay(f, execution, workflowType, input, links);
  }
}
