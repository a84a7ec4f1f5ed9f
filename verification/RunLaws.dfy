/** What every run keeps: events are delivered exactly once, the pending activities are exactly the open
    ones, checkpointing refines replay, failures move nothing, and replication follows commit. */
module RunLaws {
  import opened Protocol
  import opened Correlator
  import opened Model
  import opened Engine
  import opened TickLaws
  import opened Runs

  // ----- what one tick sees and tracks -----

  lemma {:induction false} ErrorsTrackNothing(f: Machine, env: Env, errors: seq<Event>, p: Progress)
    requires forall e :: e in errors ==> e.body.ErrorSignal()
    ensures var q := DecideErrors(f, env, errors, p).p;
            q.pending == p.pending && q.seen == p.seen && q.stateVersion == p.stateVersion
    decreases |errors|
  {
    if errors != [] {
      var n := |errors| - 1;
      match DecideError(f, env, p, errors[n])
      case Moved(q) => ErrorsTrackNothing(f, env, errors[..n], q);
      case Stuck(_, _) =>
    }
  }

  lemma ErrorPhaseTracksNothing(f: Machine, t: Task, pending: Pending)
    ensures var q := ErrorPhase(f, EnvOf(t), ErrorSignals(Recent(t)), pending).p;
            q.pending == pending && q.seen == [] && q.stateVersion == 0
  {
    var errors := ErrorSignals(Recent(t));
    forall e | e in errors
      ensures e.body.ErrorSignal()
    {
      ErrorSignalsMember(Recent(t), e);
    }
    ErrorsTrackNothing(f, EnvOf(t), errors, Fresh(pending).(data := Ptr(f.zero), state := f.errorState.name));
  }

  lemma OutsetTracksNothing(f: Machine, t: Task)
    ensures OutsetOf(f, t).Some? ==>
              && FindSerializedState(f, t.events).Ok?
              && OutsetOf(f, t).value.p.pending == FindSerializedState(f, t.events).value.pendingActivities
              && OutsetOf(f, t).value.p.seen == []
  {
    if FindSerializedState(f, t.events).Ok? {
      ErrorPhaseTracksNothing(f, t, FindSerializedState(f, t.events).value.pendingActivities);
    }
  }

  /** The version that the deciders see is the one to count on from, also when error handling took over. */
  lemma OutsetVersion(f: Machine, t: Task)
    requires OutsetOf(f, t).Some?
    ensures FindSerializedState(f, t.events).Ok?
    ensures var version := FindSerializedState(f, t.events).value.replicationData.stateVersion;
            OutsetOf(f, t).value.p.stateVersion == OutsetOf(f, t).value.env.stateVersion
            == if TakesOver(f, t) then 0 else version
  {
    ErrorPhaseTracksNothing(f, t, FindSerializedState(f, t.events).value.pendingActivities);
  }

  /** A fold that stops has seen the oldest of its events, a finished one all of them. */
  lemma SweepDelivers(f: Machine, env: Env, events: seq<Event>, p: Progress) returns (n: nat)
    requires p.seen == []
    ensures var sweep := DecideAll(f, env, events, p);
            n <= |events| && sweep.p.seen == Reverse(events[n..]) && (sweep.Done? ==> n == 0)
  {
    n := SeenIsAPrefix(f, env, events, p);
    assert [] + Reverse(events[n..]) == Reverse(events[n..]);
    if DecideAll(f, env, events, p).Done? {
      DoneSeesAndTracksAll(f, env, events, p);
      n := 0;
      assert events[0..] == events && [] + Reverse(events) == Reverse(events);
    }
  }

  lemma FinishTickSees(f: Machine, env: Env, events: seq<Event>, p: Progress)
    requires !FinishTick(f, env, events, p).Crash?
    ensures FinishTick(f, env, events, p).seen == DecideAll(f, env, events, p).p.seen
    ensures FinishTick(f, env, events, p).Success? ==> DecideAll(f, env, events, p).Done?
  {
  }

  lemma NothingSeenEarly(f: Machine, t: Task)
    requires OutsetOf(f, t) == None && Tick(f, t).Failure?
    ensures Tick(f, t).seen == []
  {
    if FindSerializedState(f, t.events).Ok? {
      ErrorPhaseTracksNothing(f, t, FindSerializedState(f, t.events).value.pendingActivities);
    }
  }

  /** A failed tick has delivered the oldest of its events, a successful one all of them. */
  lemma TickDelivers(f: Machine, t: Task) returns (n: nat)
    requires !Tick(f, t).Crash?
    ensures n <= |Deliverables(Recent(t))|
    ensures Tick(f, t).seen == Reverse(Deliverables(Recent(t))[n..])
    ensures Tick(f, t).Success? ==> n == 0
  {
    var events := Deliverables(Recent(t));
    TickFromOutset(f, t);
    if OutsetOf(f, t).Some? {
      var s := OutsetOf(f, t).value;
      OutsetTracksNothing(f, t);
      n := SweepDelivers(f, s.env, events, s.p);
      FinishTickSees(f, s.env, events, s.p);
    } else {
      n := |events|;
      assert events[n..] == [];
      NothingSeenEarly(f, t);
    }
  }

  lemma SuccessTracksAll(f: Machine, t: Task)
    requires Tick(f, t).Success?
    ensures FindSerializedState(f, t.events).Ok?
    ensures Tick(f, t).checkpoint.pendingActivities
            == TrackedAll(FindSerializedState(f, t.events).value.pendingActivities, Deliverables(Recent(t)))
  {
    hide Tick;
    TickFromOutset(f, t);
    OutsetTracksNothing(f, t);
    var s := OutsetOf(f, t).value;
    DoneSeesAndTracksAll(f, s.env, Deliverables(Recent(t)), s.p);
  }

  // ----- exactly-once delivery -----

  ghost predicate Descending(events: seq<Event>) {
    forall i, j :: 0 <= i < j < |events| ==> events[i].id > events[j].id
  }

  ghost predicate Ascending(events: seq<Event>) {
    forall i, j :: 0 <= i < j < |events| ==> events[i].id < events[j].id
  }

  lemma {:induction false} DeliverablesDescending(events: seq<Event>)
    requires Descending(events)
    ensures Descending(Deliverables(events))
  {
    if events != [] {
      assert forall i :: 0 <= i < |events[1..]| ==> events[1..][i] == events[i + 1];
      DeliverablesDescending(events[1..]);
      forall e | e in Deliverables(events[1..])
        ensures e.id < events[0].id
      {
        DeliverablesMember(events[1..], e);
      }
    }
  }

  lemma {:induction false} ReverseAt<T>(s: seq<T>, i: nat)
    requires i < |s|
    ensures Reverse(s)[i] == s[|s| - 1 - i]
  {
    if i < |s| - 1 {
      ReverseAt(s[1..], i);
    }
  }

  lemma ReverseDescending(events: seq<Event>)
    requires Descending(events)
    ensures Ascending(Reverse(events))
  {
    forall i, j | 0 <= i < j < |events|
      ensures Reverse(events)[i].id < Reverse(events)[j].id
    {
      ReverseAt(events, i);
      ReverseAt(events, j);
    }
  }

  lemma {:induction false} ReverseMember<T>(s: seq<T>, x: T)
    ensures x in Reverse(s) <==> x in s
  {
    if s != [] {
      assert s == [s[0]] + s[1..];
      ReverseMember(s[1..], x);
    }
  }

  /** Every event is in exactly one of the two lists. */
  ghost predicate Divided(all: seq<Event>, tracked: seq<Event>, lost: seq<Event>) {
    && (forall e :: e in all <==> e in tracked || e in lost)
    && (forall e :: e in tracked ==> e !in lost)
  }

  /** What became of the deliverable events before the last committed start: those of successful ticks were
      delivered and tracked, all others belong to failed ticks. */
  ghost predicate Accounted(r: Run) {
    && r.previous <= |r.history|
    && Descending(r.log.tracked)
    && Divided(Deliverables(Upto(r.history, r.previous)), r.log.tracked, r.log.lost)
    && (forall e :: e in r.log.tracked ==> e in r.log.delivered)
    && (r.log.lost == [] ==> r.log.tracked == Deliverables(Upto(r.history, r.previous)))
    && (r.log.failures == 0 ==> r.log.lost == [])
  }

  /** What committed ticks handed to normal-state deciders, in that order: each event at most once, in the
      order of their IDs, only deliverable ones, none that is newer than the last committed task's start,
      every one of those that no failed tick lost, and, when no committed tick failed, exactly those. */
  ghost predicate Delivery(r: Run) {
    && Accounted(r)
    && Ascending(r.log.delivered)
    && (forall e :: e in r.log.delivered ==> e in Deliverables(Upto(r.history, r.previous)))
    && (r.log.failures == 0 ==> r.log.delivered == Reverse(Deliverables(Upto(r.history, r.previous))))
  }

  lemma TasksAreOrdered(f: Machine, r: Run)
    requires Shape(f, r) && r.started.Some?
    ensures Descending(Deliverables(Between(r)))
    ensures forall e :: e in Deliverables(Between(r)) ==> e.id > r.previous
    ensures forall e :: e in Deliverables(Upto(r.history, r.previous)) ==> e.id <= r.previous
  {
    var b, u := Between(r), Upto(r.history, r.previous);
    assert forall i :: 0 <= i < |b| ==> b[i] == r.history[|r.history| - r.started.value + i];
    assert forall i :: 0 <= i < |u| ==> u[i] == r.history[|r.history| - r.previous + i];
    DeliverablesDescending(b);
    forall e | e in Deliverables(b)
      ensures e.id > r.previous
    {
      DeliverablesMember(b, e);
    }
    forall e | e in Deliverables(u)
      ensures e.id <= r.previous
    {
      DeliverablesMember(u, e);
    }
  }

  /** The deliverable events before the running task's start: those of the task and the older ones. */
  lemma CommitMovesOn(f: Machine, r: Run, step: Step)
    requires Discreet(f) && Shape(f, r) && Enabled(f, r, step) && step.Commit?
    ensures var r' := Apply(f, r, step);
            && r'.previous == r.started.value <= |r'.history|
            && Upto(r'.history, r'.previous) == Between(r) + Upto(r.history, r.previous)
            && Deliverables(Upto(r'.history, r'.previous))
               == Deliverables(Between(r)) + Deliverables(Upto(r.history, r.previous))
            && Recent(TaskOf(r)) == Between(r)
  {
    hide Tick, Logged, FindSerializedState, Numbered, Markers, Extend, Deliverables, Discreet;
    TaskDecomposes(f, r);
    StepKeepsShape(f, r, step);
    UptoStable(r.history, Apply(f, r, step).history, r.started.value);
    DeliverablesAppend(Between(r), Upto(r.history, r.previous));
  }

  lemma QuietStepMovesNothing(f: Machine, r: Run, step: Step)
    requires Shape(f, r) && Enabled(f, r, step) && !step.Commit?
    ensures Shape(f, Apply(f, r, step))
    ensures var r' := Apply(f, r, step);
            && r'.log == r.log && r'.previous == r.previous && r'.previous <= |r'.history|
            && Upto(r'.history, r'.previous) == Upto(r.history, r.previous)
            && StartInput(r') == StartInput(r)
  {
    QuietStepKeepsShape(f, r, step);
    UptoStable(r.history, Apply(f, r, step).history, r.previous);
    var h, h' := r.history, Apply(f, r, step).history;
    assert h'[1..][|h| - 1] == h[|h| - 1];
  }

  lemma LogDelivers(f: Machine, r: Run, step: Step)
    requires Enabled(f, r, step) && step.Commit?
    ensures Apply(f, r, step).log.delivered == r.log.delivered + Tick(f, TaskOf(r)).seen
    ensures Apply(f, r, step).log.failures == r.log.failures + if Tick(f, TaskOf(r)).Success? then 0 else 1
  {
  }

  /** Delivering some of the oldest events of a task keeps the order, and all of them keeps completeness. */
  lemma DeliveriesAppend(delivered: seq<Event>, mine: seq<Event>, older: seq<Event>, bound: int, n: nat)
    requires n <= |mine| && Descending(mine) && Ascending(delivered)
    requires forall e :: e in mine ==> e.id > bound
    requires forall e :: e in older ==> e.id <= bound
    requires forall e :: e in delivered ==> e in older
    ensures Ascending(delivered + Reverse(mine[n..]))
    ensures forall e :: e in delivered + Reverse(mine[n..]) ==> e in mine + older
    ensures n == 0 && delivered == Reverse(older) ==> delivered + Reverse(mine[n..]) == Reverse(mine + older)
  {
    var added := Reverse(mine[n..]);
    assert forall i :: 0 <= i < |mine[n..]| ==> mine[n..][i] == mine[n + i];
    ReverseDescending(mine[n..]);
    forall e | e in added
      ensures e in mine
    {
      ReverseMember(mine[n..], e);
    }
    ReverseAppend(mine, older);
    assert mine[0..] == mine;
  }

  /** The events of one more task are all kept, or all lost. */
  lemma DividedOn(mine: seq<Event>, older: seq<Event>, tracked: seq<Event>, lost: seq<Event>, bound: int)
    requires Divided(older, tracked, lost) && Descending(mine) && Descending(tracked)
    requires forall e :: e in mine ==> e.id > bound
    requires forall e :: e in older ==> e.id <= bound
    ensures Divided(mine + older, mine + tracked, lost) && Descending(mine + tracked)
    ensures Divided(mine + older, tracked, mine + lost)
    ensures mine + lost == [] ==> mine + older == older
  {
    forall i, j | 0 <= i < j < |mine + tracked|
      ensures (mine + tracked)[i].id > (mine + tracked)[j].id
    {
      if i < |mine| <= j {
        assert (mine + tracked)[i] in mine && (mine + tracked)[j] in tracked;
      }
    }
  }

  lemma AllDelivered(mine: seq<Event>, n: nat)
    requires n == 0
    ensures n <= |mine| && forall e :: e in mine ==> e in Reverse(mine[n..])
  {
    assert mine[0..] == mine;
    forall e | e in mine
      ensures e in Reverse(mine)
    {
      ReverseMember(mine, e);
    }
  }

  lemma CommitKeepsAccount(f: Machine, r: Run, step: Step)
    requires Discreet(f) && Shape(f, r) && Enabled(f, r, step) && step.Commit? && Accounted(r)
    ensures Accounted(Apply(f, r, step))
  {
    hide Tick, FindSerializedState, Logged, Upto, Deliverables, Between, Divided, Descending, Numbered, Markers,
      Reverse;
    CommitMovesOn(f, r, step);
    TasksAreOrdered(f, r);
    LogTracks(f, r, step);
    LogDelivers(f, r, step);
    DividedOn(Deliverables(Between(r)), Deliverables(Upto(r.history, r.previous)), r.log.tracked, r.log.lost,
      r.previous);
    var n := TickDelivers(f, TaskOf(r));
    if Tick(f, TaskOf(r)).Success? {
      AllDelivered(Deliverables(Between(r)), n);
    }
  }

  lemma StepKeepsDelivery(f: Machine, r: Run, step: Step)
    requires Discreet(f) && Shape(f, r) && Enabled(f, r, step) && Delivery(r)
    ensures Delivery(Apply(f, r, step))
  {
    hide Tick;
    if !step.Commit? {
      QuietStepMovesNothing(f, r, step);
    } else {
      CommitKeepsDelivery(f, r, step);
    }
  }

  lemma CommitKeepsDelivery(f: Machine, r: Run, step: Step)
    requires Discreet(f) && Shape(f, r) && Enabled(f, r, step) && step.Commit? && Delivery(r)
    ensures Delivery(Apply(f, r, step))
  {
    hide Tick, Accounted, Logged, Deliverables, Numbered, Markers, Reverse, Ascending, Descending, FindSerializedState;
    assert r.previous <= |r.history|;
    CommitKeepsAccount(f, r, step);
    CommitMovesOn(f, r, step);
    TasksAreOrdered(f, r);
    var n := TickDelivers(f, TaskOf(r));
    LogDelivers(f, r, step);
    DeliveriesAppend(r.log.delivered, Deliverables(Between(r)), Deliverables(Upto(r.history, r.previous)),
      r.previous, n);
  }

  // ----- the correlator across ticks -----

  ghost predicate StartsIdle(f: Machine, input: string) {
    StartState(f, input).Ok? ==> StartState(f, input).value.pendingActivities == map[]
  }

  /** The pending activities carried by the newest checkpoint are those of the events that successful
      ticks decided. */
  ghost predicate Tracking(r: Run) {
    if r.log.committed == [] then r.log.tracked == []
    else r.log.committed[0].pendingActivities == TrackedAll(map[], r.log.tracked)
  }

  /** What the next tick recovers as pending. */
  lemma RecoversTracked(f: Machine, r: Run)
    requires StatesRoundTrip(f.serializer) && Shape(f, r) && Tracking(r) && StartsIdle(f, StartInput(r))
    ensures FindSerializedState(f, r.history).Ok? ==>
              FindSerializedState(f, r.history).value.pendingActivities == TrackedAll(map[], r.log.tracked)
  {
    RecoversLastCheckpoint(f, r);
  }

  /** A successful tick's checkpoint carries what its events leave pending of what was tracked before. */
  lemma TickExtendsTracking(f: Machine, r: Run)
    requires StatesRoundTrip(f.serializer) && r.started.Some?
    requires Shape(f, r) && Tracking(r) && StartsIdle(f, StartInput(r)) && Tick(f, TaskOf(r)).Success?
    ensures Tick(f, TaskOf(r)).checkpoint.pendingActivities
            == TrackedAll(map[], Deliverables(Between(r)) + r.log.tracked)
  {
    TaskDecomposes(f, r);
    RecoversTracked(f, r);
    SuccessTracksAll(f, TaskOf(r));
    TrackedAllAppend(map[], Deliverables(Between(r)), r.log.tracked);
  }

  lemma QuietStepKeepsTracking(f: Machine, r: Run, step: Step)
    requires Shape(f, r) && Enabled(f, r, step) && !step.Commit? && Tracking(r)
    ensures Tracking(Apply(f, r, step))
  {
    QuietStepMovesNothing(f, r, step);
  }

  lemma CommitKeepsTracking(f: Machine, r: Run, step: Step)
    requires Discreet(f) && StatesRoundTrip(f.serializer) && Enabled(f, r, step) && step.Commit?
    requires Shape(f, r) && Tracking(r) && StartsIdle(f, StartInput(r))
    ensures Tracking(Apply(f, r, step))
  {
    hide Tick, FindSerializedState, Logged, Upto, Deliverables, Numbered, Markers;
    CommitMovesOn(f, r, step);
    LogTracks(f, r, step);
    if Tick(f, TaskOf(r)).Success? {
      TickExtendsTracking(f, r);
    }
  }

  lemma StepKeepsTracking(f: Machine, r: Run, step: Step)
    requires Discreet(f) && StatesRoundTrip(f.serializer) && Enabled(f, r, step)
    requires Shape(f, r) && Tracking(r) && StartsIdle(f, StartInput(r))
    ensures Tracking(Apply(f, r, step))
  {
    if step.Commit? {
      CommitKeepsTracking(f, r, step);
    } else {
      QuietStepKeepsTracking(f, r, step);
    }
  }

  lemma StepKeepsStart(f: Machine, r: Run, step: Step)
    requires Discreet(f) && Shape(f, r) && Enabled(f, r, step)
    ensures Shape(f, Apply(f, r, step)) && StartInput(Apply(f, r, step)) == StartInput(r)
  {
    StepKeepsShape(f, r, step);
    var h, h' := r.history, Apply(f, r, step).history;
    assert h'[|h'| - |h|..][|h| - 1] == h[|h| - 1];
  }

  // ----- replication -----

  /** ExecutionContexts name the states of the committed checkpoints, and the stream holds records of
      committed checkpoints, in their order and at most one for each. */
  ghost predicate Replication(f: Machine, log: Log) {
    && log.contexts
       == seq(|log.committed|, i requires 0 <= i < |log.committed| => log.committed[i].replicationData.stateName)
    && (forall i, j :: 0 <= i < j < |log.records| ==> log.records[i].position < log.records[j].position)
    && (forall i :: 0 <= i < |log.records| ==>
          && log.records[i].position < |log.committed|
          && log.records[i].text == f.serializer.encodeReplication(
               log.committed[|log.committed| - 1 - log.records[i].position].replicationData).text)
    && (f.kinesisStream == "" ==> log.records == [])
  }

  lemma LogKeepsReplication(f: Machine, log: Log, t: Task, result: TickResult, delivered: bool)
    requires !result.Crash? && Replication(f, log)
    ensures Replication(f, Logged(f, log, t, result, delivered))
  {
    hide ErrorDecisions, NormalDecisions, Decided, Recent, Deliverables;
    var log' := Logged(f, log, t, result, delivered);
    if result.Success? {
      var n := |log.committed|;
      forall i | 0 <= i < |log'.records|
        ensures log'.records[i].position < n + 1
        ensures log'.records[i].text == f.serializer.encodeReplication(
                  log'.committed[n - log'.records[i].position].replicationData).text
      {
        if i < |log.records| {
          assert log'.records[i] == log.records[i];
          assert log'.committed[n - log.records[i].position] == log.committed[n - 1 - log.records[i].position];
        }
      }
    }
  }

  lemma StepKeepsReplication(f: Machine, r: Run, step: Step)
    requires Enabled(f, r, step) && Replication(f, r.log)
    ensures Replication(f, Apply(f, r, step).log)
  {
    if step.Commit? {
      LogKeepsReplication(f, r.log, TaskOf(r), Tick(f, TaskOf(r)), step.delivered);
    }
  }

  // ----- checkpointing refines replay -----

  ghost predicate KeepsData(d: Decider) {
    forall ctx, e, v: Value ::
      Events.Of(e) && v.Ptr? && d(ctx, e, v).Returned? && !d(ctx, e, v).outcome.Pass? ==>
        d(ctx, e, v).outcome.data.Ptr?
  }

  /** No state answers an event with nil data where it was given some. What a state, registered as the error
      state, answers to error signals does not matter here. */
  ghost predicate DataNeverNil(f: Machine) {
    forall name :: name in f.states ==> KeepsData(f.states[name].decider)
  }

  lemma {:induction false} DecideAllKeepsData(f: Machine, env: Env, events: seq<Event>, p: Progress)
    requires DataNeverNil(f) && AllOf(Events, events) && p.data.Ptr?
    ensures DecideAll(f, env, events, p).p.data.Ptr?
    decreases |events|
  {
    if events != [] {
      var n := |events| - 1;
      match Decide(f, env, p, events[n])
      case Stuck(_, _) =>
      case Moved(q) =>
        assert Events.Of(events[n]) && KeepsData(f.states[p.state].decider);
        DecideAllKeepsData(f, env, events[..n], q);
    }
  }

  lemma OutsetHasData(f: Machine, t: Task)
    requires OutsetOf(f, t).Some? && !TakesOver(f, t)
    ensures OutsetOf(f, t).value.p.data.Ptr?
  {
  }

  /** So no tick leaves nil data, unless error handling took over. */
  lemma NeverEndsNil(f: Machine, t: Task)
    requires DataNeverNil(f) && !TakesOver(f, t)
    ensures !EndsNil(f, t)
  {
    hide OutsetOf, TakesOver;
    if OutsetOf(f, t).Some? {
      OutsetHasData(f, t);
      EveryEventIsOfItsKind(Recent(t));
      DecideAllKeepsData(f, OutsetOf(f, t).value.env, Deliverables(Recent(t)), OutsetOf(f, t).value.p);
    }
  }

  /** A checkpoint brings back the state, data and pending activities it was made from exactly when the
      data were not nil and were encoded without error; otherwise its data come back changed or not at all. */
  lemma CheckpointRoundTrip(f: Machine, p: Progress)
    requires DataRoundTrips(f.serializer)
    ensures p.data.Ptr? && f.serializer.encodeData(p.data).Fine() <==>
              var c := CheckpointOf(f, p);
              var d := f.serializer.decodeData(c.replicationData.stateData);
              d.Ok? && Alike(p, Resumed(Fresh(c.pendingActivities), c, d.value), p.decisions)
    ensures p.data.Ptr? && !f.serializer.encodeData(p.data).Fine() ==> !Readable(f, CheckpointOf(f, p))
  {
    assert p.decisions + [] == p.decisions;
  }

  predicate Readable(f: Machine, state: SerializedState) {
    f.serializer.decodeData(state.replicationData.stateData).Ok?
  }

  /** No tick succeeds over state data that do not decode, unless error handling takes over. */
  lemma UnreadableMeansFailure(f: Machine, t: Task)
    requires FindSerializedState(f, t.events).Ok? && !Readable(f, FindSerializedState(f, t.events).value)
    requires !TakesOver(f, t)
    ensures !Tick(f, t).Success?
  {
  }

  /** None of the steps commits a tick whose error handling takes over. */
  predicate RecoversNormally(f: Machine, r: Run, steps: seq<Step>)
    requires Legal(f, r, steps)
    decreases |steps|
  {
    steps == [] ||
      ((steps[0].Commit? ==> !TakesOver(f, TaskOf(r))) && RecoversNormally(f, Apply(f, r, steps[0]), steps[1..]))
  }

  lemma UnreadableCommitFails(f: Machine, r: Run, step: Step)
    requires Discreet(f) && StatesRoundTrip(f.serializer) && Shape(f, r) && Enabled(f, r, step)
    requires r.log.committed != [] && !Readable(f, r.log.committed[0])
    requires step.Commit? ==> !TakesOver(f, TaskOf(r))
    ensures Apply(f, r, step).log.committed == r.log.committed
  {
    hide Tick, TakesOver, Logged, FindSerializedState;
    if step.Commit? {
      TaskDecomposes(f, r);
      RecoversLastCheckpoint(f, r);
      UnreadableMeansFailure(f, TaskOf(r));
      LogTracks(f, r, step);
    }
  }

  /** Once a checkpoint with unreadable data is committed, no further tick succeeds: it stays the newest
      checkpoint of the run until error handling takes over. */
  lemma {:induction false} UnreadableCheckpointStays(f: Machine, r: Run, steps: seq<Step>)
    requires Discreet(f) && StatesRoundTrip(f.serializer) && Shape(f, r) && Legal(f, r, steps)
    requires r.log.committed != [] && !Readable(f, r.log.committed[0])
    requires RecoversNormally(f, r, steps)
    ensures After(f, r, steps).log.committed == r.log.committed
    decreases |steps|
  {
    hide Tick, Shape, Apply, TakesOver;
    if steps != [] {
      StepKeepsShape(f, r, steps[0]);
      UnreadableCommitFails(f, r, steps[0]);
      UnreadableCheckpointStays(f, Apply(f, r, steps[0]), steps[1..]);
    }
  }

  /** The progress that a run starts from: the state, data and pending activities of its input. */
  function Origin(f: Machine, input: string): Option<Progress> {
    match StartState(f, input)
    case Err(_) => None
    case Ok(state) =>
      match f.serializer.decodeData(state.replicationData.stateData)
      case Err(_) => None
      case Ok(d) => Some(Resumed(Fresh(state.pendingActivities), state, d))
  }

  /** One uninterrupted fold over the events of successful ticks. */
  function Replay(f: Machine, r: Run, origin: Progress): Sweep {
    DecideAll(f, Env(r.workflowType, r.execution, 0), r.log.tracked, origin)
  }

  ghost predicate Matches(f: Machine, state: SerializedState, p: Progress) {
    && p.data.Ptr?
    && state.replicationData.stateName == p.state
    && state.replicationData.stateData == f.serializer.encodeData(p.data).text
    && state.pendingActivities == p.pending
  }

  /** The newest checkpoint is where the replay ends, and the decisions that normal states made in successful
      ticks are the replay's, up to the version in the inputs of continue-as-new decisions. */
  ghost predicate Replayed(f: Machine, r: Run) {
    if r.log.committed == [] then r.log.tracked == [] && r.log.decided == []
    else
      && AllOf(Events, r.log.tracked)
      && r.history != [] && r.history[|r.history| - 1].body.WorkflowExecutionStarted?
      && Origin(f, StartInput(r)).Some?
      && var replay := Replay(f, r, Origin(f, StartInput(r)).value);
         && replay.Done? && Matches(f, r.log.committed[0], replay.p)
         && DecisionsAgree(f.serializer, replay.p.decisions, r.log.decided)
  }

  /** The error state answers every error signal with neither data nor a state. */
  ghost predicate TransparentErrorState(f: Machine) {
    forall env, pending, e: Event :: e.body.ErrorSignal() ==> Transparent(f, env, pending, e)
  }

  /** Transparent error handling does not take over. */
  lemma TransparentErrorsTakeNothingOver(f: Machine, t: Task)
    requires TransparentErrorState(f) || ErrorSignals(Recent(t)) == []
    ensures !TakesOver(f, t)
  {
    var errors := ErrorSignals(Recent(t));
    if errors != [] && FindSerializedState(f, t.events).Ok? {
      forall e | e in errors
        ensures e.body.ErrorSignal()
      {
        ErrorSignalsMember(Recent(t), e);
      }
      var pending := FindSerializedState(f, t.events).value.pendingActivities;
      TransparentErrorsRecover(f, EnvOf(t), errors, Fresh(pending).(data := Ptr(f.zero), state := f.errorState.name));
    }
  }

  /** Error handling that does not take over has made decisions and nothing else. */
  lemma NoTakeoverLeavesDecisions(f: Machine, t: Task, pending: Pending)
    requires var phase := ErrorPhase(f, EnvOf(t), ErrorSignals(Recent(t)), pending); phase.Done? && Recovers(phase.p)
    ensures var phase := ErrorPhase(f, EnvOf(t), ErrorSignals(Recent(t)), pending);
            phase.p == Fresh(pending).(decisions := phase.p.decisions)
  {
    ErrorPhaseTracksNothing(f, t, pending);
  }

  lemma TickAfterRecovery(f: Machine, t: Task, state: SerializedState)
    requires FindSerializedState(f, t.events) == Ok(state)
    requires !TakesOver(f, t) && Tick(f, t).Success?
    ensures Readable(f, state)
    ensures var d := f.serializer.decodeData(state.replicationData.stateData).value;
            Tick(f, t) == FinishTick(f, EnvOf(t).(stateVersion := state.replicationData.stateVersion),
                            Deliverables(Recent(t)),
                            Resumed(Fresh(state.pendingActivities).(decisions := ErrorDecisions(f, t)), state, d))
  {
    hide ErrorPhase, FinishTick;
    var phase := ErrorPhase(f, EnvOf(t), ErrorSignals(Recent(t)), state.pendingActivities);
    assert phase.Done? && Recovers(phase.p);
    NoTakeoverLeavesDecisions(f, t, state.pendingActivities);
  }

  lemma OutsetIsLoaded(f: Machine, t: Task, state: SerializedState)
    requires FindSerializedState(f, t.events) == Ok(state) && !TakesOver(f, t)
    requires OutsetOf(f, t).Some? && Readable(f, state)
    ensures var d := f.serializer.decodeData(state.replicationData.stateData).value;
            OutsetOf(f, t).value == Outset(EnvOf(t).(stateVersion := state.replicationData.stateVersion),
              Resumed(Fresh(state.pendingActivities).(decisions := ErrorDecisions(f, t)), state, d))
  {
    hide ErrorPhase;
    NoTakeoverLeavesDecisions(f, t, state.pendingActivities);
  }

  /** From where, and under which version, a tick folds over its events once it has loaded a checkpoint. */
  function LoadedEnv(r: Run, state: SerializedState): Env {
    Env(r.workflowType, r.execution, state.replicationData.stateVersion)
  }

  function Loaded(f: Machine, state: SerializedState): Progress
    requires Readable(f, state)
  {
    Resumed(Fresh(state.pendingActivities), state, f.serializer.decodeData(state.replicationData.stateData).value)
  }

  lemma FinishTickMatches(f: Machine, env: Env, events: seq<Event>, p: Progress)
    requires FinishTick(f, env, events, p).Success?
    ensures var sweep := DecideAll(f, env, events, p);
            && sweep.Done?
            && FinishTick(f, env, events, p).checkpoint == CheckpointOf(f, sweep.p)
            && Decided(FinishTick(f, env, events, p)) == sweep.p.decisions
  {
  }

  /** A successful tick resumes from what it finds and folds; error signals add nothing but decisions. */
  lemma CleanTick(f: Machine, r: Run)
    requires Shape(f, r) && r.started.Some? && Tick(f, TaskOf(r)).Success?
    requires !TakesOver(f, TaskOf(r))
    ensures var found := FindSerializedState(f, r.history);
            && found.Ok? && Readable(f, found.value)
            && var sweep := DecideAll(f, LoadedEnv(r, found.value), Deliverables(Between(r)), Loaded(f, found.value));
               && sweep.Done?
               && Tick(f, TaskOf(r)).checkpoint == CheckpointOf(f, sweep.p)
               && (EndsNil(f, TaskOf(r)) <==> sweep.p.data == Nil)
               && NormalDecisions(f, TaskOf(r), Tick(f, TaskOf(r))) == sweep.p.decisions
  {
    hide Tick, TakesOver, FindSerializedState, DecideAll, FinishTick, ErrorDecisions, Decided;
    var t := TaskOf(r);
    TaskDecomposes(f, r);
    TickFromOutset(f, t);
    OutsetTracksNothing(f, t);
    var state := FindSerializedState(f, t.events).value;
    TickAfterRecovery(f, t, state);
    OutsetIsLoaded(f, t, state);
    var env, mine, prior := LoadedEnv(r, state), Deliverables(Between(r)), ErrorDecisions(f, t);
    var clean := Loaded(f, state);
    var start := clean.(decisions := prior);
    FinishTickMatches(f, env, mine, start);
    assert prior + [] == prior;
    DecideAllAlike(f, env, mine, start, clean, prior);
    DoneSeesAndTracksAll(f, env, mine, start);
    DoneSeesAndTracksAll(f, env, mine, clean);
  }

  /** The checkpoint and the replay it matches are on a level, so that both go on alike. */
  lemma LoadedIsLevel(f: Machine, state: SerializedState, p: Progress, decided: seq<Decision>)
    requires DataRoundTrips(f.serializer) && Readable(f, state)
    requires Matches(f, state, p) && DecisionsAgree(f.serializer, p.decisions, decided)
    ensures Level(f.serializer, p, Loaded(f, state), decided)
  {
    assert decided + [] == decided;
  }

  lemma NothingReplayed(f: Machine, r: Run, origin: Progress)
    requires r.log.tracked == []
    ensures Replay(f, r, origin) == Done(origin)
    ensures origin.decisions == [] ==> Level(f.serializer, origin, origin, [])
  {
  }

  /** A fold from the checkpoint continues the replay that the checkpoint matches. */
  lemma ReplayContinues(f: Machine, env: Env, version: uint64, mine: seq<Event>, older: seq<Event>,
                        origin: Progress, p: Progress, decided: seq<Decision>)
    requires VersionBlind(f) && AllOf(Events, mine) && p.decisions == []
    requires DecideAll(f, env, older, origin).Done?
    requires Level(f.serializer, DecideAll(f, env, older, origin).p, p, decided)
    requires DecideAll(f, env.(stateVersion := version), mine, p).Done?
    requires DecideAll(f, env.(stateVersion := version), mine, p).p.data.Ptr?
    ensures var sweep := DecideAll(f, env.(stateVersion := version), mine, p);
            var replay := DecideAll(f, env, mine + older, origin);
            && replay.Done? && Matches(f, CheckpointOf(f, sweep.p), replay.p)
            && DecisionsAgree(f.serializer, replay.p.decisions, decided + sweep.p.decisions)
  {
    hide DecideAll, VersionBlind, DecisionsAgree;
    DecideAllLevel(f, env, version, mine, DecideAll(f, env, older, origin).p, p, decided);
    DecideAllAppend(f, env, mine, older, origin);
  }

  lemma LogDecides(f: Machine, r: Run, step: Step)
    requires Enabled(f, r, step) && step.Commit?
    ensures var log, log', t := r.log, Apply(f, r, step).log, TaskOf(r);
            && (Tick(f, t).Success? ==> && log'.decided == log.decided + NormalDecisions(f, t, Tick(f, t))
                                        && log'.takeovers == log.takeovers + (if TakesOver(f, t) then 1 else 0)
                                        && log'.nils == log.nils + if EndsNil(f, t) then 1 else 0)
            && (Tick(f, t).Failure? ==> && log'.decided == log.decided && log'.takeovers == log.takeovers
                                        && log'.nils == log.nils)
  {
  }

  /** What the replay so far and the checkpoint to be recovered have in common. */
  lemma ReplayMeetsCheckpoint(f: Machine, r: Run)
    requires StatesRoundTrip(f.serializer) && DataRoundTrips(f.serializer) && Shape(f, r) && Replayed(f, r)
    requires FindSerializedState(f, r.history).Ok? && Readable(f, FindSerializedState(f, r.history).value)
    ensures Origin(f, StartInput(r)).Some?
    ensures var base := Replay(f, r, Origin(f, StartInput(r)).value);
            && base.Done?
            && Level(f.serializer, base.p, Loaded(f, FindSerializedState(f, r.history).value), r.log.decided)
  {
    hide DecisionsAgree, FindSerializedState;
    RecoversLastCheckpoint(f, r);
    var state := FindSerializedState(f, r.history).value;
    if r.log.committed == [] {
      NothingReplayed(f, r, Loaded(f, state));
    } else {
      LoadedIsLevel(f, state, Replay(f, r, Origin(f, StartInput(r)).value).p, r.log.decided);
    }
  }

  /** The fold over a task's events from the recovered checkpoint continues the replay. */
  lemma CommitContinuesReplay(f: Machine, r: Run, step: Step)
    requires Discreet(f) && VersionBlind(f)
    requires StatesRoundTrip(f.serializer) && DataRoundTrips(f.serializer)
    requires Shape(f, r) && Enabled(f, r, step) && step.Commit? && Tick(f, TaskOf(r)).Success?
    requires !TakesOver(f, TaskOf(r)) && !EndsNil(f, TaskOf(r)) && Replayed(f, r)
    ensures Replayed(f, Apply(f, r, step))
  {
    hide Tick, TakesOver, EndsNil, VersionBlind, DecisionsAgree, DecideAll, FindSerializedState, Matches, Level, Origin,
      Logged, NormalDecisions;
    EveryEventIsOfItsKind(Between(r));
    CleanTick(f, r);
    CommitMovesOn(f, r, step);
    StepKeepsStart(f, r, step);
    LogTracks(f, r, step);
    LogDecides(f, r, step);
    ReplayMeetsCheckpoint(f, r);
    var state := FindSerializedState(f, r.history).value;
    ReplayContinues(f, LoadedEnv(r, state).(stateVersion := 0), state.replicationData.stateVersion,
      Deliverables(Between(r)), r.log.tracked, Origin(f, StartInput(r)).value, Loaded(f, state), r.log.decided);
  }

  /** A failed tick leaves the newest checkpoint, and the replay with it. */
  lemma FailureKeepsReplayed(f: Machine, r: Run, step: Step)
    requires Discreet(f) && Shape(f, r) && Enabled(f, r, step) && step.Commit? && Tick(f, TaskOf(r)).Failure?
    requires Replayed(f, r)
    ensures Replayed(f, Apply(f, r, step))
  {
    hide Tick, Matches, DecideAll, DecisionsAgree, Origin, Logged;
    StepKeepsStart(f, r, step);
    LogTracks(f, r, step);
    LogDecides(f, r, step);
  }

  lemma QuietStepKeepsReplayed(f: Machine, r: Run, step: Step)
    requires Shape(f, r) && Enabled(f, r, step) && !step.Commit? && Replayed(f, r)
    ensures Replayed(f, Apply(f, r, step))
  {
    QuietStepMovesNothing(f, r, step);
  }

  /** Every successful tick loaded its state and data, and left data to load. */
  ghost predicate Resumable(r: Run) {
    r.log.takeovers == 0 && r.log.nils == 0
  }

  lemma ResumableBefore(f: Machine, r: Run, step: Step)
    requires Enabled(f, r, step) && Resumable(Apply(f, r, step))
    ensures Resumable(r)
    ensures step.Commit? && Tick(f, TaskOf(r)).Success? ==> !TakesOver(f, TaskOf(r)) && !EndsNil(f, TaskOf(r))
  {
    hide Tick, TakesOver, EndsNil;
    if step.Commit? {
      LogDecides(f, r, step);
    }
  }

  lemma StepKeepsReplayed(f: Machine, r: Run, step: Step)
    requires Discreet(f) && VersionBlind(f)
    requires StatesRoundTrip(f.serializer) && DataRoundTrips(f.serializer)
    requires Shape(f, r) && Enabled(f, r, step) && (Resumable(r) ==> Replayed(f, r))
    ensures Resumable(Apply(f, r, step)) ==> Replayed(f, Apply(f, r, step))
  {
    hide Tick, Replayed, TakesOver, EndsNil, VersionBlind, Resumable;
    if Resumable(Apply(f, r, step)) {
      ResumableBefore(f, r, step);
      if !step.Commit? {
        QuietStepKeepsReplayed(f, r, step);
      } else if Tick(f, TaskOf(r)).Success? {
        CommitContinuesReplay(f, r, step);
      } else {
        FailureKeepsReplayed(f, r, step);
      }
    }
  }

  lemma StepEndsNothingNil(f: Machine, r: Run, step: Step)
    requires DataNeverNil(f) && Enabled(f, r, step) && (r.log.takeovers == 0 ==> r.log.nils == 0)
    ensures Apply(f, r, step).log.takeovers == 0 ==> Apply(f, r, step).log.nils == 0
  {
    hide Tick, TakesOver, EndsNil, DataNeverNil;
    if step.Commit? {
      LogDecides(f, r, step);
      if !TakesOver(f, TaskOf(r)) {
        NeverEndsNil(f, TaskOf(r));
      }
    }
  }

  lemma NoErrorsInTask(r: Run)
    requires r.started.Some? && r.previous <= r.started.value <= |r.history| && ErrorSignals(r.history) == []
    requires Upto(r.history, r.started.value) == Between(r) + Upto(r.history, r.previous)
    ensures ErrorSignals(Between(r)) == []
  {
    var h, s := r.history, r.started.value;
    assert h == h[..|h| - s] + (Between(r) + Upto(h, r.previous));
    ErrorSignalsAppend(h[..|h| - s], Between(r) + Upto(h, r.previous));
    ErrorSignalsAppend(Between(r), Upto(h, r.previous));
  }

  lemma ErrorsStay(history: seq<Event>, grown: seq<Event>)
    requires |grown| >= |history| && grown[|grown| - |history|..] == history
    ensures ErrorSignals(grown) == [] ==> ErrorSignals(history) == []
  {
    var n := |grown| - |history|;
    assert grown == grown[..n] + history;
    ErrorSignalsAppend(grown[..n], history);
  }

  lemma StepTakesNothingOver(f: Machine, r: Run, step: Step)
    requires Discreet(f) && Shape(f, r) && Enabled(f, r, step)
    requires TransparentErrorState(f) || ErrorSignals(Apply(f, r, step).history) == []
    ensures TransparentErrorState(f) || ErrorSignals(r.history) == []
    ensures Apply(f, r, step).log.takeovers == r.log.takeovers
  {
    hide Tick, TransparentErrorState, TakesOver, ErrorSignals, Numbered, Markers, Extend, Logged, FindSerializedState;
    StepKeepsShape(f, r, step);
    ErrorsStay(r.history, Apply(f, r, step).history);
    if step.Commit? {
      TaskDecomposes(f, r);
      if ErrorSignals(r.history) == [] {
        NoErrorsInTask(r);
      }
      TransparentErrorsTakeNothingOver(f, TaskOf(r));
      LogDecides(f, r, step);
    }
  }

  // ----- theorems over whole runs -----

  /** What discreet deciders alone keep. */
  ghost predicate Kept(f: Machine, r: Run) {
    Shape(f, r) && Delivery(r) && Replication(f, r.log)
  }

  ghost predicate Sound(f: Machine, r: Run) {
    Kept(f, r) && Tracking(r)
  }

  lemma {:induction false} RunsHistoriesGrow(f: Machine, r: Run, steps: seq<Step>)
    requires Discreet(f) && Shape(f, r) && Legal(f, r, steps)
    ensures ErrorSignals(After(f, r, steps).history) == [] ==> ErrorSignals(r.history) == []
    decreases |steps|
  {
    hide Tick, Shape, Apply;
    if steps != [] {
      StepKeepsShape(f, r, steps[0]);
      ErrorsStay(r.history, Apply(f, r, steps[0]).history);
      RunsHistoriesGrow(f, Apply(f, r, steps[0]), steps[1..]);
    }
  }

  /** Without error signals, or with an error state that is transparent, no tick is ever taken over. */
  lemma {:induction false} UndisturbedRunsTakeNothingOver(f: Machine, r: Run, steps: seq<Step>)
    requires Discreet(f) && Shape(f, r) && Legal(f, r, steps)
    requires TransparentErrorState(f) || ErrorSignals(After(f, r, steps).history) == []
    ensures After(f, r, steps).log.takeovers == r.log.takeovers
    decreases |steps|
  {
    hide Tick, Shape, Apply, TransparentErrorState;
    if steps != [] {
      StepKeepsShape(f, r, steps[0]);
      RunsHistoriesGrow(f, Apply(f, r, steps[0]), steps[1..]);
      StepTakesNothingOver(f, r, steps[0]);
      UndisturbedRunsTakeNothingOver(f, Apply(f, r, steps[0]), steps[1..]);
    }
  }

  /** Where no decider answers data with nil, nil data are left only by ticks that were taken over. */
  lemma {:induction false} RunsEndNothingNil(f: Machine, r: Run, steps: seq<Step>)
    requires DataNeverNil(f) && Legal(f, r, steps) && (r.log.takeovers == 0 ==> r.log.nils == 0)
    ensures After(f, r, steps).log.takeovers == 0 ==> After(f, r, steps).log.nils == 0
    decreases |steps|
  {
    hide Tick, Apply, DataNeverNil;
    if steps != [] {
      StepEndsNothingNil(f, r, steps[0]);
      RunsEndNothingNil(f, Apply(f, r, steps[0]), steps[1..]);
    }
  }

  lemma {:induction false} RunsStayKept(f: Machine, r: Run, steps: seq<Step>)
    requires Discreet(f) && Kept(f, r) && Legal(f, r, steps)
    ensures Kept(f, After(f, r, steps))
    decreases |steps|
  {
    hide Tick;
    if steps != [] {
      StepKeepsShape(f, r, steps[0]);
      StepKeepsDelivery(f, r, steps[0]);
      StepKeepsReplication(f, r, steps[0]);
      RunsStayKept(f, Apply(f, r, steps[0]), steps[1..]);
    }
  }

  lemma {:induction false} RunsStaySound(f: Machine, r: Run, steps: seq<Step>)
    requires Discreet(f) && StatesRoundTrip(f.serializer)
    requires Sound(f, r) && StartsIdle(f, StartInput(r)) && Legal(f, r, steps)
    ensures Sound(f, After(f, r, steps)) && StartInput(After(f, r, steps)) == StartInput(r)
    decreases |steps|
  {
    hide Tick;
    if steps != [] {
      StepKeepsStart(f, r, steps[0]);
      StepKeepsDelivery(f, r, steps[0]);
      StepKeepsTracking(f, r, steps[0]);
      StepKeepsReplication(f, r, steps[0]);
      RunsStaySound(f, Apply(f, r, steps[0]), steps[1..]);
    }
  }

  lemma BeginsSound(f: Machine, execution: WorkflowExecution, workflowType: WorkflowType, input: string)
    ensures var r := Begin(execution, workflowType, input); Sound(f, r) && StartInput(r) == input
  {
    BeginsInShape(f, execution, workflowType, input);
    assert Upto(Begin(execution, workflowType, input).history, 0) == [];
  }

  /** However a run is cut into tasks, whatever events arrive meanwhile, and however many ticks are lost,
      time out or fail: delivery is in order and at most once, and exactly once for every event that does not
      belong to the task of a failed tick. */
  lemma ExactlyOnceDelivery(f: Machine, execution: WorkflowExecution, workflowType: WorkflowType, input: string,
                            steps: seq<Step>)
    requires Discreet(f) && Legal(f, Begin(execution, workflowType, input), steps)
    ensures Delivery(After(f, Begin(execution, workflowType, input), steps))
  {
    BeginsSound(f, execution, workflowType, input);
    RunsStayKept(f, Begin(execution, workflowType, input), steps);
  }

  /** The newest checkpoint's pending activities are exactly the activities that were scheduled and not
      ended by the events of successful ticks, each under its own event with its own ID and type; and those
      are all deliverable events before the last committed start but for the ones lost in failed ticks. */
  lemma CorrelatorAcrossTicks(f: Machine, execution: WorkflowExecution, workflowType: WorkflowType, input: string,
                              steps: seq<Step>)
    requires Discreet(f) && StatesRoundTrip(f.serializer) && StartsIdle(f, input)
    requires Legal(f, Begin(execution, workflowType, input), steps)
    ensures var r := After(f, Begin(execution, workflowType, input), steps);
            && (r.log.committed != [] ==> HoldsExactlyOpen(r.log.committed[0].pendingActivities, r.log.tracked))
            && Accounted(r)
  {
    BeginsSound(f, execution, workflowType, input);
    RunsStaySound(f, Begin(execution, workflowType, input), steps);
    PendingIsExactlyOpen(After(f, Begin(execution, workflowType, input), steps).log.tracked);
  }

  /** The record encodes what the state marker at its position in the history decodes to. */
  ghost predicate ReplicatesMarker(f: Machine, markers: seq<string>, record: Record) {
    && record.position < |markers|
    && var state := f.serializer.decodeState(markers[|markers| - 1 - record.position]);
       state.Ok? && record.text == f.serializer.encodeReplication(state.value.replicationData).text
  }

  /** Records on the stream follow the committed checkpoints, which are the state markers of the history:
      each record is the one for a marker there, in the markers' order, and no marker has two. */
  lemma ReplicationFollowsCommit(f: Machine, execution: WorkflowExecution, workflowType: WorkflowType, input: string,
                                 steps: seq<Step>)
    requires Discreet(f) && Legal(f, Begin(execution, workflowType, input), steps)
    ensures var r := After(f, Begin(execution, workflowType, input), steps);
            && Replication(f, r.log) && Markers(r.history) == Texts(f, r.log.committed)
            && (StatesRoundTrip(f.serializer) ==>
                 forall i :: 0 <= i < |r.log.records| ==> ReplicatesMarker(f, Markers(r.history), r.log.records[i]))
  {
    BeginsSound(f, execution, workflowType, input);
    RunsStayKept(f, Begin(execution, workflowType, input), steps);
    if StatesRoundTrip(f.serializer) {
      RecordsReplicateMarkers(f, After(f, Begin(execution, workflowType, input), steps));
    }
  }

  lemma RecordsReplicateMarkers(f: Machine, r: Run)
    requires Kept(f, r) && StatesRoundTrip(f.serializer)
    ensures forall i :: 0 <= i < |r.log.records| ==> ReplicatesMarker(f, Markers(r.history), r.log.records[i])
  {
    hide Markers;
    forall i | 0 <= i < |r.log.records|
      ensures ReplicatesMarker(f, Markers(r.history), r.log.records[i])
    {
      var c := r.log.committed[|r.log.committed| - 1 - r.log.records[i].position];
      assert f.serializer.encodeState(c).Fine();
    }
  }

  lemma {:induction false} RunsStayReplayed(f: Machine, r: Run, steps: seq<Step>)
    requires Discreet(f) && VersionBlind(f)
    requires StatesRoundTrip(f.serializer) && DataRoundTrips(f.serializer)
    requires Shape(f, r) && (Resumable(r) ==> Replayed(f, r)) && Legal(f, r, steps)
    ensures var r' := After(f, r, steps); Shape(f, r') && (Resumable(r') ==> Replayed(f, r'))
    decreases |steps|
  {
    hide Tick, VersionBlind, Replayed, Resumable;
    if steps != [] {
      StepKeepsShape(f, r, steps[0]);
      StepKeepsReplayed(f, r, steps[0]);
      RunsStayReplayed(f, Apply(f, r, steps[0]), steps[1..]);
    }
  }

  /** In every run in which no successful tick was taken over by error handling or left nil data, whatever
      ticks failed and whatever error signals were handled, the newest checkpoint, which is what the next tick
      recovers, holds the state, data and pending activities of one fold of the deciders over the events of
      successful ticks, and the decisions of normal states are that fold's. Those events are all deliverable
      events before the last committed start but for the ones lost in failed ticks. */
  lemma CheckpointingRefinesReplay(f: Machine, execution: WorkflowExecution, workflowType: WorkflowType, input: string,
                                   steps: seq<Step>)
    requires Discreet(f) && VersionBlind(f)
    requires StatesRoundTrip(f.serializer) && DataRoundTrips(f.serializer)
    requires Legal(f, Begin(execution, workflowType, input), steps)
    requires Resumable(After(f, Begin(execution, workflowType, input), steps))
    ensures var r := After(f, Begin(execution, workflowType, input), steps);
            && Replayed(f, r) && Accounted(r)
            && (r.log.committed != [] ==> FindSerializedState(f, r.history) == Ok(r.log.committed[0]))
  {
    hide VersionBlind;
    var r := Begin(execution, workflowType, input);
    BeginsSound(f, execution, workflowType, input);
    RunsStayKept(f, r, steps);
    RunsStayReplayed(f, r, steps);
    RecoversLastCheckpoint(f, After(f, r, steps));
  }

  /** The same for every run of a machine whose error state is transparent, and for every run without error
      signals. Where nothing was lost, the fold is over all deliverable events. */
  lemma TransparentRunsRefineReplay(f: Machine, execution: WorkflowExecution, workflowType: WorkflowType, input: string,
                                    steps: seq<Step>)
    requires Discreet(f) && VersionBlind(f) && DataNeverNil(f)
    requires StatesRoundTrip(f.serializer) && DataRoundTrips(f.serializer)
    requires Legal(f, Begin(execution, workflowType, input), steps)
    requires TransparentErrorState(f) ||
               ErrorSignals(After(f, Begin(execution, workflowType, input), steps).history) == []
    ensures var r := After(f, Begin(execution, workflowType, input), steps);
            && Replayed(f, r) && r.previous <= |r.history|
            && (r.log.lost == [] ==> r.log.tracked == Deliverables(Upto(r.history, r.previous)))
            && (r.log.committed != [] ==> FindSerializedState(f, r.history) == Ok(r.log.committed[0]))
  {
    hide VersionBlind, DataNeverNil, TransparentErrorState;
    BeginsInShape(f, execution, workflowType, input);
    UndisturbedRunsTakeNothingOver(f, Begin(execution, workflowType, input), steps);
    RunsEndNothingNil(f, Begin(execution, workflowType, input), steps);
    CheckpointingRefinesReplay(f, execution, workflowType, input, steps);
  }

  lemma FailureCommitsNothing(f: Machine, r: Run, step: Step)
    requires Enabled(f, r, step) && step.Commit? && Tick(f, TaskOf(r)).Failure?
    ensures Apply(f, r, step).log.committed == r.log.committed
  {
  }

  lemma SameCheckpointsSameRecovery(f: Machine, r: Run, r': Run)
    requires Shape(f, r) && Shape(f, r') && StartInput(r) == StartInput(r') && r.log.committed == r'.log.committed
    ensures FindSerializedState(f, r'.history) == FindSerializedState(f, r.history)
    ensures Markers(r'.history) == Markers(r.history)
  {
    FindNewestMarker(f, r.history);
    FindNewestMarker(f, r'.history);
  }

  /** Committing a failed tick leaves what the next tick will recover as it was. */
  lemma FailedCommitMovesNothing(f: Machine, r: Run, step: Step)
    requires Discreet(f) && Shape(f, r) && Enabled(f, r, step) && step.Commit? && Tick(f, TaskOf(r)).Failure?
    ensures var r' := Apply(f, r, step);
            && FindSerializedState(f, r'.history) == FindSerializedState(f, r.history)
            && Markers(r'.history) == Markers(r.history)
  {
    FailureCommitsNothing(f, r, step);
    StepKeepsStart(f, r, step);
    SameCheckpointsSameRecovery(f, r, Apply(f, r, step));
  }
}
