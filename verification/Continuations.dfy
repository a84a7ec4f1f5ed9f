/** Continue-as-new: what the next run recovers, and when it is safe to decide it. */
module Continuations {
  import opened Protocol
  import opened Correlator
  import opened Model
  import opened Engine
  import opened Deciders
  import opened TickLaws
  import opened Runs
  import opened RunLaws

  // ----- the hand-off -----

  /** The state that a continue-as-new decision made in a context hands over. */
  function HandedOver(ctx: Context, continuedState: string): SerializedState {
    SerializedState(
      ReplicationData(ctx.stateVersion, continuedState, ctx.serializer.encodeData(ctx.stateData).text), map[])
  }

  lemma DecisionCarriesState(f: Machine, ctx: Context, continuedState: string, d: Decision)
    requires ctx.serializer == f.serializer && StatesRoundTrip(f.serializer)
    requires ContinueWorkflowDecision(ctx, continuedState) == Ok(d)
    ensures d.ContinueAsNewWorkflowExecution?
    ensures f.serializer.decodeState(d.input) == Ok(HandedOver(ctx, continuedState))
  {
  }

  /** A run started from the input of a continue-as-new decision has nothing pending, keeps the version,
      and recovers the state and data held before the event at which the decision was made. It does so
      exactly when there were data and a named state, or the unnamed state is the initial one. */
  lemma ContinuedRunRecovers(f: Machine, env: Env, p: Progress, d: Decision)
    requires StatesRoundTrip(f.serializer) && DataRoundTrips(f.serializer)
    requires ContinueWorkflowDecision(ContextOf(f, env, p), p.state) == Ok(d)
    ensures d.ContinueAsNewWorkflowExecution?
    ensures var found := FindSerializedState(f, Begin(env.execution, env.workflowType, d.input).history);
            && found.Ok? && found.value.pendingActivities == map[]
            && found.value.replicationData.stateVersion == env.stateVersion
            && found.value.replicationData.stateData == f.serializer.encodeData(p.data).text
    ensures Origin(f, d.input).Some?
            && Origin(f, d.input).value.state == p.state && Origin(f, d.input).value.data == p.data
            <==> p.data.Ptr? && (p.state != "" || f.initialState.name == "")
    ensures Origin(f, d.input).Some? ==> && Origin(f, d.input).value.pending == map[]
                                         && Origin(f, d.input).value.stateVersion == env.stateVersion
  {
    DecisionCarriesState(f, ContextOf(f, env, p), p.state, d);
  }

  /** A run started from StartFSMWorkflowInput recovers the initial state, the data given, version 0 and
      nothing pending; one from ContinueFSMWorkflowInput the same with the version of its context. */
  lemma StartInputsRecover(f: Machine, ctx: Context, d: Data)
    requires StatesRoundTrip(f.serializer) && DataRoundTrips(f.serializer) && ctx.serializer == f.serializer
    ensures var input := StartFSMWorkflowInput(f.serializer, Ptr(d));
            input.Some? ==> Origin(f, input.value) == Some(Fresh(map[]).(data := Ptr(d), state := f.initialState.name))
    ensures var input := ContinueFSMWorkflowInput(ctx, f.initialState.name, Ptr(d));
            input.Some? ==> Origin(f, input.value) == Some(Fresh(map[]).(
              data := Ptr(d), state := f.initialState.name, stateVersion := ctx.stateVersion))
  {
    var encoded := f.serializer.encodeData(Ptr(d));
    assert encoded.Fine() ==> f.serializer.decodeData(encoded.text) == Ok(d);
    EncodedStateDecodes(f, SerializedState(ReplicationData(0, "", encoded.text), map[]));
    EncodedStateDecodes(f, SerializedState(
      ReplicationData(ctx.stateVersion, f.initialState.name, encoded.text), map[]));
  }

  lemma EncodedStateDecodes(f: Machine, state: SerializedState)
    requires StatesRoundTrip(f.serializer)
    ensures var encoded := f.serializer.encodeState(state);
            encoded.Fine() ==> f.serializer.decodeState(encoded.text) == Ok(state)
  {
  }

  /** Managed continuations alone answer the `k`-th newest event of the task, after the older ones have led to
      `p`, and continue the workflow. */
  ghost predicate Continues(f: Machine, t: Task, k: int, p: Progress, historySize: int, timerRetrySeconds: int) {
    && OutsetOf(f, t).Some? && 0 <= k < |Deliverables(Recent(t))|
    && DecideAll(f, OutsetOf(f, t).value.env, Deliverables(Recent(t))[k + 1..], OutsetOf(f, t).value.p) == Done(p)
    && p.state in f.states && p.state != ""
    && var ctx, e := ContextOf(f, OutsetOf(f, t).value.env, p), Deliverables(Recent(t))[k];
       var verdict := ManagedContinuations(historySize, timerRetrySeconds)(ctx, e, p.data);
       && f.states[p.state].decider(ctx, e, p.data) == verdict
       && exists d :: d in DecisionsOf(verdict) && d.ContinueAsNewWorkflowExecution?
  }

  lemma TheAttempt(ctx: Context, e: Event, data: Value, historySize: int, timerRetrySeconds: int) returns (d: Decision)
    requires exists x :: x in DecisionsOf(ManagedContinuations(historySize, timerRetrySeconds)(ctx, e, data))
                         && x.ContinueAsNewWorkflowExecution?
    ensures Triggers(e) && ctx.pendingActivities == map[] && ContinueWorkflowDecision(ctx, ctx.state) == Ok(d)
    ensures ManagedContinuations(historySize, timerRetrySeconds)(ctx, e, data) == Returned(StayOutcome(data, [d]))
  {
    ContinuesOnlyWhenNothingPends(historySize, timerRetrySeconds, ctx, e, data);
    ManagedContinuationsTable(historySize, timerRetrySeconds, ctx, e, data);
    d := ContinueWorkflowDecision(ctx, ctx.state).value;
  }

  /** The trigger adds its decision, and leaves state, data and pending activities as they were. */
  lemma TriggerAnswered(f: Machine, env: Env, p: Progress, e: Event, d: Decision)
    requires Triggers(e) && p.pending == map[] && p.state in f.states
    requires f.states[p.state].decider(ContextOf(f, env, p), e, p.data) == Returned(StayOutcome(p.data, [d]))
    ensures Decide(f, env, p, e) == Moved(p.(seen := p.seen + [e], decisions := p.decisions + [d]))
  {
  }

  lemma FoldThrough(f: Machine, env: Env, events: seq<Event>, k: nat, p0: Progress, p: Progress, q: Progress)
    requires k < |events| && DecideAll(f, env, events[k + 1..], p0) == Done(p)
    requires Decide(f, env, p, events[k]) == Moved(q)
    ensures DecideAll(f, env, events, p0) == DecideAll(f, env, events[..k], q)
  {
    hide Decide;
    var here := [events[k]];
    assert events == events[..k] + (here + events[k + 1..]);
    assert here[..0] == [];
    DecideAllAppend(f, env, here, events[k + 1..], p0);
    DecideAllAppend(f, env, events[..k], here + events[k + 1..], p0);
  }

  /** After the whole task the state and data are as they were when the trigger came, and nothing pends. */
  predicate ComesBack(f: Machine, t: Task, p: Progress)
    requires OutsetOf(f, t).Some?
  {
    var end := DecideAll(f, OutsetOf(f, t).value.env, Deliverables(Recent(t)), OutsetOf(f, t).value.p).p;
    && end.state == p.state && end.pending == map[]
    && f.serializer.encodeData(end.data).text == f.serializer.encodeData(p.data).text
  }

  lemma CheckpointComesBack(f: Machine, t: Task, p: Progress)
    requires Tick(f, t).Success? && OutsetOf(f, t).Some?
    ensures var handed := HandedOver(ContextOf(f, OutsetOf(f, t).value.env, p), p.state);
            && (SameStateButVersion(handed, Tick(f, t).checkpoint) <==> ComesBack(f, t, p))
            && NextVersion(handed.replicationData.stateVersion) == Tick(f, t).checkpoint.replicationData.stateVersion
  {
    hide Tick, OutsetOf, FindSerializedState, TakesOver, DecideAll;
    var s := OutsetOf(f, t).value;
    TickFromOutset(f, t);
    OutsetVersion(f, t);
    FinishTickMatches(f, s.env, Deliverables(Recent(t)), s.p);
    DoneSeesAndTracksAll(f, s.env, Deliverables(Recent(t)), s.p);
  }

  /** A trigger may come before other events of its task. What it hands over is what the tick's own marker
      says, one version earlier, if and only if the newer events come back to the state and data that it
      found, and leave nothing pending. */
  lemma HandOffMatchesIffComesBack(f: Machine, t: Task, k: int, p: Progress, historySize: int, timerRetrySeconds: int)
    returns (d: Decision)
    requires StatesRoundTrip(f.serializer)
    requires Tick(f, t).Success? && Continues(f, t, k, p, historySize, timerRetrySeconds)
    ensures d.ContinueAsNewWorkflowExecution? && p.decisions + [d] <= Decided(Tick(f, t))
    ensures var found := StartState(f, d.input);
            && found.Ok? && found.value.pendingActivities == map[]
            && found.value.replicationData.stateName == p.state
            && f.serializer.encodeData(p.data).Fine()
            && found.value.replicationData.stateData == f.serializer.encodeData(p.data).text
            && (SameStateButVersion(found.value, Tick(f, t).checkpoint) <==> ComesBack(f, t, p))
            && NextVersion(found.value.replicationData.stateVersion)
               == Tick(f, t).checkpoint.replicationData.stateVersion
    ensures k == 0 ==> ComesBack(f, t, p) && (EndsNil(f, t) <==> p.data == Nil)
    ensures k == 0 ==> Decided(Tick(f, t)) == p.decisions + [d]
  {
    hide Tick, OutsetOf, DecideAll, ManagedContinuations, Deliverables, NextVersion, ComesBack, EndsNil, Decided,
      FinishTick, SameStateButVersion;
    var s, events := OutsetOf(f, t).value, Deliverables(Recent(t));
    var ctx, e := ContextOf(f, s.env, p), events[k];
    d := TheAttempt(ctx, e, p.data, historySize, timerRetrySeconds);
    DecisionCarriesState(f, ctx, p.state, d);
    TriggerAnswered(f, s.env, p, e, d);
    var q := p.(seen := p.seen + [e], decisions := p.decisions + [d]);
    FoldThrough(f, s.env, events, k, s.p, p, q);
    DecisionsGrow(f, s.env, events[..k], q);
    TickFromOutset(f, t);
    FinishTickDecides(f, s.env, events, s.p);
    CheckpointComesBack(f, t, p);
    if k == 0 {
      NothingNewer(f, s.env, events, q);
      BackAtOnce(f, t, p, q);
    }
  }

  lemma NothingNewer(f: Machine, env: Env, events: seq<Event>, q: Progress)
    ensures DecideAll(f, env, events[..0], q) == Done(q)
  {
  }

  lemma BackAtOnce(f: Machine, t: Task, p: Progress, q: Progress)
    requires OutsetOf(f, t).Some?
    requires DecideAll(f, OutsetOf(f, t).value.env, Deliverables(Recent(t)), OutsetOf(f, t).value.p) == Done(q)
    requires q.state == p.state && q.data == p.data && q.pending == map[]
    ensures ComesBack(f, t, p) && (EndsNil(f, t) <==> p.data == Nil)
  {
  }

  /** For data that are not nil, coming back to the same text is coming back to the same data. */
  lemma SameTextSameData(f: Machine, v: Value, w: Value)
    requires DataRoundTrips(f.serializer) && v.Ptr? && w.Ptr? && f.serializer.encodeData(v).Fine()
    ensures f.serializer.encodeData(w).text == f.serializer.encodeData(v).text <==> w == v
  {
    if f.serializer.encodeData(w).text == f.serializer.encodeData(v).text {
      assert f.serializer.decodeData(f.serializer.encodeData(Ptr(v.data)).text) == Ok(v.data);
      assert f.serializer.encodeData(Ptr(w.data)).Fine();
    }
  }

  /** When the trigger is the last event, they always match, and the trigger's decision is the tick's last. */
  lemma HandOffMatchesFinalMarker(f: Machine, t: Task, p: Progress, historySize: int, timerRetrySeconds: int)
    requires StatesRoundTrip(f.serializer)
    requires Tick(f, t).Success? && Continues(f, t, 0, p, historySize, timerRetrySeconds)
    ensures var ds := Decided(Tick(f, t));
            && |ds| == |p.decisions| + 1 && ds[|ds| - 1].ContinueAsNewWorkflowExecution?
            && var found := StartState(f, ds[|ds| - 1].input);
               && found.Ok? && SameStateButVersion(found.value, Tick(f, t).checkpoint)
               && found.value.pendingActivities == map[]
               && NextVersion(found.value.replicationData.stateVersion)
                  == Tick(f, t).checkpoint.replicationData.stateVersion
  {
    hide Tick, OutsetOf, DecideAll, Continues, ComesBack, Decided, SameStateButVersion;
    var d := HandOffMatchesIffComesBack(f, t, 0, p, historySize, timerRetrySeconds);
  }

  // ----- safe continuation -----

  /** The event is the `n`-th newest of the running task, and `p` is the progress when its turn comes. */
  ghost predicate Turn(f: Machine, r: Run, n: nat, p: Progress) {
    && r.started.Some? && r.previous <= r.started.value <= |r.history|
    && n < |Deliverables(Between(r))|
    && OutsetOf(f, TaskOf(r)).Some?
    && var start := OutsetOf(f, TaskOf(r)).value;
       DecideAll(f, start.env, Deliverables(Between(r))[n + 1..], start.p) == Done(p)
  }

  /** The events that count as processed at that turn: the task's older ones and those of successful ticks. */
  function Past(r: Run, n: nat): seq<Event>
    requires r.started.Some? && r.previous <= r.started.value <= |r.history| && n < |Deliverables(Between(r))|
  {
    Deliverables(Between(r))[n + 1..] + r.log.tracked
  }

  /** Some event of the list ended, later, the activity that `a` scheduled. */
  ghost predicate EndedIn(events: seq<Event>, a: Event) {
    exists x :: x in events && Ends(x, a.id) && x.id > a.id
  }

  /** All activities scheduled in `events` were ended in `all`. */
  ghost predicate SchedulesEnded(events: seq<Event>, all: seq<Event>) {
    forall a :: a in events && a.body.ActivityTaskScheduled? ==> EndedIn(all, a)
  }

  /** The older events of the running task come after everything that was tracked. */
  lemma PastDescends(f: Machine, r: Run, n: nat)
    requires Shape(f, r) && Accounted(r) && r.started.Some? && n < |Deliverables(Between(r))|
    ensures Descending(Past(r, n))
  {
    hide Deliverables, Between, Upto;
    TasksAreOrdered(f, r);
    var mine := Deliverables(Between(r))[n + 1..];
    assert forall e :: e in mine ==> e in Deliverables(Between(r));
    DividedOn(mine, Deliverables(Upto(r.history, r.previous)), r.log.tracked, r.log.lost, r.previous);
  }

  /** A decider sees exactly the open activities of the events processed before its own. */
  lemma DeciderSeesPastPending(f: Machine, r: Run, n: nat, p: Progress)
    requires Discreet(f) && StatesRoundTrip(f.serializer)
    requires Sound(f, r) && StartsIdle(f, StartInput(r)) && Turn(f, r, n, p)
    ensures p.pending == TrackedAll(map[], Past(r, n)) && Descending(Past(r, n))
  {
    hide Tick, OutsetOf, DecideAll, FindSerializedState, Deliverables, Descending;
    var t, mine := TaskOf(r), Deliverables(Between(r));
    PastDescends(f, r, n);
    TaskDecomposes(f, r);
    OutsetTracksNothing(f, t);
    RecoversTracked(f, r);
    var s := OutsetOf(f, t).value;
    DoneSeesAndTracksAll(f, s.env, mine[n + 1..], s.p);
    TrackedAllAppend(map[], mine[n + 1..], r.log.tracked);
  }

  /** At every turn of every run the decider's context holds exactly the activities scheduled and not ended
      by the events processed so far, and an event that ends one of them finds its info. */
  lemma DecidersSeeExactlyOpen(f: Machine, r0: Run, steps: seq<Step>, n: nat, p: Progress)
    requires Discreet(f) && StatesRoundTrip(f.serializer)
    requires Sound(f, r0) && StartsIdle(f, StartInput(r0)) && Legal(f, r0, steps)
    requires Turn(f, After(f, r0, steps), n, p)
    ensures var r := After(f, r0, steps);
            var e := Deliverables(Between(r))[n];
            && HoldsExactlyOpen(p.pending, Past(r, n))
            && forall i :: OpenAt(Past(r, n), i) && Ends(e, Past(r, n)[i].id) ==>
                 Lookup(p.pending, e) == Some(InfoOf(Past(r, n)[i]))
  {
    hide Tick, OutsetOf, Digits, Itoa;
    RunsStaySound(f, r0, steps);
    var r := After(f, r0, steps);
    DeciderSeesPastPending(f, r, n, p);
    PendingIsExactlyOpen(Past(r, n));
    forall i | OpenAt(Past(r, n), i) && Ends(Deliverables(Between(r))[n], Past(r, n)[i].id)
      ensures Lookup(p.pending, Deliverables(Between(r))[n]) == Some(InfoOf(Past(r, n)[i]))
    {
      EndingEventFindsItsActivity(Past(r, n), i, Deliverables(Between(r))[n]);
    }
  }

  lemma PendingEmptyIffAllEnded(events: seq<Event>)
    requires Descending(events)
    ensures TrackedAll(map[], events) == map[] <==> SchedulesEnded(events, events)
  {
    hide Digits, Itoa, TrackedAll, Ends, EndedIn;
    var p := TrackedAll(map[], events);
    PendingIsExactlyOpen(events);
    if p == map[] {
      forall a | a in events && a.body.ActivityTaskScheduled?
        ensures EndedIn(events, a)
      {
        var i :| 0 <= i < |events| && events[i] == a;
        OpenOrEnded(events, i);
      }
    } else {
      var key :| key in p;
      var i :| OpenAt(events, i) && key == Itoa(events[i].id);
      OpenMeansNotEnded(events, i);
    }
  }

  lemma OpenOrEnded(events: seq<Event>, i: nat)
    requires Descending(events) && i < |events| && events[i].body.ActivityTaskScheduled?
    ensures OpenAt(events, i) || EndedIn(events, events[i])
  {
  }

  lemma OpenMeansNotEnded(events: seq<Event>, i: int)
    requires Descending(events) && OpenAt(events, i)
    ensures 0 <= i < |events| && events[i].body.ActivityTaskScheduled? && !EndedIn(events, events[i])
  {
  }

  /** At every turn of every run, managed continuations continue the workflow only if every activity
      scheduled by a processed event was ended by a later processed event; a trigger gets exactly one retry
      timer if and only if some such activity was not. */
  lemma SafeContinuation(f: Machine, r0: Run, steps: seq<Step>, n: nat, p: Progress, data: Value,
                         historySize: int, timerRetrySeconds: int)
    requires Discreet(f) && StatesRoundTrip(f.serializer)
    requires Sound(f, r0) && StartsIdle(f, StartInput(r0)) && Legal(f, r0, steps)
    requires Turn(f, After(f, r0, steps), n, p)
    ensures var r := After(f, r0, steps);
            var e := Deliverables(Between(r))[n];
            var ctx := ContextOf(f, OutsetOf(f, TaskOf(r)).value.env, p);
            var ds := DecisionsOf(ManagedContinuations(historySize, timerRetrySeconds)(ctx, e, data));
            && ((exists d :: d in ds && d.ContinueAsNewWorkflowExecution?) ==>
                 Triggers(e) && SchedulesEnded(Past(r, n), Past(r, n)))
            && (Triggers(e) ==>
                 (ds == [RetryTimer(timerRetrySeconds)] <==> !SchedulesEnded(Past(r, n), Past(r, n))))
  {
    hide Tick, OutsetOf, SchedulesEnded, ManagedContinuations, Deliverables, Between, Past, Sound;
    RunsStaySound(f, r0, steps);
    var r := After(f, r0, steps);
    DeciderSeesPastPending(f, r, n, p);
    PendingEmptyIffAllEnded(Past(r, n));
    ContinuesOnlyWhenNothingPends(historySize, timerRetrySeconds,
      ContextOf(f, OutsetOf(f, TaskOf(r)).value.env, p), Deliverables(Between(r))[n], data);
  }

  // ----- continuation and the whole history -----

  lemma {:induction false} DeliverablesAfter(events: seq<Event>, n: nat) returns (k: nat)
    requires n < |Deliverables(events)|
    ensures k < |events| && events[k] == Deliverables(events)[n]
    ensures Deliverables(events)[n + 1..] == Deliverables(events[k + 1..])
  {
    var rest := events[1..];
    if events[0].body.Deliverable() {
      assert Deliverables(events)[1..] == Deliverables(rest);
      if n == 0 {
        k := 0;
      } else {
        var m := DeliverablesAfter(rest, n - 1);
        k := m + 1;
        assert Deliverables(events)[n + 1..] == Deliverables(rest)[n..];
        assert events[k + 1..] == rest[m + 1..];
      }
    } else {
      assert Deliverables(events) == Deliverables(rest);
      var m := DeliverablesAfter(rest, n);
      k := m + 1;
      assert events[k + 1..] == rest[m + 1..];
    }
  }

  lemma CutAt(history: seq<Event>, started: nat, previous: nat, k: nat)
    requires previous <= started <= |history| && k < started - previous
    ensures var b := Upto(history, started)[..started - previous];
            && b[k] == history[|history| - started + k]
            && Upto(history, started - k - 1) == b[k + 1..] + Upto(history, previous)
  {
  }

  lemma CutAtDeliverable(history: seq<Event>, started: nat, previous: nat, n: nat)
    requires previous <= started <= |history| && forall i :: 0 <= i < |history| ==> history[i].id == |history| - i
    requires n < |Deliverables(Upto(history, started)[..started - previous])|
    ensures var mine := Deliverables(Upto(history, started)[..started - previous]);
            var older := Deliverables(Upto(history, previous));
            && 1 <= mine[n].id <= |history|
            && mine[n + 1..] + older == Deliverables(Upto(history, mine[n].id - 1))
  {
    var b := Upto(history, started)[..started - previous];
    var k := DeliverablesAfter(b, n);
    CutAt(history, started, previous, k);
    DeliverablesAppend(b[k + 1..], Upto(history, previous));
  }

  /** Every event of the history that is older than the one being decided. */
  function Older(r: Run, n: nat): seq<Event>
    requires r.started.Some? && r.previous <= r.started.value <= |r.history| && n < |Deliverables(Between(r))|
    requires 1 <= Deliverables(Between(r))[n].id <= |r.history|
  {
    Deliverables(Upto(r.history, Deliverables(Between(r))[n].id - 1))
  }

  lemma TurnIsInHistory(f: Machine, r: Run, n: nat)
    requires Sound(f, r) && r.started.Some? && n < |Deliverables(Between(r))|
    ensures 1 <= Deliverables(Between(r))[n].id <= |r.history|
    ensures Older(r, n) == Deliverables(Between(r))[n + 1..] + Deliverables(Upto(r.history, r.previous))
  {
    hide Upto, Deliverables, Replication, Delivery;
    CutAtDeliverable(r.history, r.started.value, r.previous, n);
  }

  /** The deliverable events of the history that are older than the one being decided are the processed
      events and, apart from these, the ones lost in failed ticks. */
  lemma ProcessedOrLost(f: Machine, r: Run, n: nat)
    requires Sound(f, r) && r.started.Some? && n < |Deliverables(Between(r))|
    ensures 1 <= Deliverables(Between(r))[n].id <= |r.history|
    ensures Divided(Older(r, n), Past(r, n), r.log.lost)
  {
    hide Upto, Deliverables, Between, Replication, Descending;
    TurnIsInHistory(f, r, n);
    TasksAreOrdered(f, r);
    var mine, older := Deliverables(Between(r))[n + 1..], Deliverables(Upto(r.history, r.previous));
    assert forall e :: e in mine ==> e in Deliverables(Between(r));
  }

  /** The processed events are the whole history before the one being decided exactly when no event was
      lost in a failed tick. */
  lemma PastIsTheHistory(f: Machine, r: Run, n: nat)
    requires Sound(f, r) && r.started.Some? && n < |Deliverables(Between(r))|
    ensures 1 <= Deliverables(Between(r))[n].id <= |r.history|
    ensures Past(r, n) == Older(r, n) <==> r.log.lost == []
  {
    hide Upto, Deliverables, Between, Replication, Descending, Past, Older;
    TurnIsInHistory(f, r, n);
    ProcessedOrLost(f, r, n);
    if r.log.lost != [] {
      assert r.log.lost[0] in Older(r, n);
    } else {
      assert r.log.tracked == Deliverables(Upto(r.history, r.previous));
      assert Past(r, n) == Older(r, n) by {
        PastUnfolds(r, n);
      }
    }
  }

  lemma PastUnfolds(r: Run, n: nat)
    requires r.started.Some? && r.previous <= r.started.value <= |r.history| && n < |Deliverables(Between(r))|
    ensures Past(r, n) == Deliverables(Between(r))[n + 1..] + r.log.tracked
  {
  }

  lemma EndedInMore(past: seq<Event>, all: seq<Event>)
    requires forall e :: e in past ==> e in all
    ensures SchedulesEnded(past, past) ==> SchedulesEnded(past, all)
  {
    if SchedulesEnded(past, past) {
      forall a | a in past && a.body.ActivityTaskScheduled?
        ensures EndedIn(all, a)
      {
        assert EndedIn(past, a);
      }
    }
  }

  /** Some processed activity was ended by lost events only. */
  ghost predicate EndingLost(past: seq<Event>, lost: seq<Event>) {
    exists a :: a in past && a.body.ActivityTaskScheduled? && !EndedIn(past, a) && EndedIn(lost, a)
  }

  /** What the pending map says of the whole history. It is empty exactly when every processed activity was
      ended by a processed event. Then every activity of the history was ended if and only if those were
      that failed ticks lost, and only then is it safe to continue. Conversely, when every activity of the
      history was ended, the map is empty, and a trigger continues, if and only if no ending was lost. */
  lemma ContinuationExactly(f: Machine, r0: Run, steps: seq<Step>, n: nat, p: Progress)
    requires Discreet(f) && StatesRoundTrip(f.serializer)
    requires Sound(f, r0) && StartsIdle(f, StartInput(r0)) && Legal(f, r0, steps)
    requires Turn(f, After(f, r0, steps), n, p)
    ensures var r := After(f, r0, steps);
            && 1 <= Deliverables(Between(r))[n].id <= |r.history|
            && var past, lost, all := Past(r, n), r.log.lost, Older(r, n);
               && Divided(all, past, lost)
               && (p.pending == map[] <==> SchedulesEnded(past, past))
               && (p.pending == map[] ==> (SchedulesEnded(all, all) <==> SchedulesEnded(lost, all)))
               && (SchedulesEnded(all, all) ==> (p.pending == map[] <==> !EndingLost(past, lost)))
  {
    hide Tick, OutsetOf, SchedulesEnded, Past, Older, EndingLost;
    RunsStaySound(f, r0, steps);
    var r := After(f, r0, steps);
    DeciderSeesPastPending(f, r, n, p);
    PendingEmptyIffAllEnded(Past(r, n));
    ProcessedOrLost(f, r, n);
    EndedInMore(Past(r, n), Older(r, n));
    SchedulesDivide(Older(r, n), Past(r, n), r.log.lost);
  }

  lemma SchedulesDivide(all: seq<Event>, past: seq<Event>, lost: seq<Event>)
    requires Divided(all, past, lost)
    ensures SchedulesEnded(all, all) <==> SchedulesEnded(past, all) && SchedulesEnded(lost, all)
    ensures SchedulesEnded(all, all) ==> (SchedulesEnded(past, past) <==> !EndingLost(past, lost))
  {
    if SchedulesEnded(all, all) {
      forall a | a in past && a.body.ActivityTaskScheduled?
        ensures EndedIn(past, a) || EndedIn(lost, a)
      {
        assert EndedIn(all, a);
        var x :| x in all && Ends(x, a.id) && x.id > a.id;
      }
    }
  }

  // ----- what the continuing tick itself schedules -----

  ghost predicate Schedules(ds: seq<Decision>) {
    exists x :: x in ds && x.ScheduleActivityTask?
  }

  /** Some event of the task was answered with the scheduling of an activity. */
  ghost predicate SchedulingAnswered(f: Machine, t: Task) {
    OutsetOf(f, t).Some? &&
    exists x: Decision :: x.ScheduleActivityTask? && DecidedOn(f, OutsetOf(f, t).value, Deliverables(Recent(t)), x)
  }

  /** A tick, whether it continues the workflow or not, schedules an activity exactly when its error handling
      does or one of its events is answered so. Managed continuations do not see that. */
  lemma TickSchedules(f: Machine, t: Task)
    requires !Tick(f, t).Crash?
    ensures Schedules(Decided(Tick(f, t))) <==> Schedules(ErrorDecisions(f, t)) || SchedulingAnswered(f, t)
  {
    hide Tick, OutsetOf, ErrorDecisions, DecidedOn, Decided;
    forall x: Decision
      ensures x in Decided(Tick(f, t)) <==>
                || x in ErrorDecisions(f, t)
                || (OutsetOf(f, t).Some? && DecidedOn(f, OutsetOf(f, t).value, Deliverables(Recent(t)), x))
    {
      TickDecides(f, t, x);
    }
  }

  /** All deliverable events that the running task's history holds. */
  function Whole(r: Run): seq<Event>
    requires r.started.Some? && r.started.value <= |r.history|
  {
    Deliverables(Upto(r.history, r.started.value))
  }

  /** An activity outlives the decisions of the running task: one that its history leaves open, or one that
      the same tick schedules. */
  ghost predicate LeavesRunning(f: Machine, r: Run)
    requires r.started.Some? && r.started.value <= |r.history|
  {
    !SchedulesEnded(Whole(r), Whole(r)) || Schedules(Decided(Tick(f, TaskOf(r))))
  }

  /** The task's history: the trigger, the newer events of its task, and the processed and the lost ones. */
  lemma WholeDivides(f: Machine, r: Run, n: nat)
    requires Sound(f, r) && r.started.Some? && n < |Deliverables(Between(r))|
    ensures var mine := Deliverables(Between(r));
            forall e :: e in Whole(r) <==> e in mine[..n] || e == mine[n] || e in Past(r, n) || e in r.log.lost
  {
    hide Upto, Deliverables, Between, Replication, Descending;
    var mine, older := Deliverables(Between(r)), Deliverables(Upto(r.history, r.previous));
    TaskDecomposes(f, r);
    DeliverablesAppend(Between(r), Upto(r.history, r.previous));
    assert mine == mine[..n] + [mine[n]] + mine[n + 1..];
    assert Whole(r) == mine + older;
  }

  /** When a trigger finds nothing pending, and so continues the workflow, it leaves no activity running if
      and only if all activities scheduled by lost events and by newer events of its own task were ended, and
      its tick schedules none. */
  lemma ContinuationLeavesNothingRunning(f: Machine, r0: Run, steps: seq<Step>, n: nat, p: Progress)
    requires Discreet(f) && StatesRoundTrip(f.serializer)
    requires Sound(f, r0) && StartsIdle(f, StartInput(r0)) && Legal(f, r0, steps)
    requires Turn(f, After(f, r0, steps), n, p) && p.pending == map[]
    requires var r := After(f, r0, steps); Triggers(Deliverables(Between(r))[n]) && !Tick(f, TaskOf(r)).Crash?
    ensures var r := After(f, r0, steps);
            !LeavesRunning(f, r) <==>
              && SchedulesEnded(r.log.lost, Whole(r)) && SchedulesEnded(Deliverables(Between(r))[..n], Whole(r))
              && !Schedules(ErrorDecisions(f, TaskOf(r))) && !SchedulingAnswered(f, TaskOf(r))
  {
    hide Tick, OutsetOf, SchedulesEnded, Schedules, SchedulingAnswered, ErrorDecisions, Decided, Past, Whole,
      Deliverables, Between, Sound;
    RunsStaySound(f, r0, steps);
    var r := After(f, r0, steps);
    DeciderSeesPastPending(f, r, n, p);
    PendingEmptyIffAllEnded(Past(r, n));
    WholeDivides(f, r, n);
    EndedInMore(Past(r, n), Whole(r));
    WholeEnded(Whole(r), Deliverables(Between(r))[..n], Deliverables(Between(r))[n], Past(r, n), r.log.lost);
    TickSchedules(f, TaskOf(r));
  }

  lemma WholeEnded(whole: seq<Event>, newer: seq<Event>, trigger: Event, past: seq<Event>, lost: seq<Event>)
    requires forall e :: e in whole <==> e in newer || e == trigger || e in past || e in lost
    requires !trigger.body.ActivityTaskScheduled? && SchedulesEnded(past, whole)
    ensures SchedulesEnded(whole, whole) <==> SchedulesEnded(lost, whole) && SchedulesEnded(newer, whole)
  {
  }

  // ----- what failed ticks do to continuation -----

  /** Nothing leaves the log. */
  lemma {:induction false} LogsGrow(f: Machine, r: Run, steps: seq<Step>)
    requires Legal(f, r, steps)
    ensures forall e :: e in r.log.tracked ==> e in After(f, r, steps).log.tracked
    ensures forall e :: e in r.log.lost ==> e in After(f, r, steps).log.lost
    decreases |steps|
  {
    hide Tick, Enabled, Apply;
    if steps != [] {
      StepGrowsLog(f, r, steps[0]);
      LogsGrow(f, Apply(f, r, steps[0]), steps[1..]);
    }
  }

  lemma StepGrowsLog(f: Machine, r: Run, step: Step)
    requires Enabled(f, r, step)
    ensures forall e :: e in r.log.tracked ==> e in Apply(f, r, step).log.tracked
    ensures forall e :: e in r.log.lost ==> e in Apply(f, r, step).log.lost
  {
    hide Tick;
    if step.Commit? {
      LogTracks(f, r, step);
    }
  }

  lemma LostIsNotPending(f: Machine, r: Run, n: nat, p: Progress, a: Event)
    requires Discreet(f) && StatesRoundTrip(f.serializer)
    requires Sound(f, r) && StartsIdle(f, StartInput(r)) && Turn(f, r, n, p)
    requires a in r.log.lost
    ensures Itoa(a.id) !in p.pending
  {
    hide Tick, OutsetOf, Digits, Itoa, Past, Upto, Deliverables;
    DeciderSeesPastPending(f, r, n, p);
    ProcessedOrLost(f, r, n);
    PendingIsExactlyOpen(Past(r, n));
    if Itoa(a.id) in p.pending {
      var i :| OpenAt(Past(r, n), i) && Itoa(a.id) == Itoa(Past(r, n)[i].id);
      ItoaInjective(a.id, Past(r, n)[i].id);
      assert Past(r, n)[i] in Past(r, n);
      SameIDSameEvent(r, n, a, Past(r, n)[i]);
    }
  }

  /** Events of a history are told apart by their IDs. */
  lemma SameIDSameEvent(r: Run, n: nat, a: Event, b: Event)
    requires Numbered(r.history) && r.started.Some? && r.previous <= r.started.value <= |r.history|
    requires n < |Deliverables(Between(r))| && 1 <= Deliverables(Between(r))[n].id <= |r.history|
    requires a in Older(r, n) && b in Older(r, n) && a.id == b.id
    ensures a == b
  {
    var u := Upto(r.history, Deliverables(Between(r))[n].id - 1);
    DeliverablesMember(u, a);
    DeliverablesMember(u, b);
    assert forall i :: 0 <= i < |u| ==> u[i] == r.history[|r.history| - |u| + i];
  }

  lemma FailureLoses(f: Machine, r: Run, step: Step)
    requires Shape(f, r) && Enabled(f, r, step) && step.Commit? && Tick(f, TaskOf(r)).Failure?
    ensures Apply(f, r, step).log.lost == Deliverables(Between(r)) + r.log.lost
  {
    hide Tick;
    TaskDecomposes(f, r);
    LogTracks(f, r, step);
  }

  /** A failed tick forgets all activities scheduled in its task, delivered or not: they are not pending at
      any turn of the run from then on, so that nothing keeps managed continuations from continuing over
      them. */
  lemma FailedTickForgets(f: Machine, r: Run, step: Step, a: Event, steps: seq<Step>, n: nat, p: Progress)
    requires Discreet(f) && StatesRoundTrip(f.serializer) && Sound(f, r) && StartsIdle(f, StartInput(r))
    requires Enabled(f, r, step) && step.Commit? && Tick(f, TaskOf(r)).Failure?
    requires a in Deliverables(Between(r)) && a.body.ActivityTaskScheduled?
    requires Legal(f, Apply(f, r, step), steps) && Turn(f, After(f, Apply(f, r, step), steps), n, p)
    ensures Itoa(a.id) !in p.pending
  {
    hide Tick, OutsetOf, Itoa, Sound, Shape, Turn, Apply, Deliverables, Between, StartsIdle, StartInput;
    CommitKeepsSound(f, r, step);
    var r' := Apply(f, r, step);
    FailureLoses(f, r, step);
    LogsGrow(f, r', steps);
    RunsStaySound(f, r', steps);
    LostIsNotPending(f, After(f, r', steps), n, p, a);
  }

  lemma CommitKeepsSound(f: Machine, r: Run, step: Step)
    requires Discreet(f) && StatesRoundTrip(f.serializer) && Sound(f, r) && StartsIdle(f, StartInput(r))
    requires Enabled(f, r, step)
    ensures Shape(f, r) && Sound(f, Apply(f, r, step))
    ensures Shape(f, Apply(f, r, step)) && StartsIdle(f, StartInput(Apply(f, r, step)))
  {
    hide Tick, Apply;
    StepKeepsStart(f, r, step);
    StepKeepsDelivery(f, r, step);
    StepKeepsTracking(f, r, step);
    StepKeepsReplication(f, r, step);
  }

  /** The dual: an activity whose endings were all lost in failed ticks stays pending, however the run goes
      on. Managed continuations then answer every trigger with a retry timer and never continue. */
  lemma LostEndingBlocksContinuation(f: Machine, r0: Run, steps: seq<Step>, n: nat, p: Progress, a: Event,
                                     data: Value, historySize: int, timerRetrySeconds: int)
    requires Discreet(f) && StatesRoundTrip(f.serializer)
    requires Sound(f, r0) && StartsIdle(f, StartInput(r0)) && Legal(f, r0, steps)
    requires a in r0.log.tracked && a.body.ActivityTaskScheduled?
    requires var r := After(f, r0, steps);
             Turn(f, r, n, p) && forall x :: x in r.history && Ends(x, a.id) ==> x in r0.log.lost
    ensures var r := After(f, r0, steps);
            var e := Deliverables(Between(r))[n];
            var ctx := ContextOf(f, OutsetOf(f, TaskOf(r)).value.env, p);
            var ds := DecisionsOf(ManagedContinuations(historySize, timerRetrySeconds)(ctx, e, data));
            && p.pending != map[]
            && (Triggers(e) ==> ds == [RetryTimer(timerRetrySeconds)])
            && (forall d :: d in ds ==> !d.ContinueAsNewWorkflowExecution?)
  {
    hide Tick, OutsetOf, Past, Older, Upto, Deliverables, Between;
    RunsStaySound(f, r0, steps);
    LogsGrow(f, r0, steps);
    var r := After(f, r0, steps);
    DeciderSeesPastPending(f, r, n, p);
    PendingEmptyIffAllEnded(Past(r, n));
    ProcessedOrLost(f, r, n);
    PastUnfolds(r, n);
    assert a in Past(r, n);
    forall x | x in Past(r, n)
      ensures !Ends(x, a.id)
    {
      OlderIsInHistory(r, n, x);
    }
    assert !EndedIn(Past(r, n), a);
    ContinuesOnlyWhenNothingPends(historySize, timerRetrySeconds,
      ContextOf(f, OutsetOf(f, TaskOf(r)).value.env, p), Deliverables(Between(r))[n], data);
  }

  lemma OlderIsInHistory(r: Run, n: nat, y: Event)
    requires r.started.Some? && r.previous <= r.started.value <= |r.history| && n < |Deliverables(Between(r))|
    requires 1 <= Deliverables(Between(r))[n].id <= |r.history| && y in Older(r, n)
    ensures y in r.history
  {
    DeliverablesMember(Upto(r.history, Deliverables(Between(r))[n].id - 1), y);
  }
}
