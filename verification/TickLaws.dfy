/** Laws of a single tick: how the fold over events splits, what a failed tick leaves behind, which
    part of the history matters, and which changes of deciders and error signals it does not notice. */
module TickLaws {
  import opened Protocol
  import opened Correlator
  import opened Model
  import opened Engine
  import opened Deciders

  // ----- the fold over events -----

  lemma {:induction false} DecideAllAppend(f: Machine, env: Env, newer: seq<Event>, older: seq<Event>, p: Progress)
    ensures DecideAll(f, env, older, p).Done? ==>
              DecideAll(f, env, newer + older, p) == DecideAll(f, env, newer, DecideAll(f, env, older, p).p)
    decreases |older|
  {
    if older == [] {
      assert newer + older == newer;
    } else {
      var n := |older| - 1;
      assert (newer + older)[..|newer + older| - 1] == newer + older[..n];
      match Decide(f, env, p, older[n])
      case Moved(q) => DecideAllAppend(f, env, newer, older[..n], q);
      case Stuck(_, _) =>
    }
  }

  lemma CutLast(events: seq<Event>, at: nat)
    requires at < |events| - 1
    ensures var later := events[at + 1..];
            && later[..|later| - 1] == events[..|events| - 1][at + 1..]
            && later[|later| - 1] == events[|events| - 1]
            && events[..|events| - 1][at] == events[at]
  {
  }

  lemma StuckDecidesNothing(f: Machine, env: Env, p: Progress, e: Event)
    ensures Decide(f, env, p, e).Stuck? ==> Decide(f, env, p, e).p.decisions == p.decisions
    ensures DecideError(f, env, p, e).Stuck? ==> DecideError(f, env, p, e).p == p
  {
  }

  /** A fold that stops at `at` has decided everything older, and its decisions are those. */
  lemma {:induction false} HaltedMeansOlderDecided(f: Machine, env: Env, events: seq<Event>, p: Progress)
    requires DecideAll(f, env, events, p).Halted?
    ensures var r := DecideAll(f, env, events, p);
            var before := DecideAll(f, env, events[r.at + 1..], p);
            && before.Done? && Decide(f, env, before.p, events[r.at]) == Stuck(r.p, r.why)
            && r.p.decisions == before.p.decisions
    decreases |events|
  {
    hide Decide;
    var n := |events| - 1;
    var r := DecideAll(f, env, events, p);
    match Decide(f, env, p, events[n])
    case Stuck(_, _) =>
      StuckDecidesNothing(f, env, p, events[n]);
      assert events[n + 1..] == [];
    case Moved(q) =>
      HaltedMeansOlderDecided(f, env, events[..n], q);
      CutLast(events, r.at);
  }

  lemma {:induction false} HaltedMeansOlderErrorsHandled(f: Machine, env: Env, errors: seq<Event>, p: Progress)
    requires DecideErrors(f, env, errors, p).Halted?
    ensures var r := DecideErrors(f, env, errors, p);
            var before := DecideErrors(f, env, errors[r.at + 1..], p);
            before.Done? && DecideError(f, env, before.p, errors[r.at]) == Stuck(r.p, r.why) && r.p == before.p
    decreases |errors|
  {
    hide DecideError;
    var n := |errors| - 1;
    var r := DecideErrors(f, env, errors, p);
    match DecideError(f, env, p, errors[n])
    case Stuck(_, _) =>
      StuckDecidesNothing(f, env, p, errors[n]);
      assert errors[n + 1..] == [];
    case Moved(q) =>
      HaltedMeansOlderErrorsHandled(f, env, errors[..n], q);
      CutLast(errors, r.at);
  }

  /** The same situation up to the version, the events seen and some decisions made earlier. */
  ghost predicate Alike(p: Progress, q: Progress, prior: seq<Decision>) {
    p.state == q.state && p.data == q.data && p.pending == q.pending && p.decisions == prior + q.decisions
  }

  lemma {:induction false} DecideAllAlike(f: Machine, env: Env, events: seq<Event>, p: Progress, q: Progress,
                                          prior: seq<Decision>)
    requires Alike(p, q, prior)
    ensures var r, r' := DecideAll(f, env, events, p), DecideAll(f, env, events, q);
            Alike(r.p, r'.p, prior) && (r.Done? <==> r'.Done?) && (r.Halted? ==> r.why == r'.why && r.at == r'.at)
    decreases |events|
  {
    if events != [] {
      var n := |events| - 1;
      if p.state in f.states {
        assert ContextOf(f, env, p) == ContextOf(f, env, q);
        var v := f.states[p.state].decider(ContextOf(f, env, p), events[n], p.data);
        if v.Returned? && !v.outcome.Pass? {
          var p', q' := Decide(f, env, p, events[n]).p, Decide(f, env, q, events[n]).p;
          assert p'.decisions == prior + q'.decisions;
          DecideAllAlike(f, env, events[..n], p', q', prior);
        }
      }
    }
  }

  // ----- deciders that do not depend on the version -----

  /** Equal decisions, or two continue-as-new decisions that hand over the same but for the version. */
  predicate SameButVersion(s: Serializer, x: Decision, y: Decision) {
    x == y ||
      (x.ContinueAsNewWorkflowExecution? && y.ContinueAsNewWorkflowExecution? &&
       var a, b := s.decodeState(x.input), s.decodeState(y.input);
       a.Ok? && b.Ok? && SameStateButVersion(a.value, b.value))
  }

  predicate SameStateButVersion(a: SerializedState, b: SerializedState) {
    && a.pendingActivities == b.pendingActivities
    && a.replicationData.stateName == b.replicationData.stateName
    && a.replicationData.stateData == b.replicationData.stateData
  }

  predicate DecisionsAgree(s: Serializer, xs: seq<Decision>, ys: seq<Decision>) {
    |xs| == |ys| && forall i :: 0 <= i < |xs| ==> SameButVersion(s, xs[i], ys[i])
  }

  predicate VerdictsAgree(s: Serializer, v: Verdict, w: Verdict) {
    if v.Panicked? || w.Panicked? then v.Panicked? && w.Panicked?
    else if v.outcome.Pass? || w.outcome.Pass? then v == w
    else v.outcome == w.outcome.WithDecisions(v.outcome.decisions)
         && DecisionsAgree(s, v.outcome.decisions, w.outcome.decisions)
  }

  /** The version in the context changes nothing but the version handed over by continue-as-new. Error signals
      do not count: they come under version 0 at any time. */
  ghost predicate IgnoresVersion(s: Serializer, d: Decider) {
    forall ctx: Context, version: uint64, e, v ::
      ctx.serializer == s && Events.Of(e) ==> VerdictsAgree(s, d(ctx, e, v), d(ctx.(stateVersion := version), e, v))
  }

  ghost predicate VersionBlind(f: Machine) {
    forall name :: name in f.states ==> IgnoresVersion(f.serializer, f.states[name].decider)
  }

  /** The same situation up to the version; `prior` and the decisions of `q` agree with those of `p`. */
  ghost predicate Level(s: Serializer, p: Progress, q: Progress, prior: seq<Decision>) {
    && p.state == q.state && p.data == q.data && p.pending == q.pending
    && DecisionsAgree(s, p.decisions, prior + q.decisions)
  }

  lemma AgreeAppend(s: Serializer, xs: seq<Decision>, prior: seq<Decision>, ys: seq<Decision>,
                    dx: seq<Decision>, dy: seq<Decision>)
    requires DecisionsAgree(s, xs, prior + ys) && DecisionsAgree(s, dx, dy)
    ensures DecisionsAgree(s, xs + dx, prior + (ys + dy))
  {
    assert prior + (ys + dy) == (prior + ys) + dy;
  }

  lemma {:induction false} DecideAllLevel(f: Machine, env: Env, version: uint64, events: seq<Event>,
                                          p: Progress, q: Progress, prior: seq<Decision>)
    requires VersionBlind(f) && AllOf(Events, events) && Level(f.serializer, p, q, prior)
    ensures var r, r' := DecideAll(f, env, events, p), DecideAll(f, env.(stateVersion := version), events, q);
            Level(f.serializer, r.p, r'.p, prior) && (r.Done? <==> r'.Done?)
    decreases |events|
  {
    if events != [] {
      hide SameButVersion;
      var n, env' := |events| - 1, env.(stateVersion := version);
      if p.state in f.states {
        var d := f.states[p.state].decider;
        var ctx := ContextOf(f, env, p);
        assert ContextOf(f, env', q) == ctx.(stateVersion := version);
        assert IgnoresVersion(f.serializer, d);
        var v, v' := d(ctx, events[n], p.data), d(ctx.(stateVersion := version), events[n], p.data);
        assert Events.Of(events[n]);
        assert VerdictsAgree(f.serializer, v, v');
        if v.Returned? && !v.outcome.Pass? {
          AgreeAppend(f.serializer, p.decisions, prior, q.decisions, v.outcome.decisions, v'.outcome.decisions);
          var p', q' := Decide(f, env, p, events[n]).p, Decide(f, env', q, events[n]).p;
          DecideAllLevel(f, env, version, events[..n], p', q', prior);
        }
      }
    }
  }

  /** Encoding errors do not depend on the version. */
  ghost predicate VersionsEncodeAlike(s: Serializer) {
    forall a, b :: SameStateButVersion(a, b) ==> (s.encodeState(a).Fine() <==> s.encodeState(b).Fine())
  }

  lemma ManagedContinuationsIgnoreVersion(s: Serializer, historySize: int, timerRetrySeconds: int)
    requires StatesRoundTrip(s) && VersionsEncodeAlike(s)
    ensures IgnoresVersion(s, ManagedContinuations(historySize, timerRetrySeconds))
  {
    var d := ManagedContinuations(historySize, timerRetrySeconds);
    forall ctx: Context, version: uint64, e, v | ctx.serializer == s
      ensures VerdictsAgree(s, d(ctx, e, v), d(ctx.(stateVersion := version), e, v))
    {
      var ctx' := ctx.(stateVersion := version);
      ManagedContinuationsTable(historySize, timerRetrySeconds, ctx, e, v);
      ManagedContinuationsTable(historySize, timerRetrySeconds, ctx', e, v);
      ContinuationsAgree(s, ctx, version);
    }
  }

  lemma ContinuationsAgree(s: Serializer, ctx: Context, version: uint64)
    requires StatesRoundTrip(s) && VersionsEncodeAlike(s) && ctx.serializer == s
    ensures var x := ContinueWorkflowDecision(ctx, ctx.state);
            var y := ContinueWorkflowDecision(ctx.(stateVersion := version), ctx.state);
            (x.Ok? <==> y.Ok?) && (x.Ok? ==> SameButVersion(s, x.value, y.value))
  {
    var text := s.encodeData(ctx.stateData).text;
    var a := SerializedState(ReplicationData(ctx.stateVersion, ctx.state, text), map[]);
    var b := SerializedState(ReplicationData(version, ctx.state, text), map[]);
    assert SameStateButVersion(a, b);
    assert s.encodeState(a).Fine() <==> s.encodeState(b).Fine();
  }

  lemma {:induction false} ComposedAgree(s: Serializer, deciders: seq<Decider>, ctx: Context, version: uint64, e: Event,
                                         v: Value, xs: seq<Decision>, ys: seq<Decision>)
    requires ctx.serializer == s && Events.Of(e) && DecisionsAgree(s, xs, ys)
    requires forall i :: 0 <= i < |deciders| ==> IgnoresVersion(s, deciders[i])
    ensures VerdictsAgree(s, Compose(deciders, ctx, e, v, xs),
              Compose(deciders, ctx.(stateVersion := version), e, v, ys))
    decreases |deciders|
  {
    if deciders != [] {
      hide SameButVersion;
      var ctx', rest := ctx.(stateVersion := version), deciders[1..];
      assert forall i :: 0 <= i < |rest| ==> rest[i] == deciders[i + 1];
      assert IgnoresVersion(s, deciders[0]);
      var a, b := deciders[0](ctx, e, v), deciders[0](ctx', e, v);
      assert VerdictsAgree(s, a, b);
      if a.Returned? && !a.outcome.Pass? {
        AgreeAppend(s, xs, [], ys, a.outcome.decisions, b.outcome.decisions);
        assert [] + ys == ys && [] + (ys + b.outcome.decisions) == ys + b.outcome.decisions;
        if a.outcome.ContinueOutcome? {
          ComposedAgree(s, rest, ctx, version, e, a.outcome.data, xs + a.outcome.decisions, ys + b.outcome.decisions);
        }
      } else if a == Returned(Pass) {
        ComposedAgree(s, rest, ctx, version, e, v, xs, ys);
      }
    }
  }

  /** Composition keeps deciders independent of the version. */
  lemma CompositionIgnoresVersion(s: Serializer, deciders: seq<Decider>)
    requires forall i :: 0 <= i < |deciders| ==> IgnoresVersion(s, deciders[i])
    ensures IgnoresVersion(s, NewComposedDecider(deciders))
  {
    forall ctx: Context, version: uint64, e, v | ctx.serializer == s && Events.Of(e)
      ensures VerdictsAgree(s, NewComposedDecider(deciders)(ctx, e, v),
                NewComposedDecider(deciders)(ctx.(stateVersion := version), e, v))
    {
      ComposedAgree(s, deciders, ctx, version, e, v, [], []);
    }
  }

  // ----- what a fold sees -----

  /** A finished fold has shown every event, in order, to a decider, and tracked it. */
  lemma {:induction false} DoneSeesAndTracksAll(f: Machine, env: Env, events: seq<Event>, p: Progress)
    ensures var r := DecideAll(f, env, events, p);
            r.Done? ==> && r.p.seen == p.seen + Reverse(events)
                        && r.p.pending == TrackedAll(p.pending, events)
                        && r.p.stateVersion == p.stateVersion
    decreases |events|
  {
    if events != [] {
      var n := |events| - 1;
      var e := events[n];
      assert events == events[..n] + [e];
      match Decide(f, env, p, e)
      case Stuck(_, _) =>
      case Moved(q) =>
        DoneSeesAndTracksAll(f, env, events[..n], q);
        ReverseAppend(events[..n], [e]);
        assert Reverse([e]) == [e] by { assert [e][1..] == []; }
        assert p.seen + [e] + Reverse(events[..n]) == p.seen + ([e] + Reverse(events[..n]));
        TrackedAllAppend(p.pending, events[..n], [e]);
        assert TrackedAll(p.pending, [e]) == Tracked(p.pending, e) by { assert [e][1..] == []; }
    }
  }

  /** A fold that stops has seen everything older, and the event that stopped it if its state exists. */
  lemma HaltedSees(f: Machine, env: Env, events: seq<Event>, p: Progress) returns (n: nat)
    requires DecideAll(f, env, events, p).Halted?
    ensures n <= |events| && DecideAll(f, env, events, p).p.seen == p.seen + Reverse(events[n..])
  {
    hide DecideAll;
    HaltedMeansOlderDecided(f, env, events, p);
    var r := DecideAll(f, env, events, p);
    var older := events[r.at + 1..];
    DoneSeesAndTracksAll(f, env, older, p);
    if r.why.StateMissing? {
      n := r.at + 1;
    } else {
      n := r.at;
      assert events[n..][1..] == older;
      assert p.seen + Reverse(older) + [events[n]] == p.seen + (Reverse(older) + [events[n]]);
    }
  }

  /** However the fold ends, the events seen are some of the oldest ones, in order. */
  lemma SeenIsAPrefix(f: Machine, env: Env, events: seq<Event>, p: Progress) returns (n: nat)
    ensures n <= |events| && DecideAll(f, env, events, p).p.seen == p.seen + Reverse(events[n..])
  {
    if DecideAll(f, env, events, p).Done? {
      n := 0;
      DoneSeesAndTracksAll(f, env, events, p);
      assert events[0..] == events;
    } else {
      n := HaltedSees(f, env, events, p);
    }
  }

  /** Every decision of a fold satisfies what every decision of its deciders satisfies. */
  ghost predicate Emits(kind: Kind, f: Machine, version: uint64, d: Decider, state: string, P: Decision -> bool) {
    forall ctx: Context, e, v, x ::
      && kind.Of(e) && ctx.serializer == f.serializer && ctx.stateVersion == version && ctx.state == state
      && x in DecisionsOf(d(ctx, e, v))
      ==> P(x)
  }

  ghost predicate StatesEmit(f: Machine, version: uint64, P: Decision -> bool) {
    forall name :: name in f.states ==> Emits(Events, f, version, f.states[name].decider, name, P)
  }

  lemma {:induction false} DecideAllEmits(f: Machine, env: Env, events: seq<Event>, p: Progress, P: Decision -> bool)
    requires StatesEmit(f, env.stateVersion, P) && AllOf(Events, events)
    requires forall x :: x in p.decisions ==> P(x)
    ensures forall x :: x in DecideAll(f, env, events, p).p.decisions ==> P(x)
    decreases |events|
  {
    if events != [] {
      var n := |events| - 1;
      match Decide(f, env, p, events[n])
      case Stuck(_, _) =>
      case Moved(q) =>
        var v := f.states[p.state].decider(ContextOf(f, env, p), events[n], p.data);
        assert Events.Of(events[n]) && q.decisions == p.decisions + DecisionsOf(v);
        DecideAllEmits(f, env, events[..n], q, P);
    }
  }

  lemma {:induction false} DecideErrorsEmits(f: Machine, env: Env, errors: seq<Event>, p: Progress, P: Decision -> bool)
    requires Emits(Signals, f, 0, f.errorState.decider, f.errorState.name, P) && AllOf(Signals, errors)
    requires forall x :: x in p.decisions ==> P(x)
    ensures forall x :: x in DecideErrors(f, env, errors, p).p.decisions ==> P(x)
    decreases |errors|
  {
    if errors != [] {
      var n := |errors| - 1;
      match DecideError(f, env, p, errors[n])
      case Stuck(_, _) =>
      case Moved(q) =>
        var v := f.errorState.decider(ErrorContext(f, env, p.pending), errors[n], p.data);
        assert Signals.Of(errors[n]) && q.decisions == p.decisions + DecisionsOf(v);
        DecideErrorsEmits(f, env, errors[..n], q, P);
    }
  }

  // ----- failed ticks -----

  /** The decider does not record the engine's own marker when it answers events of that kind. */
  ghost predicate NoCheckpoints(kind: Kind, d: Decider) {
    forall ctx, e, v, x :: kind.Of(e) && x in DecisionsOf(d(ctx, e, v)) ==> !x.Checkpoint()
  }

  ghost predicate Discreet(f: Machine) {
    && NoCheckpoints(Signals, f.errorState.decider)
    && forall name :: name in f.states ==> NoCheckpoints(Events, f.states[name].decider)
  }

  function Recent(t: Task): seq<Event> {
    NewerThan(t.previousStartedEventID, t.events)
  }

  /** The progress with which the tick's events start to be decided, and the version its deciders see. */
  datatype Outset = Outset(env: Env, p: Progress)

  function OutsetOf(f: Machine, t: Task): Option<Outset> {
    match FindSerializedState(f, t.events)
    case Err(_) => None
    case Ok(state) =>
      match ErrorPhase(f, EnvOf(t), ErrorSignals(Recent(t)), state.pendingActivities)
      case Halted(_, _, _) => None
      case Done(p) =>
        if !Recovers(p) then Some(Outset(EnvOf(t), p))
        else
          match f.serializer.decodeData(state.replicationData.stateData)
          case Err(_) => None
          case Ok(d) =>
            Some(Outset(EnvOf(t).(stateVersion := state.replicationData.stateVersion), Resumed(p, state, d)))
  }

  /** Error handling that gives data or a state keeps the engine from loading state, data and version. */
  predicate TakesOver(f: Machine, t: Task) {
    var found := FindSerializedState(f, t.events);
    found.Ok? &&
    var phase := ErrorPhase(f, EnvOf(t), ErrorSignals(Recent(t)), found.value.pendingActivities);
    phase.Done? && !Recovers(phase.p)
  }

  /** The tick's last event leaves nil data. */
  predicate EndsNil(f: Machine, t: Task) {
    OutsetOf(f, t).Some? &&
    var start := OutsetOf(f, t).value;
    DecideAll(f, start.env, Deliverables(Recent(t)), start.p).p.data == Nil
  }

  lemma TickFromOutset(f: Machine, t: Task)
    ensures match OutsetOf(f, t)
            case Some(s) => Tick(f, t) == FinishTick(f, s.env, Deliverables(Recent(t)), s.p)
            case None => !Tick(f, t).Success?
  {
  }

  /** `r` failed at the `n`-th newest of the error signals, having decided the older ones, or after all of
      them when the state data did not decode. A decision error names the signal that failed, and lists the
      signals already handled. */
  ghost predicate FailedAtError(f: Machine, t: Task, pending: Pending, r: TickResult, n: int) {
    var errors := ErrorSignals(Recent(t));
    && r.Failure? && 0 <= n <= |errors|
    && ErrorPhase(f, EnvOf(t), errors[n..], pending).Done?
    && ErrorPhase(f, EnvOf(t), errors[n..], pending).p.decisions == r.sofar
    && match r.record
       case DecisionError(id, ids, _, _, _) => n > 0 && id == errors[n - 1].id && ids == UnprocessedIDs(errors[n..])
       case SystemError(errorType, ids, _) =>
         n == 0 && errorType == "DeserializeStateError" && ids == UnprocessedIDs(t.events)
  }

  /** `r` failed at the `n`-th newest of the events, having decided the older ones, or after all of them
      when the checkpoint did not encode. A decision error names the event that failed, and lists the
      events already processed; a missing state lists these and the event that found none. */
  ghost predicate FailedAtEvent(f: Machine, start: Outset, events: seq<Event>, r: TickResult, n: int) {
    && r.Failure? && 0 <= n <= |events|
    && DecideAll(f, start.env, events[n..], start.p).Done?
    && DecideAll(f, start.env, events[n..], start.p).p.decisions == r.sofar
    && match r.record
       case DecisionError(id, ids, _, _, _) => n > 0 && id == events[n - 1].id && ids == UnprocessedIDs(events[n..])
       case SystemError(errorType, ids, _) =>
         if n == 0 then errorType == "StateSerializationError" && ids == []
         else errorType == "MissingFsmStateError" && ids == UnprocessedIDs(events[n - 1..])
  }

  lemma FinishTickReports(f: Machine, start: Outset, events: seq<Event>) returns (n: int)
    requires FinishTick(f, start.env, events, start.p).Failure?
    ensures FailedAtEvent(f, start, events, FinishTick(f, start.env, events, start.p), n)
  {
    var done := DecideAll(f, start.env, events, start.p);
    if done.Done? {
      assert events[0..] == events && EventIDs([]) == [];
      n := 0;
    } else {
      HaltedMeansOlderDecided(f, start.env, events, start.p);
      n := done.at + 1;
    }
  }

  lemma ErrorPhaseIsFold(f: Machine, env: Env, errors: seq<Event>, pending: Pending)
    ensures var phase := ErrorPhase(f, env, errors, pending);
            var fold := DecideErrors(f, env, errors, Fresh(pending).(data := Ptr(f.zero), state := f.errorState.name));
            && (phase.Done? <==> fold.Done?) && phase.p.decisions == fold.p.decisions
            && (phase.Halted? ==> phase.at == fold.at)
  {
  }

  /** Where an error phase that stops has got to. */
  lemma ErrorPhaseStops(f: Machine, env: Env, errors: seq<Event>, pending: Pending)
    requires ErrorPhase(f, env, errors, pending).Halted?
    ensures var phase := ErrorPhase(f, env, errors, pending);
            var before := ErrorPhase(f, env, errors[phase.at + 1..], pending);
            before.Done? && before.p.decisions == phase.p.decisions
  {
    hide DecideErrors, ErrorPhase;
    var start := Fresh(pending).(data := Ptr(f.zero), state := f.errorState.name);
    ErrorPhaseIsFold(f, env, errors, pending);
    HaltedMeansOlderErrorsHandled(f, env, errors, start);
    ErrorPhaseIsFold(f, env, errors[DecideErrors(f, env, errors, start).at + 1..], pending);
  }

  lemma EarlyFailure(f: Machine, t: Task, state: SerializedState)
    requires FindSerializedState(f, t.events) == Ok(state) && OutsetOf(f, t) == None && Tick(f, t).Failure?
    ensures var errors, r := ErrorSignals(Recent(t)), Tick(f, t);
            var phase := ErrorPhase(f, EnvOf(t), errors, state.pendingActivities);
            && r.sofar == phase.p.decisions
            && match r.record
               case DecisionError(id, ids, _, _, _) =>
                 phase.Halted? && id == errors[phase.at].id && ids == UnprocessedIDs(errors[phase.at + 1..])
               case SystemError(errorType, ids, _) =>
                 phase.Done? && errorType == "DeserializeStateError" && ids == UnprocessedIDs(t.events)
  {
  }

  lemma ErrorPhaseReports(f: Machine, t: Task, state: SerializedState) returns (n: int)
    requires FindSerializedState(f, t.events) == Ok(state) && OutsetOf(f, t) == None && Tick(f, t).Failure?
    ensures FailedAtError(f, t, state.pendingActivities, Tick(f, t), n)
  {
    hide Tick, OutsetOf, ErrorPhase, FindSerializedState;
    var errors, pending := ErrorSignals(Recent(t)), state.pendingActivities;
    var phase := ErrorPhase(f, EnvOf(t), errors, pending);
    EarlyFailure(f, t, state);
    if phase.Done? {
      assert errors[0..] == errors;
      n := 0;
    } else {
      ErrorPhaseStops(f, EnvOf(t), errors, pending);
      n := phase.at + 1;
    }
  }

  /** The last decision of a failed tick: an error signal to the workflow's own execution. */
  ghost predicate NotifiesItself(f: Machine, execution: WorkflowExecution, r: TickResult) {
    r.Failure? ==>
      && r.State() == None
      && r.Decisions() == r.sofar + [r.notice]
      && r.notice == SignalExternalWorkflowExecution(execution.workflowID, execution.runID,
                       SignalOf(r.record), f.serializer.encodeError(r.record).text)
  }

  lemma FinishTickNotifies(f: Machine, env: Env, events: seq<Event>, p: Progress)
    ensures NotifiesItself(f, env.execution, FinishTick(f, env, events, p))
  {
  }

  lemma FailedTickNotifies(f: Machine, t: Task)
    ensures NotifiesItself(f, t.execution, Tick(f, t))
  {
    TickFromOutset(f, t);
    if OutsetOf(f, t).Some? {
      FinishTickNotifies(f, OutsetOf(f, t).value.env, Deliverables(Recent(t)), OutsetOf(f, t).value.p);
    }
  }

  lemma UnfoundDecidesNothing(f: Machine, t: Task)
    requires FindSerializedState(f, t.events).Err? && Tick(f, t).Failure?
    ensures Tick(f, t).sofar == [] && Tick(f, t).record.SystemError?
  {
  }

  /** Whatever made the tick fail: its decisions are those of the events or error signals older than the
      one that failed, which the report names, followed by one error signal to its own execution. */
  lemma FailedTickReports(f: Machine, t: Task)
    requires Tick(f, t).Failure?
    ensures NotifiesItself(f, t.execution, Tick(f, t))
    ensures FindSerializedState(f, t.events).Err? ==> Tick(f, t).sofar == [] && Tick(f, t).record.SystemError?
    ensures FindSerializedState(f, t.events).Ok? && OutsetOf(f, t) == None ==>
              exists n :: FailedAtError(f, t, FindSerializedState(f, t.events).value.pendingActivities, Tick(f, t), n)
    ensures OutsetOf(f, t).Some? ==>
              exists n :: FailedAtEvent(f, OutsetOf(f, t).value, Deliverables(Recent(t)), Tick(f, t), n)
  {
    hide Tick, FailedAtError, FailedAtEvent;
    FailedTickNotifies(f, t);
    if OutsetOf(f, t).Some? {
      TickFromOutset(f, t);
      var n := FinishTickReports(f, OutsetOf(f, t).value, Deliverables(Recent(t)));
    } else if FindSerializedState(f, t.events).Ok? {
      var n := ErrorPhaseReports(f, t, FindSerializedState(f, t.events).value);
    } else {
      UnfoundDecidesNothing(f, t);
    }
  }

  /** The record names the `n`-th newest of the events, and lists a zero for each older one and then their IDs. */
  ghost predicate ListsOlder(record: ErrorRecord, events: seq<Event>, n: int) {
    && record.DecisionError? && 0 < n <= |events| && record.eventID == events[n - 1].id
    && record.unprocessedEventIDs == seq(|events| - n, _ => 0) + EventIDs(events[n..])
  }

  lemma FailedEventListsOlder(f: Machine, start: Outset, events: seq<Event>, r: TickResult, n: int)
    requires FailedAtEvent(f, start, events, r, n) && r.record.DecisionError?
    ensures ListsOlder(r.record, events, n)
  {
    assert |events[n..]| == |events| - n;
  }

  lemma FailedErrorListsOlder(f: Machine, t: Task, pending: Pending, r: TickResult, n: int)
    requires FailedAtError(f, t, pending, r, n) && r.record.DecisionError?
    ensures ListsOlder(r.record, ErrorSignals(Recent(t)), n)
  {
    assert |ErrorSignals(Recent(t))[n..]| == |ErrorSignals(Recent(t))| - n;
  }

  /** A decision error, in either phase, lists what was already handled, which the newest-first list goes on
      with: what was left comes before the failed event. */
  lemma DecisionErrorListsProcessed(f: Machine, t: Task)
    requires Tick(f, t).Failure? && Tick(f, t).record.DecisionError?
    ensures || (exists n :: ListsOlder(Tick(f, t).record, ErrorSignals(Recent(t)), n))
            || (exists n :: ListsOlder(Tick(f, t).record, Deliverables(Recent(t)), n))
  {
    hide Tick, FindSerializedState, OutsetOf, FailedAtEvent, FailedAtError, ListsOlder, NotifiesItself;
    FailedTickReports(f, t);
    if OutsetOf(f, t).Some? {
      var n :| FailedAtEvent(f, OutsetOf(f, t).value, Deliverables(Recent(t)), Tick(f, t), n);
      FailedEventListsOlder(f, OutsetOf(f, t).value, Deliverables(Recent(t)), Tick(f, t), n);
    } else if FindSerializedState(f, t.events).Ok? {
      var pending := FindSerializedState(f, t.events).value.pendingActivities;
      var n :| FailedAtError(f, t, pending, Tick(f, t), n);
      FailedErrorListsOlder(f, t, pending, Tick(f, t), n);
      assert ListsOlder(Tick(f, t).record, ErrorSignals(Recent(t)), n);
    }
  }

  // ----- how a tick ends -----

  /** A decider that is reached answers with a nil outcome. */
  predicate AnsweredNil(f: Machine, t: Task) {
    var found := FindSerializedState(f, t.events);
    && found.Ok?
    && match OutsetOf(f, t)
       case Some(s) =>
         var sweep := DecideAll(f, s.env, Deliverables(Recent(t)), s.p);
         sweep.Halted? && sweep.why.NilOutcome?
       case None =>
         var phase := ErrorPhase(f, EnvOf(t), ErrorSignals(Recent(t)), found.value.pendingActivities);
         phase.Halted? && !phase.why.DeciderPanicked?
  }

  /** What there is to report of a stretch of events: a panic, a missing state, an encoding error. */
  function ReportOfEvents(f: Machine, s: Outset, events: seq<Event>): Option<ErrorRecord> {
    match DecideAll(f, s.env, events, s.p)
    case Halted(q, StateMissing, at) => Some(SystemError("MissingFsmStateError", UnprocessedIDs(events[at..]), q.state))
    case Halted(q, DeciderPanicked(reason), at) =>
      Some(DecisionError(events[at].id, UnprocessedIDs(events[at + 1..]), q.state, q.data, reason))
    case Halted(_, NilOutcome, _) => None
    case Done(q) =>
      match f.serializer.encodeState(CheckpointOf(f, q)).error
      case Some(reason) => Some(SystemError("StateSerializationError", UnprocessedIDs([]), reason))
      case None => None
  }

  /** What there is to report of a tick. */
  function ReportOf(f: Machine, t: Task): Option<ErrorRecord> {
    match FindSerializedState(f, t.events)
    case Err(e) => Some(SystemError("FindSerializedStateError", UnprocessedIDs(t.events), e))
    case Ok(state) =>
      match OutsetOf(f, t)
      case Some(s) => ReportOfEvents(f, s, Deliverables(Recent(t)))
      case None =>
        var errors := ErrorSignals(Recent(t));
        match ErrorPhase(f, EnvOf(t), errors, state.pendingActivities)
        case Halted(p, DeciderPanicked(reason), at) =>
          Some(DecisionError(errors[at].id, UnprocessedIDs(errors[at + 1..]), p.state, p.data, reason))
        case Halted(_, _, _) => None
        case Done(_) =>
          match f.serializer.decodeData(state.replicationData.stateData)
          case Err(e) => Some(SystemError("DeserializeStateError", UnprocessedIDs(t.events), e))
          case Ok(_) => None
  }

  lemma FinishTickEnds(f: Machine, s: Outset, events: seq<Event>)
    ensures var r, report := FinishTick(f, s.env, events, s.p), ReportOfEvents(f, s, events);
            var sweep := DecideAll(f, s.env, events, s.p);
            && (r.Crash? <==> (sweep.Halted? && sweep.why.NilOutcome?)
                              || (report.Some? && !f.serializer.encodeError(report.value).Fine()))
            && (r.Failure? ==> report == Some(r.record))
            && (r.Success? ==> report == None)
  {
  }

  /** A tick crashes exactly when a decider that is reached answers nil or its report cannot be encoded,
      fails exactly when there is something to report and it can be, and otherwise succeeds. */
  lemma TickEnds(f: Machine, t: Task)
    ensures Tick(f, t).Crash? <==>
              AnsweredNil(f, t) || (ReportOf(f, t).Some? && !f.serializer.encodeError(ReportOf(f, t).value).Fine())
    ensures Tick(f, t).Failure? <==> ReportOf(f, t).Some? && f.serializer.encodeError(ReportOf(f, t).value).Fine()
    ensures Tick(f, t).Failure? ==> Tick(f, t).record == ReportOf(f, t).value
  {
    TickFromOutset(f, t);
    if OutsetOf(f, t).Some? {
      FinishTickEnds(f, OutsetOf(f, t).value, Deliverables(Recent(t)));
    }
  }

  ghost predicate NeverPasses(kind: Kind, d: Decider) {
    forall ctx, e, v :: kind.Of(e) ==> d(ctx, e, v) != Returned(Pass)
  }

  /** Every decider answers, and every error can be reported. */
  ghost predicate Answers(f: Machine) {
    && NeverPasses(Signals, f.errorState.decider)
    && (forall name :: name in f.states ==> NeverPasses(Events, f.states[name].decider))
    && forall record :: f.serializer.encodeError(record).Fine()
  }

  lemma {:induction false} EventsAreAnswered(f: Machine, env: Env, events: seq<Event>, p: Progress)
    requires Answers(f) && AllOf(Events, events)
    ensures DecideAll(f, env, events, p).Halted? ==> !DecideAll(f, env, events, p).why.NilOutcome?
    decreases |events|
  {
    if events != [] {
      var n := |events| - 1;
      assert Events.Of(events[n]) && (p.state in f.states ==> NeverPasses(Events, f.states[p.state].decider));
      match Decide(f, env, p, events[n])
      case Moved(q) => EventsAreAnswered(f, env, events[..n], q);
      case Stuck(_, _) =>
    }
  }

  lemma {:induction false} ErrorsAreAnswered(f: Machine, env: Env, errors: seq<Event>, p: Progress)
    requires Answers(f) && AllOf(Signals, errors)
    ensures DecideErrors(f, env, errors, p).Halted? ==> DecideErrors(f, env, errors, p).why.DeciderPanicked?
    decreases |errors|
  {
    if errors != [] {
      var n := |errors| - 1;
      assert Signals.Of(errors[n]);
      match DecideError(f, env, p, errors[n])
      case Moved(q) => ErrorsAreAnswered(f, env, errors[..n], q);
      case Stuck(_, _) =>
    }
  }

  /** With deciders that never pass and errors that can be reported, no tick crashes. */
  lemma NoTickCrashes(f: Machine, t: Task)
    requires Answers(f)
    ensures !Tick(f, t).Crash?
  {
    hide Tick;
    TickEnds(f, t);
    EveryEventIsOfItsKind(Recent(t));
    if FindSerializedState(f, t.events).Ok? {
      var pending := FindSerializedState(f, t.events).value.pendingActivities;
      ErrorsAreAnswered(f, EnvOf(t), ErrorSignals(Recent(t)),
        Fresh(pending).(data := Ptr(f.zero), state := f.errorState.name));
    }
    if OutsetOf(f, t).Some? {
      EventsAreAnswered(f, OutsetOf(f, t).value.env, Deliverables(Recent(t)), OutsetOf(f, t).value.p);
    }
  }

  // ----- where decisions come from -----

  /** The `k`-th newest event was answered, after the older ones had led to `q`, with the decision `x`. */
  ghost predicate DecidedAt(f: Machine, s: Outset, events: seq<Event>, k: int, q: Progress, x: Decision) {
    && 0 <= k < |events|
    && DecideAll(f, s.env, events[k + 1..], s.p) == Done(q)
    && q.state in f.states
    && x in DecisionsOf(f.states[q.state].decider(ContextOf(f, s.env, q), events[k], q.data))
  }

  ghost predicate DecidedOn(f: Machine, s: Outset, events: seq<Event>, x: Decision) {
    exists k, q :: DecidedAt(f, s, events, k, q, x)
  }

  lemma NextAnswer(f: Machine, s: Outset, events: seq<Event>, q: Progress, x: Decision)
    requires events != [] && Decide(f, s.env, s.p, events[|events| - 1]) == Moved(q)
    ensures x in q.decisions <==>
              x in s.p.decisions || DecidedAt(f, s, events, |events| - 1, s.p, x)
    ensures forall k, r :: 0 <= k < |events| - 1 ==>
              (DecidedAt(f, s, events, k, r, x) <==> DecidedAt(f, s.(p := q), events[..|events| - 1], k, r, x))
  {
    var n := |events| - 1;
    assert events[n + 1..] == [];
    forall k, r | 0 <= k < n
      ensures DecidedAt(f, s, events, k, r, x) <==> DecidedAt(f, s.(p := q), events[..n], k, r, x)
    {
      CutLast(events, k);
    }
  }

  lemma AnswersMoveOn(f: Machine, s: Outset, events: seq<Event>, p': Progress, x: Decision)
    requires events != [] && Decide(f, s.env, s.p, events[|events| - 1]) == Moved(p')
    ensures DecidedOn(f, s, events, x) <==>
              DecidedAt(f, s, events, |events| - 1, s.p, x) || DecidedOn(f, s.(p := p'), events[..|events| - 1], x)
  {
    var n := |events| - 1;
    NextAnswer(f, s, events, p', x);
    if k, q :| DecidedAt(f, s, events, k, q, x) {
      if k == n {
        assert events[n + 1..] == [];
      }
    }
    if k, q :| DecidedAt(f, s.(p := p'), events[..n], k, q, x) {
      assert DecidedAt(f, s, events, k, q, x);
    }
  }

  lemma StuckAnswersNothing(f: Machine, s: Outset, events: seq<Event>, x: Decision, k: int, q: Progress)
    requires events != [] && Decide(f, s.env, s.p, events[|events| - 1]).Stuck?
    ensures !DecidedAt(f, s, events, k, q, x)
  {
    if 0 <= k < |events| - 1 {
      CutLast(events, k);
    }
  }

  /** A fold's decisions are those it started with and those that some event was answered with. */
  lemma {:induction false} FoldDecides(f: Machine, s: Outset, events: seq<Event>, x: Decision)
    ensures x in DecideAll(f, s.env, events, s.p).p.decisions <==> x in s.p.decisions || DecidedOn(f, s, events, x)
    decreases |events|
  {
    if events != [] {
      hide Decide, DecidedAt;
      var n := |events| - 1;
      match Decide(f, s.env, s.p, events[n])
      case Stuck(_, _) =>
        StuckDecidesNothing(f, s.env, s.p, events[n]);
        forall k, q
          ensures !DecidedAt(f, s, events, k, q, x)
        {
          StuckAnswersNothing(f, s, events, x, k, q);
        }
      case Moved(p') =>
        NextAnswer(f, s, events, p', x);
        FoldDecides(f, s.(p := p'), events[..n], x);
        AnswersMoveOn(f, s, events, p', x);
    }
  }

  lemma OutsetDecisions(f: Machine, t: Task)
    requires OutsetOf(f, t).Some?
    ensures OutsetOf(f, t).value.p.decisions == ErrorDecisions(f, t)
  {
  }

  /** The decisions of a tick are those of its error handling and the answers to its events, and no others. */
  lemma TickDecides(f: Machine, t: Task, x: Decision)
    requires !Tick(f, t).Crash?
    ensures x in Decided(Tick(f, t)) <==>
              || x in ErrorDecisions(f, t)
              || (OutsetOf(f, t).Some? && DecidedOn(f, OutsetOf(f, t).value, Deliverables(Recent(t)), x))
  {
    hide Tick, OutsetOf, ErrorDecisions, DecidedOn, NormalDecisions;
    if OutsetOf(f, t).Some? {
      var s := OutsetOf(f, t).value;
      TickFromOutset(f, t);
      OutsetDecisions(f, t);
      FinishTickDecides(f, s.env, Deliverables(Recent(t)), s.p);
      FoldDecides(f, s, Deliverables(Recent(t)), x);
    } else {
      DecidedSplits(f, t);
      NothingNormal(f, t);
    }
  }

  lemma NothingNormal(f: Machine, t: Task)
    requires OutsetOf(f, t) == None && !Tick(f, t).Crash?
    ensures NormalDecisions(f, t, Tick(f, t)) == []
  {
    if FindSerializedState(f, t.events).Ok? {
      TickFromOutset(f, t);
      EarlyFailure(f, t, FindSerializedState(f, t.events).value);
    }
  }

  lemma MissingAtOnce(f: Machine, env: Env, events: seq<Event>, p: Progress)
    requires p.state !in f.states
    ensures DecideAll(f, env, events, p) == if events == [] then Done(p) else Halted(p, StateMissing, |events| - 1)
  {
  }

  lemma ContinueUnnamesState(f: Machine, env: Env, p: Progress, e: Event, data: Value, ds: seq<Decision>)
    requires p.state in f.states
    requires f.states[p.state].decider(ContextOf(f, env, p), e, p.data) == Returned(ContinueOutcome(data, ds))
    ensures var a := Decide(f, env, p, e); a.Moved? && a.p.state == "" && a.p.decisions == p.decisions + ds
    ensures DecideAll(f, env, [e], p) == Done(Decide(f, env, p, e).p)
  {
    assert [e][..0] == [];
  }

  /** A top-level ContinueOutcome names no state: with no unnamed state registered, the next event of the
      tick, if there is one, finds none. */
  lemma ContinueAtTopLosesState(f: Machine, env: Env, newer: seq<Event>, e: Event, p: Progress,
                                data: Value, ds: seq<Decision>)
    requires p.state in f.states && "" !in f.states
    requires f.states[p.state].decider(ContextOf(f, env, p), e, p.data) == Returned(ContinueOutcome(data, ds))
    ensures var r := DecideAll(f, env, newer + [e], p);
            && r.p.state == "" && r.p.decisions == p.decisions + ds
            && (if newer == [] then r.Done? else r.Halted? && r.why.StateMissing? && r.at == |newer| - 1)
  {
    hide Decide, DecideAll;
    ContinueUnnamesState(f, env, p, e, data, ds);
    DecideAllAppend(f, env, newer, [e], p);
    MissingAtOnce(f, env, newer, Decide(f, env, p, e).p);
  }

  ghost predicate All(ds: seq<Decision>, P: Decision -> bool) {
    forall x :: x in ds ==> P(x)
  }

  /** All decisions made by deciders, that is, all but the engine's marker or error signal. */
  function Decided(r: TickResult): seq<Decision> {
    match r
    case Success(ds, _, _) => if ds == [] then [] else ds[1..]
    case Failure(sofar, _, _, _) => sofar
    case Crash => []
  }

  lemma FinishTickEmits(f: Machine, env: Env, events: seq<Event>, p: Progress, P: Decision -> bool)
    requires StatesEmit(f, env.stateVersion, P) && AllOf(Events, events) && All(p.decisions, P)
    ensures All(Decided(FinishTick(f, env, events, p)), P)
  {
    DecideAllEmits(f, env, events, p, P);
  }

  /** The decisions of the error phase. */
  function ErrorDecisions(f: Machine, t: Task): seq<Decision> {
    match FindSerializedState(f, t.events)
    case Err(_) => []
    case Ok(state) => ErrorPhase(f, EnvOf(t), ErrorSignals(Recent(t)), state.pendingActivities).p.decisions
  }

  /** All decisions of a tick satisfy what those of its error phase and its states do. */
  lemma TickEmits(f: Machine, t: Task, P: Decision -> bool)
    requires All(ErrorDecisions(f, t), P)
    requires OutsetOf(f, t).Some? ==> StatesEmit(f, OutsetOf(f, t).value.env.stateVersion, P)
    ensures All(Decided(Tick(f, t)), P)
  {
    TickFromOutset(f, t);
    EveryEventIsOfItsKind(Recent(t));
    if OutsetOf(f, t).Some? {
      FinishTickEmits(f, OutsetOf(f, t).value.env, Deliverables(Recent(t)), OutsetOf(f, t).value.p, P);
    }
  }

  lemma ErrorStateEmits(f: Machine, t: Task, P: Decision -> bool)
    requires Emits(Signals, f, 0, f.errorState.decider, f.errorState.name, P)
    ensures All(ErrorDecisions(f, t), P)
  {
    EveryEventIsOfItsKind(Recent(t));
    if FindSerializedState(f, t.events).Ok? {
      var pending := FindSerializedState(f, t.events).value.pendingActivities;
      DecideErrorsEmits(f, EnvOf(t), ErrorSignals(Recent(t)),
        Fresh(pending).(data := Ptr(f.zero), state := f.errorState.name), P);
    }
  }

  /** The decisions made by normal states, after those of the error phase. */
  function NormalDecisions(f: Machine, t: Task, r: TickResult): seq<Decision> {
    var n := |ErrorDecisions(f, t)|;
    if n <= |Decided(r)| then Decided(r)[n..] else []
  }

  lemma {:induction false} DecisionsGrow(f: Machine, env: Env, events: seq<Event>, p: Progress)
    ensures p.decisions <= DecideAll(f, env, events, p).p.decisions
    decreases |events|
  {
    if events != [] {
      var n := |events| - 1;
      match Decide(f, env, p, events[n])
      case Moved(q) => DecisionsGrow(f, env, events[..n], q);
      case Stuck(_, _) =>
    }
  }

  lemma FinishTickDecides(f: Machine, env: Env, events: seq<Event>, p: Progress)
    requires !FinishTick(f, env, events, p).Crash?
    ensures Decided(FinishTick(f, env, events, p)) == DecideAll(f, env, events, p).p.decisions
  {
  }

  /** What a tick decided is what its error phase decided and then what its normal states did. */
  lemma DecidedSplits(f: Machine, t: Task)
    requires !Tick(f, t).Crash?
    ensures Decided(Tick(f, t)) == ErrorDecisions(f, t) + NormalDecisions(f, t, Tick(f, t))
  {
    hide Tick;
    TickFromOutset(f, t);
    if OutsetOf(f, t).Some? {
      var s := OutsetOf(f, t).value;
      DecisionsGrow(f, s.env, Deliverables(Recent(t)), s.p);
      FinishTickDecides(f, s.env, Deliverables(Recent(t)), s.p);
    } else if FindSerializedState(f, t.events).Ok? {
      EarlyFailure(f, t, FindSerializedState(f, t.events).value);
    } else {
      UnfoundDecidesNothing(f, t);
    }
  }

  ghost predicate NoneCheckpoint(ds: seq<Decision>) {
    forall x :: x in ds ==> !x.Checkpoint()
  }

  ghost predicate MarksOnlySuccess(f: Machine, r: TickResult) {
    && (r.Failure? ==> NoneCheckpoint(r.Decisions()))
    && (r.Success? ==> && f.serializer.encodeState(r.checkpoint).Fine()
                       && r.decisions == [StateMarker(f.serializer.encodeState(r.checkpoint).text)] + Decided(r)
                       && NoneCheckpoint(Decided(r)))
  }

  lemma FinishTickMarks(f: Machine, env: Env, events: seq<Event>, p: Progress)
    ensures var r := FinishTick(f, env, events, p);
            r.Success? ==> && f.serializer.encodeState(r.checkpoint).Fine()
                           && r.decisions == [StateMarker(f.serializer.encodeState(r.checkpoint).text)] + Decided(r)
  {
  }

  /** With deciders that leave the engine's marker alone, a tick records exactly one checkpoint, first of
      all its decisions, if it succeeds, and none if it fails. */
  lemma CheckpointsOnlyOnSuccess(f: Machine, t: Task)
    requires Discreet(f)
    ensures MarksOnlySuccess(f, Tick(f, t))
  {
    var P := (x: Decision) => !x.Checkpoint();
    ErrorStateEmits(f, t, P);
    TickEmits(f, t, P);
    var r := Tick(f, t);
    assert NoneCheckpoint(Decided(r)) by {
      forall x | x in Decided(r)
        ensures !x.Checkpoint()
      {
        assert P(x);
      }
    }
    TickFromOutset(f, t);
    FailedTickNotifies(f, t);
    if OutsetOf(f, t).Some? {
      FinishTickMarks(f, OutsetOf(f, t).value.env, Deliverables(Recent(t)), OutsetOf(f, t).value.p);
    }
  }

  // ----- paging -----

  lemma {:induction false} NewerThanPage(id: int, page: seq<Event>, older: seq<Event>)
    requires exists i :: 0 <= i < |page| && page[i].id == id
    ensures NewerThan(id, page + older) == NewerThan(id, page)
  {
    assert (page + older)[0] == page[0];
    if page[0].id != id {
      assert (page + older)[1..] == page[1..] + older;
      var i :| 0 <= i < |page| && page[i].id == id;
      assert page[1..][i - 1].id == id;
      NewerThanPage(id, page[1..], older);
    }
  }

  predicate Anchors(e: Event) {
    e.body.StateMarker() || e.body.WorkflowExecutionStarted?
  }

  lemma {:induction false} FindSerializedStatePage(f: Machine, page: seq<Event>, older: seq<Event>)
    requires exists i :: 0 <= i < |page| && Anchors(page[i])
    ensures FindSerializedState(f, page + older) == FindSerializedState(f, page)
  {
    assert (page + older)[0] == page[0];
    if !Anchors(page[0]) {
      assert (page + older)[1..] == page[1..] + older;
      var i :| 0 <= i < |page| && Anchors(page[i]);
      assert Anchors(page[1..][i - 1]);
      FindSerializedStatePage(f, page[1..], older);
    }
  }

  ghost predicate Decodable(f: Machine, events: seq<Event>) {
    var state := FindSerializedState(f, events);
    state.Ok? && f.serializer.decodeData(state.value.replicationData.stateData).Ok?
  }

  /** A page that reaches back to the previous task's start and to a checkpoint is as good as the history. */
  lemma PagingInvariance(f: Machine, t: Task, older: seq<Event>)
    requires exists i :: 0 <= i < |t.events| && t.events[i].id == t.previousStartedEventID
    requires exists i :: 0 <= i < |t.events| && Anchors(t.events[i])
    requires Decodable(f, t.events)
    ensures Tick(f, t.(events := t.events + older)) == Tick(f, t)
  {
    NewerThanPage(t.previousStartedEventID, t.events, older);
    FindSerializedStatePage(f, t.events, older);
  }

  // ----- composition is neutral -----

  /** Verdicts that the engine cannot tell apart: a completion or an error is a transition to its state. */
  predicate SameEffect(v: Verdict, w: Verdict) {
    if v.Panicked? || w.Panicked? || v.outcome.Pass? || w.outcome.Pass? then v == w
    else
      && v.outcome.data == w.outcome.data && v.outcome.decisions == w.outcome.decisions
      && v.outcome.StayOutcome? == w.outcome.StayOutcome? && v.outcome.State() == w.outcome.State()
  }

  ghost predicate SameDecider(d: Decider, d': Decider) {
    forall ctx, e, v :: SameEffect(d(ctx, e, v), d'(ctx, e, v))
  }

  ghost predicate SameMachine(f: Machine, g: Machine) {
    && g.serializer == f.serializer && g.zero == f.zero && g.kinesisStream == f.kinesisStream
    && g.initialState.name == f.initialState.name
    && g.errorState.name == f.errorState.name && SameDecider(f.errorState.decider, g.errorState.decider)
    && g.states.Keys == f.states.Keys
    && forall name :: name in f.states ==> SameDecider(f.states[name].decider, g.states[name].decider)
  }

  lemma {:induction false} DecideAllSame(f: Machine, g: Machine, env: Env, events: seq<Event>, p: Progress)
    requires SameMachine(f, g)
    ensures DecideAll(g, env, events, p) == DecideAll(f, env, events, p)
    decreases |events|
  {
    if events != [] {
      var n := |events| - 1;
      if p.state in f.states {
        assert SameEffect(f.states[p.state].decider(ContextOf(f, env, p), events[n], p.data),
                          g.states[p.state].decider(ContextOf(f, env, p), events[n], p.data));
        assert ContextOf(g, env, p) == ContextOf(f, env, p);
        assert Decide(g, env, p, events[n]) == Decide(f, env, p, events[n]);
      }
      match Decide(f, env, p, events[n])
      case Moved(q) => DecideAllSame(f, g, env, events[..n], q);
      case Stuck(_, _) =>
    }
  }

  lemma {:induction false} DecideErrorsSame(f: Machine, g: Machine, env: Env, errors: seq<Event>, p: Progress)
    requires SameMachine(f, g)
    ensures DecideErrors(g, env, errors, p) == DecideErrors(f, env, errors, p)
    decreases |errors|
  {
    if errors != [] {
      var n := |errors| - 1;
      assert SameEffect(f.errorState.decider(ErrorContext(f, env, p.pending), errors[n], p.data),
                        g.errorState.decider(ErrorContext(f, env, p.pending), errors[n], p.data));
      assert DecideError(g, env, p, errors[n]) == DecideError(f, env, p, errors[n]);
      match DecideError(f, env, p, errors[n])
      case Moved(q) => DecideErrorsSame(f, g, env, errors[..n], q);
      case Stuck(_, _) =>
    }
  }

  lemma {:induction false} FindSerializedStateSame(f: Machine, g: Machine, events: seq<Event>)
    requires SameMachine(f, g)
    ensures FindSerializedState(g, events) == FindSerializedState(f, events)
  {
    if events != [] && !Anchors(events[0]) {
      FindSerializedStateSame(f, g, events[1..]);
    }
  }

  lemma FinishTickSame(f: Machine, g: Machine, env: Env, events: seq<Event>, p: Progress)
    requires SameMachine(f, g)
    ensures FinishTick(g, env, events, p) == FinishTick(f, env, events, p)
  {
    DecideAllSame(f, g, env, events, p);
  }

  lemma AfterErrorsSame(f: Machine, g: Machine, env: Env, events: seq<Event>, last: seq<Event>,
                        state: SerializedState, p: Progress)
    requires SameMachine(f, g)
    ensures AfterErrors(g, env, events, last, state, p) == AfterErrors(f, env, events, last, state, p)
  {
    FinishTickSame(f, g, env, last, p);
    match f.serializer.decodeData(state.replicationData.stateData)
    case Err(_) =>
    case Ok(d) =>
      FinishTickSame(f, g, env.(stateVersion := state.replicationData.stateVersion), last, Resumed(p, state, d));
  }

  lemma TickSame(f: Machine, g: Machine, t: Task)
    requires SameMachine(f, g)
    ensures Tick(g, t) == Tick(f, t)
  {
    FindSerializedStateSame(f, g, t.events);
    match FindSerializedState(f, t.events)
    case Err(_) =>
    case Ok(state) =>
      var errors := ErrorSignals(Recent(t));
      DecideErrorsSame(f, g, EnvOf(t), errors,
        Fresh(state.pendingActivities).(data := Ptr(f.zero), state := f.errorState.name));
      var phase := ErrorPhase(f, EnvOf(t), errors, state.pendingActivities);
      assert ErrorPhase(g, EnvOf(t), errors, state.pendingActivities) == phase;
      AfterErrorsSame(f, g, EnvOf(t), t.events, Deliverables(Recent(t)), state, phase.p);
  }

  /** `s'` is `s`, or `s` with its decider, which never passes, wrapped in a composition of one. */
  ghost predicate MaybeComposed(s: FSMState, s': FSMState) {
    s' == s ||
      (&& s' == FSMState(s.name, NewComposedDecider([s.decider]))
       && forall ctx, e, v :: s.decider(ctx, e, v) != Returned(Pass))
  }

  lemma ComposedAlone(s: FSMState, s': FSMState)
    requires MaybeComposed(s, s')
    ensures SameDecider(s.decider, s'.decider)
  {
    var d := s.decider;
    assert [d][1..] == [];
    forall ctx, e, v
      ensures SameEffect(d(ctx, e, v), s'.decider(ctx, e, v))
    {
      if s' != s {
        assert d(ctx, e, v) != Returned(Pass);
        assert s'.decider(ctx, e, v) == Compose([d], ctx, e, v, []);
        if d(ctx, e, v).Returned? {
          assert [] + d(ctx, e, v).outcome.decisions == d(ctx, e, v).outcome.decisions;
        }
      }
    }
  }

  /** Wrapping the deciders of any states in compositions does not change what any tick does. */
  lemma CompositionIsNeutral(f: Machine, g: Machine, t: Task)
    requires g == f.(states := g.states, errorState := g.errorState, initialState := g.initialState)
    requires g.states.Keys == f.states.Keys
    requires forall name :: name in f.states ==> MaybeComposed(f.states[name], g.states[name])
    requires MaybeComposed(f.errorState, g.errorState) && MaybeComposed(f.initialState, g.initialState)
    ensures Tick(g, t) == Tick(f, t)
  {
    ComposedAlone(f.errorState, g.errorState);
    forall name | name in f.states
      ensures SameDecider(f.states[name].decider, g.states[name].decider)
    {
      ComposedAlone(f.states[name], g.states[name]);
    }
    TickSame(f, g, t);
  }

  // ----- transparent error handling -----

  /** The history without the error signals that are newer than `id`. */
  function WithoutErrors(id: int, events: seq<Event>): seq<Event> {
    if events == [] || events[0].id == id then events
    else (if events[0].body.ErrorSignal() then [] else [events[0]]) + WithoutErrors(id, events[1..])
  }

  lemma {:induction false} WithoutErrorsKeepsTheRest(f: Machine, id: int, events: seq<Event>)
    ensures var rest := WithoutErrors(id, events);
            && Deliverables(NewerThan(id, rest)) == Deliverables(NewerThan(id, events))
            && ErrorSignals(NewerThan(id, rest)) == []
            && FindSerializedState(f, rest) == FindSerializedState(f, events)
  {
    if events != [] && events[0].id != id {
      var e, rest := events[0], WithoutErrors(id, events[1..]);
      WithoutErrorsKeepsTheRest(f, id, events[1..]);
      assert NewerThan(id, events)[1..] == NewerThan(id, events[1..]);
      if e.body.ErrorSignal() {
        assert [] + rest == rest;
      } else {
        assert ([e] + rest)[1..] == rest;
        assert NewerThan(id, [e] + rest)[1..] == NewerThan(id, rest);
      }
    }
  }

  /** The error state answers this error signal with neither data nor a state. */
  ghost predicate Transparent(f: Machine, env: Env, pending: Pending, e: Event) {
    forall v ::
      var w := f.errorState.decider(ErrorContext(f, env, pending), e, v);
      w.Returned? && !w.outcome.Pass? && !w.outcome.StayOutcome? && w.outcome.data == Nil && w.outcome.State() == ""
  }

  lemma {:induction false} TransparentErrorsRecover(f: Machine, env: Env, errors: seq<Event>, p: Progress)
    requires forall e :: e in errors ==> e.body.ErrorSignal() && Transparent(f, env, p.pending, e)
    requires errors == [] ==> Recovers(p)
    ensures var r := DecideErrors(f, env, errors, p);
            r.Done? && r.p == p.(data := Nil, state := "", decisions := r.p.decisions)
    decreases |errors|
  {
    if errors != [] {
      var n := |errors| - 1;
      assert Transparent(f, env, p.pending, errors[n]);
      var w := f.errorState.decider(ErrorContext(f, env, p.pending), errors[n], p.data);
      TransparentErrorsRecover(f, env, errors[..n], DecideError(f, env, p, errors[n]).p);
    }
  }

  lemma RecordAlike(f: Machine, env: Env, p: Progress, q: Progress, prior: seq<Decision>)
    requires Alike(p, q, prior) && p.stateVersion == q.stateVersion && p.seen == q.seen
    ensures var a, b := RecordCheckpoint(f, env, p), RecordCheckpoint(f, env, q);
            && (a.Success? <==> b.Success?)
            && (a.Success? ==> && a.checkpoint == b.checkpoint && a.seen == b.seen
                               && b.decisions != [] && a.decisions == [b.decisions[0]] + prior + b.decisions[1..])
  {
  }

  /** Decisions made before the events stay in front of the events' own. */
  lemma FinishTickAlike(f: Machine, env: Env, events: seq<Event>, p: Progress, q: Progress, prior: seq<Decision>)
    requires Alike(p, q, prior) && p.stateVersion == q.stateVersion && p.seen == q.seen
    ensures var a, b := FinishTick(f, env, events, p), FinishTick(f, env, events, q);
            && (a.Success? <==> b.Success?)
            && (a.Success? ==> && a.checkpoint == b.checkpoint && a.seen == b.seen
                               && b.decisions != [] && a.decisions == [b.decisions[0]] + prior + b.decisions[1..])
  {
    hide DecideAll, RecordCheckpoint;
    DecideAllAlike(f, env, events, p, q, prior);
    DoneSeesAndTracksAll(f, env, events, p);
    DoneSeesAndTracksAll(f, env, events, q);
    var r, r' := DecideAll(f, env, events, p), DecideAll(f, env, events, q);
    if r.Done? {
      RecordAlike(f, env, r.p, r'.p, prior);
    }
  }

  /** Error signals that the error state answers with neither data nor a state leave the tick as it would
      have been without them: the same checkpoint and the same decisions, with those of the error state
      inserted right after the marker. */
  lemma TransparentErrors(f: Machine, t: Task, state: SerializedState)
    requires FindSerializedState(f, t.events) == Ok(state)
    requires forall e :: e in ErrorSignals(Recent(t)) ==> Transparent(f, EnvOf(t), state.pendingActivities, e)
    ensures var a, b := Tick(f, t), Tick(f, t.(events := WithoutErrors(t.previousStartedEventID, t.events)));
            var handled := ErrorPhase(f, EnvOf(t), ErrorSignals(Recent(t)), state.pendingActivities);
            && handled.Done?
            && (a.Success? <==> b.Success?)
            && (a.Success? ==> && a.State() == b.State() && a.seen == b.seen
                               && b.decisions != []
                               && a.decisions == [b.decisions[0]] + handled.p.decisions + b.decisions[1..])
  {
    var quiet := t.(events := WithoutErrors(t.previousStartedEventID, t.events));
    var env, errors, last := EnvOf(t), ErrorSignals(Recent(t)), Deliverables(Recent(t));
    WithoutErrorsKeepsTheRest(f, t.previousStartedEventID, t.events);
    forall e | e in errors
      ensures e.body.ErrorSignal()
    {
      ErrorSignalsMember(Recent(t), e);
    }
    var p0 := Fresh(state.pendingActivities);
    if errors != [] {
      TransparentErrorsRecover(f, env, errors, p0.(data := Ptr(f.zero), state := f.errorState.name));
    }
    var p := ErrorPhase(f, env, errors, state.pendingActivities).p;
    assert Tick(f, t) == AfterErrors(f, env, t.events, last, state, p);
    assert Tick(f, quiet) == AfterErrors(f, env, quiet.events, last, state, p0);
    match f.serializer.decodeData(state.replicationData.stateData)
    case Err(_) =>
    case Ok(d) =>
      assert p.decisions + [] == p.decisions;
      FinishTickAlike(f, env.(stateVersion := state.replicationData.stateVersion), last,
        Resumed(p, state, d), Resumed(p0, state, d), p.decisions);
  }
}
