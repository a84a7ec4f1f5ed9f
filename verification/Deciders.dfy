/** Composable deciders: composition as a short-circuiting fold, and managed continuations. */
module Deciders {
  import opened Protocol
  import opened Correlator
  import opened Model

  // ----- composition -----

  /** Composition with the decisions contributed so far. */
  function Compose(deciders: seq<Decider>, ctx: Context, e: Event, data: Value, decisions: seq<Decision>): Verdict {
    if deciders == [] then Returned(ContinueOutcome(data, decisions))
    else
      match deciders[0](ctx, e, data)
      case Panicked(reason) => Panicked(reason)
      case Returned(Pass) => Compose(deciders[1..], ctx, e, data, decisions)
      case Returned(ContinueOutcome(d, ds)) => Compose(deciders[1..], ctx, e, d, decisions + ds)
      case Returned(StayOutcome(d, ds)) => Returned(StayOutcome(d, decisions + ds))
      case Returned(o) => Returned(TransitionOutcome(o.data, o.State(), decisions + o.decisions))
  }

  function NewComposedDecider(deciders: seq<Decider>): Decider {
    (ctx: Context, e: Event, data: Value) => Compose(deciders, ctx, e, data, [])
  }

  class ComposedDecider {
    const deciders: seq<Decider>

    constructor (deciders: seq<Decider>)
      ensures this.deciders == deciders
    {
      this.deciders := deciders;
    }

    method Decide(ctx: Context, e: Event, initial: Value) returns (verdict: Verdict)
      ensures verdict == NewComposedDecider(deciders)(ctx, e, initial)
    {
      var decisions: seq<Decision> := [];
      var data := initial;
      for i := 0 to |deciders|
        invariant Compose(deciders, ctx, e, initial, []) == Compose(deciders[i..], ctx, e, data, decisions)
      {
        assert deciders[i..][1..] == deciders[i + 1..];
        match deciders[i](ctx, e, data) {
          case Panicked(reason) => return Panicked(reason);
          case Returned(outcome) =>
            if outcome.Pass? {
              continue;
            }
            decisions := decisions + outcome.decisions;
            data := outcome.data;
            if outcome.ContinueOutcome? {
              continue;
            } else if outcome.StayOutcome? {
              return Returned(StayOutcome(data, decisions));
            } else {
              return Returned(TransitionOutcome(data, outcome.State(), decisions));
            }
        }
      }
      return Returned(ContinueOutcome(data, decisions));
    }
  }

  // ----- what composition means -----

  function ContributedBy(o: Outcome): seq<Decision> {
    if o.Pass? then [] else o.decisions
  }

  /** The decisions of a list of outcomes, in order. */
  function Contributed(outcomes: seq<Outcome>): seq<Decision> {
    if outcomes == [] then [] else ContributedBy(outcomes[0]) + Contributed(outcomes[1..])
  }

  predicate Yields(o: Outcome) {
    o.Pass? || o.ContinueOutcome?
  }

  /** `outcomes` are the answers of the first deciders of the list, each given the data left by the ones
      before it; all but the last of them leave the decision to the next decider. */
  ghost predicate Answered(deciders: seq<Decider>, ctx: Context, e: Event, data: seq<Value>, outcomes: seq<Outcome>) {
    && |outcomes| <= |deciders| && |data| == |outcomes| + 1
    && (forall i :: 0 <= i < |outcomes| ==> deciders[i](ctx, e, data[i]) == Returned(outcomes[i]))
    && (forall i :: 0 <= i < |outcomes| ==> data[i + 1] == if outcomes[i].Pass? then data[i] else outcomes[i].data)
    && (forall i :: 0 <= i < |outcomes| - 1 ==> Yields(outcomes[i]))
  }

  lemma AnsweredOn(deciders: seq<Decider>, ctx: Context, e: Event, data: seq<Value>, outcomes: seq<Outcome>)
    requires Answered(deciders, ctx, e, data, outcomes) && outcomes != []
    ensures |outcomes| <= |deciders| && |data| == |outcomes| + 1
    ensures deciders[0](ctx, e, data[0]) == Returned(outcomes[0])
    ensures data[1] == if outcomes[0].Pass? then data[0] else outcomes[0].data
    ensures Answered(deciders[1..], ctx, e, data[1..], outcomes[1..]) && (|outcomes| > 1 ==> Yields(outcomes[0]))
  {
  }

  /** If everybody yields, the composition contributes everything and continues; otherwise the first that
      does not yield settles the state, and everything contributed up to it counts. */
  lemma {:induction false} ComposedMeaning(deciders: seq<Decider>, ctx: Context, e: Event, data: seq<Value>,
                                           outcomes: seq<Outcome>, decisions: seq<Decision>)
    requires Answered(deciders, ctx, e, data, outcomes)
    ensures |outcomes| == |deciders| && (outcomes == [] || Yields(outcomes[|outcomes| - 1])) ==>
              Compose(deciders, ctx, e, data[0], decisions)
              == Returned(ContinueOutcome(data[|outcomes|], decisions + Contributed(outcomes)))
    ensures outcomes != [] && outcomes[|outcomes| - 1].StayOutcome? ==>
              Compose(deciders, ctx, e, data[0], decisions)
              == Returned(StayOutcome(data[|outcomes|], decisions + Contributed(outcomes)))
    ensures outcomes != [] && !Yields(outcomes[|outcomes| - 1]) && !outcomes[|outcomes| - 1].StayOutcome? ==>
              Compose(deciders, ctx, e, data[0], decisions)
              == Returned(TransitionOutcome(data[|outcomes|], outcomes[|outcomes| - 1].State(),
                            decisions + Contributed(outcomes)))
    decreases |outcomes|
  {
    hide Answered, Compose, Contributed;
    if outcomes == [] {
      NothingComposed(deciders, ctx, e, data, decisions);
    } else {
      var o, rest := outcomes[0], outcomes[1..];
      AnsweredOn(deciders, ctx, e, data, outcomes);
      ComposedFirst(deciders, ctx, e, data[0], o, decisions);
      ContributedFirst(outcomes, decisions);
      if Yields(o) {
        ComposedMeaning(deciders[1..], ctx, e, data[1..], rest, decisions + ContributedBy(o));
        assert data[1..][|rest|] == data[|outcomes|];
      } else {
        assert rest == [];
      }
    }
  }

  /** A panic among the sub-deciders, once all before have yielded, is the composition's. */
  lemma {:induction false} ComposedPanics(deciders: seq<Decider>, ctx: Context, e: Event, data: seq<Value>,
                                          outcomes: seq<Outcome>, decisions: seq<Decision>, reason: string)
    requires Answered(deciders, ctx, e, data, outcomes) && |outcomes| < |deciders|
    requires forall o :: o in outcomes ==> Yields(o)
    requires deciders[|outcomes|](ctx, e, data[|outcomes|]) == Panicked(reason)
    ensures Compose(deciders, ctx, e, data[0], decisions) == Panicked(reason)
    decreases |outcomes|
  {
    if outcomes != [] {
      AnsweredOn(deciders, ctx, e, data, outcomes);
      ComposedFirst(deciders, ctx, e, data[0], outcomes[0], decisions);
      ComposedPanics(deciders[1..], ctx, e, data[1..], outcomes[1..], decisions + ContributedBy(outcomes[0]), reason);
    }
  }

  lemma NothingComposed(deciders: seq<Decider>, ctx: Context, e: Event, data: seq<Value>, decisions: seq<Decision>)
    requires Answered(deciders, ctx, e, data, [])
    ensures |data| == 1 && decisions + Contributed([]) == decisions
    ensures deciders == [] ==>
              Compose(deciders, ctx, e, data[0], decisions) == Returned(ContinueOutcome(data[0], decisions))
  {
  }

  lemma ContributedFirst(outcomes: seq<Outcome>, decisions: seq<Decision>)
    requires outcomes != []
    ensures decisions + Contributed(outcomes) == decisions + ContributedBy(outcomes[0]) + Contributed(outcomes[1..])
    ensures |outcomes| == 1 ==> decisions + Contributed(outcomes) == decisions + ContributedBy(outcomes[0])
  {
    AppendTwo(decisions, ContributedBy(outcomes[0]), Contributed(outcomes[1..]));
  }

  lemma AppendTwo(a: seq<Decision>, b: seq<Decision>, c: seq<Decision>)
    ensures a + (b + c) == a + b + c && (c == [] ==> a + (b + c) == a + b)
  {
  }

  lemma ComposedFirst(deciders: seq<Decider>, ctx: Context, e: Event, data: Value, o: Outcome, decisions: seq<Decision>)
    requires deciders != [] && deciders[0](ctx, e, data) == Returned(o)
    ensures var now, next := decisions + ContributedBy(o), if o.Pass? then data else o.data;
            Compose(deciders, ctx, e, data, decisions) ==
            if Yields(o) then Compose(deciders[1..], ctx, e, next, now)
            else if o.StayOutcome? then Returned(StayOutcome(next, now))
            else Returned(TransitionOutcome(next, o.State(), now))
  {
    assert decisions + [] == decisions;
  }

  // ----- nested compositions flatten -----

  datatype Tree = Leaf(decider: Decider) | Node(children: seq<Tree>)

  function Build(t: Tree): Decider
    decreases t, 0
  {
    match t
    case Leaf(d) => d
    case Node(children) => NewComposedDecider(BuildAll(children))
  }

  function BuildAll(ts: seq<Tree>): seq<Decider>
    decreases ts, 1
  {
    if ts == [] then [] else [Build(ts[0])] + BuildAll(ts[1..])
  }

  function Leaves(ts: seq<Tree>): seq<Decider>
    decreases ts
  {
    if ts == [] then []
    else (match ts[0] case Leaf(d) => [d] case Node(children) => Leaves(children)) + Leaves(ts[1..])
  }

  function Prefixed(prior: seq<Decision>, v: Verdict): Verdict {
    if v.Panicked? || v.outcome.Pass? then v
    else Returned(v.outcome.WithDecisions(prior + v.outcome.decisions))
  }

  lemma {:induction false} ComposePrefixed(deciders: seq<Decider>, ctx: Context, e: Event, data: Value,
                                           prior: seq<Decision>, decisions: seq<Decision>)
    ensures Compose(deciders, ctx, e, data, prior + decisions)
            == Prefixed(prior, Compose(deciders, ctx, e, data, decisions))
    decreases |deciders|
  {
    if deciders != [] {
      match deciders[0](ctx, e, data)
      case Panicked(_) =>
      case Returned(Pass) => ComposePrefixed(deciders[1..], ctx, e, data, prior, decisions);
      case Returned(ContinueOutcome(d, ds)) =>
        ComposePrefixed(deciders[1..], ctx, e, d, prior, decisions + ds);
        assert prior + decisions + ds == prior + (decisions + ds);
      case Returned(o) =>
        assert prior + decisions + o.decisions == prior + (decisions + o.decisions);
    }
  }

  lemma {:induction false} ComposeAppend(xs: seq<Decider>, ys: seq<Decider>, ctx: Context, e: Event, data: Value,
                                         decisions: seq<Decision>)
    ensures Compose(xs + ys, ctx, e, data, decisions) ==
            match Compose(xs, ctx, e, data, decisions)
            case Returned(ContinueOutcome(d, ds)) => Compose(ys, ctx, e, d, ds)
            case v => v
    decreases |xs|
  {
    if xs == [] {
      assert xs + ys == ys;
    } else {
      assert (xs + ys)[1..] == xs[1..] + ys;
      match xs[0](ctx, e, data)
      case Returned(Pass) => ComposeAppend(xs[1..], ys, ctx, e, data, decisions);
      case Returned(ContinueOutcome(d, ds)) => ComposeAppend(xs[1..], ys, ctx, e, d, decisions + ds);
      case _ =>
    }
  }

  lemma {:induction false} NestedEqualsFlat(ts: seq<Tree>, ctx: Context, e: Event, data: Value,
                                            decisions: seq<Decision>)
    ensures Compose(BuildAll(ts), ctx, e, data, decisions) == Compose(Leaves(ts), ctx, e, data, decisions)
    decreases ts
  {
    if ts != [] {
      var rest := ts[1..];
      assert BuildAll(ts)[1..] == BuildAll(rest);
      match ts[0]
      case Leaf(d) =>
        assert Leaves(ts)[1..] == Leaves(rest);
        match d(ctx, e, data) {
          case Returned(Pass) => NestedEqualsFlat(rest, ctx, e, data, decisions);
          case Returned(ContinueOutcome(d', ds)) => NestedEqualsFlat(rest, ctx, e, d', decisions + ds);
          case _ =>
        }
      case Node(children) =>
        NestedEqualsFlat(children, ctx, e, data, []);
        ComposeAppend(Leaves(children), Leaves(rest), ctx, e, data, decisions);
        ComposePrefixed(Leaves(children), ctx, e, data, decisions, []);
        assert decisions + [] == decisions;
        match Compose(Leaves(children), ctx, e, data, []) {
          case Returned(ContinueOutcome(d, ds)) => NestedEqualsFlat(rest, ctx, e, d, decisions + ds);
          case _ => ComposeSettles(Leaves(children), ctx, e, data, []);
        }
    }
  }

  /** A composition never passes, and it reports completion and errors as plain transitions. */
  lemma {:induction false} ComposeSettles(deciders: seq<Decider>, ctx: Context, e: Event, data: Value,
                                          decisions: seq<Decision>)
    ensures var v := Compose(deciders, ctx, e, data, decisions);
            v.Returned? ==> v.outcome.ContinueOutcome? || v.outcome.StayOutcome? || v.outcome.TransitionOutcome?
    decreases |deciders|
  {
    if deciders != [] {
      match deciders[0](ctx, e, data)
      case Returned(Pass) => ComposeSettles(deciders[1..], ctx, e, data, decisions);
      case Returned(ContinueOutcome(d, ds)) => ComposeSettles(deciders[1..], ctx, e, d, decisions + ds);
      case _ =>
    }
  }

  /** Any tree of compositions decides like one composition of its leaves from left to right. */
  lemma NestedCompositionFlattens(children: seq<Tree>, ctx: Context, e: Event, data: Value)
    ensures Build(Node(children))(ctx, e, data) == NewComposedDecider(Leaves(children))(ctx, e, data)
  {
    NestedEqualsFlat(children, ctx, e, data, []);
  }

  /** The catch-all: stays, with the data it was given. */
  function DefaultDecider(): Decider {
    (ctx: Context, e: Event, data: Value) => Returned(StayOutcome(data, []))
  }

  /** A composition that ends in the catch-all always settles: it never passes and never just continues,
      and where all others yield it stays with everything they contributed. */
  lemma CatchAllSettles(deciders: seq<Decider>, ctx: Context, e: Event, data: Value)
    ensures var v := NewComposedDecider(deciders + [DefaultDecider()])(ctx, e, data);
            v.Panicked? || v.outcome.StayOutcome? || v.outcome.TransitionOutcome?
    ensures var v := NewComposedDecider(deciders)(ctx, e, data);
            NewComposedDecider(deciders + [DefaultDecider()])(ctx, e, data) ==
            if v.Returned? && v.outcome.ContinueOutcome? then Returned(StayOutcome(v.outcome.data, v.outcome.decisions))
            else v
  {
    ComposeAppend(deciders, [DefaultDecider()], ctx, e, data, []);
    ComposeSettles(deciders, ctx, e, data, []);
    assert forall ds: seq<Decision> :: ds + [] == ds;
  }

  // ----- managed continuations -----

  predicate IsContinueTimer(e: Event) {
    e.body.TimerFired? && e.body.timerID == CONTINUE_TIMER
  }

  predicate IsContinueSignal(e: Event) {
    e.body.WorkflowExecutionSignaled? && e.body.signalName == CONTINUE_SIGNAL
  }

  predicate Triggers(e: Event) {
    IsContinueTimer(e) || IsContinueSignal(e)
  }

  function RetryTimer(timerRetrySeconds: int): Decision {
    StartTimer(CONTINUE_TIMER, Itoa(timerRetrySeconds))
  }

  function SelfSignal(ctx: Context): Decision {
    SignalExternalWorkflowExecution(ctx.execution.workflowID, ctx.execution.runID, CONTINUE_SIGNAL, "")
  }

  /** Continues when nothing is pending, and otherwise asks to be woken again. */
  function Attempt(ctx: Context, data: Value, timerRetrySeconds: int): Verdict {
    if |ctx.pendingActivities| == 0 then
      match ContinueWorkflowDecision(ctx, ctx.state)
      case Err(reason) => Panicked(reason)
      case Ok(d) => Returned(StayOutcome(data, [d]))
    else Returned(StayOutcome(data, [RetryTimer(timerRetrySeconds)]))
  }

  function HandleContinuationTimer(timerRetrySeconds: int): Decider {
    (ctx: Context, e: Event, data: Value) =>
      if IsContinueTimer(e) then Attempt(ctx, data, timerRetrySeconds) else Returned(Pass)
  }

  function HandleContinuationSignal(timerRetrySeconds: int): Decider {
    (ctx: Context, e: Event, data: Value) =>
      if IsContinueSignal(e) then Attempt(ctx, data, timerRetrySeconds) else Returned(Pass)
  }

  function SignalContinuationWhenHistoryLarge(historySize: int): Decider {
    (ctx: Context, e: Event, data: Value) =>
      if e.id > historySize then Returned(StayOutcome(data, [SelfSignal(ctx)])) else Returned(Pass)
  }

  function ManagedContinuations(historySize: int, timerRetrySeconds: int): Decider {
    NewComposedDecider([
      HandleContinuationTimer(timerRetrySeconds),
      HandleContinuationSignal(timerRetrySeconds),
      SignalContinuationWhenHistoryLarge(historySize)])
  }

  /** The three handlers never compete: a trigger gets one attempt, any other late event one self-signal,
      and everything else is left to other deciders. */
  lemma ManagedContinuationsTable(historySize: int, timerRetrySeconds: int, ctx: Context, e: Event, data: Value)
    ensures ManagedContinuations(historySize, timerRetrySeconds)(ctx, e, data) ==
            if Triggers(e) then Attempt(ctx, data, timerRetrySeconds)
            else if e.id > historySize then Returned(StayOutcome(data, [SelfSignal(ctx)]))
            else Returned(ContinueOutcome(data, []))
  {
    var timer, signal, large := HandleContinuationTimer(timerRetrySeconds),
      HandleContinuationSignal(timerRetrySeconds), SignalContinuationWhenHistoryLarge(historySize);
    var all := [timer, signal, large];
    assert all[1..] == [signal, large] && all[1..][1..] == [large];
    assert [signal, large][1..] == [large] && [large][1..] == [];
    assert forall d: Decision :: [] + [d] == [d];
    if !IsContinueTimer(e) {
      assert Compose(all, ctx, e, data, []) == Compose([signal, large], ctx, e, data, []);
      if !IsContinueSignal(e) {
        assert Compose([signal, large], ctx, e, data, []) == Compose([large], ctx, e, data, []);
        if e.id <= historySize {
          assert Compose([large], ctx, e, data, []) == Compose([], ctx, e, data, []);
        }
      }
    }
  }

  function DecisionsOf(v: Verdict): seq<Decision> {
    if v.Returned? && !v.outcome.Pass? then v.outcome.decisions else []
  }

  /** Every decision of a composition is one of its sub-deciders'. */
  lemma {:induction false} ComposedFrom(deciders: seq<Decider>, ctx: Context, e: Event, data: Value,
                                        decisions: seq<Decision>, x: Decision)
    returns (i: nat, v: Value)
    requires x in DecisionsOf(Compose(deciders, ctx, e, data, decisions)) && x !in decisions
    ensures i < |deciders| && x in DecisionsOf(deciders[i](ctx, e, v))
    decreases |deciders|
  {
    var first := deciders[0](ctx, e, data);
    if x in DecisionsOf(first) {
      i, v := 0, data;
    } else if first == Returned(Pass) {
      i, v := ComposedFrom(deciders[1..], ctx, e, data, decisions, x);
      i := i + 1;
    } else {
      i, v := ComposedFrom(deciders[1..], ctx, e, first.outcome.data, decisions + first.outcome.decisions, x);
      i := i + 1;
    }
  }

  /** ContinueAsNew is decided only with nothing pending; a trigger gets exactly one retry timer if and only
      if something is pending. */
  lemma ContinuesOnlyWhenNothingPends(historySize: int, timerRetrySeconds: int, ctx: Context, e: Event, data: Value)
    ensures var ds := DecisionsOf(ManagedContinuations(historySize, timerRetrySeconds)(ctx, e, data));
            && ((exists d :: d in ds && d.ContinueAsNewWorkflowExecution?) ==>
                 && Triggers(e) && ctx.pendingActivities == map[]
                 && |ds| == 1 && ContinueWorkflowDecision(ctx, ctx.state) == Ok(ds[0]))
            && (Triggers(e) ==> (ds == [RetryTimer(timerRetrySeconds)] <==> ctx.pendingActivities != map[]))
  {
    ManagedContinuationsTable(historySize, timerRetrySeconds, ctx, e, data);
  }

  // ----- continuation attempts are conserved -----

  /** An event as it reaches a decider. */
  datatype Call = Call(ctx: Context, e: Event, data: Value)

  function Count<T>(p: T -> bool, s: seq<T>): nat {
    if s == [] then 0 else (if p(s[0]) then 1 else 0) + Count(p, s[1..])
  }

  lemma {:induction false} CountAppend<T>(p: T -> bool, s: seq<T>, t: seq<T>)
    ensures Count(p, s + t) == Count(p, s) + Count(p, t)
  {
    if s == [] {
      assert s + t == t;
    } else {
      assert (s + t)[1..] == s[1..] + t;
      CountAppend(p, s[1..], t);
    }
  }

  function Answer(historySize: int, timerRetrySeconds: int, c: Call): Verdict {
    ManagedContinuations(historySize, timerRetrySeconds)(c.ctx, c.e, c.data)
  }

  function Emitted(historySize: int, timerRetrySeconds: int, calls: seq<Call>): seq<Decision> {
    if calls == [] then []
    else
      DecisionsOf(Answer(historySize, timerRetrySeconds, calls[0]))
      + Emitted(historySize, timerRetrySeconds, calls[1..])
  }

  /** Retries, continuations and failed continuations together are the triggers; self-signals are the
      other late events; and there is at most one decision for each event. */
  lemma {:induction false} ContinuationAttemptsConserved(historySize: int, timerRetrySeconds: int, calls: seq<Call>)
    ensures var ds := Emitted(historySize, timerRetrySeconds, calls);
            && Count((d: Decision) => d == RetryTimer(timerRetrySeconds), ds)
               + Count((d: Decision) => d.ContinueAsNewWorkflowExecution?, ds)
               + Count((c: Call) => Answer(historySize, timerRetrySeconds, c).Panicked?, calls)
               == Count((c: Call) => Triggers(c.e), calls)
            && Count((d: Decision) => d.SignalExternalWorkflowExecution?, ds)
               == Count((c: Call) => !Triggers(c.e) && c.e.id > historySize, calls)
            && (forall c :: c in calls ==> |DecisionsOf(Answer(historySize, timerRetrySeconds, c))| <= 1)
  {
    if calls != [] {
      var c := calls[0];
      var mine := DecisionsOf(Answer(historySize, timerRetrySeconds, c));
      var rest := Emitted(historySize, timerRetrySeconds, calls[1..]);
      ContinuationAttemptsConserved(historySize, timerRetrySeconds, calls[1..]);
      CountAppend((d: Decision) => d == RetryTimer(timerRetrySeconds), mine, rest);
      CountAppend((d: Decision) => d.ContinueAsNewWorkflowExecution?, mine, rest);
      CountAppend((d: Decision) => d.SignalExternalWorkflowExecution?, mine, rest);
      ManagedContinuationsTable(historySize, timerRetrySeconds, c.ctx, c.e, c.data);
      assert mine == [] || (|mine| == 1 && mine == [mine[0]]);
    }
  }

  // ----- managed continuations, spelled out -----

  /** The continue timer, or a continue signal with whatever input. */
  predicate AsksToContinue(b: EventBody) {
    match b
    case TimerFired(id) => id == "FSM.ContinueWorkflow"
    case WorkflowExecutionSignaled(name, _) => name == "FSM.ContinueWorkflow"
    case _ => false
  }

  /** While something is pending, a trigger is answered with one timer, of the retry time in decimal, and stays;
      and when that timer fires, whenever and in whatever context, it is a trigger again. */
  lemma RetryTimerTriggersAgain(historySize: int, timerRetrySeconds: int, ctx: Context, e: Event, data: Value)
    requires AsksToContinue(e.body) && ctx.pendingActivities != map[]
    ensures var v := ManagedContinuations(historySize, timerRetrySeconds)(ctx, e, data);
            && v.Returned? && v.outcome.StayOutcome? && v.outcome.data == data
            && |v.outcome.decisions| == 1 && v.outcome.decisions[0].StartTimer?
            && DecimalText(v.outcome.decisions[0].startToFireTimeout, timerRetrySeconds)
            && AsksToContinue(TimerFired(v.outcome.decisions[0].timerID))
  {
    ManagedContinuationsTable(historySize, timerRetrySeconds, ctx, e, data);
    ItoaIsDecimal(timerRetrySeconds);
  }

  /** With nothing pending the answer is to continue in the current state: with the context's version, the
      data from before the event and nothing pending, or a panic if these cannot be encoded. */
  lemma IdleTriggerContinues(historySize: int, timerRetrySeconds: int, ctx: Context, e: Event, data: Value)
    requires AsksToContinue(e.body) && ctx.pendingActivities == map[]
    ensures var v := ManagedContinuations(historySize, timerRetrySeconds)(ctx, e, data);
            var text := ctx.serializer.encodeData(ctx.stateData);
            var input := ctx.serializer.encodeState(
              SerializedState(ReplicationData(ctx.stateVersion, ctx.state, text.text), map[]));
            if text.error == None && input.error == None
            then v == Returned(StayOutcome(data, [ContinueAsNewWorkflowExecution(input.text)]))
            else v.Panicked?
  {
    ManagedContinuationsTable(historySize, timerRetrySeconds, ctx, e, data);
  }

  /** Closing the loop: the timer asked for by one attempt gets the next one, which asks for the same timer again
      or, once nothing is pending, continues or fails to encode. */
  lemma RetriesUntilIdle(historySize: int, timerRetrySeconds: int, ctx: Context, e: Event, data: Value,
                         later: Context, id: int, laterData: Value)
    requires AsksToContinue(e.body) && ctx.pendingActivities != map[]
    ensures var d := ManagedContinuations(historySize, timerRetrySeconds);
            var timer := DecisionsOf(d(ctx, e, data));
            && |timer| == 1 && timer[0].StartTimer?
            && var again := d(later, Event(id, TimerFired(timer[0].timerID)), laterData);
               if later.pendingActivities != map[] then again == Returned(StayOutcome(laterData, timer))
               else again.Panicked? ||
                    (|DecisionsOf(again)| == 1 && DecisionsOf(again)[0].ContinueAsNewWorkflowExecution?)
  {
    RetryTimerTriggersAgain(historySize, timerRetrySeconds, ctx, e, data);
    ManagedContinuationsTable(historySize, timerRetrySeconds, ctx, e, data);
    var timer := DecisionsOf(ManagedContinuations(historySize, timerRetrySeconds)(ctx, e, data))[0];
    ManagedContinuationsTable(historySize, timerRetrySeconds, later, Event(id, TimerFired(timer.timerID)), laterData);
  }

  /** Any other event beyond the history size is answered with one signal to the context's own workflow and run,
      which is a trigger when it arrives; and all other events are left to others, with nothing decided. */
  lemma LateEventsSignal(historySize: int, timerRetrySeconds: int, ctx: Context, e: Event, data: Value)
    requires !AsksToContinue(e.body)
    ensures e.id > historySize ==>
              var v := ManagedContinuations(historySize, timerRetrySeconds)(ctx, e, data);
              && v.Returned? && v.outcome.StayOutcome? && v.outcome.data == data
              && |v.outcome.decisions| == 1 && v.outcome.decisions[0].SignalExternalWorkflowExecution?
              && var d := v.outcome.decisions[0];
                 && d.workflowID == ctx.execution.workflowID && d.runID == ctx.execution.runID
                 && AsksToContinue(WorkflowExecutionSignaled(d.signalName, d.input))
    ensures e.id <= historySize ==>
              ManagedContinuations(historySize, timerRetrySeconds)(ctx, e, data) == Returned(ContinueOutcome(data, []))
  {
    ManagedContinuationsTable(historySize, timerRetrySeconds, ctx, e, data);
  }
}
