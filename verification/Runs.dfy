/** Whole workflow runs: the history grows by external events, decision tasks start, time out and are
    committed, and the engine ticks in between. The theorems hold after every legal sequence of steps. */
module Runs {
  import opened Protocol
  import opened Model
  import opened Engine
  import opened TickLaws

  // ----- the state machine -----

  /** What has been committed so far; none of it is read by the engine. The states, contexts, tracked and
      lost events are listed newest first, what was delivered and decided oldest first. */
  datatype Log = Log(
    committed: seq<SerializedState>,   // checkpoints of successful ticks
    contexts: seq<string>,             // ExecutionContexts of their completions
    tracked: seq<Event>,               // deliverable events of the tasks of successful ticks
    lost: seq<Event>,                  // deliverable events of the tasks of failed ticks
    delivered: seq<Event>,             // events handed to normal-state deciders
    decided: seq<Decision>,            // decisions that normal states made in successful ticks
    records: seq<Record>,              // records put on the stream, oldest first
    failures: nat,                     // committed ticks that failed
    takeovers: nat,                    // successful ticks in which error handling gave data or a state
    nils: nat)                         // successful ticks that left nil data

  /** A stream record and the position, counted from the first, of the checkpoint it was put for. */
  datatype Record = Record(position: nat, text: string)

  datatype Run = Run(
    execution: WorkflowExecution,
    workflowType: WorkflowType,
    history: seq<Event>,
    previous: nat,             // the start of the last committed task; 0 if there was none
    started: Option<nat>,      // the start of the running task
    log: Log)

  datatype Step =
    | External(body: EventBody)
    | Schedule
    | Start
    | TimeOut
    | Commit(effects: seq<seq<EventBody>>, delivered: bool)

  function Begin(execution: WorkflowExecution, workflowType: WorkflowType, input: string): Run {
    Run(execution, workflowType, [Event(1, WorkflowExecutionStarted(input))], 0, None,
      Log([], [], [], [], [], [], [], 0, 0, 0))
  }

  /** The `n` oldest events. */
  function Upto(history: seq<Event>, n: nat): seq<Event>
    requires n <= |history|
  {
    history[|history| - n..]
  }

  /** Appends events one after the other, numbering them on. */
  function Extend(history: seq<Event>, bodies: seq<EventBody>): seq<Event>
    decreases |bodies|
  {
    if bodies == [] then history
    else Extend([Event(|history| + 1, bodies[0])] + history, bodies[1..])
  }

  /** The decision task that the poller receives. */
  function TaskOf(r: Run): Task
    requires r.started.Some? && r.started.value <= |r.history|
  {
    Task(r.previous, Upto(r.history, r.started.value), r.execution, r.workflowType, "")
  }

  /** Events that the service or other parties add on their own. */
  predicate Admissible(b: EventBody) {
    !b.WorkflowExecutionStarted? && !b.DecisionTask() && !b.StateMarker()
  }

  /** A marker decision becomes its marker; any other decision becomes whatever events it becomes. */
  predicate EffectOf(d: Decision, effect: seq<EventBody>) {
    if d.RecordMarker? then effect == [MarkerRecorded(d.markerName, d.details)]
    else forall b :: b in effect ==> Admissible(b)
  }

  predicate EffectsOf(ds: seq<Decision>, effects: seq<seq<EventBody>>) {
    |effects| == |ds| && forall i :: 0 <= i < |ds| ==> EffectOf(ds[i], effects[i])
  }

  function Concat(effects: seq<seq<EventBody>>): seq<EventBody> {
    if effects == [] then [] else effects[0] + Concat(effects[1..])
  }

  predicate Enabled(f: Machine, r: Run, step: Step) {
    match step
    case External(b) => Admissible(b)
    case Schedule => true
    case Start => r.started == None
    case TimeOut => r.started.Some?
    case Commit(effects, _) =>
      && r.started.Some? && r.started.value <= |r.history|
      && !Tick(f, TaskOf(r)).Crash?
      && EffectsOf(CompletionOf(TaskOf(r), Tick(f, TaskOf(r))).decisions, effects)
  }

  function Logged(f: Machine, log: Log, t: Task, result: TickResult, delivered: bool): Log
    requires !result.Crash?
  {
    var put := RecordPut(f, result, true, delivered);
    var next := log.(delivered := log.delivered + result.seen);
    if result.Failure? then
      next.(lost := Deliverables(Recent(t)) + log.lost, failures := log.failures + 1)
    else
      next.(committed := [result.checkpoint] + log.committed,
            contexts := [CompletionOf(t, result).executionContext] + log.contexts,
            tracked := Deliverables(Recent(t)) + log.tracked,
            decided := log.decided + NormalDecisions(f, t, result),
            takeovers := log.takeovers + (if TakesOver(f, t) then 1 else 0),
            nils := log.nils + (if EndsNil(f, t) then 1 else 0),
            records := log.records + (if put.Some? then [Record(|log.committed|, put.value)] else []))
  }

  function Apply(f: Machine, r: Run, step: Step): Run
    requires Enabled(f, r, step)
  {
    match step
    case External(b) => r.(history := Extend(r.history, [b]))
    case Schedule => r.(history := Extend(r.history, [DecisionTaskScheduled]))
    case Start => r.(history := Extend(r.history, [DecisionTaskStarted]), started := Some(|r.history| + 1))
    case TimeOut => r.(history := Extend(r.history, [OtherEvent("DecisionTaskTimedOut")]), started := None)
    case Commit(effects, delivered) =>
      r.(history := Extend(r.history, [DecisionTaskCompleted] + Concat(effects)),
         previous := r.started.value,
         started := None,
         log := Logged(f, r.log, TaskOf(r), Tick(f, TaskOf(r)), delivered))
  }

  predicate Legal(f: Machine, r: Run, steps: seq<Step>)
    decreases |steps|
  {
    steps == [] || (Enabled(f, r, steps[0]) && Legal(f, Apply(f, r, steps[0]), steps[1..]))
  }

  function After(f: Machine, r: Run, steps: seq<Step>): Run
    requires Legal(f, r, steps)
    decreases |steps|
  {
    if steps == [] then r else After(f, Apply(f, r, steps[0]), steps[1..])
  }

  // ----- the shape of a history -----

  function Markers(events: seq<Event>): seq<string> {
    if events == [] then []
    else (if events[0].body.StateMarker() then [events[0].body.details] else []) + Markers(events[1..])
  }

  function Texts(f: Machine, states: seq<SerializedState>): seq<string> {
    seq(|states|, i requires 0 <= i < |states| => f.serializer.encodeState(states[i]).text)
  }

  /** Events are numbered from 1 without gaps, and the first is the only start. */
  ghost predicate Numbered(history: seq<Event>) {
    && history != []
    && (forall i :: 0 <= i < |history| ==> history[i].id == |history| - i)
    && (forall i :: 0 <= i < |history| ==> (history[i].body.WorkflowExecutionStarted? <==> i == |history| - 1))
  }

  /** The state markers in the history are the committed checkpoints, none of them newer than the start of
      a running task, and that task started after the previous one. */
  ghost predicate Shape(f: Machine, r: Run) {
    && Numbered(r.history)
    && r.previous <= |r.history|
    && (r.started.Some? ==>
          && r.previous < r.started.value <= |r.history|
          && Markers(r.history[..|r.history| - r.started.value]) == [])
    && Markers(r.history) == Texts(f, r.log.committed)
    && forall c :: c in r.log.committed ==> f.serializer.encodeState(c).Fine()
  }

  lemma {:induction false} MarkersAppend(newer: seq<Event>, older: seq<Event>)
    ensures Markers(newer + older) == Markers(newer) + Markers(older)
  {
    if newer == [] {
      assert newer + older == older;
    } else {
      assert (newer + older)[1..] == newer[1..] + older;
      MarkersAppend(newer[1..], older);
      AppendAgain(if newer[0].body.StateMarker() then [newer[0].body.details] else [],
        Markers(newer[1..]), Markers(older));
    }
  }

  predicate Quiet(b: EventBody) {
    !b.StateMarker() && !b.WorkflowExecutionStarted?
  }

  lemma {:induction false} ExtendAppend(history: seq<Event>, a: seq<EventBody>, b: seq<EventBody>)
    ensures Extend(history, a + b) == Extend(Extend(history, a), b)
    decreases |a|
  {
    if a == [] {
      assert a + b == b;
    } else {
      assert (a + b)[1..] == a[1..] + b;
      ExtendAppend([Event(|history| + 1, a[0])] + history, a[1..], b);
    }
  }

  lemma PrependQuiet(history: seq<Event>, body: EventBody)
    requires Numbered(history) && Quiet(body)
    ensures var next := [Event(|history| + 1, body)] + history;
            Numbered(next) && next[1..] == history && Markers(next) == Markers(history)
  {
    var next := [Event(|history| + 1, body)] + history;
    assert forall i :: 0 < i < |next| ==> next[i] == history[i - 1];
    assert next[1..] == history;
  }

  /** Quiet events leave the numbering, the markers and everything older in place. */
  lemma {:induction false} ExtendQuiet(history: seq<Event>, bodies: seq<EventBody>)
    requires Numbered(history) && forall b :: b in bodies ==> Quiet(b)
    ensures var h := Extend(history, bodies);
            && Numbered(h) && |h| == |history| + |bodies| && h[|bodies|..] == history
            && Markers(h[..|bodies|]) == [] && Markers(h) == Markers(history)
    decreases |bodies|
  {
    hide Numbered, Markers, Quiet;
    if bodies == [] {
      NoMarkers();
    } else {
      var next := [Event(|history| + 1, bodies[0])] + history;
      assert Quiet(bodies[0]);
      PrependQuiet(history, bodies[0]);
      ExtendQuiet(next, bodies[1..]);
      var h := Extend(history, bodies);
      assert h[|bodies| - 1..][1..] == h[|bodies|..];
      NothingMarkedAbove(history, h, |bodies|);
    }
  }

  lemma NoMarkers()
    ensures Markers([]) == []
  {
  }

  lemma NothingMarkedAbove(history: seq<Event>, h: seq<Event>, n: nat)
    requires n <= |h| && h[n..] == history && Markers(h) == Markers(history)
    ensures Markers(h[..n]) == []
  {
    assert h == h[..n] + history;
    MarkersAppend(h[..n], history);
    assert |Markers(h)| == |Markers(h[..n])| + |Markers(history)|;
  }

  lemma {:induction false} NewerThanNumbered(u: seq<Event>, previous: nat)
    requires forall i :: 0 <= i < |u| ==> u[i].id == |u| - i
    requires previous <= |u|
    ensures NewerThan(previous, u) == u[..|u| - previous]
  {
    if u != [] && u[0].id != previous {
      assert forall i :: 0 <= i < |u[1..]| ==> u[1..][i] == u[i + 1];
      NewerThanNumbered(u[1..], previous);
      assert u[..|u| - previous] == [u[0]] + u[1..][..|u[1..]| - previous];
    }
  }

  /** The events of the running task that are newer than the previous task's start. */
  function Between(r: Run): seq<Event>
    requires r.started.Some? && r.previous <= r.started.value <= |r.history|
  {
    Upto(r.history, r.started.value)[..r.started.value - r.previous]
  }

  lemma TaskSplits(f: Machine, r: Run)
    requires Shape(f, r) && r.started.Some?
    ensures Recent(TaskOf(r)) == Between(r)
    ensures Upto(r.history, r.started.value) == Between(r) + Upto(r.history, r.previous)
  {
    var h, s := r.history, r.started.value;
    var u := Upto(h, s);
    assert forall i :: 0 <= i < |u| ==> u[i] == h[|h| - s + i];
    NewerThanNumbered(u, r.previous);
    assert u[s - r.previous..] == Upto(h, r.previous);
  }

  lemma TaskFindsTheCheckpoint(f: Machine, r: Run)
    requires Shape(f, r) && r.started.Some?
    ensures FindSerializedState(f, TaskOf(r).events) == FindSerializedState(f, r.history)
  {
    var newer := r.history[..|r.history| - r.started.value];
    assert r.history == newer + Upto(r.history, r.started.value);
    assert forall i :: 0 <= i < |newer| ==> newer[i] == r.history[i];
    SkipQuiet(f, newer, Upto(r.history, r.started.value));
  }

  /** Both scans of the tick, seen from the run: the recent events are exactly those between the two
      starts, and the checkpoint found is that of the whole history. */
  lemma TaskDecomposes(f: Machine, r: Run)
    requires Shape(f, r) && r.started.Some?
    ensures Recent(TaskOf(r)) == Between(r)
    ensures Upto(r.history, r.started.value) == Between(r) + Upto(r.history, r.previous)
    ensures FindSerializedState(f, TaskOf(r).events) == FindSerializedState(f, r.history)
  {
    TaskSplits(f, r);
    TaskFindsTheCheckpoint(f, r);
  }

  lemma {:induction false} SkipQuiet(f: Machine, newer: seq<Event>, older: seq<Event>)
    requires Markers(newer) == [] && forall i :: 0 <= i < |newer| ==> !newer[i].body.WorkflowExecutionStarted?
    ensures FindSerializedState(f, newer + older) == FindSerializedState(f, older)
  {
    if newer == [] {
      assert newer + older == older;
    } else {
      assert (newer + older)[1..] == newer[1..] + older;
      assert forall i :: 0 <= i < |newer[1..]| ==> newer[1..][i] == newer[i + 1];
      SkipQuiet(f, newer[1..], older);
    }
  }

  /** The scan finds the newest marker, and the start input only where there is no marker. */
  lemma {:induction false} FindNewestMarker(f: Machine, history: seq<Event>)
    requires history != [] && history[|history| - 1].body.WorkflowExecutionStarted?
    requires forall i :: 0 <= i < |history| - 1 ==> !history[i].body.WorkflowExecutionStarted?
    ensures FindSerializedState(f, history) ==
            if Markers(history) == [] then StartState(f, history[|history| - 1].body.input)
            else f.serializer.decodeState(Markers(history)[0])
  {
    if !Anchors(history[0]) {
      assert forall i :: 0 <= i < |history[1..]| ==> history[1..][i] == history[i + 1];
      FindNewestMarker(f, history[1..]);
    } else if history[0].body.WorkflowExecutionStarted? {
      assert |history| == 1;
      assert history[1..] == [];
    }
  }

  function StartInput(r: Run): string
    requires r.history != [] && r.history[|r.history| - 1].body.WorkflowExecutionStarted?
  {
    r.history[|r.history| - 1].body.input
  }

  /** What a tick recovers: the last committed checkpoint, or else the start input. */
  lemma RecoversLastCheckpoint(f: Machine, r: Run)
    requires Shape(f, r) && StatesRoundTrip(f.serializer)
    ensures FindSerializedState(f, r.history) ==
            if r.log.committed == [] then StartState(f, StartInput(r)) else Ok(r.log.committed[0])
  {
    FindNewestMarker(f, r.history);
    if r.log.committed != [] {
      assert Markers(r.history)[0] == f.serializer.encodeState(r.log.committed[0]).text;
    }
  }

  // ----- steps keep the shape -----

  lemma {:induction false} ConcatQuiet(ds: seq<Decision>, effects: seq<seq<EventBody>>)
    requires EffectsOf(ds, effects) && NoneCheckpoint(ds)
    ensures forall b :: b in Concat(effects) ==> Quiet(b)
    decreases |ds|
  {
    if ds != [] {
      assert EffectOf(ds[0], effects[0]);
      assert !ds[0].Checkpoint();
      forall i | 0 <= i < |ds[1..]|
        ensures EffectOf(ds[1..][i], effects[1..][i])
      {
        assert EffectOf(ds[i + 1], effects[i + 1]);
      }
      ConcatQuiet(ds[1..], effects[1..]);
    }
  }

  /** The part of the commit's events before those of the deciders' decisions: the completion of the task,
      and the marker if the tick succeeded. */
  lemma CommitSplits(f: Machine, r: Run, effects: seq<seq<EventBody>>)
    requires Discreet(f) && r.started.Some? && r.started.value <= |r.history| && !Tick(f, TaskOf(r)).Crash?
    requires EffectsOf(Tick(f, TaskOf(r)).Decisions(), effects)
    ensures var result := Tick(f, TaskOf(r));
            && (result.Success? ==>
                 && f.serializer.encodeState(result.checkpoint).Fine()
                 && effects != []
                 && effects[0] == [MarkerRecorded(STATE_MARKER, f.serializer.encodeState(result.checkpoint).text)]
                 && forall b :: b in Concat(effects[1..]) ==> Quiet(b))
            && (result.Failure? ==> forall b :: b in Concat(effects) ==> Quiet(b))
  {
    var result := Tick(f, TaskOf(r));
    CheckpointsOnlyOnSuccess(f, TaskOf(r));
    if result.Success? {
      assert EffectOf(result.decisions[0], effects[0]);
      forall i | 0 <= i < |Decided(result)|
        ensures EffectOf(Decided(result)[i], effects[1..][i])
      {
        assert EffectOf(result.decisions[i + 1], effects[i + 1]);
      }
      ConcatQuiet(Decided(result), effects[1..]);
    } else {
      ConcatQuiet(result.Decisions(), effects);
    }
  }

  /** The marker of a committed tick goes on top of the markers, whatever follows it. */
  lemma ExtendByCheckpoint(history: seq<Event>, text: string, rest: seq<EventBody>)
    requires Numbered(history) && forall b :: b in rest ==> Quiet(b)
    ensures var h := Extend(history, [DecisionTaskCompleted] + ([MarkerRecorded(STATE_MARKER, text)] + rest));
            && Numbered(h) && |h| == |history| + 2 + |rest| && h[2 + |rest|..] == history
            && Markers(h) == [text] + Markers(history)
  {
    var marker := MarkerRecorded(STATE_MARKER, text);
    var completed := [Event(|history| + 1, DecisionTaskCompleted)] + history;
    var marked := [Event(|history| + 2, marker)] + completed;
    PrependQuiet(history, DecisionTaskCompleted);
    assert marked[1..] == completed;
    assert forall i :: 0 < i < |marked| ==> marked[i] == completed[i - 1];
    assert [DecisionTaskCompleted] + ([marker] + rest) == [DecisionTaskCompleted, marker] + rest;
    ExtendAppend(history, [DecisionTaskCompleted, marker], rest);
    assert Extend(history, [DecisionTaskCompleted, marker]) == marked by {
      assert [DecisionTaskCompleted, marker][1..] == [marker] && [marker][1..] == [];
      assert Extend(history, [DecisionTaskCompleted, marker]) == Extend(completed, [marker]);
      assert Extend(completed, [marker]) == Extend(marked, []);
    }
    ExtendQuiet(marked, rest);
    var h := Extend(marked, rest);
    assert h[|rest|..][2..] == h[|rest| + 2..] && marked[2..] == history;
  }

  lemma QuietEventKeepsShape(f: Machine, r: Run, body: EventBody)
    requires Shape(f, r) && Quiet(body)
    ensures var h := Extend(r.history, [body]);
            Shape(f, r.(history := h)) && |h| == |r.history| + 1 && h[1..] == r.history
  {
    hide Extend, Markers, Numbered;
    ExtendQuiet(r.history, [body]);
    var h := Extend(r.history, [body]);
    if r.started.Some? {
      var k := |r.history| - r.started.value;
      OneMore(r.history, h, k);
      MarkersAppend(h[..1], r.history[..k]);
    }
  }

  lemma OneMore(history: seq<Event>, h: seq<Event>, k: nat)
    requires k <= |history| && |h| == |history| + 1 && h[1..] == history
    ensures h[..k + 1] == h[..1] + history[..k]
  {
    assert forall i :: 0 <= i < k ==> h[1 + i] == h[1..][i];
  }

  lemma QuietStepKeepsShape(f: Machine, r: Run, step: Step)
    requires Shape(f, r) && Enabled(f, r, step) && !step.Commit?
    ensures Shape(f, Apply(f, r, step))
    ensures var h := Apply(f, r, step).history; |h| == |r.history| + 1 && h[1..] == r.history
  {
    match step
    case External(b) => QuietEventKeepsShape(f, r, b);
    case Schedule => QuietEventKeepsShape(f, r, DecisionTaskScheduled);
    case TimeOut => QuietEventKeepsShape(f, r, OtherEvent("DecisionTaskTimedOut"));
    case Start =>
      QuietEventKeepsShape(f, r, DecisionTaskStarted);
      var h := Extend(r.history, [DecisionTaskStarted]);
      assert h[..0] == [];
  }

  /** What a commit logs of its tick. */
  lemma LogTracks(f: Machine, r: Run, step: Step)
    requires Enabled(f, r, step) && step.Commit?
    ensures var log, log', result := r.log, Apply(f, r, step).log, Tick(f, TaskOf(r));
            && (result.Success? ==> && log'.committed == [result.checkpoint] + log.committed
                                    && log'.tracked == Deliverables(Recent(TaskOf(r))) + log.tracked
                                    && log'.lost == log.lost && log'.failures == log.failures)
            && (result.Failure? ==> && log'.committed == log.committed && log'.tracked == log.tracked
                                    && log'.lost == Deliverables(Recent(TaskOf(r))) + log.lost
                                    && log'.failures == log.failures + 1)
  {
  }

  lemma SuccessKeepsShape(f: Machine, r: Run, c: SerializedState, rest: seq<EventBody>, r': Run)
    requires Shape(f, r) && r.started.Some? && f.serializer.encodeState(c).Fine() && forall b :: b in rest ==> Quiet(b)
    requires r'.previous == r.started.value && r'.started == None && r'.log.committed == [c] + r.log.committed
    requires r'.history == Extend(r.history,
               [DecisionTaskCompleted] + ([MarkerRecorded(STATE_MARKER, f.serializer.encodeState(c).text)] + rest))
    ensures Shape(f, r') && |r'.history| >= |r.history| && r'.history[|r'.history| - |r.history|..] == r.history
  {
    var text := f.serializer.encodeState(c).text;
    ExtendByCheckpoint(r.history, text, rest);
    assert Texts(f, r'.log.committed) == [text] + Texts(f, r.log.committed);
  }

  lemma FailureKeepsShape(f: Machine, r: Run, rest: seq<EventBody>, r': Run)
    requires Shape(f, r) && r.started.Some? && forall b :: b in rest ==> Quiet(b)
    requires r'.previous == r.started.value && r'.started == None && r'.log.committed == r.log.committed
    requires r'.history == Extend(r.history, [DecisionTaskCompleted] + rest)
    ensures Shape(f, r') && |r'.history| >= |r.history| && r'.history[|r'.history| - |r.history|..] == r.history
  {
    ExtendQuiet(r.history, [DecisionTaskCompleted] + rest);
  }

  lemma CommitKeepsShape(f: Machine, r: Run, step: Step)
    requires Discreet(f) && Shape(f, r) && Enabled(f, r, step) && step.Commit?
    ensures Shape(f, Apply(f, r, step))
    ensures var h := Apply(f, r, step).history; |h| >= |r.history| && h[|h| - |r.history|..] == r.history
  {
    hide Tick, Logged, Extend, Numbered, Markers, Discreet;
    CommitSplits(f, r, step.effects);
    LogTracks(f, r, step);
    var result := Tick(f, TaskOf(r));
    if result.Success? {
      SuccessKeepsShape(f, r, result.checkpoint, Concat(step.effects[1..]), Apply(f, r, step));
    } else {
      FailureKeepsShape(f, r, Concat(step.effects), Apply(f, r, step));
    }
  }

  lemma StepKeepsShape(f: Machine, r: Run, step: Step)
    requires Discreet(f) && Shape(f, r) && Enabled(f, r, step)
    ensures Shape(f, Apply(f, r, step))
    ensures var h := Apply(f, r, step).history; |h| >= |r.history| && h[|h| - |r.history|..] == r.history
  {
    if step.Commit? {
      CommitKeepsShape(f, r, step);
    } else {
      QuietStepKeepsShape(f, r, step);
    }
  }

  /** No task blocks a run: where deciders always answer and errors can be reported, every running task can
      be committed. */
  lemma EveryTaskCanBeCommitted(f: Machine, r: Run, delivered: bool)
    requires Answers(f) && r.started.Some? && r.started.value <= |r.history|
    ensures exists effects :: Enabled(f, r, Commit(effects, delivered))
  {
    hide Tick;
    NoTickCrashes(f, TaskOf(r));
    var ds := CompletionOf(TaskOf(r), Tick(f, TaskOf(r))).decisions;
    var effects := seq(|ds|, i requires 0 <= i < |ds| =>
                     if ds[i].RecordMarker? then [MarkerRecorded(ds[i].markerName, ds[i].details)] else []);
    assert Enabled(f, r, Commit(effects, delivered));
  }

  lemma BeginsInShape(f: Machine, execution: WorkflowExecution, workflowType: WorkflowType, input: string)
    ensures Shape(f, Begin(execution, workflowType, input))
  {
    var h := Begin(execution, workflowType, input).history;
    assert h[1..] == [];
  }

  /** Older parts of a history do not change when it grows. */
  lemma UptoStable(history: seq<Event>, grown: seq<Event>, n: nat)
    requires n <= |history| <= |grown| && grown[|grown| - |history|..] == history
    ensures Upto(grown, n) == Upto(history, n)
  {
    assert Upto(grown, n) == grown[|grown| - |history|..][|history| - n..];
  }
}
