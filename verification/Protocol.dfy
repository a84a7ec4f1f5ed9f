/** The part of the SWF wire protocol that the engine inspects: history events and decisions.
    Histories are held newest event first, which is the order in which decision tasks deliver them. */
module Protocol {

  const STATE_MARKER := "FSM.State"
  const ERROR_SIGNAL := "FSM.Error"
  const SYSTEM_ERROR_SIGNAL := "FSM.SystemError"
  const CONTINUE_TIMER := "FSM.ContinueWorkflow"
  const CONTINUE_SIGNAL := "FSM.ContinueWorkflow"
  const COMPLETE_STATE := "complete"
  const ERROR_STATE := "error"

  datatype Option<+T> = None | Some(value: T)

  datatype Result<+T> = Ok(value: T) | Err(error: string)

  datatype WorkflowType = WorkflowType(name: string, version: string)

  datatype WorkflowExecution = WorkflowExecution(workflowID: string, runID: string)

  datatype ActivityType = ActivityType(name: string, version: string)

  datatype EventBody =
    | WorkflowExecutionStarted(input: string)
    | DecisionTaskScheduled
    | DecisionTaskStarted
    | DecisionTaskCompleted
    | MarkerRecorded(markerName: string, details: string)
    | WorkflowExecutionSignaled(signalName: string, signalInput: string)
    | ActivityTaskScheduled(activityID: string, activityType: ActivityType)
    | ActivityTaskCompleted(scheduledEventID: int)
    | ActivityTaskFailed(scheduledEventID: int)
    | ActivityTaskTimedOut(scheduledEventID: int)
    | ActivityTaskCanceled(scheduledEventID: int)
    | TimerFired(timerID: string)
    | OtherEvent(eventType: string)
  {
    predicate StateMarker() {
      MarkerRecorded? && markerName == STATE_MARKER
    }

    predicate ErrorSignal() {
      WorkflowExecutionSignaled? && (signalName == SYSTEM_ERROR_SIGNAL || signalName == ERROR_SIGNAL)
    }

    predicate DecisionTask() {
      DecisionTaskScheduled? || DecisionTaskStarted? || DecisionTaskCompleted?
    }

    /** Events that reach the decider of a normal state. */
    predicate Deliverable() {
      !DecisionTask() && !StateMarker() && !ErrorSignal()
    }

    /** Events that end an activity; each of them names the event that scheduled it. */
    predicate EndsActivity() {
      ActivityTaskCompleted? || ActivityTaskFailed? || ActivityTaskTimedOut? || ActivityTaskCanceled?
    }
  }

  datatype Event = Event(id: int, body: EventBody)

  datatype Decision =
    | RecordMarker(markerName: string, details: string)
    | SignalExternalWorkflowExecution(workflowID: string, runID: string, signalName: string, input: string)
    | StartTimer(timerID: string, startToFireTimeout: string)
    | ContinueAsNewWorkflowExecution(input: string)
    | CompleteWorkflowExecution(result: string)
    | ScheduleActivityTask(activityID: string, activityType: ActivityType)
    | OtherDecision(decisionType: string)
  {
    predicate Checkpoint() {
      RecordMarker? && markerName == STATE_MARKER
    }
  }

  /** A decision task: the history up to its DecisionTaskStarted event, newest first. */
  datatype Task = Task(
    previousStartedEventID: int,
    events: seq<Event>,
    execution: WorkflowExecution,
    workflowType: WorkflowType,
    taskToken: string)

  /** The events newer than the one numbered `id`; all of them if there is none. */
  function NewerThan(id: int, events: seq<Event>): seq<Event> {
    if events == [] || events[0].id == id then [] else [events[0]] + NewerThan(id, events[1..])
  }

  function Deliverables(events: seq<Event>): seq<Event> {
    if events == [] then []
    else (if events[0].body.Deliverable() then [events[0]] else []) + Deliverables(events[1..])
  }

  function ErrorSignals(events: seq<Event>): seq<Event> {
    if events == [] then []
    else (if events[0].body.ErrorSignal() then [events[0]] else []) + ErrorSignals(events[1..])
  }

  function EventIDs(events: seq<Event>): seq<int> {
    seq(|events|, i requires 0 <= i < |events| => events[i].id)
  }

  function Reverse<T>(s: seq<T>): (r: seq<T>)
    ensures |r| == |s|
  {
    if s == [] then [] else Reverse(s[1..]) + [s[0]]
  }

  lemma AppendAgain<T>(a: seq<T>, b: seq<T>, c: seq<T>)
    ensures a + b + c == a + (b + c)
  {
  }

  lemma {:induction false} ReverseAppend<T>(s: seq<T>, t: seq<T>)
    ensures Reverse(s + t) == Reverse(t) + Reverse(s)
  {
    if s == [] {
      assert s + t == t;
    } else {
      assert (s + t)[1..] == s[1..] + t;
      ReverseAppend(s[1..], t);
      AppendAgain(Reverse(t), Reverse(s[1..]), [s[0]]);
    }
  }

  lemma {:induction false} DeliverablesAppend(newer: seq<Event>, older: seq<Event>)
    ensures Deliverables(newer + older) == Deliverables(newer) + Deliverables(older)
  {
    if newer == [] {
      assert newer + older == older;
    } else {
      assert (newer + older)[1..] == newer[1..] + older;
      DeliverablesAppend(newer[1..], older);
      AppendAgain(if newer[0].body.Deliverable() then [newer[0]] else [],
        Deliverables(newer[1..]), Deliverables(older));
    }
  }

  lemma {:induction false} ErrorSignalsAppend(newer: seq<Event>, older: seq<Event>)
    ensures ErrorSignals(newer + older) == ErrorSignals(newer) + ErrorSignals(older)
  {
    if newer == [] {
      assert newer + older == older;
    } else {
      assert (newer + older)[1..] == newer[1..] + older;
      ErrorSignalsAppend(newer[1..], older);
      AppendAgain(if newer[0].body.ErrorSignal() then [newer[0]] else [],
        ErrorSignals(newer[1..]), ErrorSignals(older));
    }
  }

  lemma {:induction false} DeliverablesMember(events: seq<Event>, e: Event)
    ensures e in Deliverables(events) <==> e in events && e.body.Deliverable()
  {
    if events != [] {
      assert events == [events[0]] + events[1..];
      DeliverablesMember(events[1..], e);
    }
  }

  lemma {:induction false} ErrorSignalsMember(events: seq<Event>, e: Event)
    ensures e in ErrorSignals(events) <==> e in events && e.body.ErrorSignal()
  {
    if events != [] {
      assert events == [events[0]] + events[1..];
      ErrorSignalsMember(events[1..], e);
    }
  }

  /** The two kinds of events that reach deciders: error signals go to the error state, and all other
      deliverable events to normal states. */
  datatype Kind = Signals | Events {
    predicate Of(e: Event) {
      if Signals? then e.body.ErrorSignal() else e.body.Deliverable()
    }
  }

  predicate AllOf(kind: Kind, events: seq<Event>) {
    forall e :: e in events ==> kind.Of(e)
  }

  lemma EveryEventIsOfItsKind(events: seq<Event>)
    ensures AllOf(Events, Deliverables(events)) && AllOf(Signals, ErrorSignals(events))
  {
    forall e | e in Deliverables(events)
      ensures Events.Of(e)
    {
      DeliverablesMember(events, e);
    }
    forall e | e in ErrorSignals(events)
      ensures Signals.Of(e)
    {
      ErrorSignalsMember(events, e);
    }
  }

  /** The two kinds, constructor by constructor and with the names spelled out. */
  lemma KindsByConstructor(b: EventBody)
    ensures b.DecisionTaskScheduled? || b.DecisionTaskStarted? || b.DecisionTaskCompleted? ==>
              !b.Deliverable() && !b.ErrorSignal()
    ensures b.MarkerRecorded? ==> (b.Deliverable() <==> b.markerName != "FSM.State") && !b.ErrorSignal()
    ensures b.WorkflowExecutionSignaled? ==>
              && (b.ErrorSignal() <==> b.signalName == "FSM.Error" || b.signalName == "FSM.SystemError")
              && (b.Deliverable() <==> b.signalName != "FSM.Error" && b.signalName != "FSM.SystemError")
    ensures b.WorkflowExecutionStarted? || b.TimerFired? || b.OtherEvent? ==> b.Deliverable() && !b.ErrorSignal()
    ensures b.ActivityTaskScheduled? || b.ActivityTaskCompleted? ==> b.Deliverable() && !b.ErrorSignal()
    ensures b.ActivityTaskFailed? || b.ActivityTaskTimedOut? || b.ActivityTaskCanceled? ==>
              b.Deliverable() && !b.ErrorSignal()
  {
  }
}
