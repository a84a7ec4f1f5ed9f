# Verification of swf4go's FSM engine, deciders and pollers

This project models swf4go, a library that runs workflows on Amazon SWF as event-sourced state machines,
and proves what the library is for: that a workflow cut into many decision tasks behaves like one fold of
its deciders over its history, that no event is lost or replayed, that pending activities are tracked
exactly, that continue-as-new hands the workflow over intact, and that pollers shut down cleanly.

`dafny verify dfyconfig.toml` checks everything.

## How it is organised

| file | what it holds |
|---|---|
| `Protocol.dfy` | history events and decisions, newest-first event lists |
| `Correlator.dfy` | the activity correlator as an object, and what its map means |
| `Model.dfy` | outcomes, deciders, contexts, the serializer contract, workflow inputs |
| `Engine.dfy` | one tick as a function of the machine and the decision task |
| `FSM.dfy` | the FSM object: configuration and the loops of `Tick`, proved equal to `Engine.dfy` |
| `Deciders.dfy` | composed deciders as an object and as a fold, managed continuations |
| `TickLaws.dfy` | laws of a single tick |
| `Reference.dfy` | a second, relational account of a tick that shares no function with the engine, and its agreement with it |
| `Runs.dfy` | whole runs as a state machine: external events, task start, time-out, commit |
| `RunLaws.dfy` | what every run keeps |
| `Continuations.dfy` | the continue-as-new hand-off, and when it is safe |
| `UnsafeContinuation.dfy` | two concrete runs, step by step, in which it is not |
| `FailureRecovery.dfy` | a machine that meets every condition at once, and a run of it that fails and recovers |
| `Chains.dfy` | chains of runs: the version law, registered state names |
| `ChainReplay.dfy` | replay across hand-offs |
| `Poller.dfy` | poller loops and StopPollers as an interleaved transition system |

Data is an abstract type; a value is nil or carries data. The serializer is a record of encode and decode
functions. An encoding has a text and, separately, an error, because the engine uses the text of the state
data whatever the error says. Two conditions are asked of it where they are needed: a checkpoint that was
encoded without error decodes to itself (`StatesRoundTrip`); so do data that are not nil, and the text of an
encoding that reported an error does not decode (`DataRoundTrips`). Deciders are arbitrary functions from a
context, an event and a value to an outcome or a panic. A panic that leaves `Tick` is the result `Crash`: a
nil outcome at top level, or an error report that cannot be serialized (`TickEnds` is the exact condition,
`NoTickCrashes` says how to stay clear of it).

Histories are lists with the newest event first, as decision tasks deliver them. A run adds external
events at any time, also while a task is running; a commit adds DecisionTaskCompleted and then what the
decisions cause, of which only markers are fixed. This allows every run that SWF allows, and more: tasks
may start without having been scheduled, and events may follow a completed workflow. The runs shown in
`UnsafeContinuation.dfy` and `FailureRecovery.dfy` use none of this freedom. A run also keeps a log of what was committed, which the
engine never reads and in which the theorems are stated. In it the deliverable events of the tasks of
successful ticks are tracked, and those of the tasks of failed ticks are lost: the pending activities of the
next checkpoint do not reflect them.

## What the conditions exclude

The model does what the code does in these places, and the theorems say when they matter. Conditions on
deciders distinguish the two kinds of events that reach them (`Kind`): normal states are asked about
deliverable events and the error state about error signals, because AddErrorState registers the error state
among the normal ones. All conditions can be met together, by a machine whose registered error state is
transparent (`ConditionsAreMetTogether`).

- Deciders that record `FSM.State` markers themselves (`Discreet` excludes them).
- Serializers that report an error and yet return a text that decodes (`DataRoundTrips` excludes them).
- Successful ticks that end with nil data: it comes back from a checkpoint as the zero data. Replay asks for
  no such tick, which is the case where no normal state answers a deliverable event with nil
  (`RunsEndNothingNil`).
- Data whose encoding reports an error: the engine overwrites that error, the tick succeeds, and its
  checkpoint cannot be loaded. A checkpoint brings back what it was made from if and only if the data were
  neither nil nor encoded with an error (`CheckpointRoundTrip`). A checkpoint that cannot be loaded makes
  every later tick of the run fail until error handling takes over (`UnreadableCheckpointStays`).
- Deciders that look at the version: they see a different one after each checkpoint (`VersionBlind`). Passing
  it on in the input of a continue-as-new decision is allowed, so that managed continuations are not excluded
  (`ManagedContinuationsIgnoreVersion`); the decisions of a replay then agree up to that version.
- Error handling that provides data or a state of its own: normal recovery is skipped, the version too, and
  the marker starts again at 1 (`SuccessCountsOn`). A continue-as-new decision of the error state hands over
  version 0. The version law counts both kinds of reset and asks for none. Replay asks that no successful tick
  was taken over so, which is the case whenever the error state is transparent
  (`UndisturbedRunsTakeNothingOver`); failed ticks do not matter to it (`FailureIsRecoveredFrom` shows such a
  run).
- A ContinueOutcome at top level leaves the state without a name (`ContinueAtTopLosesState`).
- The IDs in a decision error are those of the events or signals already processed, after as many zeros,
  although the field is called unprocessed (`DecisionErrorListsProcessed`).
- A failed tick loses its task's events. Activities scheduled by them are never pending again
  (`FailedTickForgets`), and a later continue timer continues over them (`FailureMakesContinuationUnsafe`).
  Activities that only lost events ended stay pending for good, and the workflow is never continued again
  (`LostEndingBlocksContinuation`). `ContinuationExactly` is the exact condition: with nothing pending it is
  safe to continue if and only if every activity scheduled by a lost event was ended, and with everything
  ended a trigger continues if and only if no ending was lost.
- Managed continuations see the activities of past events only. A tick may decide to schedule an activity at
  one event and continue at the next (`EarlySignalBreaksContinuation`), or continue although a newer event of
  its task scheduled one. A continuation leaves nothing running if and only if the activities of lost and of
  newer events were ended and the tick itself schedules none (`ContinuationLeavesNothingRunning`).
- A trigger hands over the state and data that it found. If it is not the last event of its tick, the newer
  ones may lead on from there; what it handed over is the tick's own checkpoint if and only if they come back
  (`HandOffMatchesIffComesBack`).
- An unnamed state, and nil data, do not survive the hand-off (`ContinuedRunRecovers` is an equivalence).

## Model

| member | source | states |
|---|---|---|
| Correlator.ItoaInjective | fsm_models.go:396 | the decimal keys of the pending map stand for exactly one event ID each |
| Correlator.ItoaIsDecimal | fsm_models.go:396 | each key is the decimal numeral of its event ID, without leading zeros |
| Correlator.ActivityCorrelator.Track | fsm_models.go:385-388 | tracking an event first drops what it ends and then adds what it schedules, and changes nothing else |
| Correlator.ActivityCorrelator.RemoveCorrelation | fsm_models.go:404-418 | each of completed, failed, timed-out and canceled, constructor by constructor, drops the entry of its scheduling event; others drop nothing |
| Correlator.ActivityCorrelator.Correlate | fsm_models.go:391-401 | a scheduling event is entered under its own ID with its activity ID and type |
| Correlator.ActivityCorrelator.ActivityType | fsm_models.go:421-436 | each of the four endings finds the entry of its scheduling event if it is there, and no other event finds anything |
| Correlator.TrackingByConstructor | fsm_models.go:385-436 | of every kind of event, by constructor: the four endings drop exactly the entry they name and find it before, a scheduling adds its own, and all others leave the map and find nothing |
| Protocol.KindsByConstructor | fsm.go:504-533 | of every kind of event, by constructor and marker or signal name, whether it is delivered to normal states, is an error signal, or neither |
| Correlator.TrackTwice | fsm_models.go:290 | the second tracking of each event by the engine changes nothing |
| Correlator.PendingIsExactlyOpen | fsm_models.go:370-418 | over any event list the map holds exactly the scheduled activities that no later event ended, each with its own info |
| Correlator.PendingIffNeverEnded | fsm_models.go:385-418 | where endings follow their schedulings, an activity is in the map if and only if no event at all ended it |
| Correlator.EndingEventFindsItsActivity | fsm_models.go:299-304 | the info of an open activity is found by the event that ends it |
| Fsm.FsmContext.Decide | fsm_models.go:288-292 | the decider runs on the untracked context, and the event is tracked afterwards unless the decider panicked |
| Fsm.FSM.Init | fsm.go:150-183 | panics exactly without an initial state; otherwise supplies the default error and complete states where none were added, registered under their names, and keeps all others as they are |
| Fsm.DefaultStatesAnswer | fsm.go:95-146 | the default error state stays in error with its data and panics exactly on error signals it cannot decode; the default complete state answers every event by completing with its data |
| Fsm.FSM.AddState | fsm.go:75-81 | registers the state under its name, over any earlier state of that name, and nothing else |
| Fsm.FSM.AddInitialState | fsm.go:64-68 | registers the state and makes it the initial state |
| Fsm.FSM.AddCompleteState | fsm.go:128-133 | registers the state and makes it the complete state |
| Fsm.FSM.AddErrorState | fsm.go:90-93 | registers the state under its name and makes it the error state |
| Fsm.FSM.FindLastEvents | fsm.go:504-533 | the loop collects exactly the deliverable events and the error signals newer than the previous start, in order |
| Fsm.FSM.FindSerializedState | fsm.go:483-502 | the scan returns the newest marker's state or else the start input's, with the initial state for an empty name |
| Fsm.FSM.MergeOutcomes | fsm.go:372-378 | decisions are appended, data replaced by every outcome, and the state kept by stay, unnamed by continue, named by a transition, "complete" or "error" otherwise |
| Fsm.FSM.RecordStateMarker | fsm.go:535-555 | the marker "FSM.State" carries the next version, wrapping at 2^64, the state, the encoded data and the pending activities, and comes before all decisions |
| Fsm.FSM.CaptureError | fsm.go:427-444 | the decisions so far and one signal to the workflow itself with the serialized report, "FSM.Error" for a decision error and "FSM.SystemError" for a system error; crashes exactly when the report cannot be serialized |
| Fsm.FSM.HandleErrors | fsm.go:292-308 | error signals go to the error state oldest first, on the fixed error context, and the loop ends as the fold does |
| Fsm.FSM.ProcessEvent | fsm.go:331-352 | one event is decided by the current state in the current context; when it cannot be, the reason is returned, the outcome stays as it was, and the event is tracked only if the decider answered nil |
| Fsm.FSM.ProcessEvents | fsm.go:328-353 | the loop over the events, oldest first, ends as the fold does, for every way a decision can fail |
| Fsm.FSM.RecoverAndFinish | fsm.go:310-326 | state, data and version are loaded exactly when error handling left neither data nor a state |
| Fsm.FSM.FinishTick | fsm.go:355-369 | the checkpoint is recorded after the events, or its serialization error reported |
| Fsm.FSM.Tick | fsm.go:270-370 | the loops compute exactly the tick function: crash, decisions and returned state, on every task |
| Fsm.FSM.HandleDecisionTask | fsm.go:193-234 | responds with the task's token, the tick's decisions and, after a success only, the state name; puts the encoded replication data exactly after an accepted success with a stream, if it encodes and the put succeeds |
| Deciders.ComposedDecider.Decide | deciders.go:29-61 | the loop with early return equals the fold over the sub-deciders |
| Deciders.ComposedMeaning | deciders.go:29-61 | all yield: everything contributed, continue; otherwise the first that does not yield settles the state with everything contributed up to it |
| Deciders.ComposedPanics | deciders.go:29-61 | a sub-decider that panics, after all before it have yielded, makes the composition panic |
| Deciders.NestedCompositionFlattens | deciders.go:17-61 | any tree of compositions decides like one composition of its leaves from left to right |
| Deciders.CatchAllSettles | deciders.go:17-20 | a composition ending in the default decider never passes or continues, and stays where all others yield |
| Deciders.ManagedContinuationsTable | deciders.go:209-274 | the three handlers never compete: a trigger gets one attempt, another late event one self-signal, the rest is left to others |
| Deciders.ContinuesOnlyWhenNothingPends | deciders.go:210-250 | ContinueAsNew only on a trigger with nothing pending; a trigger gets exactly one retry timer if and only if something is pending |
| Deciders.RetryTimerTriggersAgain | deciders.go:216-246 | with something pending, a trigger is answered with exactly one timer of the retry seconds in decimal, and the firing of that timer is a trigger again |
| Deciders.RetriesUntilIdle | deciders.go:209-250 | the fired retry timer gets the next attempt: the same timer again while something is pending, and then a continuation or a serialization panic |
| Deciders.IdleTriggerContinues | deciders.go:210-236 | with nothing pending, a trigger continues as new in the current state with the context's version and data and nothing pending, or panics if these do not encode |
| Deciders.LateEventsSignal | deciders.go:252-266 | any other event beyond the history size is answered with one signal to the context's own workflow and run, whose arrival is a trigger; earlier events are left to others |
| Deciders.ContinuationAttemptsConserved | deciders.go:209-274 | retry timers, continuations and serialization panics add up to the triggers, self-signals to the other late events, at most one decision per event |
| TickLaws.DecideAllAppend | fsm.go:328-353 | deciding two stretches of events one after the other is deciding them together |
| TickLaws.FailedTickReports | fsm.go:300-367 | a failed tick has decided exactly the events or error signals older than the one its report names; it returns their decisions, then one error signal to the same workflow and run, and no state |
| TickLaws.TickEnds | fsm.go:427-444 | a tick crashes if and only if a decider that is reached answers nil or its error report cannot be serialized, and fails if and only if there is a report that can be |
| TickLaws.NoTickCrashes | fsm.go:427-444 | with deciders that never answer nil and errors that can be serialized, no tick crashes |
| TickLaws.TickDecides | fsm.go:292-370 | a tick decides exactly what its error handling decides and what the current state answers to one of its events |
| TickLaws.DecidedSplits | fsm.go:292-370 | what a tick decides is what its error handling decides followed by what its normal states decide |
| TickLaws.CheckpointsOnlyOnSuccess | fsm.go:361-369 | a successful tick records exactly one checkpoint, first of its decisions; a failed one records none |
| TickLaws.DecisionErrorListsProcessed | fsm.go:401-425 | in error handling as in normal processing, the IDs reported as unprocessed are as many zeros as IDs, and then the IDs of the signals or events already handled |
| TickLaws.ContinueAtTopLosesState | fsm.go:372-378 | after a top-level ContinueOutcome the state has no name and the next event of the tick fails |
| TickLaws.PagingInvariance | fsm.go:270-274 | a page reaching back to the previous start and a checkpoint gives the same tick as the whole history |
| TickLaws.CompositionIsNeutral | deciders.go:29-61 | wrapping any states' deciders in compositions of one changes no tick |
| TickLaws.TransparentErrors | fsm.go:83-84 | error signals answered with neither data nor state leave the checkpoint as without them and only insert their decisions after the marker |
| TickLaws.ManagedContinuationsIgnoreVersion | deciders.go:209-274 | managed continuations answer the same under every version, but for the version they hand over |
| TickLaws.CompositionIgnoresVersion | deciders.go:29-61 | composing deciders keeps them independent of the version in that sense |
| Reference.TickIsItsStory | fsm.go:270-370 | a second account of a tick, in which answers and moments are only related to each other and all names are literal, has exactly one result for every task, and that is the engine's |
| Reference.AnsweredTick | fsm.go:535-555 | a tick without error signals all of whose events are answered succeeds exactly if its checkpoint encodes: the next version, name, encoded data and pending set after the last answer; its decisions are the marker and those of all answers in order |
| Reference.LastWord | fsm.go:372-378 | after any number of answers the data are those of the last one, and the name is that of the last one that was not to stay |
| Reference.OneEventTick | fsm.go:372-378 | the tick of one event, for each kind of outcome: the checkpoint has the outcome's encoded data and the state it leads to, "complete" and "error" spelled out, and the decisions are the marker and the outcome's |
| Reference.CompletingTick | fsm_models.go:270-276 | a decider that completes leaves the workflow in "complete" with its data, and the completion with these data as its result comes after all its decisions; data that do not encode fail the tick |
| Reference.CompletionIsRetried | fsm.go:135-146 | in the default complete state every further event, however many a task brings, is one more attempt to complete with the same data, and the workflow stays complete |
| Reference.FailureIsSignalled | fsm.go:401-444 | a failed tick ends in a signal with its record to its own execution: "FSM.Error" where a decider panicked on an event of the task, "FSM.SystemError" where no checkpoint was found or loaded, a state was missing, or the checkpoint did not encode |
| Reference.NoticeComesBack | fsm.go:287-308 | as an event of the workflow that signal is an error signal of the next task and no delivered event, and as the oldest one it is what the error state is asked first, on the zero data and version 0 |
| Runs.TaskDecomposes | fsm.go:483-533 | in every run, the two scans of a tick find exactly the events between the two starts and the checkpoint of the whole history |
| Runs.RecoversLastCheckpoint | fsm.go:483-502 | what a run's history yields on recovery is the last committed checkpoint, or the start input where there is none |
| Runs.StepKeepsShape | fsm.go:535-555 | every step keeps: the markers of the history are the committed checkpoints, none newer than a running task's start |
| Runs.EveryTaskCanBeCommitted | fsm.go:193-234 | under the same conditions every running task of every run can be committed |
| RunLaws.ExactlyOnceDelivery | fsm.go:504-533 | in every run committed ticks deliver each deliverable event at most once, in ID order, and exactly once if it does not belong to the task of a failed tick |
| RunLaws.CorrelatorAcrossTicks | fsm_models.go:385-418 | the pending set carried by the newest marker is exactly the open activities of the events of successful ticks, which with those lost in failed ticks make up all deliverable events |
| RunLaws.CheckpointingRefinesReplay | fsm.go:270-370 | whatever ticks failed and whatever error signals were handled, if no successful tick was taken over by error handling or left nil data, the newest checkpoint's state, data and pending set, and all decisions of normal states in successful ticks up to the version handed over, are those of one fold over the events of successful ticks |
| RunLaws.TransparentRunsRefineReplay | fsm.go:83-84 | so it is in every run of a machine whose error state, registered or not, is transparent, and in every run without error signals, where no normal state answers with nil data; where nothing was lost the fold is over all deliverable events up to the last committed start |
| RunLaws.UndisturbedRunsTakeNothingOver | fsm.go:310-326 | in such runs error handling never replaces normal recovery |
| RunLaws.RunsEndNothingNil | fsm.go:372-378 | where no normal state answers a deliverable event with nil data, nil data are left only by ticks that error handling took over |
| FailureRecovery.ConditionsAreMetTogether | fsm.go:83-93 | a machine whose registered error state answers error signals with neither data nor state meets every condition put on deciders here |
| FailureRecovery.FailureIsRecoveredFrom | fsm.go:83-84 | a concrete run, as the service produces it, in which a tick fails, the next one handles its error signal and succeeds, and the checkpoint is where the fold of the successful ticks ends |
| RunLaws.CheckpointRoundTrip | fsm.go:535-547 | a checkpoint brings back what it was made from if and only if the data were not nil and were encoded without error; with an error its data do not decode |
| RunLaws.UnreadableMeansFailure | fsm.go:311-320 | no tick succeeds over state data that do not decode, unless error handling takes over |
| RunLaws.UnreadableCheckpointStays | fsm.go:535-547 | once a checkpoint with such data is committed, no tick of the run succeeds until error handling takes over |
| RunLaws.FailedCommitMovesNothing | fsm.go:427-444 | committing a failed tick leaves what the next tick recovers unchanged |
| RunLaws.ReplicationFollowsCommit | fsm.go:193-234 | each stream record encodes what the state marker at its position in the history decodes to, in the markers' order, at most one each; contexts name the checkpoints' states |
| Continuations.StartInputsRecover | fsm.go:614-639 | runs started from the two input builders recover the initial state, the data given, the version and nothing pending |
| Continuations.ContinuedRunRecovers | fsm_models.go:337-352 | a continued run recovers version and an empty pending set, and the state and data held before the deciding event if and only if the data are not nil and the state is named or initial |
| Continuations.HandOffMatchesIffComesBack | deciders.go:210-236 | when managed continuations answer any event of a successful tick, what they hand over is the tick's own checkpoint, one version earlier, if and only if the newer events come back to the state and data found and leave nothing pending |
| Continuations.SameTextSameData | fsm.go:536-547 | for data that are not nil, coming back to the same text is coming back to the same data |
| Continuations.HandOffMatchesFinalMarker | deciders.go:210-236 | when managed continuations answer the last event, also after error handling, the continued run recovers the final marker's state and data, nothing pending, one version earlier |
| Continuations.DecidersSeeExactlyOpen | fsm_models.go:299-309 | at every turn of every run the context holds exactly the activities open among the processed events, those of successful ticks and of the running task, and an ending event finds its own |
| Continuations.SafeContinuation | deciders.go:209-250 | at every turn of every run ContinueAsNew is decided only if every activity scheduled by a processed event was ended by one, and a trigger gets one retry timer if and only if not |
| Continuations.ProcessedOrLost | fsm.go:338-345 | at every turn the processed events and the lost ones together are the deliverable history before the deciding event, and no event is both |
| Continuations.PastIsTheHistory | deciders.go:209-250 | the processed events are the whole deliverable history before the deciding event if and only if none was lost |
| Continuations.ContinuationExactly | deciders.go:209-250 | with nothing pending, every activity of the history was ended if and only if those scheduled by lost events were; with every activity ended, nothing is pending if and only if no ending was lost |
| Continuations.TickSchedules | deciders.go:199-202 | a tick, continuing or not, schedules an activity if and only if its error handling does or one of its events is answered so |
| Continuations.ContinuationLeavesNothingRunning | deciders.go:199-202 | a trigger that finds nothing pending leaves no activity running if and only if those scheduled by lost events and by newer events of its task were ended and its tick schedules none |
| Continuations.FailedTickForgets | fsm.go:338-345 | activities scheduled in the task of a failed tick, delivered or not, are not pending at any later turn of the run |
| Continuations.LostEndingBlocksContinuation | fsm.go:338-345 | an activity whose endings were all in tasks of failed ticks stays pending: every later trigger gets a retry timer and the workflow is never continued |
| UnsafeContinuation.FailureMakesContinuationUnsafe | fsm.go:338-345 | a concrete run, as the service produces it, in which after a failed tick ContinueAsNew is decided over an activity that nothing in the history ends |
| UnsafeContinuation.EarlySignalBreaksContinuation | deciders.go:199-202 | a concrete run, as the service produces it, in which one tick schedules an activity and decides ContinueAsNew, its trigger having found nothing pending |
| Chains.SuccessCountsOn | fsm.go:540 | a successful tick records the version after the one recovered, or 1 if error handling took over |
| Chains.VersionLaw | fsm.go:322-325 | along chains of runs, continued with either builder into any state, versions rise by one per committed success and repeat only at hand-offs, always so where no tick failed |
| Chains.VersionsNeverFall | fsm.go:603-606 | short of wrapping around, versions never fall along a chain |
| Chains.ManagedContinuationsContinueProperly | deciders.go:209-250 | managed continuations meet the conditions the chain theorems put on deciders, for either kind of events |
| Chains.StartingOverContinuesProperly | fsm.go:629-639 | so do deciders that continue with the input of ContinueFSMWorkflowInput |
| Chains.CompositionContinuesProperly | deciders.go:29-61 | so do compositions of deciders that do |
| Chains.DefaultStatesAreProper | fsm.go:95-146 | so do the default error and complete states |
| Chains.ClosedTick | fsm.go:333-352 | where normal states lead to registered ones, and the error state to a registered one or to neither data nor state, a tick that recovers a registered state never lacks one and records a registered one |
| Chains.StateNamesStayRegistered | fsm.go:150-161 | in every chain begun by StartFSMWorkflowInput recorded states are registered, handed-over states are registered or unnamed, also those that the error state hands over, and no tick fails for want of one |
| ChainReplay.ChainsRefineReplay | fsm_models.go:337-352 | along a chain of runs that hand on their newest checkpoints, no successful tick taken over or ending with nil data, the newest checkpoint and the decisions of all runs are those of one fold over the events of the successful ticks of all runs, each under its own execution |
| ChainReplay.TransparentChainsAreCalm | fsm.go:83-84 | no tick of a chain is taken over or ends with nil data where the error state is transparent and no normal state answers with nil |
| ChainReplay.ChainsEndNothingNil | fsm.go:372-378 | where no normal state answers with nil, nil data are left only in runs in which error handling took over |
| ChainReplay.ManagedChainsRefineReplay | deciders.go:209-250 | so it is for chains continued by managed continuations, once in a tick, whose newer events come back to what the trigger found |
| ChainReplay.LastEventContinuesCleanly | deciders.go:209-250 | as they do when the trigger is the last event of its tick |
| ChainReplay.CommitOffersNewest | deciders.go:210-236 | what such a tick offers to continue from hands on its own checkpoint, but for the version, and can be loaded |
| Poller.PollerShutdownManager.Register | poller.go:187-189 | enters the poller's channels under its name and changes nothing else |
| Poller.PollerShutdownManager.Deregister | poller.go:192-194 | removes the poller of that name and changes nothing else |
| Poller.NamesMatchIffDistinct | poller.go:187-189 | the manager can reach every registered poller if and only if no two share a name |
| Poller.ShutdownIsSafe | poller.go:50-73 | in every interleaving sends never block, every task that a poll returned was given to one callback in order or is still held, with none held by a loop that has left, and StopPollers returns only after all loops are left |
| Poller.NoTaskIsDropped | poller.go:61-70 | in every run the tasks that the polls of a loop returned are those of its callbacks, in order and one each, but for one that it still holds |
| Poller.NoPollOnceStopIsBuffered | poller.go:54-60 | from the moment its stop is buffered a poller begins no further poll, and at most the one under way returns |
| Poller.NothingMovesAfterReturn | poller.go:173-184 | after StopPollers has returned no poll or callback is running or to come |
| Poller.NeverDeadlocked | poller.go:173-184 | until StopPollers has returned, some move that brings its return nearer is always possible |
| Poller.LoopsNeverBlock | poller.go:124-147 | a loop that has not left can always make its next move |
| Poller.StoppingIsBounded | poller.go:173-184 | every run makes at most as many stopping moves as the measure says |
| Poller.ShutdownTerminates | poller.go:173-184 | once all stops are sent every run is finite |

## Left out

- clients.go: requests, signing and transport; accepting a response and storing a record are free choices of the environment.
- protocol.go: event and decision kinds the engine does not look at are one kind each; dates are not modelled.
- JSON and protobuf serializers: abstract, with the round trips stated above; the error of the state data's encoding is ignored as in the code.
- Mutation through pointers: data and contexts are values, so a decider cannot change data, the context or the pending map in place.
- A nil pending map is the empty map; the code allocates it on first use.
- Typed deciders, FSM.EventData and types.go: language plumbing and calls to a registry.
- Fsm.FSM.Init: does not model the default serializer, shutdown manager, replicator and stop channels, because none of them is looked at by a tick.
- Fsm.FSM.HandleDecisionTask: models the default replicator, which puts once; a custom one may put again or not at all.
- Logging, allowPanics, FSM.Stop, and panics with a nil value.
- SWF: decisions other than markers may have any effects that are not decision-task events, starts or state markers, and a marker decision always succeeds.
- Poller.PollerShutdownManager.Register: one number stands for the pair of channels; the channels live in the transition system, where the poller loops and StopPollers are modelled on values because their steps interleave.
- Poller.ShutdownIsSafe: assumes distinct names, registration before the one call of StopPollers, and no unsynchronised access to the map.
- TickLaws.PagingInvariance: asks for decodable state, because failure reports list the IDs of the whole page.
- TickLaws.TransparentErrors: for failed ticks it says only that both ticks fail, because reports may list different IDs.
- RunLaws.CheckpointingRefinesReplay: says nothing of runs in which error handling provided data or a state to a successful tick, because there the code does not continue from the checkpoint; the events of failed ticks are not part of the fold, because the code does not process them again.
- ChainReplay.ManagedChainsRefineReplay: says nothing of chains in which newer events of a tick lead on from what its trigger handed over, because the continued run then does not start from the newest checkpoint.
- Continuations.ContinuationLeavesNothingRunning: an activity that starts after the task did is not part of what it speaks of.
