# Verification model of the checkpointd durable turn protocol

checkpointd relays A2A messages between agents that live in suspendable actors. A session is a series of *turns*: an
envelope is delivered to one actor, the actor runs to its next blocking point, its memory is recorded as a snapshot, and
only then are the turn's output and its completion appended to the event log. Everything else -- checkpointd, a worker, an
actor's process, a control API call -- may fail between any two of these steps, and a redo must not show.

The project models this protocol and proves what it is for.

- `Hop`, `EventLog`, `EventStore`, `Controller`: envelopes, step events, the in-memory log and the SQL table that must agree
  with it, reading a log back, committing a turn to it.
- `Runtime`, `ActorRuntime`: one actor's suspended invocations, in-flight table and one-entry result cache; first as a
  function of its memory, then as the runtime's own fields and lock sections.
- `Relay`, `Session`: the relay loop without faults, and the plain recursive calls it must compute; the call stack.
- `Substrate`, `Harness`, `TurnExec`: the actor's states, the control API, how one Start, Run or Checkpoint drives it, and
  one whole Exec call.
- `System`, `SystemInvariant`: the whole protocol of one session as a state machine over a durable log and durable actors,
  with every crash step, and its invariant. `Durability`, `FaultFree`, `CrashSafety`, `ClientSide`, `ActorHistory`,
  `History`, `Recovery`: what follows for every run of it. A run is any sequence of labels whatsoever; a step that does not apply changes nothing.
- `RelayLoop`: the relay loop's own code, tied to the steps of `System`.
- `Ownership`, `Claims`, `OwnershipLimits`, `Restamp`, `Takeover`: which goroutine of which replica drives a session,
  interleaved at one step per SQL statement or lock section. `Replicas`: that and `System` together, a driver for each goroutine. `SessionStore`, `PageToken`, `TaskRegistry`: the tables, lists and registry behind it.
- `TaskView`, `TaskPrivacy`, `ViewLimits`: a task's history folded out of the log, and whose words it shows. `TaskStatus`,
  `Cancellation`: the task's status row beside `Ownership`, and what a cancellation is worth. `StatusLag`, `StatusLagRun`: the
  row beside `System`, and how it falls behind the log. `AgentFold`: one Execute call's events. `ViewFile`: view_file windows.

An agent is two functions: from its process state and a message to its next action, and from a suspended call and its
answer to the next action. Whatever else an invocation may observe -- its clock, its model, its stored history -- is a
`Choice` argument, so agents may be as nondeterministic as they like. Ids minted by checkpointd, outcomes of control API
calls, and liveness of pods are arguments too. A conversation is named by its agent, since within one session each agent
has one actor.

`System` has one driver by construction: its `driver` field is a single one. `Replicas.FleetIsOneDriver` shows that this is
no restriction: with a driver for every goroutine of every replica, moved only between that goroutine's registry entry and
the end of its loop, every run's log and actors are those of a run of `System`, because of `Ownership.OneDriver`.

Where a property does not hold of the code as one might state it, the exact condition is proved instead:

- `CrashSafety` and `Session` need agents that name whom they call; `Session.CallOfNobodyEndsTheRelay` shows why.
- `ActorRuntime.LateRegistrationRunsAgain` and `ActorRuntime.OneIDRunsTwice`: the duplicate test and the in-flight
  registration take the lock separately, so one step id can be run twice.
- `Recovery.OpenTurnCompletesIff`: a process answers every retry of a failed turn with the failure it remembers, so that
  such a turn is completed only after the process is lost.
- `Controller.MarkerHidesOutputs`: a cancellation marker hides outputs logged before it from a redo.
- `Ownership.TerminatedSkipsOnlyAfterFailedMark` and `OwnershipLimits.EndSkipsTerminating`: a session may go from RUNNING
  to TERMINATED at once.
- `Restamp.RestampIsSafeIffUnclaimed`: startup resume of a row this very process owns can put two drivers on a session.
- `OwnershipLimits.ClaimAfterTheEndRunsOn`: a continuation admitted before a cancellation claims after it, and nothing
  stops its loop, because the check after a hop looks for TERMINATING only.
- `TaskView.HistoryInLogOrderIff` and `ViewLimits.AnswerIsShownBeforeQuestion`: a claim's line stands where it was
  superseded, not where it was logged.
- `TaskPrivacy.ViewIsPublicIff` and `ViewLimits.InnerClaimIsShown`: a call of the owner by itself, and a flush of a call of
  the owner by another agent, put a private claim into the view.
- `Cancellation.CancellationStaysIff` and `Cancellation.IdleCancellationIsOverwritten`: a cancelled task's status may be
  overwritten, by a driver past its check, by a continuation admitted before, or in a session that is TERMINATED already.
- `StatusLag.RowLagsIff`, `StatusLag.UnrecordedIffLost` and `StatusLagRun.CompletionIsNeverRecorded`: the task's row may stay
  behind the log after a crash.
- `RelayLoop.CleanupFindsLoggedInputs` and `RelayLoop.UnloggedActorIsMissed`: an actor is created before its input is
  logged, and cleanup finds what is logged.
- `SessionStore.RevertedPageIsListedAgain`: a salvage sweep lists again what it has given back.
- `PageToken.TokenRoundTrip`: a token gives its cursor back exactly for ids without white space.

## Model

| member | source | states |
|---|---|---|
| CrashSafety.CrashTransparency | cmd/checkpointd/relay.go:356-394 | for every run with any crashes, failed calls and retries there is a run without a single fault that commits the very same log, and, when no turn is open, leaves every actor's saved memory the same |
| CrashSafety.FinalReplyIsCalls | cmd/checkpointd/relay.go:420-448 | across any crashes, once the newest logged hop is a final reply, its data and all agents' saved states are those of plain recursive calls of the owner, one per client message that the log shows, in that order and with that data; it comes from the owner and no call is left waiting |
| CrashSafety.CallsAreAnswered | cmd/checkpointd/relay.go:420-448 | conversely, whatever the plain calls compute, for any choices, is reached and logged by some run without faults, whose log shows exactly those client messages in order |
| CrashSafety.LogSaysCalls | harness/runtime.go:299-375 | in every reachable state, in the middle of any call too, the committed outputs are one for one and in order what the plain calls say on the client messages the log shows: every flush with its data, every call with its target and message, every answer with its caller |
| Recovery.OpenTurnCompletesIff | internal/harness/substrate/substrate.go:315-378 | from every reachable state, whatever has crashed and wherever driver and actors are, steps without a further fault complete the open turn if and only if its invocation succeeds for some choice and no live process remembers that it failed |
| Recovery.OpenTurnCompletes | internal/controller/controller.go:106-150 | they are the same fifteen steps whatever was left behind, and end in a log whose last turn is the open one, with the output already logged if there was one |
| Recovery.FailureStays | harness/runtime.go:221-240 | no step but the loss of its process makes an actor forget that the open turn failed: restarts, retries and lost connections of checkpointd leave it so |
| ClientSide.LogIsFaithfulToClient | cmd/checkpointd/relay.go:335-353 | across any crashes the client messages the log shows are the session's bootstrap first, then messages its client really sent, unaltered, none twice for one sending, in the order of sending |
| CrashSafety.OnlyCommittedHopsAreRelayed | cmd/checkpointd/relay.go:356-394 | what checkpointd relays is always a message of its client or the newest hop of a log with no open turn |
| CrashSafety.CommitNeverContradictsLog | internal/controller/controller.go:206-234 | commit's mismatch and too-short errors never fire in any reachable state, whatever the agents choose |
| CrashSafety.ReplyIsToOwnMessage | cmd/checkpointd/relay.go:546-567 | the commit that lets execA2A return has just completed the turn of exactly its own message; completing an older turn sends it round again |
| Durability.SnapshotNeverBehindLog | internal/controller/controller.go:153-177 | in every reachable state an actor's snapshot holds exactly the COMPLETED turns of its log, with the newest logged reply in its cache, a turn being open or not, or those and the open turn, under whose id it answers a redo; an already logged output of the open turn is the one it would answer with |
| Durability.LogGrammar | internal/controller/controller.go:79-104 | in every reachable state each conversation is (INPUT OUTPUT* COMPLETED)* and at most one open INPUT OUTPUT*, all INPUTs naming one harness, and reading it back gives that open turn's inputs and outputs |
| Durability.DeliveredIDsAreDistinct | cmd/checkpointd/relay.go:524-535 | the step ids one actor's turns are logged under are non-empty and pairwise distinct in every reachable state |
| Durability.SessionReadsBack | internal/controller/eventlog/eventlogtest/eventlog.go:59-73 | in every reachable state the session's log is read back whole under its own id, and nothing of it under any other |
| ActorHistory.ExecutedAtMostOnce | harness/runtime.go:265-294 | in every reachable state no live process and no snapshot has executed a step id twice, or is running one it has finished |
| ActorHistory.RepliesAlwaysFindTheirCall | harness/runtime.go:299-323 | no process in any reachable state has ever failed a reply for want of the invocation waiting for it |
| ActorHistory.TokensNeverClash | harness/runtime.go:489-493 | in every reachable state, of every live process and every snapshot, each token waited on is the id of a turn already served and of none now running, so registering a token never overwrites another |
| ActorHistory.SavedCallsFormOneChain | harness/runtime.go:299-323 | across crashes the invocations suspended in the saved actor states are exactly the frames of one chain of calls, and the newest hop is about its top |
| SystemInvariant.ReachableKeeps | internal/controller/controller.go:153-177 | the protocol's invariant (actors, log, open turn and driver agree) holds in every reachable state, whatever steps and crashes led there |
| SystemInvariant.StepKeeps | internal/controller/controller.go:106-150 | every single step, crash or failed call keeps that invariant |
| SystemInvariant.CommitIsHop | internal/controller/controller.go:206-234 | the COMPLETED append of a turn amounts to exactly one more hop of the crash-free relay |
| SystemInvariant.KeptAgreesWithLog | internal/controller/controller.go:206-219 | once a turn is checkpointed, what the log already holds of it is exactly a prefix of the kept output |
| SystemInvariant.PlanFollowsLog | internal/controller/controller.go:78-137 | Exec redoes the logged open turn with its logged inputs, or starts the one it was asked for, and never mixes them |
| SystemInvariant.SessionLived | harness/runtime.go:278-290 | in a crash-free session each process has lived exactly its actor's finished turns, under distinct ids, the newest one cached |
| SystemInvariant.StartOK | internal/harness/substrate/substrate.go:315-378 | whatever state Start finds an actor in and however its calls turn out, the actor still holds a state the log accounts for, and a snapshot that holds the open turn is not given up |
| SystemInvariant.SavedOutcome | internal/harness/substrate/substrate.go:660-673 | a checkpoint that reports success recorded the executed open turn with the reply just received; one that fails leaves the actor accounted for |
| SystemInvariant.RememberedIsExecuted | harness/runtime.go:221-240 | a process that answers the open turn's id from its cache has executed that turn exactly once on top of the finished ones |
| System.ReachableIsRun | internal/controller/controller.go:106-150 | the reachable states, defined by traces, are those the step-by-step runs end in |
| FaultFree.SessionRealized | cmd/checkpointd/relay.go:518-568 | every crash-free relay session is carried out, turn by turn, by steps of the full protocol without any fault |
| FaultFree.TurnRuns | internal/controller/controller.go:137-177 | the nine steps of one turn without faults, from the hop in hand to the committed reply, have exactly the effect of one hop |
| Session.SessionIsCalls | harness/runtime.go:299-334 | over whole sessions and every choice, the relay stands at a final reply exactly when the plain recursive calls return, with the same data and the same agent states; and at every hop, in the middle of a call too, its turns' outputs are exactly what those calls have said by then, each with sender, recipient and data |
| Session.RelayIsCall | cmd/checkpointd/relay.go:420-448 | the same for one client message, from any state in which nobody waits |
| Relay.InvokeSim | harness/runtime.go:328-334 | running hops from a fresh call agrees with evaluating it directly: a returned call is a reply after exactly as many hops as it took steps, an unfinished call is a relay still going, a failing one never gets an answer; the turns on the way say exactly what the call says |
| Relay.ContinueSim | harness/runtime.go:475-521 | the same from any next action of an invocation: a nested call, a flush, a return or a failure, including calls back into the caller's agent |
| Relay.SpawnHop | harness/runtime.go:328-334 | a hop without reply flag starts a new invocation and leaves every waiting one alone |
| Relay.WakeHop | harness/runtime.go:299-323 | a reply hop consumes exactly the waiting entry of its token and resumes that invocation |
| Session.SessionChained | harness/runtime.go:360-364 | at every hop of every crash-free session all waiting entries form one chain of calls |
| Session.ChainHop | harness/runtime.go:489-493 | one hop pushes, pops or keeps the top of that chain |
| Session.ReplyFindsTop | harness/runtime.go:303-323 | a reply with a recipient finds its own invocation waiting, and it is the top of the chain |
| Session.CallOfNobodyEndsTheRelay | cmd/checkpointd/relay.go:46-48 | any hop of any session ends the relay if and only if its invocation answers the client or calls nobody; in the second case the caller is left waiting and the plain call does not return |
| ActorRuntime.Process.Connect | harness/runtime.go:142-262 | malformed input changes nothing, a duplicate is answered from the cache, a running id is joined, anything else runs one round |
| ActorRuntime.Process.Begin | harness/runtime.go:265-274 | the first lock section registers a new round or joins the running one |
| ActorRuntime.Process.End | harness/runtime.go:276-294 | the round's outcome, stamped with its own id, becomes the cached one and leaves the in-flight table |
| ActorRuntime.Process.Deliver | harness/runtime.go:299-334 | routes a reply to the invocation waiting on its token or refuses it, and spawns for anything else |
| ActorRuntime.Process.HandBack | harness/runtime.go:354-375 | a call goes to its target with its message, a flush to the actor itself with the flushed data, an answer to the caller with its data; a suspending action registers its own step id as token, any other leaves the waiting table alone |
| ActorRuntime.RedeliveryRunsNothing | harness/runtime.go:221-240 | a redelivery of a running or of the latest id shares or repeats its result without running the agent |
| ActorRuntime.LateRegistrationRunsAgain | harness/runtime.go:221-294 | a delivery whose duplicate test was made before it registers adds one round, and that round breaks one-execution-per-id if and only if the id's own round has finished by then |
| ActorRuntime.OneIDRunsTwice | harness/runtime.go:221-294 | delivered, finished, registered late, finished again: two rounds under one id, the stored result replaced, and for a reply replaced by the error that nobody waits for it |
| Controller.CommitRedoIsSafe | internal/controller/controller.go:206-234 | however often a commit is interrupted after any number of appends, redoing it with the same outputs gives the log of one uninterrupted commit |
| Controller.CommitResumes | internal/controller/controller.go:206-234 | what an interrupted commit leaves reads back as exactly the outputs that landed |
| Controller.OpenLogReads | internal/controller/controller.go:274-331 | on any log of the grammar with an open turn, the scans return its status, its inputs, and its outputs in order |
| Controller.ClosedLogReads | internal/controller/controller.go:274-331 | on a log of finished turns nothing is pending and nothing is left of any turn |
| Controller.PlanOfClosedLog | internal/controller/controller.go:77-133 | on every log of finished turns: refused for another agent than the recorded one, for an unregistered one, or without inputs, in this order, and otherwise a new turn of the agent asked for, else the recorded, else the default one |
| Controller.PlanOfOpenLog | internal/controller/controller.go:77-109 | with a turn open: refused for another agent, an unregistered one, or a turn logged without inputs, and otherwise that turn is redone with its own inputs, whatever inputs come along |
| Controller.MarkerHidesOutputs | cmd/checkpointd/serverhandler.go:397-420 | after a cancellation marker in an open turn only the outputs behind the marker are read back: exact if and only if it came before all of them |
| Controller.HarnessHandler.Commit | internal/controller/controller.go:206-234 | a redo that contradicts the log touches nothing and names the error; any other attempt appends a prefix of what the turn lacks, all of it exactly on success |
| Controller.HarnessHandler.Check | internal/controller/controller.go:211-219 | accepted exactly when the logged outputs are a prefix of the buffered ones |
| Controller.Logger.Plan | internal/controller/controller.go:77-137 | the part of Exec before any actor is touched: harness choice, refusals, redo or fresh |
| Controller.Logger.ResumptionState | internal/controller/controller.go:274-291 | newest state and first harness of the conversation |
| Controller.Logger.PendingInputSteps | internal/controller/controller.go:295-306 | the newest input marker's steps |
| Controller.Logger.PendingOutputSteps | internal/controller/controller.go:310-332 | the trailing outputs in log order |
| EventStore.SqlEventLog.Append | internal/controller/eventlog/sql.go:52-94 | MAX+1 numbering keeps both numberings 1..n in step with one append-order list |
| EventStore.SqlEventLog.Events | internal/controller/eventlog/sql.go:97-125 | the in-memory log's own answer |
| EventStore.SqlEventLog.EventsBySessionID | internal/controller/eventlog/sql.go:128-156 | the in-memory log's own answer |
| EventStore.InsertKeepsAgreement | internal/controller/eventlog/sql.go:52-94 | inserting under the next numbers keeps the table a representation of the list |
| EventStore.OrderIsNumbering | internal/controller/eventlog/sql.go:97-125 | ordering rows that are numbered 1..n puts the i-th at position i, in whatever order the rows are stored |
| EventStore.MemoryEventLog.Append | internal/controller/eventlog/eventlogtest/eventlog.go:31-43 | appends, and returns how many events the conversation has |
| EventStore.MemoryEventLog.EventsBySessionID | internal/controller/eventlog/eventlogtest/eventlog.go:59-73 | the session's events in append order, none for the empty id |
| Substrate.EnsureRunningKeepsHistory | internal/harness/substrate/substrate.go:315-378 | getting an actor running discards at most the memory since its snapshot, and moves the snapshot only to the memory of a suspend already under way |
| Substrate.StartRecovers | internal/harness/substrate/substrate.go:315-378 | from every actor state a Start succeeds exactly when the calls that state needs succeed and a process answers; the actor then runs with its own memory where a process is kept, else its snapshot, else a fresh one |
| Substrate.SecondStartRecovers | internal/harness/substrate/substrate.go:461-502 | once calls succeed again, the first or the second Start of any actor not being deleted succeeds, the second being needed exactly where the actor claims to run without a process |
| Substrate.UnreachableIsReleased | internal/harness/substrate/substrate.go:461-502 | a running actor whose worker does not answer loses it and is left crashed; the next Start brings it up from its snapshot |
| Substrate.StartStaysRecoverable | internal/harness/substrate/substrate.go:315-378 | whatever fails, a Start leaves an actor that a later one can get running |
| Substrate.CheckpointRecords | internal/harness/substrate/substrate.go:625-673 | a successful checkpoint recorded exactly the memory the turn left |
| Harness.SubstrateHarness.ResumeFromAnyState | internal/harness/substrate/substrate.go:315-378 | succeeds exactly when the calls needed in the state found succeed -- a crashed or half-reverted actor is reverted, a stuck suspend is given up by releasing the worker -- and then the actor runs with its kept memory, else its snapshot, else a fresh one |
| Harness.SubstrateHarness.StartTurn | internal/harness/substrate/substrate.go:461-502 | succeeds exactly when the actor can be resumed and a process answers; a running but unreachable actor is crashed for the next attempt; a started one remembers its snapshot's name |
| Harness.SubstrateExecution.Run | internal/harness/substrate/substrate.go:584-623 | everything queued is sent once; the answer handed on is what the actor's process remembers under the sent id, and an unreachable actor is left as it was |
| TurnExec.TurnController.RunTurn | internal/controller/controller.go:153-177 | outputs reach the log only after a checkpoint whose snapshot is the memory the run left and remembers exactly that reply; any failure before leaves the log untouched; and it ends early exactly when the actor does not answer, or answers and is not checkpointed |
| TurnExec.TurnController.Exec | internal/controller/controller.go:68-150 | a refused call touches nothing, one that fails leaves at most its input in the log, and any other has committed, as far as its appends land, what the newest snapshot remembers for the planned input; and each of these happens exactly when one of its calls fails: with an actor that starts and answers, a landed input and a landed suspend it ends in its commit |
| Harness.RunIsThreeSteps | internal/harness/substrate/substrate.go:584-623 | one uninterrupted Run is the protocol's delivery, the end of its round and its reply coming back |
| Harness.ReachesIffDelivered | internal/harness/substrate/substrate.go:584-623 | a Run reaches its actor exactly when the protocol's delivery takes place |
| Harness.SubstrateExecution.Checkpoint | internal/harness/substrate/substrate.go:625-673 | success requires a named snapshot other than the turn's first one, and then means the memory is recorded |
| RelayLoop.Bookkeeping.Drive | cmd/checkpointd/relay.go:420-468 | onQualifying is called at most once, of the first qualifying hop, and exactly once on a run that ends at a final reply; no hop starts after a check that saw TERMINATING; the task row has followed exactly what was received and recorded |
| RelayLoop.NotifiedIsFirst | cmd/checkpointd/relay.go:53-63 | the caller is told of the first envelope that is a final reply or the first agent's Task to itself, and of nothing exactly when there is none |
| RelayLoop.Bookkeeping.RecordTaskStatus | cmd/checkpointd/relay.go:127-168 | the task row follows the first agent's own envelopes only and is created by its first Task; a recorded one gives it the Task's own state, and without one Completed if it goes to the client and Working if not; no other row changes |
| RelayLoop.AwaitOwnReply | cmd/checkpointd/relay.go:546-567 | returns only the first reply stamped with the delivered id, and gives up only on an error |
| RelayLoop.MintStepID | cmd/checkpointd/relay.go:524-535 | the message's own id if usable in its actor's history, else the first usable of at most five minted ones, else an error |
| RelayLoop.LastHopOf | cmd/checkpointd/relay.go:203-219 | the newest envelope of the log, and the newest event whether or not it carries it |
| RelayLoop.Establish | cmd/checkpointd/relay.go:356-394 | a restarted driver does what the protocol's restart step does |
| RelayLoop.ContinueFrom | cmd/checkpointd/relay.go:335-353 | a continuation is refused unless the newest hop is a final reply, and otherwise is the protocol's client step |
| RelayLoop.Address | cmd/checkpointd/relay.go:518-545 | execA2A's request is the protocol's send step: own id, the history that `History.HistoryIsSent` describes, then the message |
| History.HistoryIsSent | cmd/checkpointd/relay.go:569-581 | in every reachable state, each finished turn, the open one and the one being asked for go along with exactly two user steps per earlier turn of their agent, in order: the first envelope that turn was logged with and that turn's reply; then their own message. A turn overtaken by a client message counts as finished |
| History.HistoryIsTold | cmd/checkpointd/relay.go:569-581 | on every log of such turns the history of an agent is those two steps for each of its turns and nothing else |
| RelayLoop.DelayDoublesUpToMax | cmd/checkpointd/relay.go:94-103 | a class's delay doubles with each of its failures up to its maximum |
| RelayLoop.RetryBackoff.Next | cmd/checkpointd/relay.go:83-90 | each class's delay depends on its own failures only |
| RelayLoop.VisitedActorsOf | cmd/checkpointd/relay.go:233-246 | every conversation that logged an input, with the agent its newest marker names |
| RelayLoop.CleanupFindsLoggedInputs | cmd/checkpointd/relay.go:221-246 | in every reachable state cleanup finds an actor if and only if an input of it is logged, and so every actor whose saved state has lived through a turn |
| RelayLoop.UnloggedActorIsMissed | internal/controller/controller.go:137-149 | in every session a state without any fault in which the owner's actor is created and cleanup would miss it |
| Ownership.OneDriver | cmd/checkpointd/serverhandler.go:208-227 | in every interleaving over all replicas at most one goroutine drives a session, the row names its process as owner and its process's registry holds its entry |
| Ownership.RunKeeps | cmd/checkpointd/sessionstore.go:142-185 | the claims, registry entries and row agree after every sequence of steps and process deaths |
| Ownership.StateNeverGoesBack | cmd/checkpointd/sessionstore.go:213-231 | the session's state only moves forward |
| Ownership.TerminatedSkipsOnlyAfterFailedMark | cmd/checkpointd/relay.go:457-467 | a session leaves RUNNING for TERMINATED at once if and only if the holder's own mark failed and its final write succeeds |
| Ownership.AtMostOneLateHop | cmd/checkpointd/relay.go:127-136 | a driver that claimed the session before its end starts at most one hop after RUNNING is over |
| Takeover.OrphanIsTakenOver | cmd/checkpointd/salvage.go:132-164 | from every state of every interleaving, a session that is not TERMINATED and whose owner is dead is taken over by any live process not driving it yet: to go on if it is RUNNING, to tear it down if it is TERMINATING |
| Takeover.ReleasedIsContinued | cmd/checkpointd/sessionstore.go:142-154 | likewise a session nobody owns is driven again on a client's next message |
| Takeover.DriverFinishes | cmd/checkpointd/relay.go:457-468 | a driver at its end leaves the session TERMINATED and nobody's, and its process's registry free |
| Replicas.FleetIsOneDriver | cmd/checkpointd/serverhandler.go:208-227 | with a driver for every goroutine of every replica, the log, the actors and the one driver at work are, after any claims, crashes and take-overs, those of a run of the protocol with one driver |
| Replicas.FinalReplyAcrossReplicas | cmd/checkpointd/relay.go:420-448 | so over any replicas a final reply in the log and all saved agent states are those of plain calls of the owner on the client messages the log shows |
| Replicas.OnlyTheOwnerAppends | cmd/checkpointd/serverhandler.go:208-227 | nothing is ever appended but by a driving goroutine whose live process the row names as owner and whose own registry entry stands |
| OwnershipLimits.EndSkipsTerminating | cmd/checkpointd/relay.go:457-467 | a run in which a session goes from RUNNING to TERMINATED in one step |
| Restamp.RestampIsSafeIffUnclaimed | cmd/checkpointd/server.go:358-371 | startup resume of an own row that gets the registry entry, whatever happened since its claim, leaves at most one driver in every run from there on if and only if the row is then still its process's and no goroutine has the claim in hand; with the entry taken it changes nothing |
| OwnershipLimits.RestampCanBreakOneDriver | cmd/checkpointd/server.go:358-371 | a run in which it ends with two replicas driving |
| OwnershipLimits.ClaimAfterTheEndRunsOn | cmd/checkpointd/relay.go:134-136 | for every number of hops a run in which a continuation claims a TERMINATED session and starts that many |
| SessionStore.Store.CreateSession | cmd/checkpointd/sessionstore.go:121-135 | a new row is RUNNING and owned from inception; an existing id is refused and untouched |
| SessionStore.Store.Release | cmd/checkpointd/sessionstore.go:178-185 | clears the owner of exactly one row, unconditionally |
| SessionStore.Store.MarkTerminatingSession | cmd/checkpointd/sessionstore.go:213-220 | only a RUNNING row becomes TERMINATING |
| SessionStore.Store.TerminateSessionRow | cmd/checkpointd/sessionstore.go:224-231 | the row becomes TERMINATED whatever it was |
| SessionStore.Store.Claim | cmd/checkpointd/sessionstore.go:142-154 | claims exactly an unowned row, changing no other |
| SessionStore.Store.ClaimOrphaned | cmd/checkpointd/sessionstore.go:162-174 | reassigns exactly a row still owned by the expected incarnation |
| SessionStore.Store.CancelTaskAndSession | cmd/checkpointd/taskstore.go:336-366 | the task becomes Canceled and its session TERMINATING together, exactly on the expected version, or nothing changes |
| SessionStore.Store.ListPage | cmd/checkpointd/sessionstore.go:262-308 | one page is the first 100 matching rows behind the cursor in (last_updated, id) order, with a token exactly when there are more |
| SessionStore.MatchingIs | cmd/checkpointd/sessionstore.go:262-264 | a list is of the rows still RUNNING or TERMINATING, owned by that pod, and by that incarnation of it if one is named |
| SessionStore.Store.ListAll | cmd/checkpointd/sessionstore.go:347-393 | following the tokens over an unchanged table ends with every RUNNING or TERMINATING session of that pod, or of that incarnation of it, once, ordered by time and then id |
| SessionStore.Store.Sweep | cmd/checkpointd/salvage.go:132-164 | whichever sessions fail to resume and are given back, after any number of pages each session of the dead incarnation is this process's or still the dead one's, nothing else has changed, the count is of those kept, and a sweep that ended has tried them all; if none fails it ends, having claimed them all although each claim takes its row out of the list being paged |
| SessionStore.RevertedPageIsListedAgain | cmd/checkpointd/server.go:386-402 | a page whose sessions were all given back is listed again in full by the same sweep's next page, if that is its last |
| PageToken.TokenRoundTrip | cmd/checkpointd/taskstore.go:462-475 | decoding an encoded token gives its cursor back if and only if the id is non-empty and has no white space |
| PageToken.GroupsRoundTrip | cmd/checkpointd/taskstore.go:462-464 | base64url decoding undoes encoding for every text |
| PageToken.CursorScansBack | cmd/checkpointd/taskstore.go:466-475 | scanning undoes printing exactly for such ids |
| TaskRegistry.Registry.Acquire | cmd/checkpointd/taskregistry.go:41-49 | succeeds exactly when the session is free, with an entry of its own |
| TaskRegistry.Registry.Release | cmd/checkpointd/taskregistry.go:50-62 | frees exactly the entry it belongs to, never a later holder's |
| TaskView.AssembleTask | cmd/checkpointd/taskstore.go:237-316 | the view is the folded history cut to exactly its last n lines, the newest claim as status, and the row's own identity and state |
| TaskView.HistoryConserves | cmd/checkpointd/taskstore.go:244-282 | the untruncated history holds every client message and every superseded claim exactly once, and nothing else |
| TaskView.HistoryInLogOrderIff | cmd/checkpointd/taskstore.go:268-281 | it is in log order if and only if the client never spoke between one claim and the next |
| TaskPrivacy.ViewOfDeliveries | cmd/checkpointd/taskstore.go:237-282 | in every reachable state the view of the whole log, an open turn included, is what its deliveries show one after the other: the finished turns, then the open one |
| TaskPrivacy.LogNamesCallers | harness/runtime.go:354-375 | the caller of each invocation, read off the log, is the real one: every logged answer goes to it or is a flush, and between turns every saved waiting invocation has it |
| TaskPrivacy.ViewIsPublicIff | cmd/checkpointd/taskstore.go:251-282 | in every reachable state the view is the client's own conversation with the owner if and only if no claim comes out of an invocation that an agent called, callers being those that LogNamesCallers shows to be real; such a claim is always an output of the owner to itself, its answer to its own call or a flush |
| TaskPrivacy.ViewIsPublic | cmd/checkpointd/taskstore.go:251-282 | it is so whenever no logged call to the owner comes from an agent |
| ViewLimits.InnerClaimIsShown | cmd/checkpointd/taskstore.go:268 | a session without any fault whose view shows the Task that an inner call of the owner by itself returned or flushed |
| ViewLimits.AnswerIsShownBeforeQuestion | cmd/checkpointd/taskstore.go:268-281 | a session without any fault whose history shows the client's answer before the owner's question |
| Cancellation.CancellationStaysIff | cmd/checkpointd/taskstore.go:317-366 | over all replicas, a cancellation that succeeds stays the task's status in every run from there on if and only if no driver is past its check of the session with another status to write, no continuation is admitted that can still claim the session, and, if the session is TERMINATED already, no driver has hops to come |
| Cancellation.IdleCancellationIsOverwritten | cmd/checkpointd/relay.go:127-138 | a run from the start in which nobody drives or records when a cancellation succeeds, and which goes on to another status |
| TaskStatus.AfterIsValid | cmd/checkpointd/taskstore.go:317-366 | ownership, the recording drivers and the row's version agree after every sequence of claims, deaths, checks, reads and guarded writes |
| StatusLag.RowLagsIff | cmd/checkpointd/relay.go:356-394 | in every run, an existing row differs from the owner's newest committed reply if and only if that reply is unrecorded and the newest recorded one says something else |
| StatusLag.UnrecordedIffLost | cmd/checkpointd/relay.go:433-441 | a committed reply is unrecorded if and only if it is about to be recorded, or its driver died or failed between commit and record, or its turn was completed on the way to the reply to another message |
| StatusLag.RowFitsNewestReply | cmd/checkpointd/relay.go:170-181 | in every run, a row behind whose owner's newest reply nothing is unrecorded shows that reply's Task state if it has one, else Completed for a final reply and Working otherwise; so it is Working after every call of another agent, and terminal only behind a final reply or a Task that says so |
| StatusLagRun.CompletionIsNeverRecorded | cmd/checkpointd/relay.go:365-367 | a run in which checkpointd dies between commit and record, is restarted and stops, the log ending in a completed task and the row still waiting for input |
| AgentFold.RunEvents | harness/agent.go:59-145 | the event loop computes the fold, first refusal included |
| AgentFold.AcceptedOutput | harness/agent.go:59-145 | every sequence that ends without error kept to the protocol, and its output is nothing, its last Message, or a Task never left Working or Submitted |
| AgentFold.FoldedTaskSaysAll | harness/agent.go:147-197 | the Task handed back holds the stored artifacts followed by those of every Task and artifact update in order, and the state, status message, ids and value under each metadata key that the newest event giving one gives |
| AgentFold.FlushedSoFar | harness/agent.go:96-133 | each report of more work hands back the data as folded up to it |
| AgentFold.OwnUpdatesAreTaken | harness/agent.go:99-120 | artifact updates that name no task are filled in with the task in hand, so a merge that takes those refuses no orderly sequence |
| AgentFold.OrderlyIsAccepted | harness/agent.go:62-134 | a sequence that keeps to the protocol is refused for a bad artifact update only |
| AgentFold.StoredTaskGrows | harness/agent.go:150-197 | over Task and status events the stored task's artifacts stay a prefix and its metadata keys are kept |
| AgentFold.EveryContinuationIsFlushed | harness/agent.go:96-98 | every Working or Submitted report is handed back exactly once, and nothing else is |
| ViewFile.ApplyByteWindow | internal/harness/antigravityinteractions/antigravityinteractions_tools.go:200-226 | a window is a non-empty prefix of at most 256 KiB of what is left, splits no character of well-formed UTF-8, and is as long as that allows: where more is left, only continuation bytes stand between its end and the limit |
| ViewFile.ReadAllBytes | internal/harness/antigravityinteractions/antigravityinteractions_tools.go:190-199 | re-reading with the offset advanced by what was served ends, and the pages are exactly the content |
| ViewFile.CutAtRuneStart | internal/harness/antigravityinteractions/antigravityinteractions_tools.go:213-217 | cutting well-formed UTF-8 in front of a character's first byte leaves two well-formed texts |
| ViewFile.ResolveLineWindow | internal/harness/antigravityinteractions/antigravityinteractions_tools.go:148-190 | the window is exactly the requested lines that exist, at most 2000 of them, joined |
| ViewFile.ReadForward | internal/harness/antigravityinteractions/antigravityinteractions_tools.go:137-147 | reading forward from behind each window tiles the file: the windows joined are the content without its one trailing newline |
| ViewFile.LinesJoin | internal/harness/antigravityinteractions/antigravityinteractions_tools.go:148-155 | the logical lines joined are the content without its one trailing newline |

## Left out

- gRPC, HTTP, TLS, Kubernetes, SQL drivers, JSON and protobuf encoding, logging and tracing are values and arguments; an append or an UPDATE is atomic and its result truthful.
- The private actor id is taken as its agent's name: the hash that derives it is treated as injective within a session.
- Task and context ids an agent leaves empty, and the id fill-in of its outbound messages, are part of the agent's own action data.
- The history a Connect rebuilds from the earlier steps, and the stored task an agent sees, are part of the agent's `Choice`; the refusal of a log in which an agent's claim reverts to a Message is therefore a turn that may fail, not modelled by its cause.
- A turn delivered to the wrong actor (verifyActor) does not occur in the model.
- Agents that call others from several goroutines at once, and late control API calls of a checkpointd that has died.
- Deleting an actor, and finishing an interrupted deletion, happen only after TERMINATING and are not steps of `System`; `RelayLoop.CleanupFindsLoggedInputs` says what cleanup finds.
- Connect's duplicate test and the in-flight registration are one step of `System`; `ActorRuntime.OneIDRunsTwice` says what separate locks add.
- A call that a goroutine has under way when it dies or leaves its loop does not land later.
- The cancellation marker is not an event of `System`: its effect on a redo is `Controller.MarkerHidesOutputs`.
- Liveness: no claim that an endless series of retries ends; `Recovery` shows one that does.
- The task's row is beside `System` in `StatusLag` and beside `Ownership` in `TaskStatus`, not beside both at once; an existing session is one task's.
- Paging of ListTasks, whose key is not unique, and the page loop of startup resume, whose re-stamped rows move behind its cursor.
- SessionStore.Store.Sweep: is stated for any number of pages, because a row given back moves behind the cursor and a sweep of more than a page that keeps failing need not end.
- Restamp.RestampIsSafeIffUnclaimed: the row is not TERMINATED when the resume asks the registry, as in the list it was taken from.
- The registry's waiting and cancelling (acquireWait, cancelAndWait) are steps of `Ownership` rather than code.
- Whether a replica is draining, tenants and context ids of requests, and what a caller is finally sent.
- PageToken.TokenRoundTrip: ids are ASCII texts, because white space beyond ASCII and ill-formed UTF-8 are read rune by rune.
- ViewFile.ResolveLineWindow: line numbers are unbounded integers, so a start line near the largest machine integer does not wrap around.
- AgentFold.RunEvents: the library's artifact merge is a parameter, and two tasks sharing one metadata map in memory are copied values.
- Files are not read: `ViewFile` starts from a file's content.
- The sidecar, discovery, configuration, command line, demos, the Python harness and the other tools of the Antigravity harness.
