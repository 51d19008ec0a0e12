# Konveyor agent runner: verified models

This project models the protocols and algorithms that a Kubernetes controller and its in-pod
harness rely on to run migration agents, and proves what they promise over every input, every
interleaving or every reachable state. One module per component:

- `AskRelay`, `ReplayRing`: the tee that offers an agent's questions to attached viewers and replays
  status frames to late ones.
- `Demux`, `PromptFold`, `FailClosed`: one socket shared by many callers, the fold of a turn's stream
  into a result, and the fail-closed answers to agent requests. `FailClosed` runs its handlers
  against the `AskRelay` machine, step by step.
- `AgentRun`, `StageExit`, `Workflow`, `WorkflowOneLive`, `WorkflowToken`, `WorkflowSafety`,
  `WorkflowLimits`, `WorkflowRuns`: the AgentRun phase machine, the harness exit contract, the workflow
  sequencer, and whole-run safety of the three composed, against an environment that loses status
  patches and creation answers, edits the workflow, deletes AgentRuns and Sandboxes, lets TTLs pass and
  advances pods; then the exact limits of that safety.
- `GatewayCache`, `CredentialDigest`: reuse of a gateway verdict and what is fed to the digest.
- `MountLayout`: string tests on paths against containment of segments.
- `SkillCopy`, `SkillLoad`, `Frontmatter`: assembling the skills root through symlinks, and the
  frontmatter scanner with its printer.
- `Substitution`, `Params`, `Floats`: parameter expansion and coercion, and what the AgentRun controller
  reads from the JSON the workflow controller stamped.
- `Json`, `Utf8`, `Decimals`, `TerminationBlob`, `TerminationReader`: compact JSON written and read back,
  and the bounded termination message as its consumer sees it.

State that the source updates in place is a class whose methods are proved against a value-level
specification; concurrent protocols are machines whose steps are single lock sections, channel
operations or atomic stores, and the theorems range over every sequence of steps.

## Where the code keeps less than it might seem to

Some promises hold under an exact condition. Each is proved for all inputs or runs that meet it, with
concrete inputs that do not, and the condition is shown to be needed:

- At most one stage AgentRun is live, and no stage starts after an earlier one revoked the Hub token,
  unless an edit of the workflow or the removal of an AgentRun or its Sandbox leaves the run *crossed* or
  *primed*. That needs an AgentRun or a Sandbox that no status records: the snapshot is persisted by the
  same patch that records the first AgentRun, and a Sandbox is created before the patch that records it;
  either patch may be lost. Then renaming a stage, deleting the AgentRun or the Sandbox, or a TTL passing
  lets the work start over while the first process may still run, or has run (`WorkflowRuns.TwoLive`,
  `WorkflowRuns.StartsWithoutToken`). Edits and removals that cannot do this are named in
  `WorkflowSafety.CarefulRunsAreSafe`; `WorkflowLimits.CrossedExactly` and `PrimedExactly` show that the
  two states are exactly the ones from which the controllers by themselves break the promise.
- A gateway verdict is recorded for the pair it was computed for exactly if the pairs a Gateway goes
  through have distinct Job names, which keep a short prefix of the digest; a comment in the code takes a
  shared name to be harmless (`GatewayCache.AccurateExactly`).
- Workflow guide and AgentRun render a declared workflow param alike exactly if it has a value and is not
  a float below 1e-6 or from 1e21 on; a comment in the code says they always do
  (`Params.ScopesAgreeExactly`, `Params.TenToThe21`, `Params.UnsetIsMissing`).

## Model

| member | source | states |
|---|---|---|
| `AskRelay.FirstAnswerWins` | harness/internal/tee/tee.go:409-475 | after every interleaving of asks, answers, timeouts, attaches and Stop: `perms` and `pendingAsks` have the same keys and none of them is answered; a pending send finds its capacity-1 channel empty; a channel never holds two results; an ask that returned Answered returned the result of the one resolver that removed its id |
| `AskRelay.RunKeepsAnswers` | harness/internal/tee/tee.go:945-974 | over any further run a committed answer is never replaced, a result once sent is never sent again, and a returned ask never changes its outcome |
| `AskRelay.StepKeepsInv` | harness/internal/tee/tee.go:409-475 | every single lock section, channel operation or atomic store keeps the ask invariant |
| `AskRelay.StepKeepsAnswers` | harness/internal/tee/tee.go:945-974 | no step forgets an ask, changes a committed answer or reopens a sent one |
| `AskRelay.BoundedParking` | harness/internal/tee/tee.go:424-475 | over every run, the full timeouts in it number at most (concurrent askers) x (signs of life in it); with one asker, at most one per sign |
| `AskRelay.OfferedExactly` | harness/internal/tee/tee.go:423-438 | after any run a new ask is put on offer exactly if nothing stopped the tee, some viewer attached and did not detach since, and there was a sign of life since the last timeout; otherwise it returns without an answer and nothing changes |
| `AskRelay.ViewerCanAnswer` | harness/internal/tee/tee.go:409-475 | from any reachable state with a viewer paying attention and no stop, an ask can be registered, answered with any result, and return exactly that result |
| `AskRelay.AnswerReturns` | harness/internal/tee/tee.go:945-974 | an offered ask answered by a viewer returns that answer verbatim |
| `AskRelay.UnansweredTimesOut` | harness/internal/tee/tee.go:452-474 | an ask nobody answers returns timed out, is off offer, and leaves nobody counted as responsive |
| `AskRelay.ShutdownReleases` | harness/internal/tee/tee.go:452-474 | once Stop has closed the done channel a parked ask returns at once, off offer |
| `AskRelay.RunRemembers` | harness/internal/tee/tee.go:877-951 | after any run the stop flag, the viewer set, the responsive flag and the counts of timeouts and signs are those of the run's own steps |
| `AskRelay.StepKeepsPaid` | harness/internal/tee/tee.go:423-475 | each step keeps the accounting behind that bound: a sign of life buys one round of timeouts |
| `AskRelay.Server.NextId` | harness/internal/tee/tee.go:409-420 | ids are never reused: the counter only grows |
| `AskRelay.Server.Register` | harness/internal/tee/tee.go:423-438 | registers exactly when not stopped, with a viewer and somebody responsive; then the id enters both maps with its frame, otherwise neither changes |
| `AskRelay.Server.Resolve` | harness/internal/tee/tee.go:945-974 | marks life even without a result; wins exactly when there is a result and the id is still on offer, removing it from both maps in one section |
| `AskRelay.Server.Forget` | harness/internal/tee/tee.go:446-451 | the deferred cleanup removes the id from both maps and touches nothing else |
| `AskRelay.Server.GiveUp` | harness/internal/tee/tee.go:467-473 | a timeout clears only the responsive flag |
| `AskRelay.Server.AddViewer` | harness/internal/tee/tee.go:877-887 | attaching is refused exactly when stopped and otherwise is a sign of life |
| `AskRelay.Server.RemoveViewer` | harness/internal/tee/tee.go:889-893 | detaching changes only the viewer set |
| `AskRelay.Server.Stop` | harness/internal/tee/tee.go:240-248 | stopping sets only the flag |
| `ReplayRing.ReplayBuffer.Emit` | harness/internal/tee/tee.go:357-391 | the two parallel slices, updated in place, equal the last 32 entries of the whole emission history with superseded keyed frames removed |
| `ReplayRing.ReplayBuffer.DropKey` | harness/internal/tee/tee.go:373-381 | the inner loop removes exactly the first entry carrying the key |
| `ReplayRing.ReplayBuffer.Push` | harness/internal/tee/tee.go:382-387 | both slices grow by one and keep their last 32 |
| `ReplayRing.RingSnoc` | harness/internal/tee/tee.go:357-391 | trimming at every emission gives the same ring as trimming the whole live history once |
| `ReplayRing.LiveSnoc` | harness/internal/tee/tee.go:357-391 | one more emission drops exactly the frame it supersedes and appends itself |
| `ReplayRing.LiveMembers` | harness/internal/tee/tee.go:338-391 | no two frames kept carry the same non-empty key |
| `ReplayRing.PlanNeverEvicts` | harness/internal/tee/tee.go:338-391 | re-emitting the plan any number of times never evicts any of the last 31 unkeyed frames |
| `ReplayRing.RingUnkeyed` | harness/internal/tee/tee.go:338-391 | a ring holds at most one keyed frame, so a full one holds at least 31 unkeyed frames |
| `Demux.ResponseCarriesItsNotifications` | harness/internal/acp/wsclient.go:313-356 | in every interleaving, a returned response is the first frame answering that id since registration and, absent sink overflow, what its caller consumed is an in-order prefix of the notifications read since its sink was added, holding every one read before the response |
| `Demux.LostMeansUnanswered` | harness/internal/acp/session.go:450-542 | "connection lost" is reported only if no response to the id was ever read, and SendPrompt still returns everything streamed |
| `Demux.DeliveryNeverBlocks` | harness/internal/acp/wsclient.go:176-200 | a response channel never holds more than one frame and is empty when the read loop sends on it |
| `Demux.OverflowNeedsBacklog` | harness/internal/acp/wsclient.go:120-142 | a caller loses a notification only if more than a sinkful of them was read since its sink was added |
| `Demux.ResponseIsReturned` | harness/internal/acp/wsclient.go:313-356 | from any state in which a caller waits, a response to its id can be read, delivered and returned, with what it had heard |
| `Demux.NoteIsHeard` | harness/internal/acp/wsclient.go:120-142 | a waiting caller hears the next notification read |
| `Demux.LossIsReported` | harness/internal/acp/session.go:450-542 | when the connection goes down without a response, the caller returns that; a prompt drains its sink first |
| `Demux.LateCheckFindsResponse` | harness/internal/acp/wsclient.go:313-356 | a response delivered before the loss is noticed is still returned |
| `Demux.CallGivesUp` | harness/internal/acp/wsclient.go:313-356 | a failed send or a cancelled context ends the call, and nothing of it stays registered |
| `Demux.CallStarts` | harness/internal/acp/wsclient.go:201-224 | a call can start at any time, under an id no other caller has or had |
| `Demux.StepKeepsInv` | harness/internal/acp/wsclient.go:90-118 | every step of the read loop and of any caller keeps the routing invariant |
| `Demux.ClassesAreDisjoint` | harness/internal/acp/wsclient.go:90-118 | a frame is a notification, an agent request or a response to one id, never two of these |
| `Demux.FrameTable` | harness/internal/acp/wsclient.go:90-118 | which class a frame is in, by its method and id; a null id counts as none |
| `Demux.WSClient.RegisterPending` | harness/internal/acp/wsclient.go:201-207 | a fresh id becomes pending with an empty channel |
| `Demux.WSClient.UnregisterPending` | harness/internal/acp/wsclient.go:209-214 | only that id leaves the pending table |
| `Demux.WSClient.AddNotifSink` | harness/internal/acp/wsclient.go:216-224 | a new sink gets an id no sink or subscriber has |
| `Demux.WSClient.Subscribe` | harness/internal/acp/wsclient.go:237-254 | a new raw subscriber gets an id no sink or subscriber has |
| `Demux.WSClient.FanOutNotification` | harness/internal/acp/wsclient.go:120-142 | every sink and raw subscriber with room gets the frame, in order, and a full one is skipped |
| `Demux.WSClient.TakePending` | harness/internal/acp/wsclient.go:184-190 | in one lock section a numeric id still pending is found and removed; any other response finds nobody and changes nothing |
| `Demux.WSClient.RouteResponse` | harness/internal/acp/wsclient.go:176-200 | the caller found hears of the response, on a channel that was empty, and nobody else does |
| `Demux.WSClient.RemoveNotifSink` | harness/internal/acp/wsclient.go:226-230 | only that sink leaves the table |
| `Demux.WSClient.DispatchFrame` | harness/internal/acp/wsclient.go:90-118 | one turn of the read loop: a frame goes to every sink, to the request handler, or to the one caller pending under its id |
| `Demux.StepMovesTables` | harness/internal/acp/wsclient.go:120-230 | every step of the machine, but a caller receiving from its own channel or sink, moves the routing tables exactly as the client does |
| `Demux.ReadThenDeliver` | harness/internal/acp/wsclient.go:176-200 | reading a response and delivering it are the two halves of routeResponse: the frame sent is the one whose caller was removed |
| `FailClosed.EveryRequestFailsClosed` | harness/internal/acp/session.go:566-681 | in every interleaving of handlers and relay, whenever the relay is installed and the session created: at most one reply per request, under its own id; a relayed reply is verbatim what a viewer committed for this request's own ask, which no other request shares; a selected permission option is an offered reject_once; an unanswered question is latched before its cancel reply, and session/cancel only follows that reply |
| `FailClosed.FinishedIsAnswered` | harness/internal/acp/session.go:566-681 | in every interleaving, once a handler is done: if its own ask returned a viewer's answer its effects are exactly one response, under the request's id, relaying what was committed for that ask; otherwise exactly the denial of its kind |
| `FailClosed.ViewerAnswersRequest` | harness/internal/acp/session.go:595-604 | from every reachable state with the relay installed and a viewer paying attention, a forwarded request can end with exactly what that viewer answers |
| `FailClosed.InstalledIsConsulted` | harness/internal/acp/session.go:595-604 | a forwarded request that begins once the relay is installed is always put to it |
| `FailClosed.SessionIsCancelled` | harness/internal/acp/session.go:642-681 | a question that goes unanswered in a session cancels the turn, in every continuation that finishes it |
| `FailClosed.RelaysAnswer` | harness/internal/acp/session.go:599-604 | once its ask has returned a viewer's answer, two steps of its own relay it |
| `FailClosed.InstalledSince` | harness/internal/acp/session.go:566-594 | relay and session are there exactly if the run has installed and created them |
| `FailClosed.EveryRequestCanFinish` | harness/internal/acp/session.go:566-681 | from every reachable state a request's own goroutine and timer suffice to answer it, exactly once |
| `FailClosed.OwnStepAdvances` | harness/internal/tee/tee.go:446-475 | while a request is unfinished its own next step is enabled and brings it closer to its reply |
| `FailClosed.StepKeepsInv` | harness/internal/acp/wsclient.go:144-174 | each handler has done exactly a prefix of its script, but for a cancel that found no session, under an ask of its own, and an answered outcome is what was committed for that ask |
| `FailClosed.ScriptFailsClosed` | harness/internal/acp/session.go:566-681 | one reply per script; nothing granted that no viewer granted; latch before cancel reply before session/cancel |
| `FailClosed.SessionClient.AnswerAgentRequest` | harness/internal/acp/session.go:566-631 | a viewer's answer to a forwarded request is relayed verbatim as the one and only effect; without one, a permission request gets the first reject_once on offer and a cancel exactly if there is none, a question is latched and cancelled, and the turn is cancelled exactly in a session; the effects are those of the script |
| `FailClosed.SessionClient.AnswerPermission` | harness/internal/acp/session.go:595-631 | the permission branch of the script: a viewer's answer, or the loop's first reject_once |
| `FailClosed.SessionClient.AnswerElicitation` | harness/internal/acp/session.go:642-681 | the question branch of the same script, with the latch set on every unanswered path |
| `FailClosed.Denial` | harness/internal/acp/session.go:617-631 | the headless reply is a cancel exactly if no reject_once was offered, else one that was |
| `FailClosed.DenialIsFirst` | harness/internal/acp/session.go:617-631 | it selects the first reject_once in the order offered |
| `FailClosed.PerformedAnswers` | harness/internal/acp/session.go:566-681 | a script run in one go answers its request, whatever the relay said, and cancels the turn exactly if the question was latched in a session |
| `PromptFold.ClosingDependsOnTailOnly` | harness/internal/acp/session.go:378-385 | the closing text depends only on the events after the last tool call or user chunk, whatever message id was left behind, and concatenates exactly their texts |
| `PromptFold.ClosingFromTail` | harness/internal/acp/session.go:766-818 | folding a stream and folding its tail end in the same closing messages |
| `PromptFold.TailIsSuffix` | harness/internal/acp/session.go:766-818 | the tail is the suffix after the last reset |
| `PromptFold.FinalMessageSplits` | harness/internal/acp/session.go:366-368 | the final message is made of the chunks after the last reset, one line per message, whatever id was left behind |
| `PromptFold.MessageAt` | harness/internal/acp/session.go:378-385 | each message holds the texts from where it starts up to where the next one starts |
| `PromptFold.StartsAreExact` | harness/internal/acp/session.go:378-385 | messages start at the first chunk and exactly where a non-empty id differs from the chunk before |
| `PromptFold.FoldCounts` | harness/internal/acp/session.go:698-711 | all text chunks are kept in order and TurnsUsed is the number of tool calls |
| `PromptFold.FoldUsage` | harness/internal/acp/session.go:720-764 | cost and context occupancy are the last ones reported, and every notice text is kept in order |
| `PromptFold.JoinConcat` | harness/internal/acp/session.go:366-368 | joining puts one line break between two pieces and none around them |
| `PromptFold.Collector.Collect` | harness/internal/acp/session.go:450-542 | the result is the fold of live and drained notifications, CostLimitReached holds exactly when some live prefix reached the limit, and session/cancel is attempted once then and never otherwise |
| `PromptFold.Collector.TakeLive` | harness/internal/acp/session.go:469-520 | the waiting loop's half of that claim |
| `PromptFold.Collector.Drain` | harness/internal/acp/session.go:512-527 | draining folds the rest and triggers nothing |
| `PromptFold.Collector.Process` | harness/internal/acp/session.go:732-818 | one notification changes the result as the fold says |
| `AgentRun.RunOnlyAdvances` | internal/controller/agentrun_controller.go:254-412 | over any history with any patches lost, at any two points: phase, outcome, sandbox and times only move forward, terminal is absorbing, StartTime and CompletionTime are written at most once, and phase and the Succeeded condition agree both ways |
| `AgentRun.RunKeepsInv` | internal/controller/agentrun_controller.go:254-412 | the same from any status satisfying the invariant |
| `AgentRun.ReconcileKeepsInv` | internal/controller/agentrun_controller.go:1504-1608 | one reconcile, landed or lost, keeps the invariant and only advances |
| `AgentRun.DeletesExactlyWhenDue` | internal/controller/agentrun_controller.go:1923-1950 | a reachable run is deleted exactly when terminal with completion plus TTL reached |
| `AgentRun.DeletedOnlyAfterTtl` | internal/controller/agentrun_controller.go:1923-1950 | over every history, deletion happens only once the TTL has passed since the landed reconcile that completed the run |
| `AgentRun.CompletionWasStamped` | internal/controller/agentrun_controller.go:1613-1624 | a completion time is the clock reading of the one landed reconcile that wrote it, and the run was terminal from then on |
| `AgentRun.OutcomeFollowsExitCode` | internal/controller/agentrun_controller.go:1733-1763 | with a visible agent exit code the run succeeds exactly on 0 and reports the limit exactly on 2 |
| `AgentRun.StartingRunTable` | internal/controller/agentrun_controller.go:1569-1608 | a run with a ready Agent and an unfinished Sandbox that is not Running yet and has no container stuck: it becomes Running exactly if its pod runs, started at the container start, else the acceptance, else the creation of the Sandbox; otherwise it fails exactly if a startup deadline is set and has passed, else it is Pending |
| `AgentRun.StuckFails` | internal/controller/agentrun_controller.go:1569-1590 | a container that cannot start fails the run at once, naming the first such reason |
| `AgentRun.RunningStays` | internal/controller/agentrun_controller.go:1551-1568 | a Running run stays as it is until its Sandbox has finished |
| `AgentRun.FinishedTable` | internal/controller/agentrun_controller.go:1504-1550 | a finished Sandbox ends the run: the agent's exit code decides if it is known, else the Sandbox's own reason; completion, start and duration are stamped |
| `AgentRun.PreflightTable` | internal/controller/agentrun_controller.go:277-377 | invalid params, gateway or file mounts fail the run; a missing or unreadable source, a missing gateway and a failed creation are retried; a Sandbox is made exactly if the checks pass, or its creation went unanswered |
| `AgentRun.MissingObjectTable` | internal/controller/agentrun_controller.go:254-276 | a missing Agent or a vanished Sandbox fails the run, an Agent that is not ready is waited for, a failed read changes nothing |
| `AgentRun.TerminalTable` | internal/controller/agentrun_controller.go:1923-1950 | a finished run changes once more at most: a TTL anchors it to a completion time if it has none |
| `AgentRun.AgentRunObject.Reconcile` | internal/controller/agentrun_controller.go:224-412 | the controller's statements compute the specified status, patch and deletion, and a Sandbox they have created is there even if the patch is lost |
| `AgentRun.RecordedWasMade` | internal/controller/agentrun_controller.go:341-377 | a status names a Sandbox only if a landed reconcile of the history had it created |
| `AgentRun.UpdatePhaseFromSandbox` | internal/controller/agentrun_controller.go:1504-1608 | the Sandbox branch, statement by statement, computes the specified status |
| `AgentRun.FindStartupProblem` | internal/controller/agentrun_controller.go:1648-1668 | the loop finds the first unrecoverable waiting reason |
| `AgentRun.StartupProblem` | internal/controller/agentrun_controller.go:1648-1668 | a problem is reported exactly when some container waits unrecoverably, and names such a one |
| `AgentRun.ProblemIsFirst` | internal/controller/agentrun_controller.go:1648-1668 | and it is the first of them |
| `StageExit.RunStage` | harness/cmd/migration-harness/main.go:109-163 | exit 0 exactly if every step got through and the prompt ended well, exit 2 exactly if it hit a limit, with that limit in the blob; the termination blob carries the same code and an outcome of that code, and the token is revoked exactly if the configuration loads, a token id is set and this is no intermediate success |
| `StageExit.RevocationPolicy` | harness/cmd/migration-harness/main.go:141-163 | exit 0 exactly on success; with a usable token id only an intermediate success leaves the token alive |
| `StageExit.ClassifySucceeds` | harness/cmd/migration-harness/outcome.go:89-139 | a prompt counts as success exactly if it ended by itself, did something and hit no turn ceiling; a limit outcome names its limit |
| `StageExit.ClassifyTable` | harness/cmd/migration-harness/outcome.go:89-139 | the cost limit is reported exactly for a turn the harness cancelled for its cost, the turn limit exactly for an active turn at its ceiling or a connection lost there; a failure names no limit |
| `StageExit.PositionTable` | harness/cmd/migration-harness/main.go:759-780 | a position counts only if both parts are numbers from 1 on and the stage is not past the count; intermediate exactly if not the last |
| `StageExit.StampedPosition` | harness/cmd/migration-harness/main.go:759-780 | the position the controller stamps as decimal text is the one the harness reads back, intermediate exactly when not last |
| `Decimals.ParseUintFormat` | harness/cmd/migration-harness/main.go:759-780 | unsigned 64-bit numbers survive rendering and parsing |
| `Decimals.ParseIntFormat` | internal/controller/params.go:80-90 | signed 64-bit numbers survive rendering and parsing |
| `Decimals.ParseUintExactly` | harness/cmd/migration-harness/main.go:759-780 | a text is read as n exactly if it is n's shortest rendering behind any number of zeros, and n fits 64 bits |
| `Decimals.ParseIntExactly` | internal/controller/params.go:80-90 | the same for signed texts: a minus negates, a plus is allowed, the value must fit |
| `Decimals.FormatIsShortest` | internal/controller/params.go:99-105 | a rendering has no leading zero, but for zero itself |
| `Workflow.ReachableRunsAreSplit` | internal/controller/agentworkflowrun_controller.go:150-343 | in every reachable run, whatever is lost, edited or deleted: some index splits the snapshot into succeeded stages whose harness exited 0, one current stage, and untouched Pending stages without AgentRun; Succeeded means every stage exited 0 |
| `Workflow.RunKeepsBase` | internal/controller/agentworkflowrun_controller.go:87-343 | over any run the snapshot's names stay frozen, recorded AgentRuns stay recorded, terminal runs stay put and the split only moves forward |
| `Workflow.StepKeepsBase` | internal/controller/agentworkflowrun_controller.go:87-343 | every step of controller or environment keeps the split |
| `Workflow.ReconcileAdvances` | internal/controller/agentworkflowrun_controller.go:181-343 | one reconcile changes at most the current stage and never moves the split back |
| `Workflow.CreatedAfterPredecessors` | internal/controller/agentworkflowrun_controller.go:212-260 | an AgentRun is created only for the current stage, once every earlier stage's harness has exited 0 |
| `Workflow.ReconcileEffect` | internal/controller/agentworkflowrun_controller.go:150-343 | all one reconcile can do to the plan: create the current AgentRun, or advance by one past a succeeded AgentRun |
| `Workflow.MirrorTable` | internal/controller/agentworkflowrun_controller.go:262-343 | a landed reconcile with readable inputs whose current stage is on record: the run is Failed, and completed, exactly if that AgentRun is missing or its Succeeded condition is False; with True the current index grows by one and the run is not over; otherwise the run is Running at the same stage, which shows the AgentRun's phase |
| `Workflow.CreationTable` | internal/controller/agentworkflowrun_controller.go:212-260 | a current stage not on record gets its AgentRun, unless its configuration is in error, which ends the run; a transient failure or a lost answer leaves the plan for a retry |
| `Workflow.IdleTable` | internal/controller/agentworkflowrun_controller.go:107-198 | without a workflow the run ends, until that is ready and once the run is over nothing changes, and with no stage left it has succeeded |
| `Workflow.FailedHasCause` | internal/controller/agentworkflowrun_controller.go:117-343 | in every reachable run phase Failed goes back to a step of the run with one of the named causes: the workflow gone, a configuration error, or a current AgentRun missing or with Succeeded False |
| `Workflow.CauseFails` | internal/controller/agentworkflowrun_controller.go:117-343 | and each of these causes ends the run, with its completion time |
| `Workflow.CompletedExactly` | internal/controller/agentworkflowrun_controller.go:117-343 | in every reachable run the completion time is set exactly if the run is over |
| `Workflow.MirrorSound` | internal/controller/agentworkflowrun_controller.go:262-304 | a stage is mirrored as Succeeded only from its own AgentRun's success |
| `Workflow.SuccessNeedsExit0` | internal/controller/agentrun_controller.go:1733-1763 | an AgentRun becomes Succeeded only if its harness exited 0 |
| `Workflow.WorkflowRunObject.Reconcile` | internal/controller/agentworkflowrun_controller.go:87-343 | the controller's statements compute the specified store, with the patch landing or lost |
| `Workflow.WorkflowRunObject.CreateAgentRunForStage` | internal/controller/agentworkflowrun_controller.go:212-260 | creation takes effect even when the patch is lost, and an existing AgentRun is adopted |
| `Workflow.WorkflowRunObject.MirrorStage` | internal/controller/agentworkflowrun_controller.go:262-343 | the current stage mirrors its AgentRun, a missing or failed one ends the run |
| `Workflow.TakeSnapshot` | internal/controller/agentworkflowrun_controller.go:162-175 | the snapshot lists every stage, Pending and without AgentRun |
| `Workflow.FindCurrentStageIndex` | internal/controller/agentworkflowrun_controller.go:347-356 | the least stage that has not succeeded |
| `Workflow.CurrentIndex` | internal/controller/agentworkflowrun_controller.go:347-356 | everything before it succeeded and it has not |
| `Workflow.WorkflowRunObject.Create` | internal/controller/agentworkflowrun_controller.go:527-551 | an AgentRun that is there already is adopted, otherwise it is created fresh with its position |
| `WorkflowSafety.CarefulRunsAreSafe` | internal/controller/agentworkflowrun_controller.go:150-343 | over every run, whatever patches and creation answers are lost: if the workflow is edited only before anything was created or once the snapshot is persisted, only AgentRuns that are on record or no longer needed are removed (by a user or by their TTL), and only Sandboxes that are on record or whose AgentRun is over or gone are deleted, then at most one AgentRun is live and no stage starts after an earlier one revoked the token |
| `WorkflowOneLive.OneLiveUnlessCrossed` | internal/controller/agentworkflowrun_controller.go:150-260 | over every run, at most one AgentRun is live as long as no edit or removal leaves the run crossed: an AgentRun live while the next stage to work on is yet to get its own |
| `WorkflowToken.TokenSafeUnlessPrimed` | harness/cmd/migration-harness/main.go:141-163 | over every run, no stage starts after an earlier one revoked the token, as long as no edit or removal leaves the run primed: some process or stage can still start although a process of an earlier stage has revoked the token, or can without closing the way |
| `WorkflowOneLive.StepKeepsOneLive` | internal/controller/agentworkflowrun_controller.go:212-343 | no step but an edit or a removal can cross the run, and an uncrossed step keeps one live AgentRun |
| `WorkflowToken.StepKeepsToken` | internal/controller/agentworkflowrun_controller.go:212-343 | every step keeps the log safe, and no step but an edit or a removal can prime the run |
| `WorkflowToken.StepWasPrimed` | internal/controller/agentrun_controller.go:224-412 | what is primed after an ordinary step was primed before it: neither controller, nor a pod, nor the deletion of an orphaned Sandbox makes a new way to go wrong |
| `WorkflowToken.RunKeepsToken` | harness/cmd/migration-harness/main.go:109-163 | unprimed runs keep the invariant behind token safety |
| `WorkflowToken.FailureCloses` | harness/cmd/migration-harness/main.go:759-780 | a process that is not a last stage revokes the token only by failing, and its AgentRun can then no longer succeed |
| `WorkflowSafety.CarefulNeverHarms` | internal/controller/agentworkflowrun_controller.go:162-175 | the edits and removals named by CarefulRunsAreSafe neither cross nor prime a run |
| `WorkflowLimits.CrossedExactly` | internal/controller/agentworkflowrun_controller.go:212-260 | a state with one live AgentRun can come to have two without any further edit or removal if and only if it is crossed |
| `WorkflowLimits.PrimedExactly` | harness/cmd/migration-harness/main.go:141-163 | a safe state, whatever AgentRuns, Sandboxes and orphans it holds, can come to start a stage without the token, without any further edit or removal, if and only if it is primed |
| `WorkflowLimits.CrossedGoesWrong` | internal/controller/agentworkflowrun_controller.go:212-260 | from every crossed state the sequencer by itself creates a second live AgentRun |
| `WorkflowLimits.PrimedGoesWrong` | harness/cmd/migration-harness/main.go:141-163 | from every primed state the controllers and pods by themselves start some stage after a revocation |
| `WorkflowRuns.TwoLive` | internal/controller/agentworkflowrun_controller.go:162-260 | the input: the first patch is lost and the stage renamed, since the snapshot shares its patch with the first creation |
| `WorkflowRuns.StartsWithoutToken` | internal/controller/agentrun_controller.go:937-942 | five inputs, each with one edit or removal: the first patch is lost and the failed stage is deleted, expires or is renamed; its Sandbox is unrecorded too, its Agent gone, and it is renamed before its pod starts; or only the Sandbox is unrecorded, and deleted |
| `GatewayCache.AccurateExactly` | internal/controller/gateway_controller.go:206-330 | for any set of (generation, digest) pairs: in every history whose current pairs lie in it each terminal verdict is recorded for the pair it was computed for, if and only if no two of them share a Job name |
| `GatewayCache.RunKeepsAccurate` | internal/controller/gateway_controller.go:206-330 | if no two pairs of a history share a Job name, every terminal verdict in it is recorded for its own pair |
| `GatewayCache.SharedNameMisattributes` | internal/controller/gateway_controller.go:253-312 | from any two pairs sharing a Job name, a history with no other pair that records one pair's verdict for the other |
| `GatewayCache.PrefixIsNotDistinct` | internal/controller/gateway_controller.go:618-672 | a name that keeps only a prefix of the digest does not tell all pairs apart, so the condition is about the pairs of a history |
| `GatewayCache.VerdictIsCurrent` | internal/controller/gateway_controller.go:206-251 | after any history whose pairs have distinct Job names, a reconcile that reads the credential leaves Ready for the current generation, and any verdict it leaves was computed for the current generation and credential: the early return never reuses one across a spec change or a rotation |
| `GatewayCache.VerdictWasProbed` | internal/controller/gateway_controller.go:253-312 | over every history: a probe verdict on record is the result some step of the history finished a Job with, for the recorded pair; ConnectionVerified only if that Job succeeded, a failure reason only if it did not, and the reason is the one its diagnostic explains |
| `GatewayCache.JobDecides` | internal/controller/gateway_controller.go:253-312 | one reconcile without a settled verdict: Ready and ConnectionVerified are the result of the finished Job under the current name, an active one leaves Ready false and Verifying; the Job goes once judged |
| `GatewayCache.VerdictIsReused` | internal/controller/gateway_controller.go:206-229 | a settled verdict for the current generation and digest is left as it is, and so are the Jobs |
| `GatewayCache.MissingJobIsCreated` | internal/controller/gateway_controller.go:253-290 | with no Job of the current name one is created for exactly the current pair; while that fails nothing is decided |
| `GatewayCache.StaleJobsGo` | internal/controller/gateway_controller.go:440-472 | Jobs of other names go, but for those that cannot be deleted, and none is changed |
| `GatewayCache.SkippedWithoutProbe` | internal/controller/gateway_controller.go:231-251 | a provider without a models endpoint is Ready without a probe |
| `GatewayCache.UnreadableIsNotReady` | internal/controller/gateway_controller.go:143-205 | a credential that cannot be read makes the Gateway not Ready, saying why, and leaves hash and Jobs alone |
| `GatewayCache.ResultIsRecorded` | internal/controller/gateway_controller.go:253-312 | from every state a probe's result can get on record: its Job created, finished, judged |
| `GatewayCache.RunKeepsCoherent` | internal/controller/gateway_controller.go:143-331 | under any naming, in every reachable status ConnectionVerified holds exactly with that reason and Ready is true exactly for verified or skipped |
| `GatewayCache.VerifyReason` | internal/controller/gateway_controller.go:743-776 | a probe's reason is terminal and never "skipped"; ConnectionVerified exactly on success, AuthenticationFailed exactly for a failed probe that reported a refusal with its code, EndpointUnreachable exactly for an unreachable endpoint |
| `GatewayCache.GatewayObject.Reconcile` | internal/controller/gateway_controller.go:143-331 | the controller's statements compute the specified status and Jobs, with the patch landing or lost |
| `CredentialDigest.InputIsInjective` | internal/controller/gateway_controller.go:645-681 | for a fixed reference, equal digest inputs come from equal selected credential material |
| `CredentialDigest.KeysAreTold` | internal/controller/gateway_controller.go:645-681 | references to different keys are never fed to the digest as the same bytes |
| `CredentialDigest.InputIsCanonical` | internal/controller/gateway_controller.go:645-662 | the digest input does not depend on map iteration order |
| `CredentialDigest.EncodeInjective` | internal/controller/gateway_controller.go:676-681 | length-prefixed fields can be concatenated without ambiguity |
| `CredentialDigest.SortedUnique` | internal/controller/gateway_controller.go:651-655 | a key set has one sorted enumeration |
| `CredentialDigest.BigEndianRoundTrip` | internal/controller/gateway_controller.go:676-681 | the length prefix determines the length |
| `CredentialDigest.CredentialInput` | internal/controller/gateway_controller.go:645-662 | the bytes fed to the hash are the canonical input, in whatever order the Secret yields its keys |
| `CredentialDigest.SortKeys` | internal/controller/gateway_controller.go:651-655 | the keys come out sorted and complete |
| `MountLayout.MountsAreDisjoint` | internal/controller/agentrun_controller.go:803-848 | for every accepted mount list no two mounts of the agent container are equal or nested |
| `MountLayout.AncestorMeansSegmentPrefix` | internal/controller/agentrun_controller.go:661-674 | on cleaned paths the string tests are exactly segment-wise prefix and nesting |
| `MountLayout.CleanStep` | internal/controller/agentrun_controller.go:545-546 | cleaning component by component: a name goes down, two dots go up but not above the root, an empty component or a dot stays |
| `MountLayout.CleanIsIdempotent` | internal/controller/agentrun_controller.go:681-710 | a cleaned path is clean |
| `MountLayout.ItemsExactly` | internal/controller/agentrun_controller.go:555-562 | item paths pass exactly if none is empty, starts with a slash or has a component of two dots |
| `MountLayout.ItemStaysBelow` | internal/controller/agentrun_controller.go:555-562 | an accepted item path cannot lead out of where it is mounted |
| `MountLayout.ValidateFileMounts` | internal/controller/agentrun_controller.go:540-571 | accepts exactly the acceptable lists, and otherwise stops at the first mount that makes the list unacceptable, with the error of the first check it fails |
| `MountLayout.CheckMount` | internal/controller/agentrun_controller.go:542-568 | one mount passes exactly if it is well formed, clear of earlier mounts and of reserved paths; the error is that of the first check it fails |
| `MountLayout.FindCollision` | internal/controller/agentrun_controller.go:549-553 | finds a conflict exactly when one of the paths is nested with this one |
| `MountLayout.FindReserved` | internal/controller/agentrun_controller.go:154-161 | the same against the reserved paths |
| `MountLayout.CheckItems` | internal/controller/agentrun_controller.go:555-562 | item paths pass exactly if all are non-empty, relative and free of ".." |
| `MountLayout.FileMountPaths` | internal/controller/agentrun_controller.go:681-710 | the emitted paths are the cleaned ones, in order |
| `MountLayout.OwnMountsDisjoint` | internal/controller/agentrun_controller.go:154-161 | the controller's own mounts are pairwise unnested |
| `SkillCopy.Dest.CopyDir` | internal/skills/load.go:470-514 | terminates on every symlink graph; writes only under its destination; however it ends, every entry written is the content reached by that path inside the root; on success all of it is there within the depth limit; it succeeds only if nothing it reaches is too deep, unreadable or leads out, and an error names a reason that is there |
| `SkillCopy.Dest.CopyTree` | internal/skills/load.go:458-464 | the same from the resolved source root, succeeding exactly if the tree is copyable |
| `SkillCopy.Dest.CopyEntry` | internal/skills/load.go:497-512 | what an entry resolves to is copied whole, or the error is to blame on something below it |
| `SkillCopy.Dest.CopyNamed` | internal/skills/load.go:479-512 | one entry is skipped, refused or copied, and takes the copy one entry further |
| `SkillCopy.Dest.RemoveAll` | internal/skills/load.go:117-122 | removes the subtree and nothing else |
| `SkillCopy.CopiedIsContained` | internal/skills/load.go:470-547 | whatever is copied is a real file or directory inside the source root, under names that are neither .git nor start with ".." |
| `SkillCopy.ReachIsInside` | internal/skills/load.go:522-547 | following any entry path stays inside the root |
| `SkillCopy.ResolvedIsInside` | internal/skills/load.go:522-547 | one resolution step stays inside the root |
| `SkillCopy.ResolveTable` | internal/skills/load.go:522-547 | what is no link is where it appears to be; a link dangles exactly if its end does not exist, is refused exactly if it cannot be followed or ends outside the source, and otherwise resolves to its end |
| `SkillCopy.WalkStep` | internal/skills/load.go:522-547 | where one component leads: nowhere, into a directory, to a file that must be the end, or on along one of at most 255 links |
| `SkillCopy.OutsideExactly` | internal/skills/load.go:533-542 | the relative-path test rejects exactly the targets that are not under the root |
| `SkillCopy.WalkIsReal` | internal/skills/load.go:458-464 | symlink evaluation ends at a path with no symlink in it |
| `SkillCopy.CycleHasNoCopy` | internal/skills/load.go:443-446 | a directory that can be reached from itself has no complete copy within the depth limit, so copying it can only fail |
| `SkillLoad.SkillsRoot.Load` | internal/skills/load.go:68-135 | for a non-empty candidate list: success leaves exactly one directory per candidate, each a whole copy, and the manifest file with the candidates in order; a validation failure changes nothing and reports exactly the faulty candidates; a failure while pruning or copying leaves no manifest file; given which file operations fail, which of these happens is determined |
| `SkillLoad.Check` | internal/skills/load.go:157-211 | no problem exactly when every candidate is readable, under a known policy, and no name occurs twice; otherwise every faulty candidate is reported, with its fault, and no other; with no problem the loaded list and name index follow the candidates |
| `SkillLoad.SkillsRoot.Prune` | internal/skills/load.go:572-590 | removes every directory outside the given set that can be removed and nothing else, and succeeds exactly if all of them can |
| `SkillLoad.SkillsRoot.Install` | internal/skills/load.go:107-135 | once all candidates have passed: given which file operations fail, exactly which step fails, and on success the root is what the manifest says |
| `SkillLoad.SkillsRoot.CopyAll` | internal/skills/load.go:114-126 | succeeds exactly if every candidate can be assembled, and then each is there whole; no foreign directory and no manifest ever appears |
| `SkillLoad.SkillsRoot.Replace` | internal/skills/load.go:114-126 | one skill is replaced, exactly if it can be, and then whole; nothing else is touched |
| `SkillLoad.SkillsRoot.ClearManifest` | internal/skills/load.go:107-109 | the old manifest file is gone, or nothing changed |
| `SkillLoad.SkillsRoot.WriteManifest` | internal/skills/load.go:592-604 | only the manifest file is written, with the given bytes on success |
| `SkillLoad.ManifestKeepsSkills` | internal/skills/load.go:592-604 | writing the manifest leaves every skill as it was |
| `SkillLoad.CollectRules` | internal/skills/load.go:128-133 | the manifest's rules |
| `SkillLoad.RulesInOrder` | internal/skills/load.go:128-133 | the rules are the names at exactly the rule-typed positions, in increasing order |
| `SkillLoad.RulePositions` | internal/skills/load.go:128-133 | those positions: increasing, all of them, and only them |
| `SkillLoad.ManifestIsNoSkill` | internal/skills/load.go:592-604 | no valid skill name is the manifest's file name, so copying cannot bring a manifest back |
| `Frontmatter.PrintThenScan` | api/skill/frontmatter.go:187-258 | printing any well-formed parts and scanning the text gives header and body back |
| `Frontmatter.ScanPartitions` | api/skill/frontmatter.go:187-258 | Body strips exactly when Parse's scan finds a header, and the content is then mark, opening line, header, closing line, line breaks and body, concatenated |
| `Frontmatter.ClosingFenceIsLeast` | api/skill/frontmatter.go:239-258 | a fence is found exactly when some line is one, and it is the first |
| `Frontmatter.FindClosingFence` | api/skill/frontmatter.go:239-258 | the loop returns that offset, or -1 |
| `Frontmatter.ParseHeader` | api/skill/frontmatter.go:74-89 | the header handed to the YAML decoder |
| `Frontmatter.Body` | api/skill/frontmatter.go:187-215 | the body left after the fences |
| `Frontmatter.ValidNameIsSegment` | api/skill/frontmatter.go:160-181 | a valid name is one plain path segment and no dotfile |
| `Frontmatter.ValidNameExactly` | api/skill/frontmatter.go:160-181 | a name is valid exactly if it is at most 64 characters and, split at its hyphens, non-empty words of lowercase letters and digits |
| `Frontmatter.FenceExactly` | api/skill/frontmatter.go:239-258 | a fence is three dashes and then nothing but spaces, tabs and carriage returns |
| `Frontmatter.TrimRightExactly` | api/skill/frontmatter.go:239-258 | trimming a line takes all of these off its end and nothing else |
| `Frontmatter.TrimBreaksExactly` | api/skill/frontmatter.go:187-215 | trimming a body takes all line breaks off its start and nothing else |
| `Substitution.SubstitutionIsSplice` | internal/controller/params.go:126-150 | substitution succeeds exactly if every reference is bound, and then yields the literals with the values spliced in, never rescanned; otherwise it names exactly the unbound references |
| `Substitution.TokensUnique` | internal/controller/params.go:49-49 | a text has no other split into literals and references |
| `Substitution.TokensPrint` | internal/controller/params.go:49-49 | the scan splits every text, losing nothing |
| `Substitution.NoOverlap` | internal/controller/params.go:49-49 | references never overlap |
| `Substitution.RefAtPrint` | internal/controller/params.go:49-49 | a printed reference is recognized whatever follows it |
| `Substitution.NoOpenerNoReference` | internal/controller/params.go:126-129 | the fast path agrees with full substitution |
| `Substitution.Substitute` | internal/controller/params.go:126-150 | fast path and replacement together compute the substitution |
| `Substitution.ReplaceAll` | internal/controller/params.go:131-142 | one pass renders the splice and collects the unbound references |
| `Params.ScopesAgreeExactly` | internal/controller/params.go:167-222 | through the stamped JSON text and back, guide and AgentRun see the same text for a declared workflow param if and only if it has a value and, if that is a float, it is zero or at least 1e-6 and below 1e21 in magnitude (and, if a string, valid UTF-8) |
| `Params.CoerceParams` | internal/controller/params.go:60-108 | succeeds exactly if every param is unset or coercible, resolving each as declared; otherwise names the first that is not |
| `Params.CoerceParam` | internal/controller/params.go:64-105 | one param: unset, coerced or refused |
| `Params.CoerceTable` | internal/controller/params.go:79-105 | what a declared type makes of a text: any string, one of the words for a bool, an integer where it is one and else a float |
| `Params.StampedValueReadsTheSame` | internal/controller/params.go:226-241 | a stamped value reads back as the same text exactly unless it is a float below 1e-6 or from 1e21 on, or a string of invalid UTF-8 |
| `Params.RenderingIsCanonical` | internal/controller/params.go:99-105 | a rendered value coerces to the same value again |
| `Params.CoerceWorkflowParams` | internal/controller/params.go:205-222 | stamping succeeds exactly if every param is unset or coercible and no value is a NaN or an infinity |
| `Params.StampedSeen` | internal/controller/params.go:167-200 | the AgentRun controller finds each stamped param under its name, and nothing under any other |
| `Params.TenToThe21` | internal/controller/params.go:226-241 | the input "1e21" reads 1000000000000000000000 in the guide and 1e+21 in the AgentRun |
| `Params.UnsetIsMissing` | internal/controller/params.go:65-77 | a declared but unset param is empty text in the guide and missing from the stamped JSON |
| `Floats.RenderingsAgreeExactly` | internal/controller/params.go:226-241 | strconv and encoding/json render a float alike exactly if it is zero or at least 1e-6 and below 1e21 in magnitude |
| `Floats.JsonTextIsNumber` | internal/controller/params.go:205-222 | what encoding/json writes for a float is a JSON number |
| `Floats.IntegerIsNumber` | internal/controller/params.go:205-222 | what it writes for an integer is one too |
| `Json.RoundTrip` | internal/controller/params.go:167-222 | any value that is written is read back, strings sanitized, with nothing left over |
| `Json.CutIsRefused` | harness/cmd/migration-harness/outcome.go:232-235 | no proper prefix of a written object is a JSON text |
| `Json.StringRoundTrip` | harness/cmd/migration-harness/outcome.go:259-286 | an escaped string reads back as its text, stray bytes as U+FFFD, and stops at its own closing quote |
| `Json.Escape` | harness/cmd/migration-harness/outcome.go:259-286 | JSON escaping costs at most six bytes per byte |
| `Json.EscapeTable` | harness/cmd/migration-harness/outcome.go:259-286 | which ASCII characters are escaped, and how |
| `Json.SeparatorTable` | harness/cmd/migration-harness/outcome.go:259-286 | beyond ASCII, exactly U+2028 and U+2029 are |
| `Utf8.SanitizedExactly` | harness/cmd/migration-harness/outcome.go:259-286 | replacing stray bytes changes a text exactly if it is not valid UTF-8 |
| `Utf8.PrefixValidExactly` | harness/cmd/migration-harness/outcome.go:291-300 | the valid prefixes of valid UTF-8 are those that stop before a rune start |
| `Utf8.RuneLengthExactly` | harness/cmd/migration-harness/outcome.go:291-300 | a text starts with a character of n bytes exactly if it is shaped like one and its code point takes that many: no overlong form, no surrogate, nothing past U+10FFFF |
| `TerminationBlob.WriteTerminationLog` | harness/cmd/migration-harness/outcome.go:259-286 | with a finite cost something is always written, at most 4096 bytes, with verdict and usage intact and at most the stop reason trimmed; the last-resort fallback is unreachable |
| `TerminationBlob.MarshalLength` | harness/cmd/migration-harness/outcome.go:210-216 | the JSON is at most 800 bytes plus six per byte of stop reason |
| `TerminationBlob.TruncateRuneSafe` | harness/cmd/migration-harness/outcome.go:291-300 | the cut is the last rune start within the limit |
| `TerminationBlob.TruncationIsLongest` | harness/cmd/migration-harness/outcome.go:291-300 | on valid UTF-8 the cut is valid and no longer valid prefix fits |
| `TerminationBlob.CostFits` | harness/cmd/migration-harness/outcome.go:142-147 | a finite cost is written as a JSON number of at most 25 bytes, and omitted exactly when zero |
| `TerminationReader.BlobRoundTrip` | harness/cmd/migration-harness/outcome.go:210-216 | a consumer that reads the whole text as one JSON object gets the blob back, field by field; stray bytes in the reason come back as U+FFFD |
| `TerminationReader.MessageSurvives` | harness/cmd/migration-harness/outcome.go:256-286 | however the message was trimmed, the consumer gets the stage's exit code, outcome, limit and usage, and with a valid UTF-8 reason the trimmed blob itself |
| `TerminationReader.CutMessageIsRefused` | internal/controller/agentrun_controller.go:1791-1801 | a message cut anywhere is refused as JSON |

## Left out

- Kubernetes client, watches, field indexes, RBAC: an object store with status patches that may be lost stands in for them; API reads are fresh.
- AgentRun name derivation (`stageAgentRunName`, `sanitizeVolumeName`): distinct stages are taken to have distinct AgentRun names, and no foreign AgentRun occupies one.
- SHA-256 itself: only its input is modelled; Job naming is a parameter of the gateway model, and its 63-character truncation is one more way for names to coincide.
- JSON, YAML and HTTP decoding, WebSocket transport, goose process lifecycle, Hub client, git, registry checks: models start from parsed frames, headers and observations.
- Panics and `recoverWarn`: only non-panicking paths are modelled.
- `CallRPC`: it does not drain on connection close and makes no claim about lost responses.
- Fan-out of resolution frames to other viewers, viewer queues and their shutdown; a frame emitted between a viewer's backlog snapshot and its registration.
- AgentRun.DeletesExactlyWhenDue: times are integers of one unit; the seconds granularity of persisted timestamps is not modelled.
- Condition messages, termination data copied into status, the workflow run's own TTL, stage params and guide text in the snapshot.
- Workflow.SuccessNeedsExit0: assumes that the exit code and Sandbox success the AgentRun controller reads are the ones the pod had.
- StageExit.RunStage: every step between loading the configuration and sending the prompt is one success or failure; a configuration that does not load exits 1 without revocation, as in the code; usage and stop reason are in `TerminationBlob`.
- GatewayCache.AccurateExactly: which credential bytes the probe pod actually read is not modelled, only the pair its Job was created for; a Job finishes at most once.
- SkillLoad.SkillsRoot.Load: candidate collection, cloning and discovery come before it and the zero-candidate case is not modelled; which file operations fail, and the bytes a failing manifest write leaves, are parameters, as is how a manifest is encoded.
- SkillCopy.Dest.CopyDir: file modes are not modelled, which files and directories can be read is a parameter, and a file whose copy fails halfway is taken not to exist.
- Frontmatter.ParseHeader: YAML decoding, unknown keys and field validation beyond the name are not modelled.
- Params.CoerceParams: param names are distinct (the CRD's list map key); parsing a float and finding its shortest digits is supplied from outside, its two renderings are modelled.
- Params.ScopesAgreeExactly: param names match the CRD's pattern; the API server is taken to keep the stamped JSON text as it is, a negative zero for one.
- TerminationBlob.WriteTerminationLog: a cost that is not finite writes nothing, as in the code; the shortest digits of a cost come from outside.
- Json.RoundTrip: only compact JSON without arrays, null and surrogate pairs, none of which the program writes here; the reader refuses them.
- WorkflowToken.TokenSafeUnlessPrimed: Agent Sandbox is not part of this model: a Sandbox runs its pod at most once, and the two go together. What a process does after the deletion of its Sandbox counts as done before it.
- Substitution.Substitute: the unbound references are a set; their sorted order in the error text is not modelled.
- Plan-ladder wording, prompt assembly, git identity, watcher debounce, subPath projection checks, provider error texts: they would only add easy members.
