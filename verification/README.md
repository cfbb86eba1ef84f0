# Verification of the graph runtime

A Dafny model of the parts of the repository whose correctness rests on several functions acting
together, with proofs about it. `dafny verify dfyconfig.toml` checks the whole project.

## What is modelled

**Durable runs.** A run is one persisted record (frames with cursors and budgets, approvals with
receipts, tasks with attempts) that a lease holder edits through `update`. The protocol is modelled
twice. `RunProtocol` is a transition system of 29 steps: frames of one execution interleave at every
save, a crash or release may come between any two saves, a save may succeed, fail, or fail after the
record became visible, and outside callers act between leases. Everything said of "every run" is said
of it: `RunInvariant` (the record invariant), `RunSafety` (every step keeps it), `RunSteps` (what gates,
tasks and callers can do are steps), `RunHistory` (records only grow), `RunTheorems` (the promises),
`RunCost` (what a run charges), `RunProgress` (an interrupted run can be completed) and `RunPending`
(requests left pending by a crash). `RunStore`, `FrameScope`, `DurableLoop`, `TaskRuntime` and
`DurableRuntime` are the same code as classes and methods with loops and fields, proved against the same
edits (`ScopeEdits`), the same invariant and the same crash-free meaning of graphs (`GraphCore`).

**Identities.** `Identity` renders frame paths, invocation ids, task ids and branch names as the
repository does and decodes them, which is why the other modules may use structured identities.

**Checkpoints.** `CheckpointRun` says what a serial run saves and proves restart equivalence;
`CheckpointLoop` is the loop with its sink and entries, and the life of a trace over many sessions;
`CheckpointStores` has both store back ends as classes over one abstract log, with the file names
(`Decimal`) and the points at which a save can be cut off.

**Parallel nodes and merging.** `ParallelNode` gathers branches in any order of completion and has the
engine's buffer and control fields; `StateMerge` and `AgentMerge` are the two merge strategies with
their mutations, and `AgentBatch` says what a batch of agent mutations does and what a merge conserves;
`Sequences` and `Sorting` hold facts on lists.

**Analysis and transport.** `GraphAnalysis` is the cycle search, the protection filter and
reachability; `EventStream` is the batch parser of server-sent events and the server's writer
(HTML Living Standard, section 9.2.6, the subset the code implements).

## Reading the results

- The crash-free meaning of a program (`GraphCore.RunResult`) is defined without stores, sessions or
  crashes; `OriginOf` reads off it which graph run a frame path stands for. The record invariant says
  that every frame stands where that meaning is after the frame's commits. Crash refinement, the fate
  of approvals and the account of steps follow from it.
- A leaf is a script: it returns, or has a task performed and goes on with its result. So the meaning of
  a program depends on what its tasks answer (`Program.answers`). An `IsCourse` of the protocol has
  tasks that yield anything, at each attempt something else; an `IsRun` is a course in which the results
  that were recorded are the program's answers. `RunHistory.EveryRunIsAnswered` shows that every course is
  a run, for the answers its last record holds, so that what is said of runs is said of courses;
  `RunTheorems.CoursesRefine` is crash refinement without a word on answers.
- Scripts are arbitrary functions of the state, states are JSON values, and `snapshot` and `restore` are
  mutual inverses (states and snapshots are identified).
- For the classes, the outside world is an object (`RunStore.World`) whose moments are arbitrary and
  given: the clock, the cancellation of the run and of a branch group, the fate of a save, fresh tokens
  and the outcome of each task's action. Contracts name the moment that caused an error or a status.
- `RunSafety` and `RunHistory` quantify over more interleavings than the scheduler produces: a frame's
  `begin` and `approve` may be separated, as may the two saves of `approve`, and an action whose
  attempt is saved may start after another thread's save has failed.

## Where code and documentation part

- `validate_restore_checkpoint` looks for the next node before the budget, the loop the other way
  round. A run whose last allowed step jumps to a missing node fails with StepsExceeded, its restored
  checkpoint with NodeNotFound: `CheckpointRun.RestoreDiffers` has a graph, `RestoreIsSuffix` the condition.
- A conflict-free merge need not be a serial execution in any order: rewriting a key with its base
  value is no change to `StateMerge`. `StateMerge.NoOrderReaches` has two batches,
  `StateMerge.SerializableExactly` the condition on the batches under which every order reaches the merge.
- A crash between the two saves of `approve` leaves a Running record with a pending request
  (`RunPending.LeftRunning`). `execute` leaves such a run as it is and `submit_decision` wants it
  Suspended, so that no call can decide the request, now or ever: `RunPending.NeverDecided`. Why is in
  `RunPending.DecidableExactly`, `StaysExactly` and `ResumeWaits`. The safety theorems cover such records.
- A block of lines without data leaves its event name to the next frame. `EventStream.NameLeaks` has the
  texts, `EventStream.ParsesOwnNames` the condition; the server names every event, so that what it writes
  is not affected (`EventStream.ParseWritten`).

## Model

| member | source | states |
|---|---|---|
| `RunTheorems.CrashRefinement` | lellm-graph/src/durable/scope.rs:149-251 | Two runs of one program that both complete, whatever their crashes, failed saves, resumptions, repeated tasks and interleavings of nested frames, end with equal frames (cursor, state and steps of each) and an equal step total, and the state is what a run without any crash computes from what the tasks answer |
| `RunTheorems.CoursesRefine` | lellm-graph/src/durable/scope.rs:149-251 | Two completed courses of the protocol whose recorded task results do not contradict each other end with equal frames and steps, and the state is the crash-free result for any answers that agree with what was recorded, however often and with whatever outcome the tasks were performed |
| `RunHistory.EveryRunIsAnswered` | lellm-graph/src/durable/tasks.rs:110-123 | Every course of the protocol, whatever its tasks yielded at each attempt, is a run for the answers recorded in its last record: a task is recorded with one result only |
| `RunHistory.RecallIsFinal` | lellm-graph/src/durable/tasks.rs:110-123 | Once the recorded results bring a leaf to its end they bring it to the same end whenever it is executed again, after crashes and resumptions |
| `RunHistory.ResolvedIsRecalled` | lellm-graph/src/durable/runtime.rs:43-59 | The result an operator gives for a task is in every later record of the run, and every later execution of its leaf goes on with it |
| `RunCost.StepsAreCost` | lellm-graph/src/durable/scope.rs:203-213 | No record of a run of a program that has a result has charged more steps than the crash-free run takes, nested runs included, and a Completed record has charged exactly these, however often it crashed; they are within the budget |
| `RunCost.BelowCost` | lellm-graph/src/durable/scope.rs:203-213 | A frame and all frames nested in it have used at most the steps of the run the frame stands for and of its nested runs, and exactly those when every frame has come to its end |
| `RunProgress.CompletesExactly` | lellm-graph/src/durable/runtime.rs:85-132 | A program without barriers and tasks has a completing run if and only if it has a result and its cost, nested runs included, is within the budget |
| `RunProgress.InterruptedCompletes` | lellm-graph/src/durable/runtime.rs:107-202 | From every reachable machine of such a program whose run is open, wherever it was interrupted, steps of the protocol lead to its completion |
| `RunProgress.BudgetLeft` | lellm-graph/src/durable/scope.rs:203-213 | Under such a program begin is never refused for lack of steps, whatever was charged before crashes |
| `RunTheorems.CommitSequence` | lellm-graph/src/graph/run_loop.rs:47-199 | The k-th commit of a frame, over all sessions of a run, is the k-th step of its graph's crash-free meaning, leaves that read recorded task results included, so no two runs of a program disagree on a commit |
| `RunTheorems.CommitsAgree` | lellm-graph/src/graph/run_loop.rs:47-199 | Two runs whose root frames are done have made the same commits in every frame, all of them |
| `RunTheorems.EndIsLast` | lellm-graph/src/graph/run_loop.rs:186-210 | A frame one of whose commits is of a leaf that returned End has made no commit after it, over all sessions, and is finished with that leaf's state |
| `RunTheorems.EverySavedRecord` | lellm-graph/src/durable/model.rs:134-163 | Every record any run ever saves can be read back - field by field: current format, non-empty versions, steps within the budgets of run and frames, a cursor for every active frame, none at the root of a Completed run, every request under its own key, of a recorded frame, with a receipt if applied and none newer than the revision, every task under its own key and with a result if completed - has its position in the history as revision, and has charged exactly the sum of its frames' steps |
| `RunTheorems.CommitsBounded` | lellm-graph/src/durable/scope.rs:193-221 | The commits of all frames over all sessions never outnumber the steps charged, nor these the budget: a run of a cyclic graph ends however often it crashes |
| `RunTheorems.ReentryIsFree` | lellm-graph/src/durable/scope.rs:203-213 | Taking up an invocation that a crash interrupted charges no step, changes no frame and keeps the invocation's number |
| `RunTheorems.ApprovedIsWhatRuns` | lellm-graph/src/durable/scope.rs:222-251 | Each commit past a barrier has a request of its own invocation that carries an Approve receipt, is marked applied, and was shown to the reviewer with exactly the committed state |
| `RunTheorems.RejectedNeverRuns` | lellm-graph/src/durable/scope.rs:287-305 | An invocation with a Reject receipt is never committed past |
| `RunTheorems.AtMostOnce` | lellm-graph/src/durable/tasks.rs:110-203 | In every reachable machine, also when another thread's failed save came between an attempt's save and its launch, a task under manual recovery has been launched at most once plus once per Retry resolution; its attempts are its retries, plus one unless it is planned |
| `RunTheorems.FinishedFramesIn` | lellm-graph/src/node/subgraph_spec.rs:161-195 | A nested frame of one completed run is in every other completed run of the program, with the same contents: finished nested results are reused, never recomputed differently |
| `RunSafety.RunInv` | lellm-graph/src/durable/scope.rs:126-148 | Every machine of every run satisfies the protocol invariant: all saved records, the commit log, the launches, and the in-memory threads of a lease that can still save |
| `RunSafety.StepInv` | lellm-graph/src/durable/runtime.rs:134-202 | Each of the 29 protocol steps keeps that invariant |
| `RunSafety.BegunInv` | lellm-graph/src/durable/scope.rs:193-221 | Begin, fresh or re-entered, keeps the invariant whichever way its save goes |
| `RunSafety.CommitStepInv` | lellm-graph/src/durable/scope.rs:222-251 | Committing what the running node means keeps the invariant: the log gains the next step of the frame's meaning, and the approval that begin named is the one marked applied |
| `RunSafety.FinishLeafInv` | lellm-graph/src/durable/tasks.rs:110-123 | Committing what a leaf returns by the recorded results of its tasks keeps the invariant: it is the leaf's meaning, whenever the leaf is executed again |
| `RunSafety.EnterInv` | lellm-graph/src/durable/scope.rs:149-192 | Entering a frame keeps the invariant: a recorded one resumes at its cursor, and a new one is the run that its caller's active invocation means |
| `RunSafety.FinishBarrierInv` | lellm-graph/src/graph/run_loop.rs:90-97 | Committing past an approved barrier keeps the invariant: what is committed, with the state untouched, is the barrier's meaning |
| `RunSafety.FinishNestedInv` | lellm-graph/src/node/subgraph_spec.rs:161-195 | Committing a composite node keeps the invariant: the combination of its nested runs' final states is the node's meaning |
| `RunSafety.AskApprovalInv` | lellm-graph/src/durable/scope.rs:313-333 | Asking for approval keeps the invariant: the request shows the state in front of the active invocation, under that invocation's identity |
| `RunSafety.SubmitInv` | lellm-graph/src/durable/runtime.rs:204-262 | A decision, accepted or refused or too late, keeps the invariant |
| `RunSafety.ResolveTaskInv` | lellm-graph/src/durable/runtime.rs:15-60 | Resolving an unknown task keeps the invariant, in particular the account of attempts |
| `RunSafety.ParkTaskInv` | lellm-graph/src/durable/tasks.rs:190-203 | Parking a task keeps the invariant |
| `RunInvariant.CommitInv` | lellm-graph/src/durable/scope.rs:222-251 | Committing what a node means, with its approval and finished nested frames, keeps every clause of the record invariant |
| `RunInvariant.BeginInv` | lellm-graph/src/durable/scope.rs:193-221 | Beginning or re-entering an invocation keeps the record invariant |
| `RunInvariant.OpenFrameInv` | lellm-graph/src/durable/scope.rs:159-174 | Recording a new nested frame of an active invocation keeps the record invariant |
| `RunInvariant.RequestInv` | lellm-graph/src/durable/scope.rs:313-333 | A new approval request keeps the record invariant |
| `RunInvariant.InvValidates` | lellm-graph/src/durable/model.rs:134-163 | The record invariant implies everything a load asks of a record, field by field, and the check that asks it |
| `RunModel.ValidateExactly` | lellm-graph/src/durable/model.rs:134-163 | The check passes exactly the records with these properties of their fields, and its error says whether the format is at fault |
| `RunStore.Store.Load` | lellm-graph/src/durable/store.rs:70-77 | Reading a run gives nothing if it is not there, the record if its fields are in order, and otherwise UnsupportedFormat or Incompatible by the format alone |
| `DurableRuntime.Runtime.Open` | lellm-graph/src/durable/runtime.rs:62-69 | A record is used exactly when it is there, its fields are in order, and identity and version are the caller's; which error says why not is told |
| `RunModel.SumStepsUpdate` | lellm-graph/src/durable/scope.rs:205-212 | Changing one frame changes the sum of steps by the difference of its steps |
| `RunHistory.LinearHistory` | lellm-graph/src/durable/scope.rs:126-148 | The saved records of a run only ever grow at the end, and each record grows into every later one: steps never fall; requests keep content, token and deadline; receipts, task resolutions and results of completed tasks are written once |
| `RunHistory.StepGrows` | lellm-graph/src/durable/scope.rs:126-148 | One step adds at most one record, of the next revision, into which the last one grows |
| `RunHistory.TerminalIsFinal` | lellm-graph/src/durable/runtime.rs:107-132 | A record that is terminal when its lease ends is never changed by a later lease |
| `RunHistory.TerminalReplaced` | lellm-graph/src/durable/runtime.rs:179-195 | Within a lease a terminal status is replaced only by a root cancellation that a frame, a task or the end of the run observes, by an approval of a begun branch that waits, expires or is refused, by the end of the root frame, or, if it is Completed, by parking a task |
| `RunHistory.PoisonedStep` | lellm-graph/src/durable/scope.rs:131-145 | After a failed save the session saves nothing more, commits nothing, and stays so |
| `RunHistory.CallNamesRevision` | lellm-graph/src/durable/runtime.rs:204-282 | An outside call that changes the record names the revision it changes |
| `RunHistory.OneCallPerRevision` | lellm-graph/src/durable/runtime.rs:204-282 | Of all outside calls that expect the same revision, at most one ever changes the record |
| `RunPending.LeftRunning` | lellm-graph/src/durable/scope.rs:315-337 | A run that ends its lease between the two saves of an approval: the record is Running and has an undecided request |
| `RunPending.DecidableExactly` | lellm-graph/src/durable/runtime.rs:228-261 | Some call can decide an undecided request if and only if the run is Suspended, the request is not overdue and the revision can grow |
| `RunPending.DecidesExactly` | lellm-graph/src/durable/runtime.rs:213-261 | A given call does so if and only if, besides, it has a request id and names the request's token and the current revision |
| `RunCalls.DecisionMeans` | lellm-graph/src/durable/runtime.rs:204-262 | The decision function does to the stored fields what is said of `SubmitDecision` |
| `RunCalls.CancelMeans` | lellm-graph/src/durable/runtime.rs:264-282 | The cancellation function does to the stored fields what is said of `Cancel` |
| `RunCalls.ResolutionMeans` | lellm-graph/src/durable/runtime.rs:15-60 | The resolution function does to the stored fields what is said of `ResolveTask` |
| `RunPending.RunningTakesNoDecision` | lellm-graph/src/durable/runtime.rs:234-238 | While the record is Running no decision is written |
| `RunPending.StaysExactly` | lellm-graph/src/durable/runtime.rs:143-167 | An uncancelled execution starts no work if and only if no request is overdue and a request is undecided or a task unknown; an execution expires the run if and only if an undecided request is overdue; a cancelled one never waits |
| `RunPending.ResumeWaits` | lellm-graph/src/durable/runtime.rs:107-167 | The first execution of a lease that resumes such a run uncancelled and in time changes nothing |
| `RunPending.NeverDecided` | lellm-graph/src/durable/runtime.rs:143-167 | From a record at rest that is Running with an undecided request, no later machine has a receipt for it: the run stays Running, is cancelled or expires |
| `RunPending.CancelEnds` | lellm-graph/src/durable/runtime.rs:264-282 | A cancel call of the current revision ends such a run, or a suspended one |
| `RunSteps.SaveFates` | lellm-graph/src/durable/scope.rs:131-145 | In the protocol every save of the session is confirmed, not done, or done and reported as failed, and nothing else |
| `RunSteps.GateCanAsk` | lellm-graph/src/durable/scope.rs:313-333 | A gate without a request can record one about the persisted state, with any token and deadline |
| `RunSteps.GateCanSuspend` | lellm-graph/src/durable/scope.rs:335-339 | An undecided request can suspend the run |
| `RunSteps.GateCanExpire` | lellm-graph/src/durable/scope.rs:306-312 | An overdue undecided request can expire the run |
| `RunSteps.GateCanOpen` | lellm-graph/src/durable/scope.rs:291-305 | An approved request opens the gate |
| `RunSteps.GateCanRefuse` | lellm-graph/src/durable/scope.rs:293-300 | A rejected request can be applied and ends the run |
| `RunSteps.TaskCanBePlanned` | lellm-graph/src/durable/tasks.rs:128-146 | A new task can be recorded as planned |
| `RunSteps.TaskCanStart` | lellm-graph/src/durable/tasks.rs:146-154 | A planned task can be started, and one that was started or is unknown under a policy that allows replay, with one attempt more |
| `RunSteps.TaskCanBeLaunched` | lellm-graph/src/durable/tasks.rs:155-163 | A started task can be launched, and is then acting |
| `RunSteps.TaskCanFinish` | lellm-graph/src/durable/tasks.rs:170-179 | An acting task can end with any result, which is what is recorded |
| `RunSteps.TaskCanBeParked` | lellm-graph/src/durable/tasks.rs:180-203 | A manual task that failed, or is found started or unknown, can be parked, which suspends the run |
| `RunSteps.CancelCanBe` | lellm-graph/src/durable/scope.rs:252-261 | A lease can be cancelled at any time and knows it from then on |
| `RunSteps.CancelledCanEnd` | lellm-graph/src/durable/runtime.rs:179-185 | A cancelled run can end as Cancelled once its root has returned or halted or was never entered |
| `RunSteps.DecisionCanCome` | lellm-graph/src/durable/runtime.rs:204-262 | At rest, any decision that may be taken can be taken, with its meaning |
| `RunSteps.ResolutionCanCome` | lellm-graph/src/durable/runtime.rs:15-60 | At rest, any resolution that may be given can be given, with its meaning |
| `RunSteps.CancellationCanCome` | lellm-graph/src/durable/runtime.rs:264-282 | At rest, an open run can be cancelled |
| `RunStore.Store.Acquire` | lellm-graph/src/durable/store.rs:53-62 | A lease is granted exactly when the id is well-formed and nobody holds the run; the refusal says which |
| `RunStore.ValidIdMeans` | lellm-graph/src/durable/store.rs:38-50 | A run id is 1 to 128 ASCII letters, digits, hyphens and underscores, by their codes |
| `RunStore.Store.Save` | lellm-graph/src/durable/store.rs:78-87 | A save replaces the record of its own run, fails before it is visible, or is reported as failed after it is, as the medium decides at that moment; another run's record is refused |
| `FrameScope.Session.Update` | lellm-graph/src/durable/scope.rs:126-148 | The edited record with its revision raised by one is saved before memory changes; a failed save poisons the session and leaves memory as it was |
| `FrameScope.Session.Enter` | lellm-graph/src/durable/scope.rs:149-192 | Returns the recorded frame exactly when graph, budget and cursor node fit it, and refuses it otherwise, changing nothing; records a new one at the graph's start |
| `FrameScope.Session.Begin` | lellm-graph/src/durable/scope.rs:193-221 | The frame becomes active in front of the node; frame and run are charged one step each unless the invocation is active already; the number returned is the frame's steps; nothing else changes; refused when the run has halted, the cursor is elsewhere or a budget is spent |
| `FrameScope.Session.Commit` | lellm-graph/src/durable/scope.rs:222-251 | The frame has the new state and cursor and is no longer active; of the requests exactly the invocation's own becomes applied; nothing else changes |
| `FrameScope.Session.Approve` | lellm-graph/src/durable/scope.rs:287-340 | Passes exactly when the invocation's request carries an Approve receipt; otherwise it suspends with a request showing the frame's state, or stops as rejected, or as expired when the request was overdue at the moment of the call; a new request has the moment's token and, as deadline, the moment plus the timeout, saturating |
| `FrameScope.Session.Refuse` | lellm-graph/src/durable/scope.rs:293-305 | The rejected request becomes applied and the run Rejected; nothing else changes |
| `FrameScope.Session.Halt` | lellm-graph/src/durable/scope.rs:252-261 | Sets a final or waiting status and stops the frame |
| `DurableLoop.RunGraphLoop` | lellm-graph/src/graph/run_loop.rs:47-199 | Terminates; returns the state the crash-free run computes, with the frame finished; an error has an excuse that can be seen: a save failed at a moment of this session, the revision, the run budget or a task's attempts are spent, the run was stopped or suspended, the branch group was cancelled at a moment of this call, an action launched in this call failed at a moment of it, a script asks for another task than the recorded one, or the crash-free run has no result; touches no frame outside its own; a new status has its cause: an undecided request or an unresolved task, a rejection, an overdue request, the run's cancellation |
| `DurableLoop.CheckCancel` | lellm-graph/src/graph/run_loop.rs:58-63 | Stops the frame exactly when the run is cancelled at that moment, reports a cancelled branch exactly when only the group is, and otherwise changes nothing |
| `DurableLoop.RunStep` | lellm-graph/src/graph/run_loop.rs:58-198 | One turn commits one more step of the frame, and no frame is touched under a cancellation |
| `DurableLoop.RunScript` | lellm-graph/src/durable/tasks.rs:73-187 | A leaf that comes to its end returns what it means, its tasks performed now or recorded by an earlier session |
| `DurableLoop.RunNode` | lellm-graph/src/graph/run_loop.rs:95-133 | Executes one active invocation, leaf with tasks, barrier or composite: routing what it returns gives the node's meaning on the persisted state; every error has a visible excuse |
| `DurableLoop.RunCalls` | lellm-graph/src/node/subgraph_spec.rs:161-195 | The nested runs of a composite node end with the final states of their graphs, whether run now or in an earlier session; a stop outranks a failure, a failure a suspension |
| `DurableLoop.FailedCall` | lellm-graph/src/node/parallel_execute.rs:47-86 | A nested run without a result leaves its caller without one |
| `TaskRuntime.Execute` | lellm-graph/src/durable/tasks.rs:73-187 | A call returns the recorded result without acting, or launches the action at most once after its attempt was saved, and only a task that may be launched; nothing but that task and the status is touched; a new status is Suspended with the task unresolved, or Cancelled because the run was; a failure has a visible cause; a second concurrent call is refused |
| `TaskRuntime.Attempt` | lellm-graph/src/durable/tasks.rs:142-187 | One attempt: the start is saved first, then the action, then the outcome, or the task is parked; an attempt that launched is charged once, and one that did not changed nothing |
| `TaskRuntime.Act` | lellm-graph/src/durable/tasks.rs:142-163 | The external action may start only when the store holds the record with its attempt; its outcome is what the world has at that moment |
| `TaskRuntime.Park` | lellm-graph/src/durable/tasks.rs:190-203 | The task becomes Unknown and the run Suspended; nothing else of the task changes |
| `DurableRuntime.Runtime.Start` | lellm-graph/src/durable/runtime.rs:85-105 | Refused exactly for an empty version, an id that is malformed or held, or an existing record, and then changes nothing; otherwise what is reported is what `Execute` may report; the lease is released |
| `DurableRuntime.Runtime.Resume` | lellm-graph/src/durable/runtime.rs:107-132 | Refused exactly for an id that is malformed or held, a missing or unfit record, or a graph with another signature; a terminal run is answered from its record, unchanged, and a Completed one with the crash-free result; otherwise what is reported is what `Execute` may report |
| `DurableRuntime.Runtime.Execute` | lellm-graph/src/durable/runtime.rs:134-202 | A completed outcome is the crash-free result, stored as Completed; a waiting one is the stored record, in which a request is undecided or a task unknown; a halted one is the stored status, with its cause; an error has a cause: saves failed during the call, the revision, steps or attempts are spent, a group was cancelled or an action failed during the call, a script clashes with a record, or there is no result |
| `DurableRuntime.Runtime.EndWith` | lellm-graph/src/durable/runtime.rs:149-158 | A status that ends the run is stored before it is reported |
| `DurableRuntime.Runtime.Conclude` | lellm-graph/src/durable/runtime.rs:179-201 | If the run is cancelled at that moment it is stored as Cancelled, whatever the loop returned; a final state is stored as Completed; both before they are reported; any other result is passed on with nothing changed |
| `DurableRuntime.Runtime.Prepare` | lellm-graph/src/durable/runtime.rs:143-173 | Before the graph is driven: a run with an overdue request is stored as Expired, one that must wait is reported as it is, and any other is stored as Running |
| `DurableRuntime.Runtime.SubmitDecision` | lellm-graph/src/durable/runtime.rs:204-262 | Refused exactly when the request id is empty, or the lease or the record is; otherwise, on the stored fields: a first decision on a suspended run of the expected revision, with the request's token, becomes the request's receipt, or expires the run when the deadline has passed at the moment of the call; a repetition is answered with the first receipt; nothing else changes the record, and a failed save is reported |
| `DurableRuntime.Runtime.Cancel` | lellm-graph/src/durable/runtime.rs:264-282 | Refused exactly when the lease or the record is; an open run, Running or Suspended, of the expected revision becomes Cancelled and nothing else of it changes; a cancelled one stays so; any other is left alone |
| `DurableRuntime.Runtime.ResolveTask` | lellm-graph/src/durable/runtime.rs:15-60 | Refused exactly when the request id is empty, or the lease or the record is; a first resolution, on an open run of the expected revision, of a task that is Unknown or Started stores the operator's value as the completed result, or plans the task again without a result, and leaves attempts, version, input, policy, frames, approvals and all other tasks alone; a repetition is answered alike; anything else changes nothing |
| `Identity.Injective` | lellm-graph/src/durable/scope.rs:264-286 | Distinct frame paths, invocations, tasks and parallel child names have distinct texts, whatever characters names contain |
| `Identity.PathRoundTrip` | lellm-graph/src/durable/scope.rs:265-272 | A decoder reads a frame path back from its text |
| `Identity.InvocationRoundTrip` | lellm-graph/src/durable/scope.rs:279-286 | The decoder reads an invocation id back, and tells it from a frame path |
| `Identity.TaskRoundTrip` | lellm-graph/src/durable/tasks.rs:86-90 | The decoder reads a task id back |
| `Identity.BranchRoundTrip` | lellm-graph/src/node/parallel_execute.rs:25-27 | The index and the name of a parallel branch are read back from the name of its child frame |
| `Identity.QuotedRoundTrip` | lellm-graph/src/durable/scope.rs:279-286 | A quoted name is read back whatever follows it |
| `GraphCore.RouteChoice` | lellm-graph/src/graph/graph_core.rs:208-232 | Routing follows the first conditional edge of the node whose condition holds; where none holds, the first unconditional one; where there is none either, the first fallback; and it fails exactly when no edge of the node is of these |
| `GraphCore.LeafMoves` | lellm-graph/src/graph/run_loop.rs:203-221 | A leaf that returns End ends the run with its state whatever the edges are, one that returns Goto goes where it says, one that returns Next ends at the end node and otherwise follows the chosen edge; without an edge, or without an end of its own, it has no meaning |
| `GraphCore.BarrierMoves` | lellm-graph/src/graph/run_loop.rs:109-117 | A barrier that is passed keeps the state and goes where the edges lead |
| `GraphCore.NestedMoves` | lellm-graph/src/node/subgraph_spec.rs:161-195 | A composite node combines the results of its nested runs, in declaration order, and goes where the edges lead; without a combination it has no meaning |
| `GraphCore.EndEndsRun` | lellm-graph/src/graph/run_loop.rs:193-197 | A run in which a leaf returns End makes no further step, and its result is the state of that leaf exactly when the budget reaches it |
| `GraphCore.FinalFromTraj` | lellm-graph/src/graph/run_loop.rs:60-199 | A trajectory that ends within the budget is the result of the run from every point of it |
| `GraphCore.TrajFromFinal` | lellm-graph/src/graph/run_loop.rs:60-199 | Conversely a result is the end of a trajectory within the budget |
| `GraphCore.StuckRun` | lellm-graph/src/graph/run_loop.rs:85-133 | A run that reaches a node without outcome or route has no result |
| `GraphAnalysis.FindAllCycles` | lellm-graph/src/graph/graph_analysis.rs:12-23 | Lists exactly the simple cycles of at least two nodes, each from its smallest node, and none twice when there are no parallel edges |
| `GraphAnalysis.CycleSearch.Dfs` | lellm-graph/src/graph/graph_analysis.rs:25-52 | The in-place search adds what the recursive specification finds, and restores path and path set |
| `GraphAnalysis.CycleCount` | lellm-graph/src/graph/graph_analysis.rs:12-52 | Every cycle from its smallest node is found once per choice among parallel edges; nothing else is found |
| `GraphAnalysis.CyclesFound` | lellm-graph/src/graph/graph_analysis.rs:12-52 | Soundness and completeness of the search as an equivalence, and uniqueness without parallel edges |
| `GraphAnalysis.FoundUpToRotation` | lellm-graph/src/graph/graph_analysis.rs:25-52 | Of the rotations of any simple cycle exactly one is found: the one from its smallest node |
| `GraphAnalysis.FilterUnprotected` | lellm-graph/src/graph/graph_analysis.rs:55-79 | Keeps exactly the cycles on which no edge has a visit bound, in ascending order and each once |
| `GraphAnalysis.ProtectedMeans` | lellm-graph/src/graph/graph_analysis.rs:60-72 | A cycle is protected exactly when some edge from one of its nodes to the next, around the end, has a visit bound |
| `GraphAnalysis.LessMeans` | lellm-graph/src/graph/graph_analysis.rs:25-52 | The lesser of two names ends where they part, or has the lesser character there |
| `GraphAnalysis.BeforeMeans` | lellm-graph/src/graph/graph_analysis.rs:55-79 | The lesser of two cycles ends where they part, or has the lesser name there |
| `GraphAnalysis.AllProtectedMeans` | lellm-graph/src/graph/graph_analysis.rs:107-109 | All listed cycles are protected if and only if all simple cycles of the graph are |
| `GraphAnalysis.BuildAdj` | lellm-graph/src/graph/graph_analysis.rs:82-92 | The adjacency map holds the targets of each node's edges in their order |
| `GraphAnalysis.Search` | lellm-graph/src/graph/graph_analysis.rs:229-248 | The worklist visits exactly the nodes reachable from the start |
| `GraphAnalysis.Unreachable` | lellm-graph/src/graph/graph_analysis.rs:229-261 | Reports exactly the nodes that no path from the start reaches |
| `StateMerge.Merge` | lellm-graph/src/state/state_core.rs:117-162 | Succeeds if and only if no key is changed by two branches; the result has every change and nothing else; a conflict names a key and its number of writers |
| `StateMerge.NoteBranch` | lellm-graph/src/state/state_core.rs:126-140 | Counts each changed key of a branch once, with its new value or its deletion |
| `StateMerge.OrderIrrelevant` | lellm-graph/src/state/state_core.rs:117-162 | Verdict and result do not depend on the order of the branches |
| `StateMerge.MergeUnique` | lellm-graph/src/state/state_core.rs:117-162 | The merge is determined |
| `StateMerge.HierarchicalIsFlat` | lellm-graph/src/state/state_core.rs:117-162 | Merging some neighbouring branches first and their merge with the rest gives the verdict and the state of merging all at once |
| `StateMerge.GroupConflict` | lellm-graph/src/state/state_core.rs:142-150 | A conflict inside a group is a conflict of the whole |
| `StateMerge.SerializableExactly` | lellm-graph/src/state/state_core.rs:85-162 | The merge of the states that mutation batches fork exists and is the state of every order of applying them, if and only if any key two batches touch is left by both as it was in the base |
| `StateMerge.DisjointSerializable` | lellm-graph/src/state/state_core.rs:85-162 | Batches that touch no key in common merge to the state of any order of applying them |
| `StateMerge.NoOrderReaches` | lellm-graph/src/state/state_core.rs:117-162 | Two batches whose forked states merge without conflict, to a state that neither order of applying them reaches |
| `StateMerge.BatchAt` | lellm-graph/src/state/workflow_state.rs:143-147 | After a batch a key has what its last mutation says, or its old value |
| `AgentMerge.Merge` | lellm-agent/src/runtime/typed_state_merge.rs:38-95 | Succeeds if and only if no field conflicts, with every field merged by its rule and every counter within range; otherwise it reports the conflict of the first field that has one |
| `AgentMerge.MergeCounter` | lellm-agent/src/runtime/typed_state_merge.rs:145-185 | Fails exactly when at least two branches changed the counter and one went below the base or the true sum leaves the range; otherwise base plus all increments, or the highest value for iterations; the error tells reset from overflow |
| `AgentMerge.MergeMessages` | lellm-agent/src/runtime/typed_state_merge.rs:103-142 | Base and all appended suffixes in registration order, or the one replacement when nobody else appended; otherwise a conflict |
| `AgentMerge.MergeTerminal` | lellm-agent/src/runtime/typed_state_merge.rs:191-211 | Stop reason and last response come together from the one branch that changed them; two writers conflict |
| `AgentMerge.CounterHierarchical` | lellm-agent/src/runtime/typed_state_merge.rs:145-185 | Grouping makes no difference to a counter, resets and overflow included |
| `AgentMerge.MessagesHierarchical` | lellm-agent/src/runtime/typed_state_merge.rs:103-142 | Grouping makes no difference to the messages |
| `AgentMerge.TerminalHierarchical` | lellm-agent/src/runtime/typed_state_merge.rs:191-211 | Grouping makes no difference to the terminal pair |
| `AgentMerge.HierarchicalIsFlat` | lellm-agent/src/runtime/typed_state_merge.rs:38-211 | Merging a group first and its result with the rest gives the verdict and the state of merging all at once |
| `AgentMerge.MergeIsSerial` | lellm-agent/src/runtime/typed_state.rs:127-160 | Branches that only add, at most one of which ends the run, fail to merge exactly when an accumulator of the serial run leaves the range; otherwise they merge to the state of the serial run, with the highest iterations instead of their sum |
| `AgentMerge.BatchAdds` | lellm-agent/src/runtime/typed_state.rs:127-160 | A batch without replacement adds the same to any state |
| `AgentBatch.BatchCounts` | lellm-agent/src/runtime/typed_state.rs:136-150 | A batch raises iterations and compactions by the number of their mutations, and tool calls, output tokens and reasoning tokens each by the sum of the counts of their own mutation |
| `AgentBatch.BatchMessages` | lellm-agent/src/runtime/typed_state.rs:130-152 | After a batch the messages are the last replacement, or the old messages, and then everything appended afterwards, in order |
| `AgentBatch.BatchReason` | lellm-agent/src/runtime/typed_state.rs:153-155 | The stop reason is the one set last, or the old one |
| `AgentBatch.BatchResponse` | lellm-agent/src/runtime/typed_state.rs:156-158 | The last response is the one set last, or the old one |
| `AgentBatch.MergeConserves` | lellm-agent/src/runtime/typed_state_merge.rs:38-185 | A merge without conflict, of any batches, raises each accumulator by the sum of its own mutations over all branches, and the iterations by the most of one branch |
| `AgentBatch.MergeAppends` | lellm-agent/src/runtime/typed_state_merge.rs:103-142 | A merge of branches that replace nothing has the base's messages and then everything the branches append, in the order of the branches |
| `AgentBatch.MergeOverflows` | lellm-agent/src/runtime/typed_state_merge.rs:145-185 | A counter of forked branches has no merge exactly when two of them change it, it accumulates, and base and sums leave the 64-bit range |
| `ParallelNode.Engine.ExecuteParallel` | lellm-graph/src/node/parallel_execute.rs:47-96 | Whatever the order of completion: stopped before failed before suspended, each leaving the state alone; otherwise the merge of the states in declaration order, which replaces the state only when it exists; and which completion, if any, cancels the rest |
| `ParallelNode.Gather` | lellm-graph/src/node/parallel_execute.rs:47-70 | Collects states, errors and flags as branches complete, and notes the first that cancels the group: a stop, or a failure under fail-fast |
| `ParallelNode.ScheduleIndependent` | lellm-graph/src/node/parallel_execute.rs:47-96 | Two orders of completion of the same results leave the same state and kind of outcome; collected errors are the same up to order |
| `ParallelNode.ParallelMeans` | lellm-graph/src/node/parallel_execute.rs:10-97 | The node merges exactly when the crash-free meaning of its branches exists, and then to that meaning |
| `ParallelNode.GatheredInOrder` | lellm-graph/src/node/parallel_execute.rs:87-91 | Sorting the gathered states by index gives the states in declaration order |
| `ParallelNode.DistinctBranches` | lellm-graph/src/node/parallel_execute.rs:19-27 | The child frames of the branches have distinct names even when branches share one |
| `ParallelNode.SubgraphMeans` | lellm-graph/src/node/subgraph_spec.rs:161-195 | A subgraph node writes back what its graph makes of the projected state |
| `ParallelNode.SubgraphInPlace` | lellm-graph/src/node/subgraph_spec.rs:161-195 | Through a lawful lens the projected part becomes what the graph makes of it, and nothing else of the state changes |
| `ParallelNode.GraphBranchMeans` | lellm-graph/src/node/graph_branch.rs:30-52 | A graph branch replaces the state by what its graph makes of a copy |
| `ParallelNode.BranchMeans` | lellm-graph/src/node/parallel_execute.rs:29-45 | A branch is a run of one step: what its body, leaf, barrier or composite, makes of the state, unless it jumps |
| `ParallelNode.Engine.Commit` | lellm-graph/src/exec/execution_engine.rs:347-369 | Applies the buffered mutations in order, once |
| `ParallelNode.Engine.TakeControl` | lellm-graph/src/exec/execution_engine.rs:131-135 | Yields the last direction given, or to proceed, and the pause, and clears both |
| `ParallelNode.Engine.RunNode` | lellm-graph/src/graph/run_loop.rs:95-139 | A node that succeeds has its recorded mutations applied in order, once, and yields the last direction it gave; one that fails leaves the state alone |
| `CheckpointRun.RestoreIsSuffix` | lellm-graph/src/graph/graph_core.rs:415-449 | Restoring the k-th checkpoint with the same budget ends as the run ended if and only if the graph can be restored at all and it is not the case that the next node is missing while the budget is spent; it then saves exactly what the run still had to save |
| `CheckpointRun.RestoredMeans` | lellm-graph/src/graph/graph_core.rs:391-449 | A restored run by its checks, in their order, on the fields of graph and checkpoint |
| `CheckpointRun.StepMeans` | lellm-graph/src/graph/run_loop.rs:95-195 | One step leaves the cursor and state its node means, in a checkpoint of the current format with the graph's hash and one step more, and fails when the node has no meaning or is a barrier |
| `CheckpointRun.SavedHash` | lellm-graph/src/exec/execution_loop.rs:289-332 | A checkpoint carries the current format and the hash of the graph whose run saved it |
| `CheckpointRun.RestoreDiffers` | lellm-graph/src/graph/graph_core.rs:429-449 | A one-node graph on which the two ends differ |
| `CheckpointRun.RunEnds` | lellm-graph/src/graph/run_loop.rs:60-199 | The errors a checkpointed run can end with |
| `CheckpointRun.SuffixOfRun` | lellm-graph/src/graph/run_loop.rs:60-199 | The k-th checkpoint counts k + 1 steps, carries format and hash of the graph, and the run from its cursor is the rest of the run |
| `CheckpointRun.FinishedAtLast` | lellm-graph/src/exec/execution_loop.rs:314-332 | A checkpoint without next node is the last one of a finished run and holds its result |
| `CheckpointRun.RunMeansFinal` | lellm-graph/src/graph/run_loop.rs:60-199 | The checkpointed run of a graph without barriers has the result of the graph's meaning when no task is performed, as outside a durable run |
| `CheckpointLoop.RunInlineFrom` | lellm-graph/src/graph/run_loop.rs:42-199 | Refuses a graph with a barrier at any depth, for want of a handler; otherwise saves the checkpoints of the uninterrupted run in order, all of them unless a save is reported as failed, and the newest is in the store |
| `CheckpointLoop.OnCheckpoint` | lellm-graph/src/exec/checkpoint_save_sink.rs:48-82 | Saves, then keeps the newest n; a failed pruning is ignored and never loses the newest; keeping none is an error |
| `CheckpointLoop.InvokeWithCheckpoint` | lellm-agent/src/runtime/checkpoint.rs:176-211 | Runs only a trace without checkpoints |
| `CheckpointLoop.InvokeWithRestore` | lellm-agent/src/runtime/checkpoint.rs:218-272 | Refuses, in this order, a graph with other nodes than leaves, another format, another graph's hash, a missing next node, a spent budget, a trace without checkpoints, a checkpoint that is not the newest, and a next node without its context; otherwise a finished checkpoint is returned and another continues at its cursor with its steps; no checkpoint saved by a run of a graph with another hash is ever continued |
| `CheckpointLoop.Live` | lellm-graph/src/exec/execution_loop.rs:131-185 | Over any sessions on any graph, each of which may die at any save, the checkpoints of a trace carry steps 1, 2, 3, ... and are those of the uninterrupted run; the newest is always in the store; a session that finishes has the uninterrupted run's result |
| `CheckpointLoop.RestoreSession` | lellm-graph/src/exec/execution_loop.rs:131-163 | A restore from a checkpoint that is not the newest is refused and changes nothing; one from the newest is never refused as stale or missing |
| `CheckpointLoop.SessionAdds` | lellm-graph/src/exec/execution_loop.rs:289-402 | What a session saves extends the history of the trace without gap or repetition |
| `CheckpointStores.MemoryStore.Save` | lellm-graph/src/checkpoint/store.rs:84-94 | Appends to the log of its trace only, and stores the blob under its id |
| `CheckpointStores.MemoryStore.Prune` | lellm-graph/src/checkpoint/store.rs:131-144 | Keeps the newest, forgets exactly the blobs it drops from the log, and reports how many |
| `CheckpointStores.FileStore.Save` | lellm-graph/src/checkpoint/store.rs:244-301 | Appends to the log of its trace, or leaves it as it was when ended at any point before the rename; after the rename the whole blob is there |
| `CheckpointStores.FileStore.LoadLatest` | lellm-graph/src/checkpoint/store.rs:324-338 | The blob of the highest number, which is the newest |
| `CheckpointStores.FileStore.List` | lellm-graph/src/checkpoint/store.rs:340-355 | Ids newest first, in numeric order |
| `CheckpointStores.FileStore.Prune` | lellm-graph/src/checkpoint/store.rs:377-395 | Keeps the newest and reports how many it removed; interrupted, it still keeps the newest |
| `CheckpointStores.FileStore.NextNumber` | lellm-graph/src/checkpoint/store.rs:255-266 | One more than the highest number in the directory, or an overflow error |
| `CheckpointStores.Scan` | lellm-graph/src/checkpoint/store.rs:201-220 | Returns exactly the committed files, skipping temporary and foreign names |
| `CheckpointStores.NameRoundTrip` | lellm-graph/src/checkpoint/store.rs:268-270 | The scan reads number and id back from a committed name and accepts no temporary one |
| `CheckpointStores.RunBoth` | lellm-graph/src/checkpoint/store.rs:82-145 | The same operations with fresh ids on both stores give the same answers throughout |
| `CheckpointStores.ScanSorts` | lellm-graph/src/checkpoint/store.rs:340-348 | However the directory is listed, sorting gives the log |
| `Decimal.RoundTrip` | lellm-graph/src/checkpoint/store.rs:211-217 | Numbers in file names are read back |
| `EventStream.RoundTrip` | lellm-mcp/src/transport/http.rs:44-98 | One-line events come back as they were sent if and only if no name and no payload is empty, starts with a space or ends in a carriage return |
| `EventStream.ParsesOwnNames` | lellm-mcp/src/transport/http.rs:55-98 | Every frame has the event name of its own block of lines if and only if no named block without data is followed, before the next name, by data |
| `EventStream.NameLeaks` | lellm-mcp/src/transport/http.rs:60-69 | Texts in which a frame gets the name of an earlier block |
| `EventStream.ParseWritten` | lellm-mcp/src/server/handler.rs:101-103 | What a client gets of any sequence of one-line events, clean or not |
| `EventStream.ParseFrames` | lellm-mcp/src/transport/http.rs:55-98 | The parsing loop computes the fold over the lines |
| `EventStream.ParsedByBlocks` | lellm-mcp/src/transport/http.rs:55-98 | What is parsed are the frames of the blocks between empty lines: a block's data are its data fields, one on each line, from the first on that is not empty, and a block without data gives no frame and leaves its event name behind |
| `EventStream.FieldSplit` | lellm-mcp/src/transport/http.rs:44-50 | A line is a field exactly when it has a colon; it is split at the first one, whitespace is dropped around the key and spaces before the value, and nothing else |
| `EventStream.WhitespaceCodes` | lellm-mcp/src/transport/http.rs:44-50 | What is trimmed around a key, by code points |
| `EventStream.FieldRoundTrip` | lellm-mcp/src/transport/http.rs:44-50 | A written field is read back without leading spaces and trailing carriage return |

## Left out

- Asynchronous runtime, channels, observers, stream and trace sinks, metadata and event emission: interleaving and oracles stand for them.
- Liveness: nothing says that a suspended run is ever decided, that an action ever succeeds, or that a save eventually succeeds.
- Freezing of a terminal status within one session: it is not frozen there. `RunHistory.TerminalReplaced` names the steps that replace it: `StopFrame`, `CancelTask` and `CancelledRun` under a root cancellation (Cancelled), `WaitApproval`, `ExpireApproval` and `RefuseApproval` of branches already begun (Suspended, Expired, Rejected), `CompleteRun` (Completed), and `ParkTask`, which turns Completed into Suspended. `RunHistory.TerminalIsFinal` speaks of later leases.
- The file back end of the run store: lease and record behave as in `RunStore`; its lock file, its encoding and `decode`'s checks of raw JSON are not part of this model.
- `signature` and `canonical_hash` of a graph are fields of the graph; that different graphs differ in them is not assumed.
- RunTheorems.CrashRefinement: speaks of runs that complete; that an interrupted run can be completed is proved of programs without barriers and tasks (`RunProgress.InterruptedCompletes`), the others need the progress assumptions above.
- RunProgress.CompletesExactly: budgets so large that 64-bit revisions could run out are excluded.
- RunSafety.FinishLeafInv: a leaf goes on from a task only with its recorded result; a node that swallows the error of a task and commits nevertheless is not modelled, nor are tasks of one node that run at the same time.
- DurableLoop.RunScript: for the methods, an action that succeeds at several moments yields the same each time (`FrameScope.Truthful`); `RunProtocol` has no such restriction.
- DurableRuntime.Runtime.Resume: a graph with the signature of the run's graph is that graph.
- ParallelNode.Engine.ExecuteParallel: branch results are given in their order of completion. The completion that cancels the others is named; how a cancelled branch then ends is its own affair, and shows in its result. Inside a durable run the error of a branch keeps its kind (suspended, stopped, failed) instead of its text.
- ParallelNode.SubgraphInPlace: the lens is a pair of functions instead of a reference into the state, so a subgraph that fails half way through, outside a durable run, has no partial effect on the outer state.
- RunHistory.PoisonedStep: launches after a failed save are not excluded, because a thread whose attempt is saved starts its action without another look at the session; `RunTheorems.AtMostOnce` counts them.
- DurableLoop.RunGraphLoop: a failed node, a missing node and a missing route are one error, NodeFailed, in the durable model.
- DurableLoop.RunCalls: one thread runs the nested calls one after another; their interleaving is in `RunProtocol`.
- AgentMerge.MergeIsSerial: mutations are applied with unbounded numbers; the theorem names the states that leave the 64-bit range, and says nothing about wrapping or panicking arithmetic inside a branch.
- StateMerge.Merge: which of several conflicting keys is reported is left open, as a hash map leaves it open.
- Diagnostics text and the fallback-in-cycle and end-node notes of the graph analysis.
- Self-loops in cycle analysis: the search does not report them by design.
- CheckpointLoop.InvokeWithRestore: the mapping of errors to the caller's error type is left out; which of several offending nodes an error names is left open.
- CheckpointLoop.InvokeWithCheckpoint: the construction of the first state from messages, which can fail, is left out.
- CheckpointLoop.Live: callers restore checkpoints they loaded from the trace; forged ones and two executors on one trace are outside the single-writer rule.
- `delete` and `load` by id of the file store: `delete` keeps the index entry in one store and not in the other.
- CheckpointStores.FileStore.Save: durability below rename (fsync, power loss), base64 and the JSON envelope are left out; a file is whole or torn.
- EventStream.RoundTrip: `SseStreamParser::feed` is left out; its offsets into the buffer are counted twice, so it does not agree with the batch parser on chunks with several newlines.
- `LastWriteWins`, the state accessors, reducers, guards, compaction, provider codecs, other transports, retry and backoff wrappers: easy members or I/O.
