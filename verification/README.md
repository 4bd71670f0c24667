# Linkspan, verified in Dafny

Linkspan is a supervisor for a compute job: one process that keeps a registry of background tasks (its own goroutines,
servers on bound ports, child processes), pauses and resumes processes with CRIU, runs a workflow document at the
moments of the job's life, and carries its API off the node. This project models its concurrent core as state machines
whose steps interleave in any order, proves what every reachable state and every run keeps, and writes the imperative
code over the state it updates, method by method, each proved to take steps of its machine. `dafny verify
dfyconfig.toml` checks the whole.

## The parts

| files | what they model |
|---|---|
| `TaskModel`, `TaskSafety`, `TaskTheorems` | The task registry and the fork path: every interleaving of `Start`, `Wait`, `Stop`, `StopAll`, a task's own goroutines and its process. One inductive invariant, and the promises drawn from it |
| `StopAllProgress` | `StopAll` over infinite runs: exactly when it returns |
| `TaskTraces` | Concrete interleavings in which stronger claims are false |
| `Registry` | The code of `tasks.go` as a class. A call that blocks lets every other goroutine take any number of steps (`Others`) |
| `PauseModel`, `PauseSafety`, `PauseTheorems`, `PauseTraces` | Pause marks, checkpoint folders and pids, over every interleaving of processes, waiters, pauses and resumes |
| `ProcessLife` | The registry and the pauses as one machine, in which the processes are Child tasks and pauses and waiters go by what the registry shows: each run of it is a run of each |
| `Checkpoints` | The code of `pause`, `resume` and the waiter of `servers.Run` as a class |
| `Workflow`, `EventLoop`, `MainProgram` | The workflow engine, the task that runs it, and `main` over its stack of defers |
| `SshGuard` | The start of SSH servers under `startMu`, over the registry's machine |
| `Redial`, `Tunnels`, `Router`, `Dcgm`, `TailBuffer` | The backoff loop, the validation of `--tunnel-mode`, the route-tree flattening, the DCGM connection, the 64KB tail |

Nothing was executed: what the operating system, the libraries and the clients do is a parameter of a step or of a call.

## What was found

Where the code is weaker than a plain reading of its prose, the project has the run that shows it and the exact form
that holds.

- `StopAll` does not wait for a replaced task, and a task that a concurrent `Stop` has taken may not even be cancelled
  when it returns (`TaskTraces.StopAllMissesTheReplaced`). What holds on return is `TaskTheorems.StopAllStopsAll`.
- `StopAll` cancels and waits one task at a time, so it hangs when a Run waits on a task later in the order, though
  every Run honours its own context (`TaskTraces.StopAllMayHang`). It returns if and only if there is no such wait, on
  a later task or one outside, that never ends (`StopAllProgress.ReturnsExactly`).
- It also hangs on a Spawn whose command is never built (`TaskTraces.StopAllMayHangOnASpawn`). The one of
  `subsystems/jupyter/jupyter.go` line 90 blocks on `setupMu` (line 56) whatever its context, for as long as another
  setup holds it. Whatever is assumed of the tasks, it returns if and only if the code of each task of its snapshot
  does, once the task is cancelled (`StopAllProgress.ReturnsAsCodeDoes`).
- An older namesake is cancelled if and only if no `Stop` or `StopAll` that has yet to cancel it holds it, or it has
  come to its own end (`TaskTheorems.OlderNamesakes`; the trace is `TaskTraces.OlderNamesakeUncancelled`).
- The error on `Failed` is of a task whose context was not done at the check on line 180 of `tasks.go`. A cancel may
  fall between that check and the send (`TaskTraces.FatalOfACancelledTask`); `TaskTheorems.CancelledSince` says exactly when.
- A waiter looks its process up by id after starting it. It finds that process if and only if it is still the newest of
  its id and no call has removed it (`TaskTheorems.LookupFinds`). A `Stop` in between makes `servers.Run` answer 500 at
  once, the process still alive (`TaskTraces.WaitMayMissItsTask`), and so it may for a process replaced by a namesake that
  no call has removed itself (`TaskTraces.WaitMayMissTheReplaced`); `TaskTheorems.LookupMisses` says exactly when. With the
  namesake still listed, the waiter of the first waits for the second (`TaskTraces.WaitMayFindTheNext`).
- A process ended by a successful pause is not always answered 202: a second pause, begun once the first has returned
  but finding the ended process still listed as running, fails and takes the mark with it
  (`PauseTraces.SecondPauseTakesTheMark`). With no pause of the id at work, it is answered 202 if and only if none was
  begun after the one that ended it (`PauseTheorems.AnswerIsExact`).
- A process that ends by itself while a pause is at work on it is answered 202 (`PauseTraces.EndsDuringAPause`), exactly
  while that pause has its mark set (`PauseTheorems.AnswerDuringAPause`).
- A mark can reach a process that the pause never selected, with every hypothesis below kept: a pause finds a process
  listed as running, the process ends and is answered, its id is started again, and only then is the mark set, for the
  second process to take (`PauseTraces.ALateMarkReachesTheNext`). It does if and only if that pause, still at work and not
  failed, set its mark after its own process was answered and nobody in between has taken it
  (`PauseTheorems.AnswerAfterALateMark`). `PauseTheorems.EveryAnswer` joins the three conditions: it is an equivalence for
  every answer of every waiter.
- The mark is keyed by id, so a repeated id takes it from the paused process (`PauseTraces.ReusedIdTakesTheMark`).
- The `RemoveAll` at line 94 of `checkpoint.go` drops its error. A `.part` it leaves is built upon by the next pause
  (`PauseTheorems.PartIsLeftBehind`), whose checkpoint then holds stale images beside its own
  (`PauseTraces.StaleImagesStay`), if and only if the dump that failed had written some
  (`PauseTheorems.CheckpointIsWhole`).
- The repository's `README.md` and the comment of `workflow.go` say a paused step ends its trigger's run. The code ends
  every remaining trigger of that moment (`Workflow.PauseEndsTheMoment`); the model follows the code.
- The goroutine of the start and ready steps is not waited for: the ready steps may begin after the workflow's task is
  over (`EventLoop.ReadyMayBeginAfterTheEnd`), exactly if the start steps are still running
  (`EventLoop.ReadyMayBeginExactly`).
- A panic in `main` runs its deferred functions, the last of which calls `os.Exit` with the code so far: a stop step that
  panics after a signal exits 0 (`MainProgram.PanicExitsZero`). `MainProgram.ExitCode` and `MainProgram.Goroutine.Run`
  have every case.
- The backoff starts again after an attempt of strictly more than a minute, where the prose says a minute.
- `setState` is described as the one writer of State and Error; `child` writes State too, under the same lock.
- A start of an SSH server without a ref cancels a running server whose ref spells the default id of its port
  (`SshGuard.UnnamedStartCancels`); `SshGuard.StartCancelsExactly` is the exact condition.

## Hypotheses

Of the registry: none for safety. Cancelling a context starts its registered functions in the same step. For
`StopAllProgress`: a goroutine that can move does in the end, and a killed process ends. `ReturnsExactly` assumes
besides that the code of a task whose context is done returns, unless it is a Run that a `Wait` blocks for ever. That
code is a Run, a `Serve`, or the function that builds the command of a Spawn or a Child. A Run that is blocked in
`tasks.Stop`, as a workflow step of `jupyter.sessions.stop` or `terminal.sessions.stop` can be, has no state of its
own here: it is code that has not returned.

Of pauses (`PauseModel.Disciplined`): ids are plain (one path element, no `.part` suffix); an id is not started again
while a waiter of it is pending; one pause at a time per id; and the pid a dump ends is still the selected process's.
A successful dump ends its process; RemoveAll and Rename do all of their work or none. `PauseTraces` has, for each
hypothesis, a run without it that breaks a promise. One hypothesis is not about callers: that the lookup of a waiter
finds the process it has just started (`ProcessLife.Event.GoesOn`); `TaskTheorems.LookupFinds` is its exact condition.

Of DCGM: a reply holds only entities and fields asked for, names are true, and the numbering stands while a connection does.

## Model

| member | source | states |
|---|---|---|
| TaskTheorems.NoOrphan | internal/tasks/tasks.go:162-258 | A task is cancelled if and only if it is neither registered nor held by a Stop or StopAll that has yet to cancel it, or has come to its own end |
| TaskTheorems.OlderNamesakes | internal/tasks/tasks.go:162-247 | Of two namesakes the older is cancelled if and only if nobody who has yet to cancel it holds it, or it has come to its own end |
| TaskTheorems.OneHolder | internal/tasks/tasks.go:236-258 | At most one Stop or StopAll holds a task, and a held task is off the map |
| TaskTheorems.LatestWins | internal/tasks/tasks.go:161-168 | The map lists a task under an id if and only if it is the newest started under it and no Wait, Stop or StopAll has removed it |
| TaskTheorems.LookupFinds | internal/tasks/tasks.go:220-227 | The lookup of a Wait finds a given task if and only if it is the newest started under the id and no call has removed it |
| TaskTheorems.LookupMisses | internal/tasks/tasks.go:220-227 | It finds nothing, and answers the zero Task, if and only if the newest one has been removed or there is none |
| TaskTheorems.WaitsAgree | internal/tasks/tasks.go:220-234 | All Waits on one task answer the same copy, terminal and final, whatever happened since |
| TaskTheorems.DoneMeansOver | internal/tasks/tasks.go:169-193 | done implies cancelled and terminal, the child never forked or waited for, and a fatal error already sent |
| TaskTheorems.StatesMoveForward | internal/tasks/tasks.go:110-117 | No step moves a state other than starting to running or failed, and running to failed or exited; so never from starting to exited |
| TaskTheorems.RunningChildHasPid | internal/tasks/exec.go:62-67 | A running Child has a non-zero pid, its process's own unless one was preset, and a preset one is kept in every state |
| TaskTheorems.EndsAsItsCommand | internal/tasks/exec.go:52-92 | A Spawn or Child is exited only if its command was waited for and ended without error; with an error it is failed, a Child with that very one |
| TaskTheorems.CommandDecides | internal/tasks/exec.go:52-92 | Over any run, a Spawn or Child running when its command ends is recorded as that ended: failed with its error, or exited without one |
| TaskTheorems.ForkDecides | internal/tasks/exec.go:52-60 | Over any run, a Child whose command cannot be started fails with that error |
| TaskTheorems.CodeDecides | internal/tasks/tasks.go:170-193 | Over any run, what the code of a Run or Server returns, or a Spawn or Child fails with before it answers or runs, is what the task is recorded with |
| TaskTheorems.FailedHoldsTheFirst | internal/tasks/tasks.go:180-185 | The channel holds exactly the first error sent since it was last read; every error sent is a failed Run's or Server's own |
| TaskTheorems.LogIsTheRun | internal/tasks/tasks.go:180-185 | Those sends and reads are exactly the ones of the run, in its order |
| TaskTheorems.FatalExactly | internal/tasks/tasks.go:180-180 | An error is found fatal if and only if it is of a Run or Server whose context is not done at that moment |
| TaskTheorems.FatalIsSent | internal/tasks/tasks.go:180-187 | An error found fatal has been sent whenever its task has gone on, before done in particular |
| TaskTheorems.StepCancels | internal/tasks/tasks.go:163-165 | A step cancels a task if and only if it is one of four: a repeated id, Stop's, StopAll's, or the task's own end |
| TaskTheorems.CancelledSince | internal/tasks/tasks.go:180-185 | Over any run from the check, the task is cancelled at its end if and only if one of those steps fell in between |
| TaskTheorems.CancelKills | internal/tasks/exec.go:33-69 | A context cancelled before the kill hook is deregistered, in whatever order fork, registration and cancel come, never leaves the hook armed or deregistered unfired; the same for a preset pid |
| TaskTheorems.CancelledChildIsKilled | internal/tasks/exec.go:39-69 | While the child of a cancelled task is watched its group has been sent the kill, and so has the preset pid's |
| TaskTheorems.StopAllStopsAll | internal/tasks/tasks.go:249-258 | On return every task of the snapshot is done, terminal and cancelled, and every other one started before it is cancelled or in the hands of an earlier Stop or StopAll |
| TaskTheorems.ReplacedIsCancelled | internal/tasks/tasks.go:163-165 | A replaced task is cancelled, unlisted, has a newer namesake, and is in no StopAll's snapshot |
| TaskSafety.StepKeepsInv | internal/tasks/tasks.go:138-258 | Every step of every kind keeps the whole invariant: task lifecycles, the map, accounting, half-finished calls, the channel |
| TaskSafety.RunGrows | internal/tasks/tasks.go:110-117 | Over any run a task's terminal state, cancellation, departure from the map and final copy are never undone |
| TaskSafety.MoveKeepsTask | internal/tasks/exec.go:33-92 | Every move of a task's goroutines and process keeps the agreement of goroutine, fork path, process, hooks, pid and state, and of what the task is recorded with and how its command ended |
| StopAllProgress.StopAllReturns | internal/tasks/tasks.go:254-257 | In every fair infinite run, for every iteration order no task of which waits on a later one, StopAll returns with every task of its snapshot done; the assumptions are those of the hypotheses above |
| StopAllProgress.ReturnsExactly | internal/tasks/tasks.go:249-258 | In every fair infinite run StopAll returns if and only if no task of its snapshot ever waits on a later one, or on one outside, that never ends |
| StopAllProgress.ReturnsAsCodeDoes | internal/tasks/tasks.go:249-258 | In every fair infinite run, whatever the tasks do, StopAll returns if and only if the code of every task of its snapshot returns once the task is cancelled |
| StopAllProgress.Ends | internal/tasks/exec.go:33-92 | A cancelled task of any kind ends if its own code returns; a Child or Spawn, once its command is built, by the kill hook alone |
| StopAllProgress.StepRank | internal/tasks/tasks.go:169-193 | No step sends a task back, and each move of its own brings its end nearer |
| StopAllProgress.StopAllHangs | internal/tasks/tasks.go:254-257 | Once the task at the cursor waits on another, StopAll's call does not change over any run until that other one is done |
| TaskTraces.StopAllMissesTheReplaced | internal/tasks/tasks.go:249-258 | A reachable state where StopAll has returned, a replaced task still runs, and a taken one is not cancelled |
| TaskTraces.OlderNamesakeUncancelled | internal/tasks/tasks.go:236-244 | A reachable state where the older of two namesakes is not cancelled |
| TaskTraces.FatalOfACancelledTask | internal/tasks/tasks.go:180-185 | A reachable send, into an empty channel, of the error of a task by then cancelled |
| TaskTraces.StopAllMayHang | subsystems/workflow/workflow.go:103-105 | A fair infinite run in which a workflow waits on a server, all task code honours its context, and StopAll never returns |
| TaskTraces.StopAllMayHangOnASpawn | subsystems/jupyter/jupyter.go:55-93 | A fair infinite run without any wait in which a Spawn's function does not return and neither does StopAll |
| TaskTraces.WaitMayMissItsTask | internal/servers/servers.go:70-77 | A reachable state where the waiter of a Child has been answered the zero Task, the Child neither done nor cancelled |
| TaskTraces.WaitMayFindTheNext | internal/tasks/tasks.go:220-227 | A reachable state where the first Child of an id runs and its waiter's lookup has found the second |
| TaskTraces.WaitMayMissTheReplaced | internal/tasks/tasks.go:220-227 | A reachable state where the lookup finds nothing, the first Child running and removed by no call |
| Registry.Tasks.Open | internal/tasks/tasks.go:138-161 | A failed bind registers nothing; otherwise the id is the caller's, or the kind's initial with the listener's name, or the kind |
| Registry.Tasks.Start | internal/tasks/tasks.go:161-168 | The new task is the one listed under its id, and the state is the model's after a start |
| Registry.Tasks.Record | internal/tasks/tasks.go:110-117 | The result's state is terminal, and the step is the model's |
| Registry.Tasks.Publish | internal/tasks/exec.go:65-67 | One critical section leaves the Child running with a non-zero pid, the preset one if there is one |
| Registry.Tasks.Send | internal/tasks/tasks.go:181-184 | The channel is never empty after and never overwritten |
| Registry.Tasks.WaitFinish | internal/tasks/tasks.go:228-233 | The copy is that of the done task, which is no longer listed; a replacement under its id stays |
| Registry.Tasks.Wait | internal/tasks/tasks.go:220-234 | With anyone moving meanwhile: the answer is the final copy of the task found at the call, unlisted; an id not held returns at once and changes nothing; the call still blocks exactly if that task is not done |
| Registry.Tasks.Stop | internal/tasks/tasks.go:236-247 | False exactly for an id not held; otherwise the task found is cancelled, unlisted and, on return, done and terminal; the call still blocks exactly if that task is not done |
| Registry.Tasks.StopNext | internal/tasks/tasks.go:255-256 | One turn of the loop cancels a task and moves the cursor on exactly if it is done |
| Registry.Tasks.StopAll | internal/tasks/tasks.go:249-258 | For every iteration order: on return every task of the snapshot is done; and the call still blocks only on a task it has cancelled, which is not done, all before it done |
| PauseTheorems.PausedIsAnswered202 | internal/servers/servers.go:62-85 | A process that a successful pause ended, and that no later pause has selected and failed on, is answered 202; until then its mark is there |
| PauseTheorems.AnswerIsExact | internal/servers/servers.go:70-85 | With no pause of the id at work, the answer is 202 if and only if a successful pause ended the process and no pause of the id was begun after that one |
| PauseTheorems.AnswerDuringAPause | internal/servers/servers.go:70-85 | While a pause of the process is at work, the answer is 202 if and only if it has its mark set, or is still before it and an earlier one succeeded unspoilt |
| PauseTheorems.AnswerAfterALateMark | internal/servers/servers.go:62-85 | With a pause of the id at work on a process answered before, the answer is 202 if and only if that pause has its mark set, set it after its own process was answered, and no process in between took it |
| PauseTheorems.EveryAnswer | internal/servers/servers.go:70-85 | Every answer, whatever pause is at work: 202 if and only if the condition of its one of the three cases holds |
| PauseTheorems.NoMarkLeaks | internal/servers/servers.go:62-74 | With every process of the id answered and no pause of it at work there is no mark |
| PauseTheorems.CheckpointIsWhole | subsystems/checkpoint/checkpoint.go:80-95 | The folder of a plain id is absent or the checkpoint of a pause of it that returned 200, with its record and images; it holds no other pause's images if and only if that pause found no .part or one without images, and no other id's ever |
| PauseTheorems.PartIsLeftBehind | subsystems/checkpoint/checkpoint.go:80-95 | A pause finds a .part, and between pauses there is one, if and only if the last pause of the id failed and so did its cleanup |
| PauseTheorems.CheckpointStages | subsystems/checkpoint/checkpoint.go:79-95 | During a pause the folder is what it was at its start, until the removal, and absent after |
| PauseTheorems.PauseOutcome | subsystems/checkpoint/checkpoint.go:88-97 | 200 leaves the new checkpoint and no .part; 500 leaves the earlier one unless it had been removed, and no .part if and only if the cleanup succeeded |
| PauseTheorems.OtherCheckpointsUntouched | subsystems/checkpoint/checkpoint.go:55-95 | No step of one id's pause touches another plain id's folder or its .part |
| PauseTheorems.PidSurvives | subsystems/checkpoint/checkpoint.go:62-116 | After any number of pauses and resumes a running process has the id and the pid of the first process of its line |
| PauseTheorems.ResumeContinues | subsystems/checkpoint/checkpoint.go:100-116 | A resume starts, under the same id, a process whose preset pid is the first process's and not zero |
| PauseTheorems.CheckpointOfTheDumped | subsystems/checkpoint/checkpoint.go:62-87 | In every reachable state the checkpoint of an id is of a process of that id its author dumped: same line, same pid |
| PauseTraces.EndsDuringAPause | internal/servers/servers.go:70-80 | A disciplined run in which a process ending by itself is answered 202 |
| PauseTraces.ALateMarkReachesTheNext | subsystems/checkpoint/checkpoint.go:63-79 | A disciplined run in which a pause of the first process of an id has the second, which it never selected, answered 202 |
| PauseTraces.StaleImagesStay | subsystems/checkpoint/checkpoint.go:80-94 | A disciplined run whose checkpoint holds the images of two pauses |
| PauseTraces.ReusedIdTakesTheMark | internal/servers/servers.go:62-74 | A run without the second hypothesis: the paused process is answered 500 and its namesake 202 |
| PauseTraces.SecondPauseTakesTheMark | subsystems/checkpoint/checkpoint.go:62-95 | A run of two pauses one after the other: the one that succeeded is answered 500 |
| PauseTraces.OverlappingPausesSpoil | subsystems/checkpoint/checkpoint.go:79-93 | A run of two pauses of one id at a time: the one that succeeded has its process answered 500 |
| PauseTraces.ReusedPidLeavesAMark | subsystems/checkpoint/checkpoint.go:67-83 | A run in which the dump ends another id's process with the same pid, and the mark is left for nobody |
| PauseTraces.UnplainIdsCollide | subsystems/checkpoint/checkpoint.go:55-94 | A run in which the cleanup of a pause of "a" removes the checkpoint of "a.part" |
| ProcessLife.JobsAreRuns | internal/tasks/exec.go:52-69 | Every run of registry and pauses together, with any number of Children, waits and Stops, is a run of the registry and one of the pause machine, the hypotheses kept if each event keeps them; and each process stands where its task shows it |
| ProcessLife.MoveShows | internal/tasks/exec.go:52-69 | Each move of a Child is none, one or two steps of its process, and of no other |
| ProcessLife.TestsAgree | internal/tasks/tasks.go:197-234 | A task is listed as running exactly while its process is shown as running, and done only when the waiter may go on, with the same outcome |
| ProcessLife.WaiterAnswers | internal/servers/servers.go:76-85 | The waiter of a Child answers 202 exactly if it was paused in the sense of EveryAnswer, else 200 if the task exited and 500 if it failed |
| ProcessLife.ChildKeepsItsPid | subsystems/checkpoint/checkpoint.go:62-116 | A running Child task, resumed any number of times, has the id and pid of the first task of its line, which had none preset |
| ProcessLife.AChildIsDumped | subsystems/checkpoint/checkpoint.go:62-83 | A run of the two, the hypotheses kept, in which a dump ends the process of a Child |
| PauseSafety.PathsApart | subsystems/checkpoint/checkpoint.go:55-75 | The folder of a plain id is never another's .part, and two plain ids share neither |
| PauseSafety.StepKeepsInv | subsystems/checkpoint/checkpoint.go:57-117 | Every disciplined step keeps the invariant of marks, folders, pids and waiters |
| Checkpoints.Host.Find | subsystems/checkpoint/checkpoint.go:62-66 | A task of the id listed as running, its process ended or not, or none exists |
| Checkpoints.Host.DumpTarget | subsystems/checkpoint/checkpoint.go:81-83 | A dump that succeeds is the model's step ending the selected process; one that fails ends nothing, whether it has written images or not |
| Checkpoints.Host.RenamePart | subsystems/checkpoint/checkpoint.go:89-91 | Success leaves the new checkpoint and no .part; failure leaves the disk as it was |
| Checkpoints.Host.CleanPart | subsystems/checkpoint/checkpoint.go:92-96 | Whether .part is left is whether the removal failed, and the folder is the earlier one unless already removed |
| Checkpoints.Host.Replace | subsystems/checkpoint/checkpoint.go:79-91 | With others moving between any two effects: 200 only if every effect but the ignored removal succeeded, and then the new checkpoint is whole; with none failing, it fails only if the process was over before the dump, not by the pause |
| Checkpoints.Host.Pause | subsystems/checkpoint/checkpoint.go:57-98 | 501, 404 exactly for no listed running task, 500 and 200, each with what it means for the folders and the process; the first two change nothing; and 500 with no effect failing only for a process that ended otherwise |
| Checkpoints.Host.Resume | subsystems/checkpoint/checkpoint.go:100-116 | 501 without CRIU, 404 exactly without a checkpoint, otherwise a process with the pid of the first of its line |
| Checkpoints.Host.Answers | internal/servers/servers.go:70-85 | The waiter takes the mark and answers 202, 200 or 500 by it and by the process's end |
| Workflow.Engine.Run | subsystems/workflow/workflow.go:76-107 | The steps executed are the flattened list of the moment up to the first status that is 202 or not from 200 to 299; it fails exactly if the last one's is not from 200 to 299, naming that step, its number and its answer; otherwise it has waited on every id they answered with |
| Workflow.Engine.Take | subsystems/workflow/workflow.go:83-100 | One step either keeps the run going, with its id noted, or cuts the list where it stands, with the error exactly for a status outside 2xx |
| Workflow.CutIsUnique | subsystems/workflow/workflow.go:83-102 | A list and its answers have one cut, so what is executed is determined |
| Workflow.FlatAt | subsystems/workflow/workflow.go:79-83 | Each trigger's steps stand in document order at the place the nested loops reach them |
| Workflow.PauseEndsTheMoment | subsystems/workflow/workflow.go:97-100 | A 202 is the last step executed: the later triggers of the moment run nothing |
| Workflow.EveryIdIsThere | subsystems/workflow/workflow.go:89-105 | Every non-empty id a step answered with is among those waited on |
| Workflow.IdAt | subsystems/workflow/workflow.go:89-95 | Each at the place of its step among those with an id, and nothing else |
| Workflow.Engine.Load | subsystems/workflow/workflow.go:146-187 | All or nothing: accepted if and only if every trigger is known, has steps, and names known actions; an error is of the first bad trigger and changes nothing |
| Workflow.Engine.LoadTrigger | subsystems/workflow/workflow.go:164-182 | The error names the moment, or the first step whose action is unknown, with the trigger's number |
| Workflow.Engine.Bind | subsystems/workflow/workflow.go:172-181 | A step has its own action, its ref among its params, and every other param as written |
| Workflow.StepsAreBound | subsystems/workflow/workflow.go:163-186 | Every step any moment of a loaded document can execute has its own action |
| EventLoop.LoopIsSafe | subsystems/workflow/workflow.go:116-143 | Over every interleaving: ready only after start returned nil; SIGTERM at most once and only after both; nil only when cancelled, else the error of start, ready or a signal |
| EventLoop.EndsByWhatHappened | subsystems/workflow/workflow.go:116-143 | In every run: an end without error means a cancellation came; an error is one that the start, ready or a signal's steps came back with; SIGTERM means start and ready both came back without |
| EventLoop.SigtermOnlyAtRest | subsystems/workflow/workflow.go:127-141 | SIGTERM is sent only with no signal's steps running and none failed |
| EventLoop.ReturnIsFinal | subsystems/workflow/workflow.go:126-142 | After the loop returns no SIGTERM and no signal's steps follow |
| EventLoop.SignalIsTheFirstPending | subsystems/workflow/workflow.go:108-138 | The steps run for a signal are those of the first to arrive since one was last taken; later ones are dropped |
| EventLoop.ReadyMayBeginAfterTheEnd | subsystems/workflow/workflow.go:119-129 | A run in which the loop has returned and the ready steps then begin |
| EventLoop.ReadyMayBeginExactly | subsystems/workflow/workflow.go:118-125 | From any state of the machine, over or not, the ready steps not begun may yet begin if and only if the start steps are running |
| EventLoop.Loaded.Turn | subsystems/workflow/workflow.go:126-142 | If a cancellation, a posted result or a signal is there, one of them is taken, with its effect; nothing else ever is |
| EventLoop.Loaded.Loop | subsystems/workflow/workflow.go:116-144 | The loop, each turn following on the one before with the rest moving in between, ends early only by returning, stays on the machine's runs and so has its safety |
| MainProgram.StopStepsOnce | main.go:163-179 | In every run, panics included, the stop steps run at most once, after every task was started in order and main was woken, and before StopAll |
| MainProgram.Ends | main.go:144-180 | When main is gone the exit is its last event and only one; StopAll ran exactly once if NotifyContext was reached and never otherwise; the stop steps ran if and only if everything started |
| MainProgram.ExitCode | main.go:144-180 | 2 exactly for a bad flag; 1 exactly if something was refused, did not start, came on Failed, or the stop steps failed; 0 in every other case, -h included; after a bad flag or -h nothing but the exit happens |
| MainProgram.PanicExitsZero | main.go:144-180 | A run in which a stop step panics after a signal, StopAll runs, and the exit code is 0 |
| MainProgram.StartsInOrder | main.go:107-141 | Tasks are started in the listed order, without a gap, and none if the flags or the document are refused |
| MainProgram.StepKeepsInv | main.go:143-180 | Every step, a panic among them, keeps the order of the trace, the deferred functions and the code in agreement |
| MainProgram.Goroutine.Run | main.go:143-180 | All that the code does, and its exit code, as what it calls returns, fails with or panics with: 2 for a bad flag; 1 if the flags or the document are refused, the first start that does not return fails, or all start and an error came on Failed or the stop steps failed; 0 otherwise; on a run of the machine |
| MainProgram.Goroutine.Lists | main.go:108-134 | The first entry is an API listener, on loopback unless --socket stands alone, then that of a named socket, usage, each transport at its place, and the workflow last if there is one; nothing else |
| MainProgram.OneOrder | main.go:107-134 | A list fits that description if and only if it is the one the machine starts from |
| MainProgram.AlwaysListens | main.go:108-114 | Whatever the flags there is a listener for the API |
| SshGuard.StartSparesServers | subsystems/vscode/vscode.go:40-51 | With refs named, no start changes a running SSH server, nor unlists it |
| SshGuard.StartCancelsExactly | subsystems/vscode/vscode.go:39-51 | A start cancels a running SSH server if and only if it names no ref and that server is listed under the default id of the port it binds |
| SshGuard.OneServerPerRef | subsystems/vscode/vscode.go:39-51 | Of two running servers of one ref, the older has been taken by a Stop or StopAll or replaced by a task of another kind, and is cancelled or about to be |
| SshGuard.ServingIsAnswered | subsystems/vscode/vscode.go:42-46 | While a server is listed and running, a start with a valid key and its ref is answered 200 with its port and nothing else |
| SshGuard.UnnamedStartCancels | subsystems/vscode/vscode.go:39-51 | A run in which a start without a ref cancels a running server |
| SshGuard.DefaultIdReads | internal/tasks/tasks.go:157-159 | The default id is the kind's initial and the port in decimal without leading zeros: the port can be read back from it |
| SshGuard.EventKeepsGood | internal/tasks/tasks.go:162-207 | Every event, of a start or of anything else in the registry, keeps the mutex, what a start has looked for, and that a replaced server had ended |
| SshGuard.Starts.Select | internal/tasks/tasks.go:197-207 | Exactly the listed tasks of the kind |
| SshGuard.Starts.Find | subsystems/vscode/vscode.go:42-46 | The loop finds the server listed under the ref and running, or there is none |
| SshGuard.Starts.StartServer | subsystems/vscode/vscode.go:31-52 | 400 exactly for a bad key; 200 only with the id and port of a server of the ref that was listed and running meanwhile; 201 with the port bound; 500 only without one; no answer yet only while startMu is held; always on the machine's runs |
| Redial.WaitIsPowerOfTwo | internal/tunnel/tunnel.go:42-54 | The wait after attempt i is min(2^(i-r), 60) seconds, r the attempt the backoff counts from |
| Redial.CountsFromExists | internal/tunnel/tunnel.go:47-49 | There is exactly one such r: the last attempt up to i that lasted over a minute, or the first |
| Redial.ElapsedAgainstOwed | internal/tunnel/tunnel.go:42-54 | The elapsed time and what the next backoff owes are at least 18 seconds an attempt |
| Redial.AttemptsTakeTime | internal/tunnel/tunnel.go:42-54 | n attempts with their waits take at least 18n - 59 seconds, whatever each lasts |
| Redial.BeganInTime | internal/tunnel/tunnel.go:42-54 | So the number of attempts begun before a cancellation is bounded by its time |
| Redial.Redial | internal/tunnel/tunnel.go:40-57 | The first attempt begins at once, each other when the one before and its wait are over, all before the cancellation, and the loop ends because the next would not |
| Tunnels.Parse | internal/tunnel/tunnel.go:59-90 | Accepted if and only if the flags agree, the names are known and not repeated, and args, credential and transport of each listed one are there and no others, and then the listed ones by name; else the error blames one that fails |
| Tunnels.SplitJoin | internal/tunnel/tunnel.go:64-69 | Reading a joined list gives back its names |
| Tunnels.JoinSplit | internal/tunnel/tunnel.go:64-69 | And joining the names read from any list gives back the list, no name holding a comma |
| Tunnels.KindsAreTheListed | internal/tunnel/tunnel.go:71-88 | There is a task for exactly the names listed, in any order |
| Router.RekeyInjective | internal/router/router.go:69-75 | Prefixing two "METHOD path" patterns never makes them one |
| Router.CutPattern | internal/router/router.go:71-71 | A method without a space and its path are cut apart as they were put together |
| Router.CopyIsDetermined | internal/router/router.go:69-75 | Whatever order the map is iterated in, the copy is the table of the prefixed routes laid over what was there |
| Router.OneEntryEach | internal/router/router.go:69-83 | Without collisions there is one entry per route, mapped to its own action |
| Router.EntriesCountRoutes | internal/router/router.go:69-83 | There are as many entries as routes if and only if no two collide |
| Router.LastRouteWins | internal/router/router.go:69-75 | Of routes with one key the last has the entry |
| Router.TableOfTree | internal/router/router.go:69-83 | The keys are exactly the texts method, space, the prefixes from the root down, path, of the tree's routes, each mapped to its own action if none collide |
| Router.Assemble | internal/router/router.go:77-83 | A tree assembled leaf first, table by table, ends with that flattened table at its root |
| Router.Table.Add | internal/router/router.go:69-75 | Every pattern is written once behind the prefix with the action of one that rekeys to it; every other entry stands |
| Router.Table.Mount | internal/router/router.go:81-83 | The child's table behind the prefix, laid over the parent's |
| Dcgm.Gpus.Sample | internal/usage/gpu.go:336-360 | DCGM's values if and only if a live reader answers, else NVML's and one more open; connects less disconnects is 1 exactly while the reader is live; opens are 1 and the NVML samples; every GPU has its entry |
| Dcgm.Gpus.OpenDCGM | internal/usage/gpu.go:252-312 | A live reader if and only if the library loads and connects, lists devices and names, makes both groups, watches, and the entity last named for each GPU of the job joins; every failure after the connection ends it |
| Dcgm.Gpus.Join | internal/usage/gpu.go:295-302 | All the job's GPUs join, each entity with its own UUID, or none counts |
| Dcgm.Gpus.Collect | internal/usage/gpu.go:312-333 | Each value lands at the GPU whose UUID its entity has, whatever DCGM's numbering, and no readable one is lost |
| Dcgm.Gpus.DcgmEntries | internal/usage/gpu.go:342-357 | Every metric key of every GPU holds a reading of the entity with its UUID, or nil exactly if there is none |
| Dcgm.Gpus.NvmlEntries | internal/usage/gpu.go:229-235 | Every metric key of every GPU holds what NVML read of the GPU with its UUID, or nil |
| Dcgm.NamedIsTrue | internal/usage/gpu.go:285-290 | The entity kept for a UUID is one that has it |
| Dcgm.NamedIsLast | internal/usage/gpu.go:285-290 | It is the one the UUID was last given for, and there is none only if it was never given |
| Dcgm.ByUUID | internal/usage/gpu.go:285-290 | The map holds the last entity each UUID was given for, and no other |
| TailBuffer.TailOfTail | internal/tunnel/devtunnel/devtunnel.go:54-62 | Trimming before an append does not change the tail |
| TailBuffer.WrittenInOrder | internal/tunnel/devtunnel/devtunnel.go:54-62 | Each write stands behind all that was written before it |
| TailBuffer.Output.Write | internal/tunnel/devtunnel/devtunnel.go:54-62 | After a write the buffer ends in it, or is its last 65536 bytes, nothing lost while all fits; and it is the tail of everything written |
| TailBuffer.Output.String | internal/tunnel/devtunnel/devtunnel.go:64-68 | The end of everything written, all of it or 65536 bytes |

## Left out

- Registry.Tasks.Wait: a call returns only if the environment lets the task end within the number of turns it is given; that it does in the end is `StopAllProgress`, on whole runs.
- Registry.Tasks.StopAll: the iteration order is a parameter, as Go leaves it open; progress is `StopAllProgress`.
- SshGuard.Starts.Select: the order by id is not modelled, since the loop over it finds at most one match; copies are task indices.
- SshGuard.StartSparesServers: stated for starts that name a ref; the ones that do not are `SshGuard.StartCancelsExactly`.
- Checkpoints.Host.Pause: under the hypotheses above; outside them the marks go wrong as the traces show. The redirections read from /proc and the criu arguments are parameters or absent.
- Checkpoints.Host.Resume: up to the wait for the process; the `criu restore` arguments are absent. A checkpoint whose record cannot be read is the same 404, and cannot arise here.
- ProcessLife.JobsAreRuns: a waiter whose lookup misses its process, which takes a mark and answers at once, is not an event; when that can be is `TaskTheorems.LookupFinds`.
- StopAllProgress.ReturnsExactly: a Run blocked in `tasks.Stop` has no state of its own, and is assumed to return; `ReturnsAsCodeDoes` does not assume it.
- EventLoop.Loaded.Loop: the state is one value, and the goroutine beside the loop is the `Others` it lets move.
- MainProgram.Goroutine.Run: the flags are given as parsed, effects are events of a trace, and StopAll is taken to return; a panic in another goroutine, which ends the process at once, is not modelled.
- Dcgm.Gpus.Sample: which of several values of one entity and field wins, the names of DCGM's groups, and floating-point blanks, which are given as values not read.
- Dcgm.Gpus.constructor: a job without GPUs has no reader at all, and is not modelled.
- Router.Assemble: methods hold no space, as in every pattern of the program; a pattern without one is not covered.
- A crash of Linkspan in the middle of a pause, and a resume in a later job.
- `IsServing`, `Port`, `MarshalJSON`, `Attrs` and `listen`: they compute or belong to the operating system.
- The shell and CRIU command lines, the blank-command check of `shell.exec`, and the generated id of a process.
- `servers.Serve`, `servers.Stop` and the subsystems that only start a task: jupyter, terminal, filesystem.
- HTTP handling, JSON and YAML, logging, installation, `internal/sshd`, `internal/forward`, `internal/tunnel/link`, and the cgroup, process and network counters of `internal/usage`.
