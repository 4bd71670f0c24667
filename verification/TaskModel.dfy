/**
  The task registry of internal/tasks as a state machine.

  A `Sys` is everything the package holds: the tasks ever started (a task is named by its index, standing for its
  pointer), the registry map, the one-slot Failed channel, and the half-finished calls of Wait, Stop and StopAll.
  A `Step` is one atomic action: a critical section under registry.mu, one move of a task's own goroutine, a process
  of the operating system ending, or one channel operation. Every interleaving is a sequence of steps, and every
  choice the environment makes (an error, a pid, a map iteration order, a late dial) is a parameter of a step.

  `fate`, `verdict` and `log` are history: no step reads them to decide anything.
*/
module TaskModel {
  import opened Options

  // ----- one task -----------------------------------------------------------------------------------------------

  datatype Work = RunWork | ServerWork | SpawnWork | ChildWork
  datatype TaskState = Starting | Running | Failed | Exited

  /** Where the task's goroutine stands. */
  datatype Pc =
    | Launching                        // registered; the goroutine has not been scheduled
    | Body                             // in Run, Serve, or the Spawn or Child function that builds the command
    | InChild                          // child(): the command is being started
    | PresetArmed                      // child(): past the hook of a preset pid
    | Dialing                          // spawn(): dialing until the port accepts or the command ends
    | Accepted                         // spawn(): the port accepted, the state not yet set
    | AwaitExit                        // child() in cmd.Wait, or spawn() receiving from exited
    | Returned(result: Option<string>) // Run has returned or panicked
    | Recorded(result: Option<string>) // state and error written
    | Fatal(result: Option<string>)    // found fatal; about to send on Failed
    | Unwinding                        // about to cancel its own context
    | Closing                          // about to close done
    | Ended                            // done is closed

  /** Where the fork path stands: inline for a Child, on its own goroutine (Exec) for a Spawn. */
  datatype ForkPc =
    | Idle | Forking | Forked | Watched
    | Reaped(exit: Option<string>) | Released(exit: Option<string>) | Over(exit: Option<string>)

  /** The child process itself. */
  datatype Proc = NoProc | Alive(pid: nat) | Dead(exit: Option<string>) | Gone

  /** A context.AfterFunc: started at once on a done context, and at most once. */
  datatype Hook = Off | Armed | Fired | Disarmed

  /** How a task left the registry, if it did. */
  datatype Fate = Listed | Replaced(successor: nat) | Unlisted(caller: nat) | Taken(caller: nat)

  /** What line 180 decided about the error of the task. */
  datatype Verdict = Undecided | Silent | Loud

  /** What a Start registers, its address already bound. A preset pid is 0 when there is none. */
  datatype Spec = Spec(id: string, kind: string, port: nat, work: Work, preset: nat)
  {
    /** A child process, whose end is observed and never fatal. */
    predicate Observed() { work.SpawnWork? || work.ChildWork? }
  }

  datatype Child = Child(fork: ForkPc, proc: Proc, pid: nat, hook: Hook, presetHook: Hook)

  datatype Task = Task(
    spec: Spec,
    state: TaskState, error: string, pid: nat,   // guarded by registry.mu
    cancelled: bool, pc: Pc, child: Child,
    waiting: Option<nat>,                        // the Wait call its Run is blocked in
    fate: Fate, verdict: Verdict)
  {
    predicate Done() { pc.Ended? }

    predicate Terminal() { state.Failed? || state.Exited? }

    /** What a caller of Wait sees. */
    function Copy(): TaskCopy { TaskCopy(spec, state, error, pid) }
  }

  datatype TaskCopy = TaskCopy(spec: Spec, state: TaskState, error: string, pid: nat)

  /** cmp.Or on pids. */
  function PublishedPid(preset: nat, forked: nat): nat {
    if preset != 0 then preset else forked
  }

  function Register(h: Hook, cancelled: bool): Hook { if cancelled then Fired else Armed }
  function Deregister(h: Hook): Hook { if h.Armed? then Disarmed else h }
  function Trigger(h: Hook): Hook { if h.Armed? then Fired else h }

  function Kill(c: Child): Child { c.(hook := Trigger(c.hook), presetHook := Trigger(c.presetHook)) }

  /** Cancelling a context starts every registered AfterFunc. */
  function Cancel(t: Task): Task { t.(cancelled := true, child := Kill(t.child)) }

  /** The moves of a task's own goroutines, and the end of its process. */
  datatype Move =
    | Launch
    | Return(result: Option<string>)   // Run or Serve returns or panics
    | Prepared                         // the Spawn or Child function returned a command
    | Refused(error: string)           // it returned an error or panicked
    | ForkFails(error: string)
    | Fork(pid: nat)
    | Watch                            // the kill hook is registered
    | ArmPreset
    | PublishPid
    | ProcExits(exit: Option<string>)
    | Reap                             // cmd.Wait returns
    | UnwatchPreset                    // the deferred stop of a preset pid's hook, the later of the two, runs first
    | Unwatch                          // then that of the kill hook
    | Accept                           // a dial succeeds, however late
    | SetRunning
    | EarlyExit(note: string)          // exited before the port accepted
    | ChildReturns
    | Record                           // setState
    | Judge                            // line 180
    | CancelSelf
    | Close

  predicate CanMove(t: Task, m: Move) {
    match m
    case Launch => t.pc.Launching?
    case Return(_) => t.pc.Body? && !t.spec.Observed() && t.waiting.None?
    case Prepared => t.pc.Body? && t.spec.Observed()
    case Refused(_) => t.pc.Body? && t.spec.Observed()
    case ForkFails(_) => t.child.fork.Forking?
    case Fork(pid) => t.child.fork.Forking? && pid > 0
    case Watch => t.child.fork.Forked?
    case ArmPreset => t.pc.InChild? && t.child.fork.Watched?
    case PublishPid => t.pc.PresetArmed?
    case ProcExits(_) => t.child.proc.Alive?
    case Reap => t.child.fork.Watched? && t.child.proc.Dead? && (t.spec.work.ChildWork? ==> t.pc.AwaitExit?)
    case UnwatchPreset => t.child.fork.Reaped?
    case Unwatch => t.child.fork.Released?
    case Accept => t.pc.Dialing?
    case SetRunning => t.pc.Accepted?
    case EarlyExit(_) => t.pc.Dialing? && t.child.fork.Over?
    case ChildReturns => (t.pc.AwaitExit? || t.pc.InChild?) && t.child.fork.Over?
    case Record => t.pc.Returned?
    case Judge => t.pc.Recorded?
    case CancelSelf => t.pc.Unwinding?
    case Close => t.pc.Closing?
  }

  function Moved(t: Task, m: Move): Task
    requires CanMove(t, m)
  {
    var c := t.child;
    match m
    case Launch => t.(pc := Body)
    case Return(result) => t.(pc := Returned(result))
    case Prepared => t.(pc := if t.spec.work.ChildWork? then InChild else Dialing, child := c.(fork := Forking))
    case Refused(error) => t.(pc := Returned(Some(error)))
    case ForkFails(error) => t.(child := c.(fork := Over(Some(error))))
    case Fork(pid) => t.(child := c.(fork := Forked, proc := Alive(pid), pid := pid))
    case Watch => t.(child := c.(fork := Watched, hook := Register(c.hook, t.cancelled)))
    case ArmPreset =>
      t.(pc := PresetArmed,
         child := if t.spec.preset != 0 then c.(presetHook := Register(c.presetHook, t.cancelled)) else c)
    case PublishPid => t.(pc := AwaitExit, state := Running, pid := PublishedPid(t.pid, c.pid))
    case ProcExits(exit) => t.(child := c.(proc := Dead(exit)))
    case Reap => t.(child := c.(fork := Reaped(c.proc.exit), proc := Gone))
    case UnwatchPreset => t.(child := c.(fork := Released(c.fork.exit), presetHook := Deregister(c.presetHook)))
    case Unwatch => t.(child := c.(fork := Over(c.fork.exit), hook := Deregister(c.hook)))
    case Accept => t.(pc := Accepted)
    case SetRunning => t.(pc := AwaitExit, state := Running)
    case EarlyExit(note) => t.(pc := Returned(Some(note)))
    case ChildReturns => t.(pc := Returned(c.fork.exit))
    case Record =>
      var r := t.pc.result;
      if r.Some? then t.(pc := Recorded(r), state := Failed, error := r.value)
      else t.(pc := Recorded(r), state := Exited)
    case Judge =>
      var r := t.pc.result;
      if r.Some? && !t.cancelled && !t.spec.Observed() then t.(pc := Fatal(r), verdict := Loud)
      else t.(pc := Unwinding, verdict := Silent)
    case CancelSelf => Cancel(t).(pc := Closing)
    case Close => t.(pc := Ended)
  }

  // ----- the package --------------------------------------------------------------------------------------------

  /** A call in progress or returned. StopAll's order is the map's iteration order, chosen by the environment. */
  datatype Caller =
    | Waiting(id: string, target: nat, owner: Option<nat>)
    | Waited(target: nat, copy: TaskCopy)
    | WaitedNone
    | Stopping(target: nat, cancelled: bool)
    | Stopped(target: nat)
    | StoppedNone
    | StoppingAll(order: seq<nat>, next: nat, cancelled: bool, born: nat)

  datatype ChanEvent = Attempt(task: nat, error: string) | Read

  datatype Sys = Sys(
    tasks: seq<Task>, reg: map<string, nat>, callers: seq<Caller>,
    failed: Option<ChanEvent>, log: seq<ChanEvent>)

  const INIT := Sys([], map[], [], None, [])

  function Fresh(p: Spec): Task {
    Task(p, if p.Observed() then Starting else Running, "", p.preset, false, Launching,
         Child(Idle, NoProc, 0, Off, Off), None, Listed, Undecided)
  }

  datatype Step =
    | Start(spec: Spec)
    | Acts(t: nat, move: Move)                       // a move of task t
    | Send(t: nat)                                  // the non-blocking send on Failed
    | Drain                                         // main receives from Failed
    | WaitBegin(id: string, owner: Option<nat>)     // owner: the task whose Run is blocked by this Wait
    | WaitEnd(c: nat)
    | StopBegin(id: string)
    | StopCancel(c: nat)
    | StopEnd(c: nat)
    | StopAllBegin(order: seq<nat>)
    | StopAllCancel(c: nat)
    | StopAllAdvance(c: nat)
    | Idling

  predicate IsTask(s: Sys, t: nat) { t < |s.tasks| }

  predicate MayWait(t: Task) { t.pc.Body? && !t.spec.Observed() && t.waiting.None? }

  /** order lists every registered task once, in any order. */
  ghost predicate Snapshot(s: Sys, order: seq<nat>) {
    && (forall i, j | 0 <= i < j < |order| :: order[i] != order[j])
    && (forall k | 0 <= k < |order| :: exists id | id in s.reg :: s.reg[id] == order[k])
    && (forall id | id in s.reg :: s.reg[id] in order)
  }

  ghost predicate Enabled(s: Sys, step: Step) {
    match step
    case Start(_) => true
    case Acts(t, m) => IsTask(s, t) && CanMove(s.tasks[t], m)
    case Send(t) => IsTask(s, t) && s.tasks[t].pc.Fatal? && s.tasks[t].pc.result.Some?
    case Drain => s.failed.Some?
    case WaitBegin(_, owner) => owner.Some? ==> IsTask(s, owner.value) && MayWait(s.tasks[owner.value])
    case WaitEnd(c) =>
      && c < |s.callers| && s.callers[c].Waiting? && IsTask(s, s.callers[c].target)
      && s.tasks[s.callers[c].target].Done()
      && (s.callers[c].owner.Some? ==> IsTask(s, s.callers[c].owner.value))
    case StopBegin(_) => true
    case StopCancel(c) =>
      && c < |s.callers| && s.callers[c].Stopping? && !s.callers[c].cancelled && IsTask(s, s.callers[c].target)
    case StopEnd(c) =>
      && c < |s.callers| && s.callers[c].Stopping? && s.callers[c].cancelled && IsTask(s, s.callers[c].target)
      && s.tasks[s.callers[c].target].Done()
    case StopAllBegin(order) => Snapshot(s, order)
    case StopAllCancel(c) =>
      && c < |s.callers| && s.callers[c].StoppingAll? && s.callers[c].next < |s.callers[c].order|
      && !s.callers[c].cancelled && IsTask(s, s.callers[c].order[s.callers[c].next])
    case StopAllAdvance(c) =>
      && c < |s.callers| && s.callers[c].StoppingAll? && s.callers[c].next < |s.callers[c].order|
      && s.callers[c].cancelled && IsTask(s, s.callers[c].order[s.callers[c].next])
      && s.tasks[s.callers[c].order[s.callers[c].next]].Done()
    case Idling => true
  }

  /** Lines 162-167: cancel the earlier namesake, if any, and register the task. */
  function DoStart(s: Sys, p: Spec): Sys {
    var n := |s.tasks|;
    var kept :=
      if p.id in s.reg && IsTask(s, s.reg[p.id])
      then s.tasks[s.reg[p.id] := Cancel(s.tasks[s.reg[p.id]]).(fate := Replaced(n))]
      else s.tasks;
    s.(tasks := kept + [Fresh(p)], reg := s.reg[p.id := n])
  }

  /** Lines 181-184: the slot keeps what it holds. */
  function DoSend(s: Sys, t: nat): Sys
    requires IsTask(s, t) && s.tasks[t].pc.Fatal? && s.tasks[t].pc.result.Some?
  {
    var e := Attempt(t, s.tasks[t].pc.result.value);
    s.(tasks := s.tasks[t := s.tasks[t].(pc := Unwinding)],
       failed := if s.failed.None? then Some(e) else s.failed,
       log := s.log + [e])
  }

  /** Lines 221-226: the lookup, under the lock. */
  function DoWaitBegin(s: Sys, id: string, owner: Option<nat>): Sys
    requires owner.Some? ==> IsTask(s, owner.value)
  {
    if id !in s.reg then s.(callers := s.callers + [WaitedNone])
    else
      var target := s.reg[id];
      s.(callers := s.callers + [Waiting(id, target, owner)],
         tasks := if owner.Some? then s.tasks[owner.value := s.tasks[owner.value].(waiting := Some(|s.callers|))]
                  else s.tasks)
  }

  /** The Run blocked in a Wait, if any, goes on. */
  function Release(s: Sys, owner: Option<nat>): Sys
    requires owner.Some? ==> IsTask(s, owner.value)
  {
    if owner.Some? then s.(tasks := s.tasks[owner.value := s.tasks[owner.value].(waiting := None)]) else s
  }

  /** Lines 230-232: unlist the task unless a repeated id replaced it. */
  function Unlist(s: Sys, id: string, t: nat, c: nat): Sys
    requires IsTask(s, t)
  {
    if id in s.reg && s.reg[id] == t
    then s.(reg := s.reg - {id}, tasks := s.tasks[t := s.tasks[t].(fate := Unlisted(c))])
    else s
  }

  /** Lines 228-233: the second critical section of Wait, which also copies the task. */
  function DoWaitEnd(s: Sys, c: nat): Sys
    requires c < |s.callers| && s.callers[c].Waiting? && IsTask(s, s.callers[c].target)
    requires s.callers[c].owner.Some? ==> IsTask(s, s.callers[c].owner.value)
  {
    var w := s.callers[c];
    var s' := Unlist(Release(s, w.owner), w.id, w.target, c);
    s'.(callers := s.callers[c := Waited(w.target, s.tasks[w.target].Copy())])
  }

  /** Lines 237-243. */
  function DoStopBegin(s: Sys, id: string): Sys {
    if id !in s.reg || !IsTask(s, s.reg[id]) then s.(callers := s.callers + [StoppedNone])
    else
      var t := s.reg[id];
      s.(callers := s.callers + [Stopping(t, false)],
         reg := s.reg - {id},
         tasks := s.tasks[t := s.tasks[t].(fate := Taken(|s.callers|))])
  }

  /** Lines 250-253: the registry is emptied in one critical section. */
  function DoStopAllBegin(s: Sys, order: seq<nat>): Sys {
    s.(callers := s.callers + [StoppingAll(order, 0, false, |s.tasks|)],
       reg := map[],
       tasks := seq(|s.tasks|, t requires 0 <= t < |s.tasks| =>
         if t in order then s.tasks[t].(fate := Taken(|s.callers|)) else s.tasks[t]))
  }

  ghost function Next(s: Sys, step: Step): Sys
    requires Enabled(s, step)
  {
    match step
    case Start(p) => DoStart(s, p)
    case Acts(t, m) => s.(tasks := s.tasks[t := Moved(s.tasks[t], m)])
    case Send(t) => DoSend(s, t)
    case Drain => s.(failed := None, log := s.log + [Read])
    case WaitBegin(id, owner) => DoWaitBegin(s, id, owner)
    case WaitEnd(c) => DoWaitEnd(s, c)
    case StopBegin(id) => DoStopBegin(s, id)
    case StopCancel(c) =>
      var t := s.callers[c].target;
      s.(callers := s.callers[c := Stopping(t, true)], tasks := s.tasks[t := Cancel(s.tasks[t])])
    case StopEnd(c) => s.(callers := s.callers[c := Stopped(s.callers[c].target)])
    case StopAllBegin(order) => DoStopAllBegin(s, order)
    case StopAllCancel(c) =>
      var t := s.callers[c].order[s.callers[c].next];
      s.(callers := s.callers[c := s.callers[c].(cancelled := true)], tasks := s.tasks[t := Cancel(s.tasks[t])])
    case StopAllAdvance(c) =>
      s.(callers := s.callers[c := s.callers[c].(next := s.callers[c].next + 1, cancelled := false)])
    case Idling => s
  }

  // ----- runs ---------------------------------------------------------------------------------------------------

  /** steps can be taken one after another from s. */
  ghost predicate CanRun(s: Sys, steps: seq<Step>)
    decreases |steps|
  {
    steps == [] || (Enabled(s, steps[0]) && CanRun(Next(s, steps[0]), steps[1..]))
  }

  ghost function After(s: Sys, steps: seq<Step>): Sys
    requires CanRun(s, steps)
    decreases |steps|
  {
    if steps == [] then s else After(Next(s, steps[0]), steps[1..])
  }

  ghost predicate Reaches(s: Sys, s': Sys) {
    exists steps: seq<Step> :: CanRun(s, steps) && After(s, steps) == s'
  }

  /** Some interleaving of calls, goroutines and process ends leads from an empty registry to s. */
  ghost predicate Reachable(s: Sys) { Reaches(INIT, s) }
}
