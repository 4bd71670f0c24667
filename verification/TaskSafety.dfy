/**
  What every step of the task registry keeps, and what holds in every reachable state: no task is orphaned, the map is
  latest-wins, a state moves only forward, a child is reaped, and the Failed channel keeps the first fatal error.
*/
module TaskSafety {
  import opened Options
  import opened TaskModel

  // ----- the invariant of one task ------------------------------------------------------------------------------

  predicate PastRecord(pc: Pc) {
    pc.Recorded? || pc.Fatal? || pc.Unwinding? || pc.Closing? || pc.Ended?
  }

  predicate PastReturn(pc: Pc) { pc.Returned? || PastRecord(pc) }

  /** The state follows the goroutine, and the end of the goroutine follows cancellation. */
  predicate LifeOk(t: Task) {
    && (t.pc.Closing? || t.pc.Ended? ==> t.cancelled)
    && (PastRecord(t.pc) <==> t.Terminal())
    && (t.state.Starting? ==> t.spec.Observed())
    && (t.pc.AwaitExit? ==> t.state.Running? && t.spec.Observed())
    && (t.pc.Returned? && t.pc.result.None? ==> t.state.Running?)
    && (t.pc.InChild? || t.pc.PresetArmed? ==> t.spec.work.ChildWork?)
    && (t.pc.Dialing? || t.pc.Accepted? ==> t.spec.work.SpawnWork?)
    && (t.waiting.Some? ==> t.pc.Body? && !t.spec.Observed())
  }

  /** An error is recorded before it is judged, and judged before it is sent. */
  predicate VerdictOk(t: Task) {
    && (t.pc.Recorded? ==> (t.pc.result.Some? <==> t.state.Failed?))
    && (t.pc.Fatal? ==> t.pc.result.Some? && t.verdict.Loud?)
    && (t.pc.Recorded? || t.pc.Fatal? ==> (t.pc.result.Some? ==> t.error == t.pc.result.value))
    && (t.verdict.Undecided? <==> !(t.pc.Fatal? || t.pc.Unwinding? || t.pc.Closing? || t.pc.Ended?))
    && (t.verdict.Loud? ==> !t.spec.Observed() && t.state.Failed?)
    && (t.verdict.Silent? && t.state.Failed? && !t.spec.Observed() ==> t.cancelled)
  }

  /** Waited for, the hooks not yet both deregistered. */
  predicate Reaping(f: ForkPc) { f.Reaped? || f.Released? }

  /** The fork path follows the goroutine. */
  predicate ForkPcOk(t: Task) {
    && (!t.spec.Observed() || t.pc.Launching? || t.pc.Body? ==> t.child.fork.Idle?)
    && (t.pc.InChild? ==> !t.child.fork.Idle? && !Reaping(t.child.fork) && (t.child.fork.Over? ==> t.child.proc.NoProc?))
    && (t.pc.PresetArmed? ==> t.child.fork.Watched?)
    && (t.pc.AwaitExit? && t.spec.work.ChildWork? ==>
          t.child.fork.Watched? || Reaping(t.child.fork) || (t.child.fork.Over? && t.child.proc.Gone?))
    && (t.pc.AwaitExit? || t.pc.Dialing? || t.pc.Accepted? ==> !t.child.fork.Idle?)
    && (PastReturn(t.pc) ==> t.child.fork.Idle? || t.child.fork.Over?)
  }

  /** The process follows the fork path. */
  predicate ProcOk(t: Task) {
    && (t.child.fork.Over? && t.child.proc.NoProc? ==> t.child.fork.exit.Some?)
    && (t.child.fork.Idle? || t.child.fork.Forking? ==> t.child.proc.NoProc?)
    && (t.child.fork.Forked? || t.child.fork.Watched? ==> t.child.proc.Alive? || t.child.proc.Dead?)
    && (Reaping(t.child.fork) ==> t.child.proc.Gone?)
    && (t.child.fork.Over? ==> t.child.proc.NoProc? || t.child.proc.Gone?)
    && (t.child.proc.Alive? ==> t.child.proc.pid == t.child.pid)
  }

  predicate ForkOk(t: Task) { ForkPcOk(t) && ProcOk(t) }

  predicate Live(h: Hook) { h.Armed? || h.Fired? }

  /** A hook is registered once its process exists, and an armed one means the context is not done. */
  predicate HookOk(t: Task) {
    && (t.child.fork.Idle? || t.child.fork.Forking? || t.child.fork.Forked? || (t.child.fork.Over? && t.child.proc.NoProc?)
        ==> t.child.hook.Off?)
    && (t.child.fork.Watched? || Reaping(t.child.fork) ==> Live(t.child.hook))
    && (t.child.fork.Over? && t.child.proc.Gone? ==> t.child.hook.Fired? || t.child.hook.Disarmed?)
    && (!t.spec.work.ChildWork? || t.spec.preset == 0 || t.pc.Launching? || t.pc.Body? || t.pc.InChild?
        ==> t.child.presetHook.Off?)
    && ((t.pc.PresetArmed? || t.pc.AwaitExit?) && t.spec.work.ChildWork? && t.spec.preset != 0
        && !t.child.fork.Over? && !t.child.fork.Released?
        ==> Live(t.child.presetHook))
    && (t.child.hook.Armed? || t.child.presetHook.Armed? ==> !t.cancelled)
    && (t.child.hook.Fired? || t.child.presetHook.Fired? ==> t.cancelled)
  }

  /** A running Child has a pid, the preset one if there is one. */
  predicate PidOk(t: Task) {
    && (!t.child.proc.NoProc? ==> t.child.pid > 0)
    && (t.spec.preset != 0 ==> t.pid == t.spec.preset)
    && (t.pid == t.spec.preset || (t.pid == t.child.pid && t.spec.work.ChildWork?))
    && (t.child.fork.Idle? || t.child.fork.Forking? ==> t.pid == t.spec.preset)
    && (t.spec.work.ChildWork? && t.state.Running? ==> t.pid != 0)
  }

  /** What the task of a command comes back with: an error if there was no command, else the command's own end, or the
      error of a Spawn that ended before its port accepted. */
  predicate EndsWith(t: Task, result: Option<string>) {
    match t.child.fork
    case Idle => result.Some?
    case Over(exit) => result == exit || (t.spec.work.SpawnWork? && result.Some?)
    case _ => false
  }

  /** The task of a command runs until it comes back with the command's end, and is recorded with what it came back with. */
  predicate EndOk(t: Task) {
    t.spec.Observed() ==>
      && (t.state.Running? ==> t.pc.AwaitExit? || (t.pc.Returned? && t.child.fork.Over? && t.pc.result == t.child.fork.exit))
      && (t.pc.Returned? ==> EndsWith(t, t.pc.result))
      && (t.state.Exited? ==> EndsWith(t, None))
      && (t.state.Failed? ==> EndsWith(t, Some(t.error)))
  }

  predicate TaskOk(t: Task) { LifeOk(t) && VerdictOk(t) && ForkOk(t) && HookOk(t) && PidOk(t) && EndOk(t) }

  lemma MoveKeepsLife(t: Task, m: Move)
    requires LifeOk(t) && ForkOk(t) && CanMove(t, m)
    ensures LifeOk(Moved(t, m))
  {
  }

  lemma MoveKeepsVerdict(t: Task, m: Move)
    requires LifeOk(t) && VerdictOk(t) && CanMove(t, m)
    ensures VerdictOk(Moved(t, m))
  {
  }

  lemma MoveKeepsForkPc(t: Task, m: Move)
    requires LifeOk(t) && ForkOk(t) && CanMove(t, m)
    ensures ForkPcOk(Moved(t, m))
  {
  }

  lemma MoveKeepsFork(t: Task, m: Move)
    requires LifeOk(t) && ForkOk(t) && CanMove(t, m)
    ensures ForkOk(Moved(t, m))
  {
    MoveKeepsForkPc(t, m);
    hide ForkPcOk, LifeOk;
  }

  lemma MoveKeepsHook(t: Task, m: Move)
    requires LifeOk(t) && ForkOk(t) && HookOk(t) && CanMove(t, m)
    ensures HookOk(Moved(t, m))
  {
  }

  lemma MoveKeepsPid(t: Task, m: Move)
    requires LifeOk(t) && ForkOk(t) && PidOk(t) && CanMove(t, m)
    ensures PidOk(Moved(t, m))
  {
  }

  lemma MoveKeepsEnd(t: Task, m: Move)
    requires LifeOk(t) && ForkOk(t) && EndOk(t) && CanMove(t, m)
    ensures EndOk(Moved(t, m))
  {
  }

  lemma MoveKeepsTask(t: Task, m: Move)
    requires TaskOk(t) && CanMove(t, m)
    ensures TaskOk(Moved(t, m))
  {
    MoveKeepsLife(t, m);
    MoveKeepsVerdict(t, m);
    MoveKeepsFork(t, m);
    MoveKeepsHook(t, m);
    MoveKeepsPid(t, m);
    MoveKeepsEnd(t, m);
  }

  // ----- the invariant of the package ---------------------------------------------------------------------------

  /** The map holds exactly the listed tasks, each under its own id. */
  ghost predicate MapOk(s: Sys) {
    && (forall id | id in s.reg :: IsTask(s, s.reg[id]) && s.tasks[s.reg[id]].spec.id == id && s.tasks[s.reg[id]].fate.Listed?)
    && (forall t | 0 <= t < |s.tasks| && s.tasks[t].fate.Listed? :: s.tasks[t].spec.id in s.reg && s.reg[s.tasks[t].spec.id] == t)
  }

  /** Only the newest task of an id can be listed; one replaced has a newer namesake, one unlisted is done. */
  ghost predicate FateOk(s: Sys) {
    && (forall t | 0 <= t < |s.tasks| && s.tasks[t].spec.id in s.reg :: t <= s.reg[s.tasks[t].spec.id])
    && (forall t | 0 <= t < |s.tasks| && s.tasks[t].fate.Replaced? ::
          t < s.tasks[t].fate.successor < |s.tasks| && s.tasks[s.tasks[t].fate.successor].spec.id == s.tasks[t].spec.id)
    && (forall t | 0 <= t < |s.tasks| && s.tasks[t].fate.Unlisted? :: s.tasks[t].Done())
  }

  /** The caller has taken t and has yet to cancel it. */
  predicate Pending(c: Caller, t: nat) {
    || (c.Stopping? && c.target == t && !c.cancelled)
    || (c.StoppingAll? && c.next < |c.order| && t in c.order[c.next..] && !(c.cancelled && t == c.order[c.next]))
  }

  /** Registered, or cancelled, or held by a Stop or StopAll that has yet to cancel it. */
  predicate Accounted(s: Sys, t: nat)
    requires IsTask(s, t)
  {
    var k := s.tasks[t];
    || k.cancelled
    || k.fate.Listed?
    || (k.fate.Taken? && k.fate.caller < |s.callers| && Pending(s.callers[k.fate.caller], t))
  }

  ghost predicate CallerOk(s: Sys, c: nat)
    requires c < |s.callers|
  {
    match s.callers[c]
    case Waiting(id, t, owner) => IsTask(s, t) && s.tasks[t].spec.id == id && (owner.Some? ==> IsTask(s, owner.value))
    case Waited(t, copy) =>
      IsTask(s, t) && s.tasks[t].Done() && copy == s.tasks[t].Copy() && !s.tasks[t].fate.Listed?
    case WaitedNone => true
    case Stopping(t, cancelled) =>
      IsTask(s, t) && s.tasks[t].fate == Taken(c) && (cancelled ==> s.tasks[t].cancelled)
    case Stopped(t) => IsTask(s, t) && s.tasks[t].fate == Taken(c) && s.tasks[t].Done()
    case StoppedNone => true
    case StoppingAll(order, next, cancelled, born) =>
      && born <= |s.tasks| && next <= |order|
      && (forall i, j | 0 <= i < j < |order| :: order[i] != order[j])
      && (forall k | 0 <= k < |order| :: order[k] < born && s.tasks[order[k]].fate == Taken(c))
      && (forall k | 0 <= k < next :: s.tasks[order[k]].Done())
      && (cancelled ==> next < |order| && s.tasks[order[next]].cancelled)
      && (forall t | 0 <= t < born && t !in order ::
            s.tasks[t].cancelled || (s.tasks[t].fate.Taken? && s.tasks[t].fate.caller < c))
  }

  /** The call has taken t out of the registry: a Stop or StopAll holding it, or a returned Wait on it. */
  predicate Took(c: Caller, t: nat) {
    || ((c.Stopping? || c.Stopped? || c.Waited?) && c.target == t)
    || (c.StoppingAll? && t in c.order)
  }

  /** A task that left the registry without being replaced was taken by the call it names. */
  ghost predicate TakersOk(s: Sys) {
    forall t | 0 <= t < |s.tasks| && (s.tasks[t].fate.Taken? || s.tasks[t].fate.Unlisted?) ::
      s.tasks[t].fate.caller < |s.callers| && Took(s.callers[s.tasks[t].fate.caller], t)
  }

  /** The Wait a Run is blocked in and the Run it blocks name each other. */
  ghost predicate OwnersOk(s: Sys) {
    && (forall c | 0 <= c < |s.callers| && s.callers[c].Waiting? && s.callers[c].owner.Some? ::
          IsTask(s, s.callers[c].owner.value) && s.tasks[s.callers[c].owner.value].waiting == Some(c))
    && (forall t | 0 <= t < |s.tasks| && s.tasks[t].waiting.Some? ::
          var c := s.tasks[t].waiting.value;
          c < |s.callers| && s.callers[c].Waiting? && s.callers[c].owner == Some(t))
  }

  /** What has been sent on Failed since it was last read. */
  function SinceRead(log: seq<ChanEvent>): (r: seq<ChanEvent>)
    ensures forall k | 0 <= k < |r| :: r[k].Attempt?
  {
    if log == [] || log[|log| - 1].Read? then [] else SinceRead(log[..|log| - 1]) + [log[|log| - 1]]
  }

  /** The task found its error fatal and has sent it. */
  predicate Loud(t: Task) { t.verdict.Loud? && !t.pc.Fatal? }

  /** The slot holds the first error sent since the last read, and every send is one a task made and left. */
  ghost predicate ChanOk(s: Sys) {
    && s.failed == (if SinceRead(s.log) == [] then None else Some(SinceRead(s.log)[0]))
    && (forall k | 0 <= k < |s.log| && s.log[k].Attempt? ::
          && IsTask(s, s.log[k].task) && Loud(s.tasks[s.log[k].task])
          && s.log[k].error == s.tasks[s.log[k].task].error)
    && (forall t | 0 <= t < |s.tasks| && Loud(s.tasks[t]) ::
          Attempt(t, s.tasks[t].error) in s.log)
    && (forall i, j | 0 <= i < j < |s.log| && s.log[i].Attempt? && s.log[j].Attempt? :: s.log[i].task != s.log[j].task)
  }

  ghost predicate TasksOk(s: Sys) { forall t | 0 <= t < |s.tasks| :: TaskOk(s.tasks[t]) }

  ghost predicate NoOrphans(s: Sys) { forall t | 0 <= t < |s.tasks| :: Accounted(s, t) }

  ghost predicate CallersOk(s: Sys) { forall c | 0 <= c < |s.callers| :: CallerOk(s, c) }

  ghost predicate Inv(s: Sys) {
    TasksOk(s) && MapOk(s) && FateOk(s) && NoOrphans(s) && CallersOk(s) && TakersOk(s) && OwnersOk(s) && ChanOk(s)
  }

  // ----- how one step changes one task --------------------------------------------------------------------------

  /** Starting, running, then failed or exited; or starting straight to failed. */
  predicate Forward(a: TaskState, b: TaskState) {
    || a == b
    || (a.Starting? && (b.Running? || b.Failed?))
    || (a.Running? && (b.Failed? || b.Exited?))
  }

  /** What any number of forward moves allows: a terminal state is final. */
  predicate Later(a: TaskState, b: TaskState) {
    a == b || a.Starting? || (a.Running? && (b.Failed? || b.Exited?))
  }

  predicate Evolves(t: Task, t': Task) {
    && t'.spec == t.spec
    && (t.cancelled ==> t'.cancelled)
    && (t.Done() ==> t'.Done() && t'.Copy() == t.Copy())
    && (!t.fate.Listed? ==> t'.fate == t.fate)
    && Later(t.state, t'.state)
    && (t.verdict.Loud? ==> t'.verdict.Loud? && t'.error == t.error && (!t.pc.Fatal? ==> !t'.pc.Fatal?))
  }

  lemma MoveEvolves(t: Task, m: Move)
    requires TaskOk(t) && CanMove(t, m)
    ensures Evolves(t, Moved(t, m)) && Forward(t.state, Moved(t, m).state)
  {
  }

  lemma StepForward(s: Sys, step: Step, t: nat)
    requires Enabled(s, step) && IsTask(s, t) && TaskOk(s.tasks[t])
    ensures IsTask(Next(s, step), t) && Forward(s.tasks[t].state, Next(s, step).tasks[t].state)
  {
    if step.Acts? && step.t == t { MoveEvolves(s.tasks[t], step.move); }
    hide TaskOk, CanMove, Moved;
  }

  /** Cancelling a task, and taking a listed one off the map, in any combination. */
  lemma CancelEvolves(t: Task, f: Fate)
    requires TaskOk(t) && (t.fate.Listed? || f == t.fate)
    ensures Evolves(t, t.(fate := f)) && TaskOk(t.(fate := f))
    ensures Evolves(t, Cancel(t).(fate := f)) && TaskOk(Cancel(t).(fate := f))
  {
  }

  lemma SameEvolves(t: Task)
    ensures Evolves(t, t)
  {
  }

  lemma EvolvesTransitive(t: Task, t': Task, t'': Task)
    requires Evolves(t, t') && Evolves(t', t'')
    ensures Evolves(t, t'')
  {
  }

  lemma WaitEvolves(t: Task, w: Option<nat>)
    requires TaskOk(t) && (w.Some? ==> MayWait(t))
    ensures Evolves(t, t.(waiting := w)) && TaskOk(t.(waiting := w))
  {
  }

  lemma SendEvolves(t: Task)
    requires TaskOk(t) && t.pc.Fatal?
    ensures Evolves(t, t.(pc := Unwinding)) && TaskOk(t.(pc := Unwinding))
  {
  }

  /** What is common to every step: each earlier task evolves, and a new one is well formed. */
  ghost predicate Grows(s: Sys, s': Sys) {
    && |s.tasks| <= |s'.tasks|
    && (forall t | 0 <= t < |s.tasks| :: Evolves(s.tasks[t], s'.tasks[t]))
    && (forall t | 0 <= t < |s'.tasks| :: TaskOk(s'.tasks[t]))
  }

  lemma StartGrows(s: Sys, p: Spec)
    requires TasksOk(s) && MapOk(s)
    ensures Grows(s, DoStart(s, p))
  {
    if p.id in s.reg {
      CancelEvolves(s.tasks[s.reg[p.id]], Replaced(|s.tasks|));
    }
  }

  lemma ReleaseGrows(s: Sys, owner: Option<nat>)
    requires TasksOk(s) && (owner.Some? ==> IsTask(s, owner.value))
    ensures Grows(s, Release(s, owner))
  {
    if owner.Some? { WaitEvolves(s.tasks[owner.value], None); }
    hide TaskOk;
  }

  lemma UnlistGrows(s: Sys, id: string, t: nat, c: nat)
    requires TasksOk(s) && MapOk(s) && IsTask(s, t)
    ensures Grows(s, Unlist(s, id, t, c))
  {
    if id in s.reg && s.reg[id] == t { CancelEvolves(s.tasks[t], Unlisted(c)); }
    hide TaskOk;
  }

  lemma GrowsTransitive(s: Sys, s': Sys, s'': Sys)
    requires Grows(s, s') && Grows(s', s'')
    ensures Grows(s, s'')
  {
    forall t | 0 <= t < |s.tasks| ensures Evolves(s.tasks[t], s''.tasks[t]) {
      assert Evolves(s.tasks[t], s'.tasks[t]) && Evolves(s'.tasks[t], s''.tasks[t]);
      EvolvesTransitive(s.tasks[t], s'.tasks[t], s''.tasks[t]);
    }
  }

  lemma ReleaseKeepsMap(s: Sys, owner: Option<nat>)
    requires MapOk(s) && FateOk(s) && (owner.Some? ==> IsTask(s, owner.value))
    ensures MapOk(Release(s, owner)) && FateOk(Release(s, owner))
  {
  }

  lemma WaitEndGrows(s: Sys, c: nat)
    requires TasksOk(s) && MapOk(s) && FateOk(s) && Enabled(s, WaitEnd(c))
    ensures Grows(s, DoWaitEnd(s, c))
  {
    var w := s.callers[c];
    ReleaseGrows(s, w.owner);
    ReleaseKeepsMap(s, w.owner);
    UnlistGrows(Release(s, w.owner), w.id, w.target, c);
    GrowsTransitive(s, Release(s, w.owner), Unlist(Release(s, w.owner), w.id, w.target, c));
    hide TaskOk, Evolves;
  }

  lemma StopAllBeginGrows(s: Sys, order: seq<nat>)
    requires TasksOk(s) && MapOk(s) && Snapshot(s, order)
    ensures Grows(s, DoStopAllBegin(s, order))
  {
    forall t | 0 <= t < |s.tasks| && t in order
      ensures Evolves(s.tasks[t], s.tasks[t].(fate := Taken(|s.callers|))) && TaskOk(s.tasks[t].(fate := Taken(|s.callers|)))
    {
      CancelEvolves(s.tasks[t], Taken(|s.callers|));
    }
  }

  lemma StepGrows(s: Sys, step: Step)
    requires TasksOk(s) && MapOk(s) && FateOk(s) && Enabled(s, step)
    ensures Grows(s, Next(s, step))
  {
    hide TaskOk, Evolves;
    forall t | 0 <= t < |s.tasks| ensures Evolves(s.tasks[t], s.tasks[t]) { SameEvolves(s.tasks[t]); }
    match step
    case Start(p) => StartGrows(s, p);
    case Acts(t, m) => MoveKeepsTask(s.tasks[t], m); MoveEvolves(s.tasks[t], m);
    case Send(t) => SendEvolves(s.tasks[t]);
    case WaitBegin(id, owner) =>
      if owner.Some? { WaitEvolves(s.tasks[owner.value], Some(|s.callers|)); }
    case WaitEnd(c) => WaitEndGrows(s, c);
    case StopBegin(id) =>
      if id in s.reg { CancelEvolves(s.tasks[s.reg[id]], Taken(|s.callers|)); }
    case StopCancel(c) => CancelEvolves(s.tasks[s.callers[c].target], s.tasks[s.callers[c].target].fate);
    case StopAllBegin(order) => StopAllBeginGrows(s, order);
    case StopAllCancel(c) =>
      var t := s.callers[c].order[s.callers[c].next];
      CancelEvolves(s.tasks[t], s.tasks[t].fate);
    case _ =>
  }

  // ----- what every step keeps ----------------------------------------------------------------------------------

  /** The steps that change the map. */
  predicate Relists(step: Step) { step.Start? || step.WaitEnd? || step.StopBegin? || step.StopAllBegin? }

  lemma QuietFates(s: Sys, step: Step)
    requires Enabled(s, step) && !Relists(step)
    ensures Next(s, step).reg == s.reg && |Next(s, step).tasks| == |s.tasks|
    ensures forall t | 0 <= t < |s.tasks| :: Next(s, step).tasks[t].fate == s.tasks[t].fate
  {
  }

  lemma StartKeepsMap(s: Sys, p: Spec)
    requires MapOk(s)
    ensures MapOk(DoStart(s, p))
  {
  }

  lemma StartKeepsFates(s: Sys, p: Spec)
    requires MapOk(s) && FateOk(s)
    ensures FateOk(DoStart(s, p))
  {
  }

  lemma UnlistKeepsMap(s: Sys, id: string, t: nat, c: nat)
    requires MapOk(s) && FateOk(s) && IsTask(s, t) && s.tasks[t].Done()
    ensures MapOk(Unlist(s, id, t, c)) && FateOk(Unlist(s, id, t, c))
  {
  }

  lemma WaitEndKeepsMap(s: Sys, c: nat)
    requires MapOk(s) && FateOk(s) && Enabled(s, WaitEnd(c))
    ensures MapOk(DoWaitEnd(s, c)) && FateOk(DoWaitEnd(s, c))
  {
    var w := s.callers[c];
    ReleaseKeepsMap(s, w.owner);
    UnlistKeepsMap(Release(s, w.owner), w.id, w.target, c);
  }

  lemma StopKeepsMap(s: Sys, id: string)
    requires MapOk(s) && FateOk(s) && Grows(s, DoStopBegin(s, id))
    ensures MapOk(DoStopBegin(s, id)) && FateOk(DoStopBegin(s, id))
  {
    hide TaskOk;
  }

  lemma StopAllKeepsMap(s: Sys, order: seq<nat>)
    requires MapOk(s) && FateOk(s) && Snapshot(s, order) && Grows(s, DoStopAllBegin(s, order))
    ensures MapOk(DoStopAllBegin(s, order)) && FateOk(DoStopAllBegin(s, order))
  {
    hide TaskOk;
    forall t | 0 <= t < |s.tasks| ensures !DoStopAllBegin(s, order).tasks[t].fate.Listed? {
      if s.tasks[t].fate.Listed? { assert s.reg[s.tasks[t].spec.id] in order; }
    }
  }

  lemma StepKeepsMap(s: Sys, step: Step)
    requires TasksOk(s) && MapOk(s) && FateOk(s) && Enabled(s, step)
    ensures MapOk(Next(s, step)) && FateOk(Next(s, step))
  {
    hide TaskOk;
    StepGrows(s, step);
    match step
    case Start(p) => StartKeepsMap(s, p); StartKeepsFates(s, p);
    case WaitEnd(c) => WaitEndKeepsMap(s, c);
    case StopBegin(id) => StopKeepsMap(s, id);
    case StopAllBegin(order) => StopAllKeepsMap(s, order);
    case _ => QuietKeepsMap(s, step);
  }

  lemma QuietKeepsMap(s: Sys, step: Step)
    requires MapOk(s) && FateOk(s) && Enabled(s, step) && !Relists(step) && Grows(s, Next(s, step))
    ensures MapOk(Next(s, step)) && FateOk(Next(s, step))
  {
    QuietFates(s, step);
    hide TaskOk, Next, Enabled, Relists;
  }

  /** A call that a step does not advance stays well formed. */
  lemma CallerFrame(s: Sys, s': Sys, c: nat)
    requires Grows(s, s') && c < |s.callers| && c < |s'.callers| && s'.callers[c] == s.callers[c]
    requires CallerOk(s, c)
    ensures CallerOk(s', c)
  {
    hide TaskOk;
  }

  lemma OtherCallersFrame(s: Sys, s': Sys, c: nat)
    requires Grows(s, s') && CallersOk(s) && |s.callers| <= |s'.callers|
    requires forall d | 0 <= d < |s.callers| && d != c :: s'.callers[d] == s.callers[d]
    ensures forall d | 0 <= d < |s.callers| && d != c :: CallerOk(s', d)
  {
    hide TaskOk, CallerOk;
    forall d | 0 <= d < |s.callers| && d != c ensures CallerOk(s', d) { CallerFrame(s, s', d); }
  }

  /** The call a step begins or advances, if any. */
  function Mover(s: Sys, step: Step): nat {
    match step
    case WaitBegin(_, _) => |s.callers|
    case WaitEnd(c) => c
    case StopBegin(_) => |s.callers|
    case StopCancel(c) => c
    case StopEnd(c) => c
    case StopAllBegin(_) => |s.callers|
    case StopAllCancel(c) => c
    case StopAllAdvance(c) => c
    case _ => |s.callers|
  }

  lemma CallersQuiet(s: Sys, step: Step)
    requires Enabled(s, step)
    ensures |s.callers| <= |Next(s, step).callers| <= |s.callers| + 1
    ensures forall d | 0 <= d < |s.callers| && d != Mover(s, step) :: Next(s, step).callers[d] == s.callers[d]
    ensures |Next(s, step).callers| == |s.callers| + 1 ==> step.WaitBegin? || step.StopBegin? || step.StopAllBegin?
  {
  }

  lemma StopAllBeginCaller(s: Sys, order: seq<nat>)
    requires TasksOk(s) && MapOk(s) && FateOk(s) && NoOrphans(s) && Snapshot(s, order)
    requires Grows(s, DoStopAllBegin(s, order))
    ensures CallerOk(DoStopAllBegin(s, order), |s.callers|)
  {
    forall t | 0 <= t < |s.tasks| && t !in order
      ensures s.tasks[t].cancelled || (s.tasks[t].fate.Taken? && s.tasks[t].fate.caller < |s.callers|)
    {
      assert Accounted(s, t);
    }
    hide TaskOk, Evolves;
  }

  lemma StopCancelCaller(s: Sys, c: nat)
    requires c < |s.callers| && CallerOk(s, c) && Enabled(s, StopCancel(c))
    ensures CallerOk(Next(s, StopCancel(c)), c)
  {
  }

  lemma StopAllCancelCaller(s: Sys, c: nat)
    requires TasksOk(s) && MapOk(s) && FateOk(s) && c < |s.callers| && CallerOk(s, c) && Enabled(s, StopAllCancel(c))
    ensures CallerOk(Next(s, StopAllCancel(c)), c)
  {
    StepGrows(s, StopAllCancel(c));
    CallerFrame(s, Next(s, StopAllCancel(c)).(callers := s.callers), c);
    hide TaskOk, Evolves;
  }

  lemma WaitEndCaller(s: Sys, c: nat)
    requires MapOk(s) && c < |s.callers| && CallerOk(s, c) && Enabled(s, WaitEnd(c))
    ensures CallerOk(Next(s, WaitEnd(c)), c)
  {
  }

  lemma StopBeginCaller(s: Sys, id: string)
    requires MapOk(s)
    ensures CallerOk(DoStopBegin(s, id), |s.callers|)
  {
  }

  lemma StopEndCaller(s: Sys, c: nat)
    requires c < |s.callers| && CallerOk(s, c) && Enabled(s, StopEnd(c))
    ensures CallerOk(Next(s, StopEnd(c)), c)
  {
    hide CanMove;
  }

  lemma StopAllAdvanceCaller(s: Sys, c: nat)
    requires c < |s.callers| && CallerOk(s, c) && Enabled(s, StopAllAdvance(c))
    ensures CallerOk(Next(s, StopAllAdvance(c)), c)
  {
    hide CanMove;
  }

  lemma MoverOk(s: Sys, step: Step)
    requires Inv(s) && Enabled(s, step) && Grows(s, Next(s, step))
    requires Mover(s, step) < |Next(s, step).callers|
    ensures CallerOk(Next(s, step), Mover(s, step))
  {
    hide TaskOk, OwnersOk, ChanOk, Evolves;
    if Mover(s, step) < |s.callers| { assert CallerOk(s, Mover(s, step)); }
    match step
    case StopAllBegin(order) => StopAllBeginCaller(s, order);
    case StopCancel(c) => StopCancelCaller(s, c);
    case StopAllCancel(c) => StopAllCancelCaller(s, c);
    case WaitEnd(c) => WaitEndCaller(s, c);
    case StopBegin(id) => StopBeginCaller(s, id);
    case StopEnd(c) => StopEndCaller(s, c);
    case StopAllAdvance(c) => StopAllAdvanceCaller(s, c);
    case _ => hide Inv;
  }

  lemma StepKeepsCallers(s: Sys, step: Step)
    requires Inv(s) && Enabled(s, step)
    ensures CallersOk(Next(s, step))
  {
    hide TaskOk, CallerOk, OwnersOk, ChanOk, NoOrphans;
    StepGrows(s, step);
    CallersQuiet(s, step);
    OtherCallersFrame(s, Next(s, step), Mover(s, step));
    if Mover(s, step) < |Next(s, step).callers| { MoverOk(s, step); }
  }

  /** A task already taken stays accounted for: its holder moves on only past a task it has cancelled. */
  lemma TakenStaysAccounted(s: Sys, step: Step, t: nat)
    requires TasksOk(s) && CallersOk(s) && Enabled(s, step) && Grows(s, Next(s, step)) && IsTask(s, t)
    requires s.tasks[t].fate.Taken? && !s.tasks[t].cancelled && Accounted(s, t)
    ensures Accounted(Next(s, step), t)
  {
    hide TaskOk, CanMove;
    var c := s.tasks[t].fate.caller;
    assert CallerOk(s, c);
    CallersQuiet(s, step);
    assert Evolves(s.tasks[t], Next(s, step).tasks[t]);
    if step.StopAllAdvance? && step.c == c {
      assert s.callers[c].order[s.callers[c].next..][1..] == s.callers[c].order[s.callers[c].next + 1..];
    }
  }

  lemma ListedStaysAccounted(s: Sys, step: Step, t: nat)
    requires TasksOk(s) && MapOk(s) && Enabled(s, step) && Grows(s, Next(s, step)) && IsTask(s, t)
    requires s.tasks[t].fate.Listed? && !s.tasks[t].cancelled
    ensures Accounted(Next(s, step), t)
  {
    hide VerdictOk, ForkOk, HookOk, PidOk, Evolves;
    if !Relists(step) { QuietFates(s, step); }
    assert TaskOk(s.tasks[t]);
  }

  lemma StepKeepsAccounts(s: Sys, step: Step)
    requires Inv(s) && Enabled(s, step)
    ensures NoOrphans(Next(s, step))
  {
    hide TaskOk, ChanOk, OwnersOk, CanMove;
    StepGrows(s, step);
    forall t | 0 <= t < |s.tasks| ensures Accounted(Next(s, step), t) {
      assert Accounted(s, t) && Evolves(s.tasks[t], Next(s, step).tasks[t]);
      if s.tasks[t].cancelled {
      } else if s.tasks[t].fate.Listed? {
        ListedStaysAccounted(s, step, t);
      } else {
        TakenStaysAccounted(s, step, t);
      }
    }
  }

  /** A call never gives up a task it took. */
  lemma TookStays(s: Sys, step: Step, c: nat, t: nat)
    requires Enabled(s, step) && c < |s.callers| && Took(s.callers[c], t)
    ensures c < |Next(s, step).callers| && Took(Next(s, step).callers[c], t)
  {
    CallersQuiet(s, step);
  }

  /** A task leaves the map, unreplaced, into the hands of the call that takes it. */
  lemma FreshTaker(s: Sys, step: Step, t: nat)
    requires MapOk(s) && Enabled(s, step) && Relists(step) && IsTask(s, t) && s.tasks[t].fate.Listed?
    requires var f := Next(s, step).tasks[t].fate; f.Taken? || f.Unlisted?
    ensures var f := Next(s, step).tasks[t].fate;
      f.caller < |Next(s, step).callers| && Took(Next(s, step).callers[f.caller], t)
  {
  }

  lemma StepKeepsTakers(s: Sys, step: Step)
    requires TakersOk(s) && MapOk(s) && Enabled(s, step) && Grows(s, Next(s, step))
    ensures TakersOk(Next(s, step))
  {
    var s' := Next(s, step);
    forall t | 0 <= t < |s'.tasks| && (s'.tasks[t].fate.Taken? || s'.tasks[t].fate.Unlisted?)
      ensures s'.tasks[t].fate.caller < |s'.callers| && Took(s'.callers[s'.tasks[t].fate.caller], t)
    {
      if !Relists(step) { QuietFates(s, step); }
      hide TaskOk, CanMove, Took;
      if t < |s.tasks| && (s.tasks[t].fate.Taken? || s.tasks[t].fate.Unlisted?) {
        assert Evolves(s.tasks[t], s'.tasks[t]);
        TookStays(s, step, s.tasks[t].fate.caller, t);
      } else if t < |s.tasks| {
        assert Evolves(s.tasks[t], s'.tasks[t]);
        FreshTaker(s, step, t);
      }
    }
  }

  lemma WaitBeginKeepsOwners(s: Sys, id: string, owner: Option<nat>)
    requires OwnersOk(s) && Enabled(s, WaitBegin(id, owner))
    ensures OwnersOk(DoWaitBegin(s, id, owner))
  {
  }

  lemma WaitEndKeepsOwners(s: Sys, c: nat)
    requires OwnersOk(s) && Enabled(s, WaitEnd(c))
    ensures OwnersOk(DoWaitEnd(s, c))
  {
    var w := s.callers[c];
    var s' := DoWaitEnd(s, c);
    forall t | 0 <= t < |s.tasks|
      ensures s'.tasks[t].waiting == if w.owner == Some(t) then None else s.tasks[t].waiting
    {
    }
  }

  lemma WaitsQuiet(s: Sys, step: Step)
    requires Enabled(s, step) && !step.WaitBegin? && !step.WaitEnd?
    ensures |s.tasks| <= |Next(s, step).tasks|
    ensures forall t | 0 <= t < |Next(s, step).tasks| ::
      Next(s, step).tasks[t].waiting == if t < |s.tasks| then s.tasks[t].waiting else None
    ensures forall c | 0 <= c < |Next(s, step).callers|
                       && (Next(s, step).callers[c].Waiting? || (c < |s.callers| && s.callers[c].Waiting?)) ::
      c < |s.callers| && Next(s, step).callers[c] == s.callers[c]
    ensures |s.callers| <= |Next(s, step).callers|
  {
  }

  lemma StepKeepsOwners(s: Sys, step: Step)
    requires OwnersOk(s) && Enabled(s, step)
    ensures OwnersOk(Next(s, step))
  {
    match step
    case WaitBegin(id, owner) => WaitBeginKeepsOwners(s, id, owner);
    case WaitEnd(c) => WaitEndKeepsOwners(s, c);
    case _ =>
      WaitsQuiet(s, step);
      hide Next, Enabled;
  }

  lemma ChanQuiet(s: Sys, step: Step)
    requires Enabled(s, step) && !step.Send? && !step.Drain?
    ensures Next(s, step).failed == s.failed && Next(s, step).log == s.log
    ensures forall t | 0 <= t < |Next(s, step).tasks| && Loud(Next(s, step).tasks[t]) :: t < |s.tasks| && Loud(s.tasks[t])
  {
  }

  lemma StepKeepsChan(s: Sys, step: Step)
    requires TasksOk(s) && ChanOk(s) && Enabled(s, step) && Grows(s, Next(s, step))
    ensures ChanOk(Next(s, step))
  {
    match step
    case Send(t) => SendKeepsChan(s, t);
    case Drain =>
    case _ =>
      ChanQuiet(s, step);
      hide Next, Enabled, TaskOk;
  }

  lemma SendKeepsChan(s: Sys, t: nat)
    requires TasksOk(s) && ChanOk(s) && Enabled(s, Send(t))
    ensures ChanOk(DoSend(s, t))
  {
    assert TaskOk(s.tasks[t]);
    var e := Attempt(t, s.tasks[t].error);
    var s' := DoSend(s, t);
    assert s'.log == s.log + [e];
    SinceReadGrows(s.log, e);
    hide TaskOk, SinceRead;
    assert s'.failed == if SinceRead(s'.log) == [] then None else Some(SinceRead(s'.log)[0]);
    SentAreLoud(s, t, e);
  }

  lemma SinceReadGrows(log: seq<ChanEvent>, e: ChanEvent)
    requires e.Attempt?
    ensures SinceRead(log + [e]) == SinceRead(log) + [e]
  {
    assert (log + [e])[..|log|] == log;
  }

  /** The sends after one more: each by a task that found its error fatal, and one by each that did and has left. */
  lemma SentAreLoud(s: Sys, t: nat, e: ChanEvent)
    requires ChanOk(s) && Enabled(s, Send(t)) && TaskOk(s.tasks[t]) && e == Attempt(t, s.tasks[t].error)
    ensures var s' := DoSend(s, t);
      s'.log == s.log + [e] ==>
      && (forall k | 0 <= k < |s'.log| && s'.log[k].Attempt? ::
            IsTask(s', s'.log[k].task) && Loud(s'.tasks[s'.log[k].task]) && s'.log[k].error == s'.tasks[s'.log[k].task].error)
      && (forall u | 0 <= u < |s'.tasks| && Loud(s'.tasks[u]) :: Attempt(u, s'.tasks[u].error) in s'.log)
      && (forall i, j | 0 <= i < j < |s'.log| && s'.log[i].Attempt? && s'.log[j].Attempt? :: s'.log[i].task != s'.log[j].task)
  {
    assert Loud(s.tasks[t].(pc := Unwinding));
    hide TaskOk, SinceRead;
    var s' := DoSend(s, t);
    if s'.log == s.log + [e] {
      forall u | 0 <= u < |s'.tasks| && Loud(s'.tasks[u]) ensures Attempt(u, s'.tasks[u].error) in s'.log {
        if u != t { assert Attempt(u, s.tasks[u].error) in s.log; } else { assert s'.log[|s.log|] == e; }
      }
      forall i, j | 0 <= i < j < |s'.log| && s'.log[i].Attempt? && s'.log[j].Attempt? ensures s'.log[i].task != s'.log[j].task {
        if j == |s.log| { assert s.log[i].task != t; }
      }
    }
  }

  lemma StepKeepsInv(s: Sys, step: Step)
    requires Inv(s) && Enabled(s, step)
    ensures Inv(Next(s, step))
  {
    StepGrows(s, step);
    StepKeepsMap(s, step);
    StepKeepsAccounts(s, step);
    StepKeepsCallers(s, step);
    StepKeepsTakers(s, step);
    StepKeepsOwners(s, step);
    StepKeepsChan(s, step);
    hide Next, Enabled, TaskOk, MapOk, FateOk, CallerOk, TakersOk, OwnersOk, ChanOk, Accounted, Evolves;
  }

  lemma {:induction false} RunKeepsInv(s: Sys, steps: seq<Step>)
    requires Inv(s) && CanRun(s, steps)
    ensures Inv(After(s, steps))
    decreases |steps|
  {
    hide Next, Enabled, Inv;
    if steps != [] {
      StepKeepsInv(s, steps[0]);
      RunKeepsInv(Next(s, steps[0]), steps[1..]);
    }
  }

  lemma {:induction false} RunGrows(s: Sys, steps: seq<Step>)
    requires Inv(s) && CanRun(s, steps)
    ensures Grows(s, After(s, steps))
    decreases |steps|
  {
    if steps == [] {
      forall t | 0 <= t < |s.tasks| ensures Evolves(s.tasks[t], s.tasks[t]) { SameEvolves(s.tasks[t]); }
      hide TaskOk, Evolves;
    } else {
      StepGrows(s, steps[0]);
      StepKeepsInv(s, steps[0]);
      hide Next, Enabled, Inv, TaskOk, Evolves;
      RunGrows(Next(s, steps[0]), steps[1..]);
      GrowsTransitive(s, Next(s, steps[0]), After(s, steps));
    }
  }

  lemma ReachableInv(s: Sys)
    requires Reachable(s)
    ensures Inv(s)
  {
    var steps: seq<Step> :| CanRun(INIT, steps) && After(INIT, steps) == s;
    assert Inv(INIT);
    RunKeepsInv(INIT, steps);
  }
}
