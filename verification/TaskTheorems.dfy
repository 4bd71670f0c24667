/**
  The promises of internal/tasks, for every interleaving of Start, Wait, Stop, StopAll and the tasks themselves.
*/
module TaskTheorems {
  import opened Options
  import opened TaskModel
  import opened TaskSafety

  /** t is the newest task started under id. */
  ghost predicate Newest(s: Sys, id: string, t: nat) {
    && IsTask(s, t) && s.tasks[t].spec.id == id
    && (forall u | t < u < |s.tasks| :: s.tasks[u].spec.id != id)
  }

  /** A Stop or StopAll has taken t, or a Wait on t has returned. */
  ghost predicate Removed(s: Sys, t: nat) {
    exists c | 0 <= c < |s.callers| :: Took(s.callers[c], t)
  }

  ghost predicate Registered(s: Sys, t: nat) {
    exists id | id in s.reg :: s.reg[id] == t
  }

  /** A Stop or StopAll in progress holds t and has yet to cancel it. */
  ghost predicate Held(s: Sys, t: nat) {
    exists c | 0 <= c < |s.callers| :: Pending(s.callers[c], t)
  }

  predicate Closed(pc: Pc) { pc.Closing? || pc.Ended? }

  /** Listed, or in the hands of a Stop or StopAll that has yet to cancel it. */
  predicate Untouched(s: Sys, t: nat)
    requires IsTask(s, t)
  {
    var f := s.tasks[t].fate;
    f.Listed? || (f.Taken? && f.caller < |s.callers| && Pending(s.callers[f.caller], t))
  }

  /** Such a task has been cancelled by nobody but itself, at its end. */
  ghost predicate Early(s: Sys) {
    forall t | 0 <= t < |s.tasks| && s.tasks[t].cancelled && Untouched(s, t) :: Closed(s.tasks[t].pc)
  }

  lemma ClosedStays(s: Sys, step: Step, t: nat)
    requires Enabled(s, step) && IsTask(s, t) && Closed(s.tasks[t].pc) && TaskOk(s.tasks[t])
    ensures IsTask(Next(s, step), t) && Closed(Next(s, step).tasks[t].pc)
  {
  }

  /** A step that leaves a task uncancelled in a holder's hands found it there or listed. */
  lemma UntouchedBefore(s: Sys, step: Step, t: nat)
    requires Inv(s) && Enabled(s, step) && IsTask(s, t) && IsTask(Next(s, step), t) && Untouched(Next(s, step), t)
    requires Grows(s, Next(s, step))
    ensures Untouched(s, t)
  {
    hide TaskOk, CanMove, Moved;
    var f := s.tasks[t].fate;
    assert Evolves(s.tasks[t], Next(s, step).tasks[t]);
    if !f.Listed? {
      CallersQuiet(s, step);
      assert TakersOk(s) && f.caller < |s.callers| && CallerOk(s, f.caller);
    }
    hide Inv, TakersOk;
  }

  lemma StopCancelTouches(s: Sys, c: nat)
    requires Enabled(s, StopCancel(c)) && CallerOk(s, c)
    ensures !Untouched(Next(s, StopCancel(c)), s.callers[c].target)
  {
    hide CanMove, Moved;
  }

  lemma StopAllCancelTouches(s: Sys, c: nat)
    requires Enabled(s, StopAllCancel(c)) && CallerOk(s, c)
    ensures !Untouched(Next(s, StopAllCancel(c)), s.callers[c].order[s.callers[c].next])
  {
    hide CanMove, Moved;
  }

  /** A step that cancels a task takes it out of every hand, or is its own. */
  lemma CancelTouches(s: Sys, step: Step, t: nat)
    requires Inv(s) && Enabled(s, step) && IsTask(s, t) && IsTask(Next(s, step), t) && Cancels(s, step, t)
    ensures !Untouched(Next(s, step), t) || Closed(Next(s, step).tasks[t].pc)
  {
    match step
    case StopCancel(c) =>
      assert CallerOk(s, c);
      hide Inv, CallerOk, Untouched, Next;
      StopCancelTouches(s, c);
    case StopAllCancel(c) =>
      assert CallerOk(s, c);
      hide Inv, CallerOk, Untouched, Next;
      StopAllCancelTouches(s, c);
    case Start(p) =>
      hide Inv, Untouched;
      StartTouches(s, p, t);
    case Acts(u, m) =>
      hide Inv, Untouched, Next;
      SelfCloses(s, u, m);
    case _ => hide Inv, Untouched, Pending, Next;
  }

  lemma SelfCloses(s: Sys, t: nat, m: Move)
    requires Enabled(s, Acts(t, m))
    ensures m.CancelSelf? ==> Closed(Next(s, Acts(t, m)).tasks[t].pc)
  {
  }

  lemma StartTouches(s: Sys, p: Spec, t: nat)
    requires IsTask(s, t) && p.id in s.reg && s.reg[p.id] == t
    ensures IsTask(DoStart(s, p), t) && !Untouched(DoStart(s, p), t)
  {
  }

  lemma StepKeepsEarly(s: Sys, step: Step)
    requires Inv(s) && Early(s) && Enabled(s, step)
    ensures Early(Next(s, step))
  {
    StepGrows(s, step);
    var s' := Next(s, step);
    hide Inv, TaskOk, Evolves, Next, Enabled, Untouched, Closed, Cancels;
    forall t | 0 <= t < |s'.tasks| && s'.tasks[t].cancelled && Untouched(s', t) ensures Closed(s'.tasks[t].pc) {
      if t < |s.tasks| {
        StepCancels(s, step, t);
        UntouchedBefore(s, step, t);
        if s.tasks[t].cancelled {
          ClosedStays(s, step, t) by { assert TasksOk(s) by { InvTasks(s); } }
        } else {
          CancelTouches(s, step, t);
        }
      } else {
        NewIsUncancelled(s, step, t);
      }
    }
  }

  lemma InvTasks(s: Sys)
    requires Inv(s)
    ensures TasksOk(s)
  {
    hide TaskOk;
  }

  lemma NewIsUncancelled(s: Sys, step: Step, t: nat)
    requires Enabled(s, step) && |s.tasks| <= t < |Next(s, step).tasks|
    ensures !Next(s, step).tasks[t].cancelled
  {
    hide CanMove, Moved;
  }

  lemma {:induction false} RunKeepsEarly(s: Sys, steps: seq<Step>)
    requires Inv(s) && Early(s) && CanRun(s, steps)
    ensures Early(After(s, steps))
    decreases |steps|
  {
    hide Next, Enabled, Inv, Early;
    if steps != [] {
      StepKeepsInv(s, steps[0]);
      StepKeepsEarly(s, steps[0]);
      RunKeepsEarly(Next(s, steps[0]), steps[1..]);
    }
  }

  lemma ReachableEarly(s: Sys)
    requires Reachable(s)
    ensures Early(s)
  {
    var steps: seq<Step> :| CanRun(INIT, steps) && After(INIT, steps) == s;
    assert Inv(INIT) && Early(INIT);
    RunKeepsEarly(INIT, steps);
  }

  /** No orphan, exactly: a task is cancelled if and only if it is neither registered nor held by a Stop or StopAll that
      has yet to cancel it, or has come to its end and cancelled itself. So an older namesake is cancelled unless held. */
  lemma NoOrphan(s: Sys, t: nat)
    requires Reachable(s) && IsTask(s, t)
    ensures s.tasks[t].cancelled <==> (!Registered(s, t) && !Held(s, t)) || Closed(s.tasks[t].pc)
  {
    ReachableInv(s);
    ReachableEarly(s);
    UntouchedExactly(s, t);
    assert Accounted(s, t) && TaskOk(s.tasks[t]);
    hide Inv, Early, Registered, Held, VerdictOk, ForkOk, HookOk, PidOk;
  }

  lemma UntouchedExactly(s: Sys, t: nat)
    requires Inv(s) && IsTask(s, t)
    ensures Untouched(s, t) <==> Registered(s, t) || Held(s, t)
  {
    assert MapOk(s);
    if s.tasks[t].fate.Listed? { assert s.reg[s.tasks[t].spec.id] == t; }
    if Held(s, t) {
      var c :| 0 <= c < |s.callers| && Pending(s.callers[c], t);
      assert CallerOk(s, c);
    }
    hide Inv, TaskOk;
  }

  /** A task has at most one holder, and a held task is off the map. */
  lemma OneHolder(s: Sys, t: nat, c: nat, d: nat)
    requires Reachable(s) && IsTask(s, t) && c < |s.callers| && d < |s.callers|
    requires Pending(s.callers[c], t)
    ensures Pending(s.callers[d], t) ==> c == d
    ensures !Registered(s, t)
  {
    ReachableInv(s);
    assert CallerOk(s, c) && CallerOk(s, d);
  }

  /** The registry is the latest-wins map: it lists the newest task of each id that no call has removed, and no other. */
  lemma LatestWins(s: Sys, id: string, t: nat)
    requires Reachable(s)
    ensures id in s.reg && s.reg[id] == t <==> Newest(s, id, t) && !Removed(s, t)
  {
    ReachableInv(s);
    hide Reachable, Inv, Newest, Removed;
    if id in s.reg && s.reg[id] == t { ListedIsNewest(s, id); }
    if Newest(s, id, t) && !Removed(s, t) { NewestIsListed(s, id, t); }
  }

  lemma ListedIsNewest(s: Sys, id: string)
    requires Inv(s) && id in s.reg
    ensures Newest(s, id, s.reg[id]) && !Removed(s, s.reg[id])
  {
    var t := s.reg[id];
    assert IsTask(s, t) && s.tasks[t].spec.id == id && s.tasks[t].fate.Listed?;
    forall c | 0 <= c < |s.callers| ensures !Took(s.callers[c], t) { assert CallerOk(s, c); }
    hide TasksOk, NoOrphans, TakersOk, OwnersOk, ChanOk, CallersOk, MapOk;
  }

  lemma NewestIsListed(s: Sys, id: string, t: nat)
    requires Inv(s) && Newest(s, id, t) && !Removed(s, t)
    ensures id in s.reg && s.reg[id] == t
  {
    hide TasksOk, NoOrphans, CallersOk, OwnersOk, ChanOk;
  }

  /** The lookup of a Wait under id finds task t exactly if t is the newest started under it and no call has removed it. */
  lemma LookupFinds(s: Sys, id: string, owner: Option<nat>, t: nat)
    requires Reachable(s) && Enabled(s, WaitBegin(id, owner))
    ensures |Next(s, WaitBegin(id, owner)).callers| == |s.callers| + 1
    ensures Next(s, WaitBegin(id, owner)).callers[|s.callers|] == Waiting(id, t, owner) <==> Newest(s, id, t) && !Removed(s, t)
  {
    LatestWins(s, id, t);
    hide Reachable, Newest, Removed;
  }

  /** And nothing, answering the zero Task, exactly if the newest one has been removed or there is none. */
  lemma LookupMisses(s: Sys, id: string, owner: Option<nat>)
    requires Reachable(s) && Enabled(s, WaitBegin(id, owner))
    ensures |Next(s, WaitBegin(id, owner)).callers| == |s.callers| + 1
    ensures Next(s, WaitBegin(id, owner)).callers[|s.callers|] == WaitedNone <==> forall t | Newest(s, id, t) :: Removed(s, t)
  {
    forall t | Newest(s, id, t) ensures Removed(s, t) <==> !(id in s.reg && s.reg[id] == t) { LatestWins(s, id, t); }
    if id in s.reg { LatestWins(s, id, s.reg[id]); }
    else { hide Newest; }
    hide Reachable, Removed;
  }

  /** An older namesake is cancelled exactly if no Stop or StopAll holds it, or it has come to its own end. */
  lemma OlderNamesakes(s: Sys, t: nat, u: nat)
    requires Reachable(s) && t < u && IsTask(s, u) && s.tasks[t].spec.id == s.tasks[u].spec.id
    ensures s.tasks[t].cancelled <==> !Held(s, t) || Closed(s.tasks[t].pc)
  {
    NoOrphan(s, t);
    ReachableInv(s);
    LatestWins(s, s.tasks[t].spec.id, t);
    hide Inv, Held;
  }

  /** Every Wait on one task answers the same copy, and that copy is final. */
  lemma WaitsAgree(s: Sys, c: nat, d: nat)
    requires Reachable(s) && c < |s.callers| && d < |s.callers|
    requires s.callers[c].Waited? && s.callers[d].Waited? && s.callers[c].target == s.callers[d].target
    ensures s.callers[c].copy == s.callers[d].copy
    ensures s.callers[c].copy.state.Failed? || s.callers[c].copy.state.Exited?
    ensures IsTask(s, s.callers[c].target) && s.callers[c].copy == s.tasks[s.callers[c].target].Copy()
  {
    ReachableInv(s);
    assert CallerOk(s, c) && CallerOk(s, d);
    assert TaskOk(s.tasks[s.callers[c].target]);
  }

  /** A task that is done is cancelled and terminal, its child was never forked or has been waited for, and a fatal
      error it had was sent before. */
  lemma DoneMeansOver(s: Sys, t: nat)
    requires Reachable(s) && IsTask(s, t) && s.tasks[t].Done()
    ensures s.tasks[t].cancelled && s.tasks[t].Terminal()
    ensures s.tasks[t].child.proc.NoProc? || s.tasks[t].child.proc.Gone?
    ensures s.tasks[t].verdict.Loud? ==> Attempt(t, s.tasks[t].error) in s.log
  {
    ReachableInv(s);
    assert TaskOk(s.tasks[t]);
  }

  /** A state moves only from starting to running or failed, and from running to failed or exited. */
  lemma StatesMoveForward(s: Sys, step: Step, t: nat)
    requires Reachable(s) && Enabled(s, step) && IsTask(s, t)
    ensures IsTask(Next(s, step), t) && Forward(s.tasks[t].state, Next(s, step).tasks[t].state)
  {
    ReachableInv(s);
    StepForward(s, step, t);
  }

  /** A running Child has a pid, that of its process unless one was preset, which is never given up. */
  lemma RunningChildHasPid(s: Sys, t: nat)
    requires Reachable(s) && IsTask(s, t) && s.tasks[t].spec.work.ChildWork?
    ensures s.tasks[t].state.Running? ==> s.tasks[t].pid != 0
    ensures s.tasks[t].spec.preset != 0 ==> s.tasks[t].pid == s.tasks[t].spec.preset
    ensures s.tasks[t].state.Running? && s.tasks[t].spec.preset == 0 && s.tasks[t].child.proc.Alive? ==>
      s.tasks[t].pid == s.tasks[t].child.proc.pid
  {
    ReachableInv(s);
    assert TaskOk(s.tasks[t]);
  }

  // ----- how a task ends ----------------------------------------------------------------------------------------

  /** A Spawn or a Child is listed as exited only if its command has been waited for and ended without error; one whose
      command ended with an error is listed as failed, and a Child with that very error, or that of a failed fork. */
  lemma EndsAsItsCommand(s: Sys, t: nat)
    requires Reachable(s) && IsTask(s, t) && s.tasks[t].spec.Observed()
    ensures var k, f := s.tasks[t], s.tasks[t].child.fork;
      && (k.state.Exited? ==> f == Over(None) && k.child.proc.Gone?)
      && (k.Terminal() && k.child.proc.Gone? ==> f.Over?)
      && (k.Terminal() && f.Over? && f.exit.Some? ==> k.state.Failed?)
      && (k.Terminal() && f.Over? && k.spec.work.ChildWork? ==>
            if f.exit.Some? then k.state.Failed? && k.error == f.exit.value else k.state.Exited?)
  {
    ReachableInv(s);
    assert TaskOk(s.tasks[t]);
    hide Inv, HookOk, PidOk;
  }

  /** The task has come back with the result, and if that is recorded, as it says. */
  predicate CameBack(t: Task, result: Option<string>) {
    || t.pc == Pc.Returned(result)
    || (PastRecord(t.pc) && if result.Some? then t.state.Failed? && t.error == result.value else t.state.Exited?)
  }

  lemma MoveKeepsResult(t: Task, m: Move, result: Option<string>)
    requires CanMove(t, m) && CameBack(t, result) && TaskOk(t)
    ensures CameBack(Moved(t, m), result)
  {
  }

  lemma StepKeepsResult(s: Sys, step: Step, t: nat, result: Option<string>)
    requires Enabled(s, step) && IsTask(s, t) && CameBack(s.tasks[t], result) && TaskOk(s.tasks[t])
    ensures IsTask(Next(s, step), t) && CameBack(Next(s, step).tasks[t], result)
  {
    if step.Acts? && step.t == t { MoveKeepsResult(s.tasks[t], step.move, result); }
    hide CanMove, Moved, TaskOk;
  }

  lemma {:induction false} RunKeepsResult(s: Sys, steps: seq<Step>, t: nat, result: Option<string>)
    requires Inv(s) && CanRun(s, steps) && IsTask(s, t) && CameBack(s.tasks[t], result)
    ensures IsTask(After(s, steps), t) && CameBack(After(s, steps).tasks[t], result)
    decreases |steps|
  {
    if steps != [] {
      assert TaskOk(s.tasks[t]);
      hide Inv, TaskOk, Next, Enabled, CameBack;
      StepKeepsInv(s, steps[0]);
      StepKeepsResult(s, steps[0], t, result);
      RunKeepsResult(Next(s, steps[0]), steps[1..], t, result);
    }
  }

  /** What a move by which a task's code comes back has to say. */
  function Result(m: Move): Option<string>
    requires m.Return? || m.Refused? || m.EarlyExit?
  {
    match m
    case Return(result) => result
    case Refused(error) => Some(error)
    case EarlyExit(note) => Some(note)
  }

  /** What the code of a Run or Server returns, or that of a Spawn or Child fails with before its command runs or answers,
      is what the task is recorded with: its error, or none. */
  lemma CodeDecides(s: Sys, t: nat, m: Move, steps: seq<Step>)
    requires Reachable(s) && Enabled(s, Acts(t, m)) && (m.Return? || m.Refused? || m.EarlyExit?)
    requires CanRun(Next(s, Acts(t, m)), steps)
    ensures var end, result := After(Next(s, Acts(t, m)), steps), Result(m);
      && IsTask(end, t)
      && (end.tasks[t].Terminal() ==>
            if result.Some? then end.tasks[t].state.Failed? && end.tasks[t].error == result.value else end.tasks[t].state.Exited?)
  {
    ReachableInv(s);
    var s1 := Next(s, Acts(t, m));
    StepKeepsInv(s, Acts(t, m));
    RunKeepsResult(s1, steps, t, Result(m));
    TerminalIsPast(s1, steps, t);
    hide Inv, CanMove;
  }

  lemma TerminalIsPast(s: Sys, steps: seq<Step>, t: nat)
    requires Inv(s) && CanRun(s, steps) && IsTask(After(s, steps), t)
    ensures After(s, steps).tasks[t].Terminal() ==> PastRecord(After(s, steps).tasks[t].pc)
  {
    RunKeepsInv(s, steps);
    assert TaskOk(After(s, steps).tasks[t]);
    hide Next, Enabled;
  }

  /** A Child whose command could not be started fails with that error. */
  lemma ForkDecides(s: Sys, t: nat, error: string, steps: seq<Step>)
    requires Reachable(s) && Enabled(s, Acts(t, ForkFails(error))) && s.tasks[t].spec.work.ChildWork?
    requires CanRun(Next(s, Acts(t, ForkFails(error))), steps)
    ensures var end := After(Next(s, Acts(t, ForkFails(error))), steps);
      IsTask(end, t) && (end.tasks[t].Terminal() ==> end.tasks[t].state.Failed? && end.tasks[t].error == error)
  {
    ReachableInv(s);
    var s1 := Next(s, Acts(t, ForkFails(error)));
    StepKeepsInv(s, Acts(t, ForkFails(error)));
    RunKeepsUnforked(s1, steps, t, error);
    RunKeepsInv(s1, steps);
    assert TaskOk(After(s1, steps).tasks[t]);
    hide Inv, CanMove, Next, Enabled;
  }

  predicate Unforked(t: Task, error: string) { t.spec.work.ChildWork? && t.child.fork == Over(Some(error)) }

  lemma StepKeepsUnforked(s: Sys, step: Step, t: nat, error: string)
    requires Enabled(s, step) && IsTask(s, t) && Unforked(s.tasks[t], error) && TaskOk(s.tasks[t])
    ensures IsTask(Next(s, step), t) && Unforked(Next(s, step).tasks[t], error)
  {
  }

  lemma {:induction false} RunKeepsUnforked(s: Sys, steps: seq<Step>, t: nat, error: string)
    requires Inv(s) && CanRun(s, steps) && IsTask(s, t) && Unforked(s.tasks[t], error)
    ensures IsTask(After(s, steps), t) && Unforked(After(s, steps).tasks[t], error)
    decreases |steps|
  {
    if steps != [] {
      assert TaskOk(s.tasks[t]);
      hide Inv, TaskOk, Next, Enabled, Unforked;
      StepKeepsInv(s, steps[0]);
      StepKeepsUnforked(s, steps[0], t, error);
      RunKeepsUnforked(Next(s, steps[0]), steps[1..], t, error);
    }
  }

  /** The command has ended so: not yet waited for, or waited for and remembered. */
  predicate Left(t: Task, exit: Option<string>) {
    || t.child.proc == Dead(exit)
    || (t.child.proc.Gone? && (t.child.fork == Reaped(exit) || t.child.fork == Released(exit) || t.child.fork == Over(exit)))
  }

  /** A task that was running when its command ended, and if that is recorded, as the command did. */
  predicate Ending(t: Task, exit: Option<string>) {
    && t.spec.Observed() && Left(t, exit)
    && (t.state.Running? || (PastRecord(t.pc) && CameBack(t, exit)))
  }

  lemma MoveKeepsEnding(t: Task, m: Move, exit: Option<string>)
    requires CanMove(t, m) && Ending(t, exit) && TaskOk(t)
    ensures Ending(Moved(t, m), exit)
  {
  }

  lemma StepKeepsEnding(s: Sys, step: Step, t: nat, exit: Option<string>)
    requires Enabled(s, step) && IsTask(s, t) && Ending(s.tasks[t], exit) && TaskOk(s.tasks[t])
    ensures IsTask(Next(s, step), t) && Ending(Next(s, step).tasks[t], exit)
  {
    if step.Acts? && step.t == t { MoveKeepsEnding(s.tasks[t], step.move, exit); }
    hide CanMove, Moved, TaskOk;
  }

  lemma {:induction false} RunKeepsEnding(s: Sys, steps: seq<Step>, t: nat, exit: Option<string>)
    requires Inv(s) && CanRun(s, steps) && IsTask(s, t) && Ending(s.tasks[t], exit)
    ensures IsTask(After(s, steps), t) && Ending(After(s, steps).tasks[t], exit)
    decreases |steps|
  {
    if steps != [] {
      assert TaskOk(s.tasks[t]);
      hide Inv, TaskOk, Next, Enabled, Ending;
      StepKeepsInv(s, steps[0]);
      StepKeepsEnding(s, steps[0], t, exit);
      RunKeepsEnding(Next(s, steps[0]), steps[1..], t, exit);
    }
  }

  /** A Spawn or a Child that is running when its command ends is recorded as the command ended: failed with the error
      it ended with, or exited if it ended with none. */
  lemma CommandDecides(s: Sys, t: nat, exit: Option<string>, steps: seq<Step>)
    requires Reachable(s) && Enabled(s, Acts(t, ProcExits(exit))) && s.tasks[t].spec.Observed() && s.tasks[t].state.Running?
    requires CanRun(Next(s, Acts(t, ProcExits(exit))), steps)
    ensures var end := After(Next(s, Acts(t, ProcExits(exit))), steps);
      && IsTask(end, t)
      && (end.tasks[t].Terminal() ==>
            if exit.Some? then end.tasks[t].state.Failed? && end.tasks[t].error == exit.value else end.tasks[t].state.Exited?)
  {
    ReachableInv(s);
    EndingBegins(s, t, exit);
    hide Inv, Next, Enabled, Reachable;
    var s1 := Next(s, Acts(t, ProcExits(exit)));
    StepKeepsInv(s, Acts(t, ProcExits(exit)));
    RunKeepsEnding(s1, steps, t, exit);
    TerminalIsPast(s1, steps, t);
  }

  lemma EndingBegins(s: Sys, t: nat, exit: Option<string>)
    requires Enabled(s, Acts(t, ProcExits(exit))) && s.tasks[t].spec.Observed() && s.tasks[t].state.Running?
    ensures IsTask(Next(s, Acts(t, ProcExits(exit))), t) && Ending(Next(s, Acts(t, ProcExits(exit))).tasks[t], exit)
  {
  }

  // ----- the Failed channel -------------------------------------------------------------------------------------

  /** The slot holds exactly the first error sent since the last read, every one of them a failed Run's or Server's. */
  lemma FailedHoldsTheFirst(s: Sys)
    requires Reachable(s)
    ensures s.failed.None? <==> SinceRead(s.log) == []
    ensures s.failed.Some? ==> s.failed.value == SinceRead(s.log)[0]
    ensures forall k | 0 <= k < |s.log| && s.log[k].Attempt? ::
      && IsTask(s, s.log[k].task) && !s.tasks[s.log[k].task].spec.Observed()
      && s.tasks[s.log[k].task].state.Failed? && s.log[k].error == s.tasks[s.log[k].task].error
  {
    ReachableInv(s);
    forall k | 0 <= k < |s.log| && s.log[k].Attempt?
      ensures !s.tasks[s.log[k].task].spec.Observed() && s.tasks[s.log[k].task].state.Failed?
    {
      assert TaskOk(s.tasks[s.log[k].task]);
    }
  }

  /** What a run does to the channel: each send, of the error the task came back with, and each read, in order. */
  ghost function Sent(s: Sys, steps: seq<Step>): seq<ChanEvent>
    requires CanRun(s, steps)
    decreases |steps|
  {
    if steps == [] then []
    else
      (match steps[0]
       case Send(t) => [Attempt(t, s.tasks[t].pc.result.value)]
       case Drain => [Read]
       case _ => [])
      + Sent(Next(s, steps[0]), steps[1..])
  }

  /** The log is that, so FailedHoldsTheFirst is about the sends and reads of the run. */
  lemma {:induction false} LogIsTheRun(s: Sys, steps: seq<Step>)
    requires CanRun(s, steps)
    ensures After(s, steps).log == s.log + Sent(s, steps)
    decreases |steps|
  {
    if steps != [] {
      LogGrows(s, steps[0]);
      hide Next, Enabled;
      LogIsTheRun(Next(s, steps[0]), steps[1..]);
    }
  }

  lemma LogGrows(s: Sys, step: Step)
    requires Enabled(s, step)
    ensures Next(s, step).log == s.log +
      match step
      case Send(t) => [Attempt(t, s.tasks[t].pc.result.value)]
      case Drain => [Read]
      case _ => []
  {
    hide CanMove, Moved;
  }

  /** Which errors are fatal: at the check, an error of a Run or Server whose context is not done; and no other. */
  lemma FatalExactly(s: Sys, t: nat)
    requires Reachable(s) && Enabled(s, Acts(t, Judge))
    ensures Next(s, Acts(t, Judge)).tasks[t].pc.Fatal? <==>
      s.tasks[t].state.Failed? && !s.tasks[t].cancelled && !s.tasks[t].spec.Observed()
  {
    ReachableInv(s);
    assert TaskOk(s.tasks[t]);
  }

  /** An error found fatal has always been sent by the time the task is done, and never by a later task instead. */
  lemma FatalIsSent(s: Sys, steps: seq<Step>, t: nat)
    requires Reachable(s) && IsTask(s, t) && s.tasks[t].pc.Fatal? && CanRun(s, steps)
    ensures IsTask(After(s, steps), t)
    ensures !After(s, steps).tasks[t].pc.Fatal? ==> Attempt(t, s.tasks[t].error) in After(s, steps).log
    ensures s.tasks[t].pc.result == Some(s.tasks[t].error)
  {
    ReachableInv(s);
    assert TaskOk(s.tasks[t]);
    RunKeepsInv(s, steps);
    RunGrows(s, steps);
    assert Evolves(s.tasks[t], After(s, steps).tasks[t]);
  }

  /** The four cancels of the package: a repeated id, Stop, StopAll, and the end of the task itself. */
  ghost predicate Cancels(s: Sys, step: Step, t: nat)
    requires Enabled(s, step)
  {
    match step
    case Start(p) => p.id in s.reg && s.reg[p.id] == t
    case Acts(u, m) => u == t && m.CancelSelf?
    case StopCancel(c) => s.callers[c].target == t
    case StopAllCancel(c) => s.callers[c].order[s.callers[c].next] == t
    case _ => false
  }

  lemma StepCancels(s: Sys, step: Step, t: nat)
    requires Enabled(s, step) && IsTask(s, t)
    ensures IsTask(Next(s, step), t)
    ensures Next(s, step).tasks[t].cancelled <==> s.tasks[t].cancelled || Cancels(s, step, t)
  {
  }

  /** Step n of the run cancels t. */
  ghost predicate CancelsAt(s: Sys, steps: seq<Step>, n: nat, t: nat)
    requires CanRun(s, steps)
    decreases n
  {
    n < |steps| && if n == 0 then Cancels(s, steps[0], t) else CancelsAt(Next(s, steps[0]), steps[1..], n - 1, t)
  }

  /** A task found fatal is not cancelled then, and at any later moment it is cancelled exactly if a step since has
      cancelled it: so the error on Failed is that of an uncancelled task unless a cancel fell between check and send. */
  lemma {:induction false} CancelledSince(s: Sys, steps: seq<Step>, t: nat)
    requires CanRun(s, steps) && IsTask(s, t) && !s.tasks[t].cancelled
    ensures IsTask(After(s, steps), t)
    ensures After(s, steps).tasks[t].cancelled <==> exists n: nat :: CancelsAt(s, steps, n, t)
    decreases |steps|
  {
    if steps != [] {
      var s1 := Next(s, steps[0]);
      StepCancels(s, steps[0], t);
      if s1.tasks[t].cancelled {
        assert CancelsAt(s, steps, 0, t);
        StaysCancelled(s1, steps[1..], t);
      } else {
        CancelledSince(s1, steps[1..], t);
        CancelsShift(s, steps, t);
        hide Next, Enabled, Cancels, CancelsAt;
      }
    }
  }

  lemma CancelsShift(s: Sys, steps: seq<Step>, t: nat)
    requires CanRun(s, steps) && steps != [] && !Cancels(s, steps[0], t)
    ensures (exists n: nat :: CancelsAt(s, steps, n, t))
       <==> (exists n: nat :: CancelsAt(Next(s, steps[0]), steps[1..], n, t))
  {
    hide Next, Enabled, Cancels;
    var s1, rest := Next(s, steps[0]), steps[1..];
    if exists n: nat :: CancelsAt(s, steps, n, t) {
      var n: nat :| CancelsAt(s, steps, n, t);
      assert n > 0;
      var k: nat := n - 1;
      assert CancelsAt(s1, rest, k, t);
      assert exists m: nat :: CancelsAt(s1, rest, m, t);
    }
    if exists n: nat :: CancelsAt(s1, rest, n, t) {
      var n: nat :| CancelsAt(s1, rest, n, t);
      var m: nat := n + 1;
      assert CancelsAt(s, steps, m, t);
      assert exists k: nat :: CancelsAt(s, steps, k, t);
    }
  }

  lemma {:induction false} StaysCancelled(s: Sys, steps: seq<Step>, t: nat)
    requires CanRun(s, steps) && IsTask(s, t) && s.tasks[t].cancelled
    ensures IsTask(After(s, steps), t) && After(s, steps).tasks[t].cancelled
    decreases |steps|
  {
    if steps != [] {
      StepCancels(s, steps[0], t);
      hide Next, Enabled, Cancels;
      StaysCancelled(Next(s, steps[0]), steps[1..], t);
    }
  }

  // ----- the kill hook ------------------------------------------------------------------------------------------

  /** The hook cannot be missed: not deregistered, and not armed on a done context. */
  predicate NoMiss(h: Hook) { h.Off? || h.Fired? }

  /** A context cancelled before the kill hook is deregistered, whether before the fork, between the fork and the
      registration, or after it, always issues the group kill once the hook is registered; and so for the preset pid. */
  lemma {:induction false} CancelKills(s: Sys, steps: seq<Step>, t: nat)
    requires Inv(s) && CanRun(s, steps) && IsTask(s, t) && s.tasks[t].cancelled
    ensures IsTask(After(s, steps), t) && After(s, steps).tasks[t].cancelled
    ensures !s.tasks[t].child.hook.Disarmed? ==> NoMiss(After(s, steps).tasks[t].child.hook)
    ensures !s.tasks[t].child.presetHook.Disarmed? ==> NoMiss(After(s, steps).tasks[t].child.presetHook)
    decreases |steps|
  {
    assert TaskOk(s.tasks[t]);
    if steps != [] {
      StepKeepsInv(s, steps[0]);
      StepKeepsNoMiss(s, steps[0], t);
      hide Inv, Next, Enabled, TaskOk;
      CancelKills(Next(s, steps[0]), steps[1..], t);
    }
  }

  lemma StepKeepsNoMiss(s: Sys, step: Step, t: nat)
    requires Enabled(s, step) && IsTask(s, t) && s.tasks[t].cancelled
    ensures IsTask(Next(s, step), t) && Next(s, step).tasks[t].cancelled
    ensures NoMiss(s.tasks[t].child.hook) ==> NoMiss(Next(s, step).tasks[t].child.hook)
    ensures NoMiss(s.tasks[t].child.presetHook) ==> NoMiss(Next(s, step).tasks[t].child.presetHook)
  {
  }

  /** While the child of a cancelled task is watched, its group has been sent the kill, and so has a preset one. */
  lemma CancelledChildIsKilled(s: Sys, t: nat)
    requires Reachable(s) && IsTask(s, t) && s.tasks[t].cancelled
    ensures s.tasks[t].child.fork.Watched? ==> s.tasks[t].child.hook.Fired?
    ensures (s.tasks[t].pc.AwaitExit? && s.tasks[t].child.fork.Watched? && s.tasks[t].spec.work.ChildWork?
             && s.tasks[t].spec.preset != 0) ==> s.tasks[t].child.presetHook.Fired?
  {
    ReachableInv(s);
    assert TaskOk(s.tasks[t]);
  }

  // ----- StopAll ------------------------------------------------------------------------------------------------

  /** StopAll number c has returned. */
  ghost predicate StopAllReturned(s: Sys, c: nat) {
    c < |s.callers| && s.callers[c].StoppingAll? && s.callers[c].next == |s.callers[c].order|
  }

  /** When StopAll returns, every task it found registered is done and terminal, and every other task started before
      its snapshot is cancelled or in the hands of an earlier Stop or StopAll. */
  lemma StopAllStopsAll(s: Sys, c: nat, t: nat)
    requires Reachable(s) && StopAllReturned(s, c) && t < s.callers[c].born
    ensures IsTask(s, t)
    ensures t in s.callers[c].order ==> s.tasks[t].Done() && s.tasks[t].Terminal() && s.tasks[t].cancelled
    ensures t !in s.callers[c].order ==>
      s.tasks[t].cancelled || (exists d | 0 <= d < c :: Took(s.callers[d], t))
  {
    ReachableInv(s);
    assert CallerOk(s, c);
    assert TaskOk(s.tasks[t]);
    var f := s.tasks[t].fate;
    if t !in s.callers[c].order && f.Taken? && f.caller < c { assert Took(s.callers[f.caller], t); }
  }

  /** A replaced task is cancelled, has a newer namesake, and is in no StopAll's snapshot: StopAll does not wait for it. */
  lemma ReplacedIsCancelled(s: Sys, t: nat)
    requires Reachable(s) && IsTask(s, t) && s.tasks[t].fate.Replaced?
    ensures s.tasks[t].cancelled && !Registered(s, t)
    ensures var u := s.tasks[t].fate.successor; t < u && IsTask(s, u) && s.tasks[u].spec.id == s.tasks[t].spec.id
    ensures forall c | 0 <= c < |s.callers| && s.callers[c].StoppingAll? :: t !in s.callers[c].order
  {
    ReachableInv(s);
    assert Accounted(s, t);
    forall c | 0 <= c < |s.callers| && s.callers[c].StoppingAll? ensures t !in s.callers[c].order {
      assert CallerOk(s, c);
    }
    hide Inv, TaskOk;
  }
}
