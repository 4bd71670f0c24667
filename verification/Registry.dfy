/**
  The code of internal/tasks/tasks.go over the state it updates in place. Each critical section under registry.mu and
  each channel operation is a method that takes one step of the model; Wait, Stop and StopAll run in between with every
  other goroutine free to move whenever they do not hold the lock.
*/
module Registry {
  import opened Options
  import opened TaskModel
  import opened TaskSafety
  import opened TaskTheorems
  import opened TaskTraces
  import opened StopAllProgress

  /** One step leads from s to s'. */
  ghost predicate Steps(s: Sys, s': Sys, step: Step) { Enabled(s, step) && s' == Next(s, step) }

  /** The step advances call number c. */
  predicate Advances(step: Step, c: nat) {
    match step
    case WaitEnd(d) => d == c
    case StopCancel(d) => d == c
    case StopEnd(d) => d == c
    case StopAllCancel(d) => d == c
    case StopAllAdvance(d) => d == c
    case _ => false
  }

  /** Steps of other goroutines lead from s to s'. */
  ghost predicate Elsewhere(s: Sys, s': Sys, c: nat) {
    exists steps: seq<Step> :: CanRun(s, steps) && After(s, steps) == s' && AllElsewhere(steps, c)
  }

  ghost predicate AllElsewhere(steps: seq<Step>, c: nat) { forall k | 0 <= k < |steps| :: !Advances(steps[k], c) }

  lemma {:induction false} RunAppend(s: Sys, a: seq<Step>, b: seq<Step>)
    requires CanRun(s, a) && CanRun(After(s, a), b)
    ensures CanRun(s, a + b) && After(s, a + b) == After(After(s, a), b)
    decreases |a|
  {
    hide Enabled, Next;
    if a == [] {
      assert a + b == b;
    } else {
      RunAppend(Next(s, a[0]), a[1..], b);
      assert (a + b)[1..] == a[1..] + b;
    }
  }

  lemma ReachesTransitive(s: Sys, s': Sys, s'': Sys)
    requires Reaches(s, s') && Reaches(s', s'')
    ensures Reaches(s, s'')
  {
    var a: seq<Step> :| CanRun(s, a) && After(s, a) == s';
    var b: seq<Step> :| CanRun(s', b) && After(s', b) == s'';
    RunAppend(s, a, b);
  }

  lemma ReachesByStep(s: Sys, s': Sys, step: Step)
    requires Reaches(s, s') && Enabled(s', step)
    ensures Reaches(s, Next(s', step))
  {
    var a: seq<Step> :| CanRun(s, a) && After(s, a) == s';
    RunThen(s, a, step);
  }

  lemma {:induction false} CallStands(s: Sys, steps: seq<Step>, c: nat)
    requires CanRun(s, steps) && AllElsewhere(steps, c) && c < |s.callers|
    ensures c < |After(s, steps).callers| && After(s, steps).callers[c] == s.callers[c]
    decreases |steps|
  {
    if steps != [] {
      CallersQuiet(s, steps[0]);
      assert c < |Next(s, steps[0]).callers| && Next(s, steps[0]).callers[c] == s.callers[c] by {
        assert !Advances(steps[0], c);
      }
      hide Enabled, Next;
      CallStands(Next(s, steps[0]), steps[1..], c);
    }
  }

  /** What a blocked call keeps while the others move. */
  lemma ElsewhereKeeps(s: Sys, s': Sys, c: nat)
    requires Inv(s) && Elsewhere(s, s', c) && c < |s.callers|
    ensures Inv(s') && Reaches(s, s') && Grows(s, s')
    ensures c < |s'.callers| && s'.callers[c] == s.callers[c]
  {
    var steps: seq<Step> :| CanRun(s, steps) && After(s, steps) == s' && AllElsewhere(steps, c);
    RunKeepsInv(s, steps);
    RunGrows(s, steps);
    CallStands(s, steps, c);
  }

  lemma ByStep(s: Sys, step: Step)
    requires Inv(s) && Enabled(s, step)
    ensures Reaches(s, Next(s, step)) && Inv(Next(s, step))
  {
    assert CanRun(s, []) && After(s, []) == s;
    StepKeepsInv(s, step);
    ReachesByStep(s, s, step);
    hide Inv, Enabled, Next;
  }

  // Each critical section with its effect on the state written out.

  lemma ByWaitEnd(s: Sys, c: nat)
    requires Inv(s) && Enabled(s, WaitEnd(c))
    ensures Next(s, WaitEnd(c)) == DoWaitEnd(s, c) && Reaches(s, DoWaitEnd(s, c)) && Inv(DoWaitEnd(s, c))
  {
    ByStep(s, WaitEnd(c));
  }

  lemma ByStopCancel(s: Sys, c: nat, t: nat)
    requires Inv(s) && c < |s.callers| && s.callers[c] == Stopping(t, false)
    ensures IsTask(s, t)
    ensures var s' := s.(callers := s.callers[c := Stopping(t, true)], tasks := s.tasks[t := Cancel(s.tasks[t])]);
      Reaches(s, s') && Inv(s')
  {
    StoppingHolds(s, c);
    ByStep(s, StopCancel(c));
  }

  lemma ByStopAllCancel(s: Sys, c: nat)
    requires Inv(s) && c < |s.callers| && s.callers[c].StoppingAll?
    requires s.callers[c].next < |s.callers[c].order| && !s.callers[c].cancelled
    ensures IsTask(s, s.callers[c].order[s.callers[c].next])
    ensures var k := s.callers[c];
      var t := k.order[k.next];
      var s' := s.(callers := s.callers[c := StoppingAll(k.order, k.next, true, k.born)],
                   tasks := s.tasks[t := Cancel(s.tasks[t])]);
      Reaches(s, s') && Inv(s')
  {
    StopAllHolds(s, c);
    hide Inv, Reaches, Enabled, Next;
    StopAllCancelNext(s, c);
    ByStep(s, StopAllCancel(c));
  }

  lemma StopAllCancelNext(s: Sys, c: nat)
    requires c < |s.callers| && s.callers[c].StoppingAll? && s.callers[c].next < |s.callers[c].order|
    requires !s.callers[c].cancelled && IsTask(s, s.callers[c].order[s.callers[c].next])
    ensures Enabled(s, StopAllCancel(c))
    ensures var k := s.callers[c];
      var t := k.order[k.next];
      Next(s, StopAllCancel(c)) == s.(callers := s.callers[c := StoppingAll(k.order, k.next, true, k.born)],
                                      tasks := s.tasks[t := Cancel(s.tasks[t])])
  {
  }

  lemma StopAllAdvanceNext(s: Sys, c: nat)
    requires c < |s.callers| && s.callers[c].StoppingAll? && s.callers[c].next < |s.callers[c].order| && s.callers[c].cancelled
    requires IsTask(s, s.callers[c].order[s.callers[c].next]) && s.tasks[s.callers[c].order[s.callers[c].next]].Done()
    ensures Enabled(s, StopAllAdvance(c))
    ensures var k := s.callers[c];
      Next(s, StopAllAdvance(c)) == s.(callers := s.callers[c := StoppingAll(k.order, k.next + 1, false, k.born)])
  {
  }

  lemma AdvanceFrom(s: Sys, order: seq<nat>, i: nat, c: nat, born: nat)
    requires Inv(s) && i < |order| && c < |s.callers| && s.callers[c] == StoppingAll(order, i, true, born)
    requires IsTask(s, order[i]) && s.tasks[order[i]].Done()
    ensures var s' := s.(callers := s.callers[c := StoppingAll(order, i + 1, false, born)]); Reaches(s, s') && Inv(s')
  {
    hide Inv, Next, Enabled, Reaches;
    StopAllAdvanceNext(s, c);
    ByStep(s, StopAllAdvance(c));
  }

  lemma EnabledWaitEnd(s: Sys, c: nat)
    requires c < |s.callers| && s.callers[c].Waiting? && s.callers[c].owner.None?
    requires IsTask(s, s.callers[c].target) && s.tasks[s.callers[c].target].Done()
    ensures Enabled(s, WaitEnd(c))
  {
  }

  /** What is known of a call that has got so far. */
  lemma CallFacts(s: Sys, c: nat)
    requires Inv(s) && c < |s.callers|
    ensures CallerOk(s, c) && MapOk(s)
  {
    InvParts(s);
    hide TaskOk;
  }

  lemma WaitedIsGone(s: Sys, c: nat)
    requires Inv(s) && c < |s.callers| && s.callers[c].Waited?
    ensures var w := s.callers[c];
      IsTask(s, w.target) && s.tasks[w.target].Done() && w.copy == s.tasks[w.target].Copy() && !Registered(s, w.target)
  {
    CallFacts(s, c);
    hide Inv, TaskOk;
  }

  lemma FinishFrom(s: Sys, id: string, t: nat, c: nat)
    requires Inv(s) && c < |s.callers| && s.callers[c] == Waiting(id, t, None) && IsTask(s, t) && s.tasks[t].Done()
    ensures Enabled(s, WaitEnd(c))
    ensures var listed := id in s.reg && s.reg[id] == t;
      var s' := s.(reg := if listed then s.reg - {id} else s.reg,
                   tasks := if listed then s.tasks[t := s.tasks[t].(fate := Unlisted(c))] else s.tasks,
                   callers := s.callers[c := Waited(t, s.tasks[t].Copy())]);
      Steps(s, s', WaitEnd(c)) && Reaches(s, s') && Inv(s') && !Registered(s', t)
  {
    EnabledWaitEnd(s, c);
    hide Inv, Enabled, Reaches, Registered;
    ByWaitEnd(s, c);
    WaitedIsGone(DoWaitEnd(s, c), c);
  }

  lemma StoppingHolds(s: Sys, c: nat)
    requires Inv(s) && c < |s.callers| && s.callers[c].Stopping?
    ensures var t := s.callers[c].target;
      && IsTask(s, t) && !Registered(s, t) && (s.tasks[t].Done() ==> s.tasks[t].Terminal())
      && (s.callers[c].cancelled ==> s.tasks[t].cancelled)
  {
    CallFacts(s, c);
    InvParts(s);
    assert TaskOk(s.tasks[s.callers[c].target]);
    hide Inv;
  }

  lemma StopAllHolds(s: Sys, c: nat)
    requires Inv(s) && c < |s.callers| && s.callers[c].StoppingAll?
    ensures forall k | 0 <= k < |s.callers[c].order| :: IsTask(s, s.callers[c].order[k])
  {
    CallFacts(s, c);
    hide Inv, TaskOk;
  }

  /** While a turn of its loop lasts, its task is cancelled. */
  lemma StopAllCancelled(s: Sys, c: nat)
    requires Inv(s) && c < |s.callers| && s.callers[c].StoppingAll? && s.callers[c].cancelled
    requires s.callers[c].next < |s.callers[c].order|
    ensures var t := s.callers[c].order[s.callers[c].next]; IsTask(s, t) && s.tasks[t].cancelled
  {
    CallFacts(s, c);
    hide Inv, TaskOk;
  }

  /** The tasks before the cursor are done. */
  lemma StopAllSoFar(s: Sys, c: nat)
    requires Inv(s) && c < |s.callers| && s.callers[c].StoppingAll?
    ensures s.callers[c].next <= |s.callers[c].order|
    ensures forall k | 0 <= k < s.callers[c].next ::
      IsTask(s, s.callers[c].order[k]) && s.tasks[s.callers[c].order[k]].Done()
  {
    CallFacts(s, c);
    hide Inv, TaskOk;
  }

  lemma StopAllEnded(s: Sys, c: nat)
    requires Inv(s) && StopAllReturned(s, c)
    ensures forall k | 0 <= k < |s.callers[c].order| ::
      IsTask(s, s.callers[c].order[k]) && s.tasks[s.callers[c].order[k]].Done()
  {
    CallFacts(s, c);
    hide Inv, TaskOk;
  }

  /** A Task as its caller fills it in; a Server or a Spawn always listens, a Run or a Child only if given an address. */
  datatype Declared = Declared(id: string, kind: string, addr: string, work: Work, preset: nat)
  {
    predicate Listens() { addr != "" || work.ServerWork? || work.SpawnWork? }
  }

  /** What the listener got: its port, or the path of a socket, which has port 0. */
  datatype Bound = Bound(name: string, port: nat)

  lemma RecordFrom(s: Sys, t: nat)
    requires Inv(s) && IsTask(s, t) && s.tasks[t].pc.Returned?
    ensures var k, err := s.tasks[t], s.tasks[t].pc.result;
      var k' := if err.Some? then k.(state := Failed, error := err.value, pc := Recorded(err))
                else k.(state := Exited, pc := Recorded(err));
      var s' := s.(tasks := s.tasks[t := k']);
      Steps(s, s', Acts(t, Move.Record)) && Inv(s')
  {
    hide Inv;
    StepKeepsInv(s, Acts(t, Move.Record));
  }

  lemma StartFrom(s: Sys, p: Spec)
    requires Inv(s)
    ensures p.id in s.reg ==> IsTask(s, s.reg[p.id])
    ensures var n := |s.tasks|;
      var kept := if p.id in s.reg
        then s.tasks[s.reg[p.id] := Cancel(s.tasks[s.reg[p.id]]).(fate := Replaced(n))] else s.tasks;
      var s' := s.(tasks := kept + [Fresh(p)], reg := s.reg[p.id := n]);
      Steps(s, s', TaskModel.Start(p)) && Inv(s')
  {
    CallFactsMap(s);
    hide Inv;
    StepKeepsInv(s, TaskModel.Start(p));
  }

  lemma PublishFrom(s: Sys, t: nat)
    requires Inv(s) && IsTask(s, t) && s.tasks[t].pc.PresetArmed?
    ensures var k := s.tasks[t];
      var k' := k.(pid := PublishedPid(k.pid, k.child.pid), state := Running, pc := AwaitExit);
      var s' := s.(tasks := s.tasks[t := k']);
      && Steps(s, s', Acts(t, PublishPid)) && Inv(s')
      && k'.pid != 0 && (k.spec.preset != 0 ==> k'.pid == k.spec.preset)
  {
    assert TaskOk(s.tasks[t]);
    hide Inv;
    StepKeepsInv(s, Acts(t, PublishPid));
  }

  lemma SendFrom(s: Sys, t: nat)
    requires Inv(s) && IsTask(s, t) && s.tasks[t].pc.Fatal?
    ensures s.tasks[t].pc.result.Some?
    ensures var e := Attempt(t, s.tasks[t].pc.result.value);
      var s' := s.(failed := if s.failed.None? then Some(e) else s.failed, log := s.log + [e],
                   tasks := s.tasks[t := s.tasks[t].(pc := Unwinding)]);
      Steps(s, s', TaskModel.Send(t)) && Inv(s')
  {
    assert TaskOk(s.tasks[t]);
    hide Inv;
    StepKeepsInv(s, TaskModel.Send(t));
  }

  lemma LookupFrom(s: Sys, id: string)
    requires Inv(s)
    ensures id in s.reg ==> IsTask(s, s.reg[id])
    ensures var s' := s.(callers := s.callers + [if id in s.reg then Waiting(id, s.reg[id], None) else WaitedNone]);
      Steps(s, s', WaitBegin(id, None)) && Inv(s') && Reaches(s, s')
  {
    CallFactsMap(s);
    hide Inv, Reaches;
    ByStep(s, WaitBegin(id, None));
  }

  lemma StopFrom(s: Sys, id: string)
    requires Inv(s)
    ensures id in s.reg ==> IsTask(s, s.reg[id])
    ensures var c := |s.callers|;
      var s' := if id in s.reg
        then s.(callers := s.callers + [Stopping(s.reg[id], false)], reg := s.reg - {id},
                tasks := s.tasks[s.reg[id] := s.tasks[s.reg[id]].(fate := Taken(c))])
        else s.(callers := s.callers + [StoppedNone]);
      Steps(s, s', StopBegin(id)) && Inv(s') && Reaches(s, s')
  {
    CallFactsMap(s);
    hide Inv, Reaches;
    ByStep(s, StopBegin(id));
  }

  lemma StopAllFrom(s: Sys, order: seq<nat>, taken: seq<Task>)
    requires Inv(s) && Snapshot(s, order) && |taken| == |s.tasks|
    requires forall t | 0 <= t < |taken| ::
      taken[t] == if t in order then s.tasks[t].(fate := Taken(|s.callers|)) else s.tasks[t]
    ensures var s' := s.(callers := s.callers + [StoppingAll(order, 0, false, |s.tasks|)], reg := map[], tasks := taken);
      Steps(s, s', StopAllBegin(order)) && Inv(s') && Reaches(s, s')
  {
    hide Inv, Reaches, Snapshot;
    ByStep(s, StopAllBegin(order));
    assert taken == DoStopAllBegin(s, order).tasks;
  }

  lemma CallFactsMap(s: Sys)
    requires Inv(s)
    ensures MapOk(s)
  {
    hide TaskOk;
  }

  class Tasks {
    var tasks: seq<Task>
    var m: map<string, nat>
    var failed: Option<ChanEvent>
    var calls: seq<Caller>        // the calls in progress, each its goroutine's own
    ghost var log: seq<ChanEvent>

    ghost function State(): Sys
      reads this
    {
      Sys(tasks, m, calls, failed, log)
    }

    constructor ()
      ensures State() == INIT && Inv(State())
    {
      tasks, m, failed, calls, log := [], map[], None, [], [];
    }

    /** What the other goroutines may do while this one blocks: any number of steps, of any kind. The body does none of
        them; callers know only the contract. */
    method Others(ghost c: nat)
      modifies this
      ensures Elsewhere(old(State()), State(), c)
    {
      assert CanRun(State(), []) && After(State(), []) == State() && AllElsewhere([], c);
    }

    /** Start, lines 138-195: a task whose address cannot be bound is not registered, and one without an id is given
        that of its listener, or else its kind. */
    method Open(d: Declared, bound: Option<Bound>) returns (created: Option<TaskCopy>)
      requires Inv(State()) && d.kind != ""
      modifies this
      ensures Inv(State())
      ensures created.None? <==> (d.addr != "" || d.work.ServerWork? || d.work.SpawnWork?) && bound.None?
      ensures created.None? ==> State() == old(State())
      ensures created.Some? ==> exists p: Spec ::
        && Steps(old(State()), State(), TaskModel.Start(p)) && created.value == Fresh(p).Copy()
        && p.kind == d.kind && p.work == d.work && p.preset == d.preset
        && (d.id != "" ==> p.id == d.id)
        && if d.addr != "" || d.work.ServerWork? || d.work.SpawnWork?
           then p.port == bound.value.port && (d.id == "" ==> p.id == [d.kind[0]] + "-" + bound.value.name)
           else p.port == 0 && (d.id == "" ==> p.id == d.kind)
    {
      var id, port := d.id, 0;
      if d.Listens() {
        if bound.None? { return None; }
        port := bound.value.port;
        if id == "" { id := [d.kind[0]] + "-" + bound.value.name; }
      }
      if id == "" { id := d.kind; }
      var p := Spec(id, d.kind, port, d.work, d.preset);
      hide Inv, Steps;
      var copy := Start(p);
      created := Some(copy);
    }

    /** Lines 162-168, the address bound and the id chosen. */
    method Start(p: Spec) returns (created: TaskCopy)
      requires Inv(State())
      modifies this
      ensures Steps(old(State()), State(), TaskModel.Start(p)) && Inv(State())
      ensures p.id in m && m[p.id] == |old(tasks)| && created == tasks[m[p.id]].Copy()
    {
      hide Inv, Steps, TaskOk, Cancel;
      StartFrom(State(), p);
      var t := Fresh(p);
      if p.id in m && m[p.id] < |tasks| {
        var earlier := m[p.id];
        tasks := tasks[earlier := Cancel(tasks[earlier]).(fate := Replaced(|tasks|))];
      }
      m := m[p.id := |tasks|];
      tasks := tasks + [t];
      created := t.Copy();
    }

    /** setState from the deferred function, lines 110-117 and 175-179. */
    method Record(t: nat)
      requires Inv(State()) && IsTask(State(), t) && tasks[t].pc.Returned?
      modifies this
      ensures Steps(old(State()), State(), Acts(t, Move.Record)) && Inv(State())
      ensures IsTask(State(), t) && tasks[t].Terminal()
    {
      hide Inv, Steps, TaskOk;
      RecordFrom(State(), t);
      var err := tasks[t].pc.result;
      if err.Some? {
        tasks := tasks[t := tasks[t].(state := Failed, error := err.value, pc := Recorded(err))];
      } else {
        tasks := tasks[t := tasks[t].(state := Exited, pc := Recorded(err))];
      }
    }

    /** Lines 65-67 of exec.go: the pid and the state in one critical section. */
    method Publish(t: nat)
      requires Inv(State()) && IsTask(State(), t) && tasks[t].pc.PresetArmed?
      modifies this
      ensures Steps(old(State()), State(), Acts(t, PublishPid)) && Inv(State())
      ensures IsTask(State(), t) && tasks[t].state.Running? && tasks[t].pid != 0
      ensures old(tasks[t].spec.preset) != 0 ==> tasks[t].pid == old(tasks[t].spec.preset)
    {
      hide Inv, Steps, TaskOk;
      PublishFrom(State(), t);
      tasks := tasks[t := tasks[t].(pid := PublishedPid(tasks[t].pid, tasks[t].child.pid), state := Running, pc := AwaitExit)];
    }

    /** Lines 181-184. */
    method Send(t: nat)
      requires Inv(State()) && IsTask(State(), t) && tasks[t].pc.Fatal?
      modifies this
      ensures Steps(old(State()), State(), TaskModel.Send(t)) && Inv(State())
      ensures failed.Some? && (old(failed).Some? ==> failed == old(failed))
    {
      hide Inv, Steps, TaskOk;
      SendFrom(State(), t);
      var e := Attempt(t, tasks[t].pc.result.value);
      if failed.None? { failed := Some(e); }
      log := log + [e];
      tasks := tasks[t := tasks[t].(pc := Unwinding)];
    }

    /** Blocks on t.done for a while; the call stays what it is. */
    method Await(t: nat, ghost c: nat, patience: nat) returns (done: bool)
      requires Inv(State()) && IsTask(State(), t) && c < |calls|
      modifies this
      ensures Inv(State()) && Reaches(old(State()), State()) && Grows(old(State()), State())
      ensures c < |calls| && calls[c] == old(calls[c])
      ensures IsTask(State(), t) && (done <==> tasks[t].Done())
    {
      ghost var before := State();
      RunGrows(before, []);
      assert CanRun(before, []) && After(before, []) == before;
      hide Inv, TaskOk, Evolves, Enabled, Next;
      var left := patience;
      while left > 0 && !tasks[t].Done()
        invariant Inv(State()) && Reaches(before, State()) && Grows(before, State())
        invariant c < |calls| && calls[c] == before.callers[c] && IsTask(State(), t)
        decreases left
      {
        ghost var here := State();
        Others(c);
        ElsewhereKeeps(here, State(), c);
        ReachesTransitive(before, here, State());
        GrowsTransitive(before, here, State());
        left := left - 1;
      }
      done := tasks[t].Done();
    }

    // ----- the critical sections of Wait, Stop and StopAll ------------------------------------------------------

    /** Lines 221-223. */
    method WaitLookup(id: string) returns (t: Option<nat>)
      requires Inv(State())
      modifies this
      ensures Steps(old(State()), State(), WaitBegin(id, None)) && Inv(State()) && Reaches(old(State()), State())
      ensures t == (if id in old(m) then Some(old(m[id])) else None) && m == old(m) && tasks == old(tasks)
      ensures |calls| == old(|calls|) + 1
      ensures t.Some? ==> calls[old(|calls|)] == Waiting(id, t.value, None) && IsTask(State(), t.value)
    {
      hide Inv, Steps, TaskOk, Reaches;
      LookupFrom(State(), id);
      t := if id in m then Some(m[id]) else None;
      calls := calls + [if t.Some? then Waiting(id, t.value, None) else WaitedNone];
    }

    /** Lines 228-233. */
    method WaitFinish(id: string, t: nat, c: nat) returns (copy: TaskCopy)
      requires Inv(State()) && c < |calls| && calls[c] == Waiting(id, t, None) && IsTask(State(), t) && tasks[t].Done()
      modifies this
      ensures Steps(old(State()), State(), WaitEnd(c)) && Inv(State()) && Reaches(old(State()), State())
      ensures IsTask(State(), t) && tasks[t].Done() && copy == tasks[t].Copy() && !Registered(State(), t)
    {
      hide Inv, Steps, Reaches, Registered;
      FinishFrom(State(), id, t, c);
      copy := tasks[t].Copy();
      if id in m && m[id] == t {
        m := m - {id};
        tasks := tasks[t := tasks[t].(fate := Unlisted(c))];
      }
      calls := calls[c := Waited(t, copy)];
    }

    /** Lines 237-240. */
    method StopTake(id: string) returns (t: Option<nat>)
      requires Inv(State())
      modifies this
      ensures Steps(old(State()), State(), StopBegin(id)) && Inv(State()) && Reaches(old(State()), State())
      ensures t == if id in old(m) then Some(old(m[id])) else None
      ensures |calls| == old(|calls|) + 1
      ensures t.Some? ==> calls[old(|calls|)] == Stopping(t.value, false) && IsTask(State(), t.value)
      ensures t.None? ==> m == old(m) && tasks == old(tasks)
    {
      hide Inv, Steps, TaskOk, Reaches;
      StopFrom(State(), id);
      t := if id in m then Some(m[id]) else None;
      if t.Some? {
        m := m - {id};
        tasks := tasks[t.value := tasks[t.value].(fate := Taken(|calls|))];
      }
      calls := calls + [if t.Some? then Stopping(t.value, false) else StoppedNone];
    }

    /** Line 244. */
    method StopCancels(t: nat, c: nat)
      requires Inv(State()) && c < |calls| && calls[c] == Stopping(t, false)
      modifies this
      ensures Inv(State()) && Reaches(old(State()), State())
      ensures c < |calls| && calls[c] == Stopping(t, true) && IsTask(State(), t)
    {
      ByStopCancel(State(), c, t);
      hide Inv, TaskOk, Next, Enabled, Reaches, CanMove, Moved;
      tasks := tasks[t := Cancel(tasks[t])];
      calls := calls[c := Stopping(t, true)];
    }

    /** Lines 250-253. */
    method StopAllTake(order: seq<nat>)
      requires Inv(State()) && Snapshot(State(), order)
      modifies this
      ensures Steps(old(State()), State(), StopAllBegin(order)) && Inv(State()) && Reaches(old(State()), State())
      ensures |calls| == old(|calls|) + 1 && calls[old(|calls|)] == StoppingAll(order, 0, false, old(|tasks|))
      ensures m == map[]
    {
      hide Inv, Steps, TaskOk, Reaches, Snapshot;
      var all, c := tasks, |calls|;
      var taken := seq(|all|, t requires 0 <= t < |all| => if t in order then all[t].(fate := Taken(c)) else all[t]);
      StopAllFrom(State(), order, taken);
      tasks := taken;
      m := map[];
      calls := calls + [StoppingAll(order, 0, false, |all|)];
    }

    /** Line 255. */
    method StopAllCancels(order: seq<nat>, i: nat, c: nat, born: nat)
      requires Inv(State()) && i < |order| && c < |calls| && calls[c] == StoppingAll(order, i, false, born)
      modifies this
      ensures Inv(State()) && Reaches(old(State()), State())
      ensures c < |calls| && calls[c] == StoppingAll(order, i, true, born) && IsTask(State(), order[i])
    {
      ByStopAllCancel(State(), c);
      hide Inv, TaskOk, Next, Enabled, Reaches, CanMove, Moved;
      tasks := tasks[order[i] := Cancel(tasks[order[i]])];
      calls := calls[c := StoppingAll(order, i, true, born)];
    }

    /** After line 256. */
    method StopAllGoesOn(order: seq<nat>, i: nat, c: nat, born: nat)
      requires Inv(State()) && i < |order| && c < |calls| && calls[c] == StoppingAll(order, i, true, born)
      requires IsTask(State(), order[i]) && tasks[order[i]].Done()
      modifies this
      ensures Inv(State()) && Reaches(old(State()), State())
      ensures c < |calls| && calls[c] == StoppingAll(order, i + 1, false, born)
    {
      hide Inv, Next, Enabled, Reaches;
      AdvanceFrom(State(), order, i, c, born);
      calls := calls[c := StoppingAll(order, i + 1, false, born)];
    }

    // ----- Wait, Stop and StopAll -------------------------------------------------------------------------------

    /** Lines 220-234. The answer is None for an id not held; returned is false while the call still blocks. */
    method Wait(id: string, patience: nat) returns (ended: Option<TaskCopy>, returned: bool)
      requires Inv(State())
      modifies this
      ensures Inv(State()) && Reaches(old(State()), State())
      ensures id !in old(m) ==> returned && ended.None? && m == old(m) && tasks == old(tasks)
      ensures id in old(m) && returned ==> IsTask(State(), old(m[id])) && !Registered(State(), old(m[id]))
      ensures id in old(m) && returned ==> tasks[old(m[id])].Done() && ended == Some(tasks[old(m[id])].Copy())
      ensures !returned ==> id in old(m) && IsTask(State(), old(m[id])) && !tasks[old(m[id])].Done() && ended.None?
      ensures !returned ==> old(|calls|) < |calls| && calls[old(|calls|)] == Waiting(id, old(m[id]), None)
    {
      hide Inv, TaskOk, Evolves, Next, Enabled, Registered, Reaches;
      ghost var start := State();
      var c := |calls|;
      var t := WaitLookup(id);
      if t.None? { return None, true; }
      ghost var begun := State();
      ended := None;
      returned := Await(t.value, c, patience);
      ReachesTransitive(start, begun, State());
      if returned {
        ghost var here := State();
        var copy := WaitFinish(id, t.value, c);
        ReachesTransitive(start, here, State());
        ended := Some(copy);
      }
    }

    /** Lines 236-247. */
    method Stop(id: string, patience: nat) returns (found: bool, returned: bool)
      requires Inv(State())
      modifies this
      ensures Inv(State()) && Reaches(old(State()), State())
      ensures found <==> id in old(m)
      ensures !found ==> returned && m == old(m) && tasks == old(tasks)
      ensures found ==> IsTask(State(), old(m[id])) && tasks[old(m[id])].cancelled && !Registered(State(), old(m[id]))
      ensures found && returned ==> tasks[old(m[id])].Done() && tasks[old(m[id])].Terminal()
      ensures !returned ==> found && !tasks[old(m[id])].Done()
      ensures !returned ==> old(|calls|) < |calls| && calls[old(|calls|)] == Stopping(old(m[id]), true)
    {
      hide Inv, TaskOk, Evolves, Next, Enabled, Registered, Reaches, Elsewhere;
      ghost var start := State();
      var c := |calls|;
      var t := StopTake(id);
      if t.None? { return false, true; }
      ghost var taken := State();
      Others(c);
      ghost var here := State();
      ElsewhereKeeps(taken, here, c);
      ReachesTransitive(start, taken, here);
      StopCancels(t.value, c);
      ghost var cancelled := State();
      ReachesTransitive(start, here, cancelled);
      returned := Await(t.value, c, patience);
      ReachesTransitive(start, cancelled, State());
      StoppingHolds(State(), c);
      found := true;
    }

    /** Lines 255-256: one turn of StopAll's loop, the others moving before the cancel and during the wait. */
    method StopNext(order: seq<nat>, i: nat, c: nat, born: nat, patience: nat) returns (returned: bool)
      requires Inv(State()) && i < |order| && c < |calls| && calls[c] == StoppingAll(order, i, false, born)
      modifies this
      ensures Inv(State()) && Reaches(old(State()), State()) && c < |calls|
      ensures returned ==> calls[c] == StoppingAll(order, i + 1, false, born)
      ensures !returned ==> calls[c] == StoppingAll(order, i, true, born)
      ensures !returned ==> IsTask(State(), order[i]) && tasks[order[i]].cancelled && !tasks[order[i]].Done()
    {
      hide Inv, TaskOk, Evolves, Next, Enabled, Reaches, Elsewhere;
      ghost var start := State();
      Others(c);
      ghost var here := State();
      ElsewhereKeeps(start, here, c);
      StopAllCancels(order, i, c, born);
      ghost var cancelled := State();
      ReachesTransitive(start, here, cancelled);
      returned := Await(order[i], c, patience);
      ghost var waited := State();
      ReachesTransitive(start, cancelled, waited);
      if returned {
        StopAllGoesOn(order, i, c, born);
        ReachesTransitive(start, waited, State());
      } else {
        StopAllCancelled(State(), c);
      }
    }

    /** StopAll number c blocks on the first task of the rest: those before it are done, and it is cancelled and not. */
    ghost predicate Blocked(order: seq<nat>, c: nat, born: nat)
      reads this
    {
      && c < |calls| && calls[c].StoppingAll?
      && var i := calls[c].next;
         && i < |order| && calls[c] == StoppingAll(order, i, true, born)
         && (forall k | 0 <= k < i :: IsTask(State(), order[k]) && tasks[order[k]].Done())
         && IsTask(State(), order[i]) && tasks[order[i]].cancelled && !tasks[order[i]].Done()
    }

    /** Lines 249-258: the registry is emptied at once, then each task of the copy is cancelled and waited for, in the
        order the map happens to be iterated in. */
    method StopAll(order: seq<nat>, patience: nat) returns (returned: bool)
      requires Inv(State()) && Snapshot(State(), order)
      modifies this
      ensures Inv(State()) && Reaches(old(State()), State())
      ensures returned ==> StopAllReturned(State(), old(|calls|)) && calls[old(|calls|)].order == order
      ensures returned ==> forall k | 0 <= k < |order| :: IsTask(State(), order[k]) && tasks[order[k]].Done()
      ensures !returned ==> Blocked(order, old(|calls|), old(|tasks|))
    {
      hide Inv, TaskOk, Evolves, Next, Enabled, Reaches, Elsewhere, Snapshot;
      ghost var start := State();
      var c, born := |calls|, |tasks|;
      StopAllTake(order);
      var i := 0;
      returned := true;
      while i < |order| && returned
        invariant 0 <= i <= |order| && c < |calls| && Inv(State()) && Reaches(start, State())
        invariant returned ==> calls[c] == StoppingAll(order, i, false, born)
        invariant !returned ==> Blocked(order, c, born)
      {
        ghost var here := State();
        returned := StopNext(order, i, c, born, patience);
        ReachesTransitive(start, here, State());
        if !returned { StopAllSoFar(State(), c); }
        i := i + 1;
      }
      if returned { StopAllEnded(State(), c); }
    }
  }
}
