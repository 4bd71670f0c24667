/**
  Concrete interleavings showing where the promises of internal/tasks stop: each names a reachable state in which a
  stronger statement is false.
*/
module TaskTraces {
  import opened Options
  import opened TaskModel
  import opened TaskSafety
  import opened TaskTheorems
  import opened StopAllProgress

  lemma {:induction false} RunThen(s: Sys, steps: seq<Step>, step: Step)
    requires CanRun(s, steps) && Enabled(After(s, steps), step)
    ensures CanRun(s, steps + [step]) && After(s, steps + [step]) == Next(After(s, steps), step)
    decreases |steps|
  {
    hide Enabled, Next;
    if steps == [] {
      assert [step][1..] == [] && CanRun(Next(s, step), []);
      assert steps + [step] == [step];
    } else {
      RunThen(Next(s, steps[0]), steps[1..], step);
      assert (steps + [step])[1..] == steps[1..] + [step];
    }
  }

  /** A step from a reachable state leads to a reachable state. */
  lemma Extend(s: Sys, step: Step)
    requires Reachable(s) && Enabled(s, step)
    ensures Reachable(Next(s, step))
  {
    var steps: seq<Step> :| CanRun(INIT, steps) && After(INIT, steps) == s;
    RunThen(INIT, steps, step);
  }

  lemma InitReachable()
    ensures Reachable(INIT)
  {
    assert CanRun(INIT, []) && After(INIT, []) == INIT;
  }

  const TASK_A := Spec("a", "workflow", 0, RunWork, 0)
  const TASK_B := Spec("b", "sshd", 4000, ServerWork, 0)

  /** A repeated id replaces the first task and a Stop takes the second: StopAll returns at once, both still running. */
  lemma StopAllMissesTheReplaced() returns (s: Sys)
    ensures Reachable(s) && StopAllReturned(s, 1)
    ensures IsTask(s, 0) && s.tasks[0].cancelled && !s.tasks[0].Done()
    ensures IsTask(s, 1) && !s.tasks[1].cancelled && Held(s, 1)
  {
    InitReachable();
    s := INIT;
    Extend(s, Start(TASK_A));
    s := Next(s, Start(TASK_A));
    Extend(s, Start(TASK_A));
    s := Next(s, Start(TASK_A));
    Extend(s, StopBegin("a"));
    s := Next(s, StopBegin("a"));
    Extend(s, StopAllBegin([]));
    s := Next(s, StopAllBegin([]));
    assert Pending(s.callers[0], 1);
  }

  /** A Stop has taken the task and not yet cancelled it when its id is started again: an older namesake runs on. */
  lemma OlderNamesakeUncancelled() returns (s: Sys)
    ensures Reachable(s) && Newest(s, "a", 1)
    ensures s.tasks[0].spec.id == "a" && !s.tasks[0].cancelled
  {
    InitReachable();
    s := INIT;
    Extend(s, Start(TASK_A));
    s := Next(s, Start(TASK_A));
    Extend(s, StopBegin("a"));
    s := Next(s, StopBegin("a"));
    Extend(s, Start(TASK_A));
    s := Next(s, Start(TASK_A));
  }

  /** A Run returns an error, is found fatal, and is cancelled before it sends: Failed gets the error of a task that is
      cancelled at the moment of the send. */
  lemma FatalOfACancelledTask() returns (s: Sys)
    ensures Reachable(s) && Enabled(s, Send(0)) && s.tasks[0].cancelled
    ensures Next(s, Send(0)).failed == Some(Attempt(0, "boom"))
  {
    InitReachable();
    s := INIT;
    Extend(s, Start(TASK_A));
    s := Next(s, Start(TASK_A));
    s := Failing(s);
    Extend(s, StopBegin("a"));
    s := Next(s, StopBegin("a"));
    Extend(s, StopCancel(0));
    s := Next(s, StopCancel(0));
  }

  /** The only task, just started, runs to the point of sending its error. */
  lemma Failing(s: Sys) returns (s': Sys)
    requires Reachable(s) && s == DoStart(INIT, TASK_A)
    ensures Reachable(s')
    ensures s' == s.(tasks := [s.tasks[0].(pc := Fatal(Some("boom")), state := Failed, error := "boom", verdict := Loud)])
  {
    s' := s;
    var moves := [Launch, Return(Some("boom")), Record, Judge];
    Extend(s', Acts(0, moves[0]));
    s' := Next(s', Acts(0, moves[0]));
    Extend(s', Acts(0, moves[1]));
    s' := Next(s', Acts(0, moves[1]));
    Extend(s', Acts(0, moves[2]));
    s' := Next(s', Acts(0, moves[2]));
    Extend(s', Acts(0, moves[3]));
    s' := Next(s', Acts(0, moves[3]));
  }

  /** A task in its Run. */
  function InRun(p: Spec, fate: Fate, waiting: Option<nat>): Task {
    Fresh(p).(pc := Body, fate := fate, waiting := waiting)
  }

  /** A Run in a Wait for a server started after it, as of a workflow step. */
  lemma WaitingReachable() returns (s: Sys)
    ensures Reachable(s)
    ensures s == Sys([InRun(TASK_A, Listed, Some(0)), InRun(TASK_B, Listed, None)], map["a" := 0, "b" := 1],
                     [Waiting("b", 1, Some(0))], None, [])
  {
    InitReachable();
    s := INIT;
    Extend(s, Start(TASK_A));
    s := Next(s, Start(TASK_A));
    Extend(s, Start(TASK_B));
    s := Next(s, Start(TASK_B));
    Extend(s, Acts(0, Launch));
    s := Next(s, Acts(0, Launch));
    Extend(s, Acts(1, Launch));
    s := Next(s, Acts(1, Launch));
    Extend(s, WaitBegin("b", Some(0)));
    s := Next(s, WaitBegin("b", Some(0)));
  }

  /** Then a StopAll that takes and cancels the first one first. */
  lemma HungReachable() returns (s: Sys)
    ensures Reachable(s)
    ensures s == Sys([Cancel(InRun(TASK_A, Taken(1), Some(0))), InRun(TASK_B, Taken(1), None)], map[],
                     [Waiting("b", 1, Some(0)), StoppingAll([0, 1], 0, true, 2)], None, [])
  {
    s := WaitingReachable();
    assert s.reg["a"] == 0 && s.reg["b"] == 1;
    Extend(s, StopAllBegin([0, 1]));
    s := Next(s, StopAllBegin([0, 1]));
    Extend(s, StopAllCancel(1));
    s := Next(s, StopAllCancel(1));
  }

  /** The run in which nothing ever happens. */
  lemma Standing(s: Sys) returns (r: Run)
    requires Inv(s)
    ensures IsRun(r) && forall i: nat :: r.state(i) == s && r.step(i) == Idling
  {
    r := Run((i: nat) => s, (i: nat) => Idling);
    hide Inv;
  }

  /** With a Run waiting on a later task, StopAll may never return, though every goroutine that can move does and every
      Run honours its context. */
  lemma StopAllMayHang() returns (r: Run, c: nat)
    ensures IsRun(r) && Reachable(r.state(0)) && Fair(r) && RunsReturn(r) && StopAllFair(r, c) && StopsAllAt(r, 0, c)
    ensures forall j: nat :: !StopAllReturned(r.state(j), c)
  {
    var s := HungReachable();
    HungFacts(s);
    hide Inv, Ready, StopAllReady, IsRun, Enabled, Next, InRun, Cancel, Kill, Fresh, WaitsOn, Stuck, InBody;
    ReachableInv(s);
    r := Standing(s);
    c := 1;
    StandingIsFair(r, s);
    StandingReturns(r, s);
    hide Fair, RunsReturn;
  }

  lemma StandingIsFair(r: Run, s: Sys)
    requires forall i: nat :: r.state(i) == s
    requires forall t: nat :: t < |s.tasks| ==> !Ready(s.tasks[t])
    ensures Fair(r)
  {
    hide Ready;
  }

  lemma StandingReturns(r: Run, s: Sys)
    requires forall i: nat :: r.state(i) == s
    requires |s.tasks| == 2 && WaitsOn(s, 0, 1) && !s.tasks[1].Done() && !s.tasks[1].cancelled
    ensures RunsReturn(r)
  {
    forall i: nat ensures Stuck(r, i, 0) { StuckThere(r, s, i); }
    hide WaitsOn, Stuck, InBody;
  }

  lemma HungFacts(s: Sys)
    requires s == Sys([Cancel(InRun(TASK_A, Taken(1), Some(0))), InRun(TASK_B, Taken(1), None)], map[],
                      [Waiting("b", 1, Some(0)), StoppingAll([0, 1], 0, true, 2)], None, [])
    ensures !Ready(s.tasks[0]) && !Ready(s.tasks[1]) && !StopAllReady(s, 1)
    ensures WaitsOn(s, 0, 1) && !s.tasks[1].Done() && !s.tasks[1].cancelled
  {
  }

  lemma StuckThere(r: Run, s: Sys, i: nat)
    requires (forall k: nat :: r.state(k) == s) && IsTask(s, 1) && WaitsOn(s, 0, 1) && !s.tasks[1].Done()
    ensures Stuck(r, i, 0)
  {
    assert StuckAt(r, i, 0, 1);
  }

  const TASK_C := Spec("c", "process", 0, ChildWork, 0)

  /** A Stop takes a Child between its Start and the lookup of its waiter: the Wait answers the zero Task at once, with the
      process neither done nor yet cancelled. */
  lemma WaitMayMissItsTask() returns (s: Sys)
    ensures Reachable(s) && |s.callers| == 2 && s.callers[1] == WaitedNone
    ensures |s.tasks| == 1 && s.tasks[0].spec == TASK_C && !s.tasks[0].Done() && !s.tasks[0].cancelled
  {
    InitReachable();
    s := INIT;
    Extend(s, Start(TASK_C));
    s := Next(s, Start(TASK_C));
    Extend(s, StopBegin("c"));
    s := Next(s, StopBegin("c"));
    Extend(s, WaitBegin("c", None));
    s := Next(s, WaitBegin("c", None));
  }

  /** A second Child is started under the id before the lookup of the first one's waiter, which then waits for the second. */
  lemma WaitMayFindTheNext() returns (s: Sys)
    ensures Reachable(s) && |s.callers| == 1 && s.callers[0] == Waiting("c", 1, None)
    ensures |s.tasks| == 2 && s.tasks[0].spec == TASK_C && !s.tasks[0].Done() && !Removed(s, 0)
  {
    s := TwoChildren();
    Extend(s, WaitBegin("c", None));
    s := Next(s, WaitBegin("c", None));
  }

  /** Then a Stop takes the second: the first one's waiter finds nothing, though no call has removed the first. */
  lemma WaitMayMissTheReplaced() returns (s: Sys)
    ensures Reachable(s) && |s.callers| == 2 && s.callers[1] == WaitedNone
    ensures |s.tasks| == 2 && s.tasks[0].spec == TASK_C && !s.tasks[0].Done() && s.tasks[0].fate == Replaced(1) && !Removed(s, 0)
  {
    s := TwoChildren();
    Extend(s, StopBegin("c"));
    s := Next(s, StopBegin("c"));
    Extend(s, WaitBegin("c", None));
    s := Next(s, WaitBegin("c", None));
  }

  lemma TwoChildren() returns (s: Sys)
    ensures Reachable(s) && s == DoStart(DoStart(INIT, TASK_C), TASK_C)
  {
    InitReachable();
    Extend(INIT, Start(TASK_C));
    s := Next(INIT, Start(TASK_C));
    Extend(s, Start(TASK_C));
    s := Next(s, Start(TASK_C));
  }

  const TASK_S := Spec("s", "jupyter", 5000, SpawnWork, 0)

  /** A Spawn that StopAll has cancelled while the function that builds its command is blocked, as one is that waits for
      another's setup whatever its context. */
  lemma BuildingReachable() returns (s: Sys)
    ensures Reachable(s)
    ensures s == Sys([Cancel(Fresh(TASK_S).(pc := Body, fate := Taken(0)))], map[], [StoppingAll([0], 0, true, 1)], None, [])
  {
    InitReachable();
    s := INIT;
    Extend(s, Start(TASK_S));
    s := Next(s, Start(TASK_S));
    Extend(s, Acts(0, Launch));
    s := Next(s, Acts(0, Launch));
    Extend(s, StopAllBegin([0]));
    s := Next(s, StopAllBegin([0]));
    Extend(s, StopAllCancel(0));
    s := Next(s, StopAllCancel(0));
  }

  /** If that function never returns, neither does StopAll, though nothing waits on anything. */
  lemma StopAllMayHangOnASpawn() returns (r: Run, c: nat)
    ensures IsRun(r) && Reachable(r.state(0)) && Fair(r) && StopAllFair(r, c) && StopsAllAt(r, 0, c)
    ensures WaitsAreEarlier(r, r.state(0).callers[c].order)
    ensures forall j: nat :: !StopAllReturned(r.state(j), c)
  {
    var s := BuildingReachable();
    ReachableInv(s);
    assert !Ready(s.tasks[0]) && !StopAllReady(s, 0);
    r := Standing(s);
    c := 0;
    StandingIsFair(r, s);
    hide Inv, Ready, StopAllReady, IsRun, Enabled, Next, Fair;
  }
}
