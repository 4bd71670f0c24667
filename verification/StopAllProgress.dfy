/**
  StopAll cancels and waits for one task at a time, so whether it returns is a question about whole infinite runs.

  Assumed of a run: every goroutine that can move moves in the end, and a killed process ends. Proved of it: StopAll
  returns exactly if the code of every task of its snapshot does, once the task is cancelled. That code is a Run, a Serve,
  or the function that builds the command of a Spawn or a Child; once a command is built, its end follows from the kill
  hook alone. And if such code only ever fails to return because it is a Run that a Wait blocks for ever, StopAll returns
  exactly if no task of its snapshot waits on a later one, or on one outside, that never ends; whatever the map's
  iteration order and whatever else happens meanwhile.
*/
module StopAllProgress {
  import opened Options
  import opened TaskModel
  import opened TaskSafety
  import opened TaskTheorems

  datatype Run = Run(state: nat -> Sys, step: nat -> Step)

  ghost predicate IsRun(r: Run) {
    Inv(r.state(0)) && forall i: nat :: Follows(r, i)
  }

  ghost predicate Follows(r: Run, i: nat) {
    Enabled(r.state(i), r.step(i)) && r.state(i + 1) == Next(r.state(i), r.step(i))
  }

  ghost predicate DoneAt(r: Run, i: nat, t: nat) {
    IsTask(r.state(i), t) && r.state(i).tasks[t].Done()
  }

  /** A move of the task's goroutines or the end of its process. */
  predicate Own(step: Step, t: nat) { (step.Acts? && step.t == t) || (step.Send? && step.t == t) }

  predicate OwnStopAll(step: Step, c: nat) { (step.StopAllCancel? || step.StopAllAdvance?) && step.c == c }

  /** Something of the task must move without help: a goroutine that is not blocked, or a process sent SIGKILL. */
  predicate Ready(t: Task) {
    var f := t.child.fork;
    || t.pc.Launching? || t.pc.PresetArmed? || t.pc.Accepted? || t.pc.Returned? || t.pc.Recorded?
    || t.pc.Fatal? || t.pc.Unwinding? || t.pc.Closing?
    || f.Forking? || f.Forked? || f.Reaped? || f.Released?
    || (t.pc.InChild? && f.Watched?)
    || (f.Watched? && t.child.proc.Dead? && (t.spec.work.ChildWork? ==> t.pc.AwaitExit?))
    || (f.Watched? && t.child.proc.Alive? && t.child.hook.Fired?)
    || (f.Over? && (t.pc.InChild? || t.pc.AwaitExit? || t.pc.Dialing?))
  }

  predicate StopAllReady(s: Sys, c: nat) {
    && c < |s.callers| && s.callers[c].StoppingAll? && s.callers[c].next < |s.callers[c].order|
    && var k := s.callers[c];
       IsTask(s, k.order[k.next]) && (k.cancelled ==> s.tasks[k.order[k.next]].Done())
  }

  /** The Run of t is in a Wait for u. */
  predicate WaitsOn(s: Sys, t: nat, u: nat) {
    && IsTask(s, t) && s.tasks[t].waiting.Some? && s.tasks[t].waiting.value < |s.callers|
    && s.callers[s.tasks[t].waiting.value].Waiting? && s.callers[s.tasks[t].waiting.value].target == u
  }

  // ----- what is assumed of a run -------------------------------------------------------------------------------

  ghost predicate MovesLater(r: Run, i: nat, t: nat) { exists j: nat :: i <= j && Own(r.step(j), t) }

  /** Goroutines that can move do, and killed processes end. */
  ghost predicate Fair(r: Run) {
    forall i: nat, t: nat :: IsTask(r.state(i), t) && Ready(r.state(i).tasks[t]) ==> MovesLater(r, i, t)
  }

  ghost predicate NeverDone(r: Run, j: nat, u: nat) { forall k: nat :: j <= k ==> !DoneAt(r, k, u) }

  ghost predicate StuckAt(r: Run, j: nat, t: nat, u: nat) { WaitsOn(r.state(j), t, u) && NeverDone(r, j, u) }

  /** From i on, a Wait blocks the Run of t for ever. */
  ghost predicate Stuck(r: Run, i: nat, t: nat) { exists j: nat, u: nat :: i <= j && StuckAt(r, j, t, u) }

  /** In code of its own: a Run, a Server's Serve, or the function that builds a Spawn's or a Child's command. */
  predicate InBody(t: Task) { t.pc.Body? }

  /** Such code of a task whose context is done returns, unless it is a Run that a Wait blocks for ever. */
  ghost predicate RunsReturn(r: Run) {
    forall i: nat, t: nat :: IsTask(r.state(i), t) && r.state(i).tasks[t].cancelled && InBody(r.state(i).tasks[t])
      ==> MovesLater(r, i, t) || Stuck(r, i, t)
  }

  ghost predicate StopAllMovesLater(r: Run, i: nat, c: nat) { exists j: nat :: i <= j && OwnStopAll(r.step(j), c) }

  /** The goroutine in StopAll goes on when it can. */
  ghost predicate StopAllFair(r: Run, c: nat) {
    forall i: nat :: StopAllReady(r.state(i), c) ==> StopAllMovesLater(r, i, c)
  }

  ghost predicate EndsSometime(r: Run, u: nat) { exists m: nat :: DoneAt(r, m, u) }

  /** No task of the order waits on a later one, nor on a task outside that never ends. */
  ghost predicate WaitsAreEarlier(r: Run, order: seq<nat>) {
    forall k: nat, j: nat, u: nat :: k < |order| && WaitsOn(r.state(j), order[k], u) ==>
      u in order[..k] || EndsSometime(r, u)
  }

  // ----- the measure --------------------------------------------------------------------------------------------

  function PcRank(pc: Pc): nat {
    match pc
    case Launching => 12
    case Body => 11
    case InChild => 10
    case PresetArmed => 9
    case Dialing => 10
    case Accepted => 9
    case AwaitExit => 8
    case Returned(_) => 7
    case Recorded(_) => 6
    case Fatal(_) => 5
    case Unwinding => 4
    case Closing => 3
    case Ended => 0
  }

  function ForkRank(f: ForkPc): nat {
    match f
    case Idle => 6
    case Forking => 5
    case Forked => 4
    case Watched => 3
    case Reaped(_) => 2
    case Released(_) => 1
    case Over(_) => 0
  }

  /** How far a task is from its end, whatever it does. */
  function Rank(t: Task): nat {
    PcRank(t.pc) + 2 * ForkRank(t.child.fork) + (if t.child.proc.Alive? then 1 else 0)
  }

  lemma MoveLowersRank(t: Task, m: Move)
    requires TaskOk(t) && CanMove(t, m)
    ensures Rank(Moved(t, m)) < Rank(t)
  {
  }

  /** A task's rank never grows, and every move of its own lowers it. */
  lemma StepRank(s: Sys, step: Step, t: nat)
    requires Enabled(s, step) && IsTask(s, t) && TaskOk(s.tasks[t])
    ensures IsTask(Next(s, step), t) && Rank(Next(s, step).tasks[t]) <= Rank(s.tasks[t])
    ensures Own(step, t) ==> Rank(Next(s, step).tasks[t]) < Rank(s.tasks[t])
  {
    if step.Acts? && step.t == t { MoveLowersRank(s.tasks[t], step.move); }
    hide TaskOk;
  }

  /** What StopAll has left to do: two steps for each task. */
  function CallRank(c: Caller): nat
    requires c.StoppingAll?
  {
    if c.next > |c.order| then 0 else 2 * (|c.order| - c.next) + (if c.cancelled then 0 else 1)
  }

  lemma StepCallRank(s: Sys, step: Step, c: nat)
    requires Enabled(s, step) && c < |s.callers| && s.callers[c].StoppingAll? && s.callers[c].next <= |s.callers[c].order|
    ensures c < |Next(s, step).callers| && Next(s, step).callers[c].StoppingAll?
    ensures Next(s, step).callers[c].order == s.callers[c].order
    ensures OwnStopAll(step, c) ==> CallRank(Next(s, step).callers[c]) < CallRank(s.callers[c])
    ensures !OwnStopAll(step, c) ==> Next(s, step).callers[c] == s.callers[c]
  {
  }

  // ----- along a run --------------------------------------------------------------------------------------------

  lemma {:induction false} InvAlong(r: Run, i: nat)
    requires IsRun(r)
    ensures Inv(r.state(i))
  {
    hide Inv, Enabled, Next;
    if i > 0 {
      InvAlong(r, i - 1);
      assert Follows(r, i - 1);
      StepKeepsInv(r.state(i - 1), r.step(i - 1));
    }
  }

  lemma {:induction false} TaskAlong(r: Run, i: nat, j: nat, t: nat)
    requires IsRun(r) && i <= j && IsTask(r.state(i), t)
    ensures IsTask(r.state(j), t) && Rank(r.state(j).tasks[t]) <= Rank(r.state(i).tasks[t])
    ensures r.state(i).tasks[t].cancelled ==> r.state(j).tasks[t].cancelled
    ensures DoneAt(r, i, t) ==> DoneAt(r, j, t)
    decreases j - i
  {
    hide Inv, Enabled, Next, TaskOk, Rank;
    if i < j {
      InvAlong(r, i);
      assert Follows(r, i);
      InvParts(r.state(i));
      StepGrows(r.state(i), r.step(i));
      assert Evolves(r.state(i).tasks[t], r.state(i + 1).tasks[t]);
      StepRank(r.state(i), r.step(i), t);
      TaskAlong(r, i + 1, j, t);
    }
  }

  lemma InvParts(s: Sys)
    requires Inv(s)
    ensures TasksOk(s) && MapOk(s) && FateOk(s) && CallersOk(s)
  {
    hide TaskOk;
  }

  ghost predicate StopsAllAt(r: Run, i: nat, c: nat) {
    c < |r.state(i).callers| && r.state(i).callers[c].StoppingAll?
  }

  lemma CallShape(r: Run, i: nat, c: nat)
    requires IsRun(r) && StopsAllAt(r, i, c)
    ensures CallerOk(r.state(i), c)
    ensures r.state(i).callers[c].next <= |r.state(i).callers[c].order|
  {
    InvAlong(r, i);
    InvParts(r.state(i));
    assert CallerOk(r.state(i), c);
    hide Inv, TaskOk;
  }

  lemma {:induction false} CallAlong(r: Run, i: nat, j: nat, c: nat)
    requires IsRun(r) && i <= j && StopsAllAt(r, i, c)
    ensures StopsAllAt(r, j, c) && r.state(j).callers[c].order == r.state(i).callers[c].order
    ensures r.state(j).callers[c] == r.state(i).callers[c] || CallRank(r.state(j).callers[c]) < CallRank(r.state(i).callers[c])
    decreases j - i
  {
    hide Inv, Enabled, Next, CallRank, CallerOk, OwnStopAll;
    if i < j {
      CallShape(r, i, c);
      assert Follows(r, i);
      StepCallRank(r.state(i), r.step(i), c);
      CallAlong(r, i + 1, j, c);
    }
  }

  // ----- progress -----------------------------------------------------------------------------------------------

  /** A cancelled task that is neither done nor in a Run's own code can always move: its child, if any, is killed. */
  lemma CancelledIsReady(t: Task)
    requires TaskOk(t) && t.cancelled && !t.Done() && !InBody(t)
    ensures Ready(t)
  {
  }

  ghost predicate WaitsEnd(r: Run, t: nat) {
    forall k: nat, u: nat :: WaitsOn(r.state(k), t, u) ==> EndsSometime(r, u)
  }

  lemma NotStuck(r: Run, i: nat, t: nat)
    requires IsRun(r) && WaitsEnd(r, t)
    ensures !Stuck(r, i, t)
  {
    hide Inv, Enabled, Next, WaitsOn;
    if Stuck(r, i, t) {
      var j: nat, u: nat :| i <= j && StuckAt(r, j, t, u);
      assert EndsSometime(r, u);
      var m: nat :| DoneAt(r, m, u);
      if m < j { TaskAlong(r, m, j, u); }
    }
  }

  /** Whenever t is cancelled and in code of its own, that code returns. */
  ghost predicate Leaves(r: Run, t: nat) {
    forall i: nat :: IsTask(r.state(i), t) && r.state(i).tasks[t].cancelled && InBody(r.state(i).tasks[t]) ==> MovesLater(r, i, t)
  }

  lemma WaitsEndLeaves(r: Run, t: nat)
    requires IsRun(r) && RunsReturn(r) && WaitsEnd(r, t)
    ensures Leaves(r, t)
  {
    hide IsRun, WaitsEnd, Stuck, MovesLater, InBody;
    forall i: nat | IsTask(r.state(i), t) && r.state(i).tasks[t].cancelled && InBody(r.state(i).tasks[t])
      ensures MovesLater(r, i, t)
    {
      NotStuck(r, i, t);
    }
  }

  lemma MovesAgain(r: Run, i: nat, t: nat)
    requires IsRun(r) && Fair(r) && Leaves(r, t)
    requires IsTask(r.state(i), t) && r.state(i).tasks[t].cancelled && !DoneAt(r, i, t)
    ensures MovesLater(r, i, t)
  {
    InvAlong(r, i);
    InvParts(r.state(i));
    assert TaskOk(r.state(i).tasks[t]);
    if !InBody(r.state(i).tasks[t]) { CancelledIsReady(r.state(i).tasks[t]); }
    hide Inv, TaskOk, Ready, Own, IsRun;
  }

  /** A cancelled task ends, if its own code returns. */
  lemma {:induction false} Ends(r: Run, i: nat, t: nat) returns (j: nat)
    requires IsRun(r) && Fair(r) && Leaves(r, t)
    requires IsTask(r.state(i), t) && r.state(i).tasks[t].cancelled
    ensures i <= j && DoneAt(r, j, t)
    decreases Rank(r.state(i).tasks[t])
  {
    hide Inv, Enabled, Next, TaskOk, Rank, Own, Fair, Leaves;
    if DoneAt(r, i, t) { return i; }
    MovesAgain(r, i, t);
    var m: nat :| i <= m && Own(r.step(m), t);
    TaskAlong(r, i, m, t);
    InvAlong(r, m);
    InvParts(r.state(m));
    assert Follows(r, m);
    StepRank(r.state(m), r.step(m), t);
    TaskAlong(r, i, m + 1, t);
    j := Ends(r, m + 1, t);
  }

  ghost predicate AllEnd(r: Run, tasks: seq<nat>) { forall u | u in tasks :: EndsSometime(r, u) }

  /** The code of each task of the order returns, once those before it have ended. */
  ghost predicate LeaveInTurn(r: Run, order: seq<nat>) {
    forall k: nat :: k < |order| && AllEnd(r, order[..k]) ==> Leaves(r, order[k])
  }

  lemma WaitsGiveTurn(r: Run, order: seq<nat>)
    requires IsRun(r) && RunsReturn(r) && WaitsAreEarlier(r, order)
    ensures LeaveInTurn(r, order)
  {
    hide IsRun, RunsReturn, Leaves, EndsSometime;
    forall k: nat | k < |order| && AllEnd(r, order[..k]) ensures Leaves(r, order[k]) {
      assert WaitsEnd(r, order[k]);
      WaitsEndLeaves(r, order[k]);
    }
  }

  /** Every task before StopAll's cursor has ended. */
  lemma NextEnds(r: Run, i: nat, c: nat) returns (j: nat)
    requires IsRun(r) && Fair(r) && StopsAllAt(r, i, c)
    requires LeaveInTurn(r, r.state(i).callers[c].order)
    requires r.state(i).callers[c].cancelled && r.state(i).callers[c].next < |r.state(i).callers[c].order|
    ensures i <= j && DoneAt(r, j, r.state(i).callers[c].order[r.state(i).callers[c].next])
  {
    var k := r.state(i).callers[c];
    CallShape(r, i, c);
    hide Inv, TaskOk, Fair, IsRun, Leaves;
    assert AllEnd(r, k.order[..k.next]) by {
      forall u | u in k.order[..k.next] ensures EndsSometime(r, u) { assert DoneAt(r, i, u); }
    }
    j := Ends(r, i, k.order[k.next]);
  }

  /** A StopAll whose cursor can move moves it. */
  lemma CursorMoves(r: Run, i: nat, c: nat) returns (n: nat)
    requires IsRun(r) && StopAllFair(r, c) && StopsAllAt(r, i, c) && StopAllReady(r.state(i), c)
    ensures i <= n && StopsAllAt(r, n, c) && r.state(n).callers[c].order == r.state(i).callers[c].order
    ensures CallRank(r.state(n).callers[c]) < CallRank(r.state(i).callers[c])
  {
    hide Inv, TaskOk, Enabled, Next, StopAllReady, OwnStopAll, CallRank;
    n :| i <= n && OwnStopAll(r.step(n), c);
    CallAlong(r, i, n, c);
    CallShape(r, n, c);
    assert Follows(r, n);
    StepCallRank(r.state(n), r.step(n), c);
    n := n + 1;
  }

  /** StopAll returns, and then every task of its snapshot is done. */
  lemma {:induction false} ReturnsInTurn(r: Run, i: nat, c: nat) returns (j: nat)
    requires IsRun(r) && Fair(r) && StopAllFair(r, c) && StopsAllAt(r, i, c)
    requires LeaveInTurn(r, r.state(i).callers[c].order)
    ensures i <= j && StopAllReturned(r.state(j), c)
    ensures r.state(j).callers[c].order == r.state(i).callers[c].order
    ensures forall t | t in r.state(i).callers[c].order :: DoneAt(r, j, t)
    decreases CallRank(r.state(i).callers[c])
  {
    var k := r.state(i).callers[c];
    CallShape(r, i, c);
    if k.next == |k.order| {
      return i;
    }
    var m: nat := i;
    hide Fair, LeaveInTurn, StopAllFair, IsRun, Inv, TaskOk, CallRank;
    if k.cancelled && !DoneAt(r, i, k.order[k.next]) {
      m := NextEnds(r, i, c);
      CallAlong(r, i, m, c);
    }
    if r.state(m).callers[c] == k {
      CallShape(r, m, c);
      assert StopAllReady(r.state(m), c);
      m := CursorMoves(r, m, c);
    }
    j := ReturnsInTurn(r, m, c);
  }

  /** It does if no task of the snapshot waits on a later one that never ends. */
  lemma StopAllReturns(r: Run, i: nat, c: nat) returns (j: nat)
    requires IsRun(r) && Fair(r) && RunsReturn(r) && StopAllFair(r, c) && StopsAllAt(r, i, c)
    requires WaitsAreEarlier(r, r.state(i).callers[c].order)
    ensures i <= j && StopAllReturned(r.state(j), c)
    ensures r.state(j).callers[c].order == r.state(i).callers[c].order
    ensures forall t | t in r.state(i).callers[c].order :: DoneAt(r, j, t)
  {
    hide IsRun, Fair, RunsReturn, StopAllFair, WaitsAreEarlier, LeaveInTurn;
    WaitsGiveTurn(r, r.state(i).callers[c].order);
    j := ReturnsInTurn(r, i, c);
  }

  // ----- how a wait holds StopAll up ----------------------------------------------------------------------------

  /** StopAll number c has cancelled the task at its cursor, whose Run waits on u, and u is not done. */
  ghost predicate Hung(s: Sys, call: Caller, c: nat, u: nat) {
    && c < |s.callers| && s.callers[c] == call && call.StoppingAll? && call.cancelled && call.next < |call.order|
    && WaitsOn(s, call.order[call.next], u)
    && IsTask(s, u) && !s.tasks[u].Done()
  }

  lemma HungStep(s: Sys, step: Step, call: Caller, c: nat, u: nat)
    requires Inv(s) && Enabled(s, step) && Hung(s, call, c, u)
    ensures c < |Next(s, step).callers| && Next(s, step).callers[c] == call && IsTask(Next(s, step), u)
    ensures Hung(Next(s, step), call, c, u) || Next(s, step).tasks[u].Done()
  {
    InvParts(s);
    StepGrows(s, step);
    assert OwnersOk(s);
    var t := call.order[call.next];
    assert TaskOk(s.tasks[t]) && s.tasks[t].pc.Body?;
    HungCall(s, step, call, c, u);
    HungWait(s, step, t, u);
    hide Inv, TaskOk, OwnersOk, Enabled, Next, WaitsOn;
  }

  lemma HungCall(s: Sys, step: Step, call: Caller, c: nat, u: nat)
    requires Enabled(s, step) && Hung(s, call, c, u)
    requires s.tasks[call.order[call.next]].pc.Body?
    ensures c < |Next(s, step).callers| && Next(s, step).callers[c] == call
  {
  }

  lemma HungWait(s: Sys, step: Step, t: nat, u: nat)
    requires OwnersOk(s) && Enabled(s, step) && WaitsOn(s, t, u) && IsTask(s, u) && !s.tasks[u].Done()
    requires s.tasks[t].pc.Body?
    ensures WaitsOn(Next(s, step), t, u) && IsTask(Next(s, step), u)
  {
    var w := s.tasks[t].waiting.value;
    assert s.callers[w].owner == Some(t);
    match step
    case WaitBegin(id, owner) => HungWaitBegin(s, id, owner, t, u);
    case WaitEnd(d) => HungWaitEnd(s, d, t, u);
    case _ =>
      WaitsQuiet(s, step);
      hide Next, Enabled, OwnersOk;
  }

  lemma HungWaitBegin(s: Sys, id: string, owner: Option<nat>, t: nat, u: nat)
    requires Enabled(s, WaitBegin(id, owner)) && WaitsOn(s, t, u) && IsTask(s, u)
    ensures WaitsOn(Next(s, WaitBegin(id, owner)), t, u) && IsTask(Next(s, WaitBegin(id, owner)), u)
  {
    hide CanMove, Moved;
  }

  lemma HungWaitEnd(s: Sys, d: nat, t: nat, u: nat)
    requires OwnersOk(s) && Enabled(s, WaitEnd(d)) && WaitsOn(s, t, u) && IsTask(s, u) && !s.tasks[u].Done()
    ensures WaitsOn(Next(s, WaitEnd(d)), t, u) && IsTask(Next(s, WaitEnd(d)), u)
  {
    hide CanMove, Moved;
    assert d != s.tasks[t].waiting.value;
    assert s.callers[d].owner != Some(t);
  }

  /** StopAll does not move past a task waiting on a later one before the later one is done, and it is not StopAll that
      ends it: its cursor stands where it stood. */
  lemma {:induction false} StopAllHangs(s: Sys, steps: seq<Step>, call: Caller, c: nat, u: nat)
    requires Inv(s) && CanRun(s, steps) && Hung(s, call, c, u)
    ensures || Hung(After(s, steps), call, c, u)
            || exists n | 0 < n <= |steps| :: EndsByItself(s, steps, n, call, c, u)
    decreases |steps|
  {
    hide Inv, Enabled, Next, Hung;
    if steps != [] {
      HungStep(s, steps[0], call, c, u);
      StepKeepsInv(s, steps[0]);
      var s1 := Next(s, steps[0]);
      if s1.tasks[u].Done() {
        var one := steps[..1];
        assert one[0] == steps[0] && one[1..] == [] && CanRun(s1, []) && After(s1, []) == s1;
        assert CanRun(s, one) && After(s, one) == s1;
        assert EndsByItself(s, steps, 1, call, c, u);
      } else {
        StopAllHangs(s1, steps[1..], call, c, u);
        if n: nat :| 0 < n <= |steps| - 1 && EndsByItself(s1, steps[1..], n, call, c, u) {
          assert steps[..n + 1][1..] == steps[1..][..n];
          assert EndsByItself(s, steps, n + 1, call, c, u);
        }
      }
    }
  }

  /** After n of the steps u is done, and StopAll's call is still what it was. */
  ghost predicate EndsByItself(s: Sys, steps: seq<Step>, n: nat, call: Caller, c: nat, u: nat) {
    && n <= |steps| && CanRun(s, steps[..n])
    && var s' := After(s, steps[..n]);
       IsTask(s', u) && s'.tasks[u].Done() && c < |s'.callers| && s'.callers[c] == call
  }

  // ----- exactly when -------------------------------------------------------------------------------------------

  lemma WaiterIsInBody(r: Run, i: nat, t: nat, u: nat)
    requires IsRun(r) && WaitsOn(r.state(i), t, u)
    ensures IsTask(r.state(i), t) && r.state(i).tasks[t].pc.Body? && IsTask(r.state(i), u) && OwnersOk(r.state(i))
  {
    InvAlong(r, i);
    InvParts(r.state(i));
    WaitTarget(r.state(i), t, u);
    hide Inv, TaskOk, OwnersOk;
  }

  lemma WaitTarget(s: Sys, t: nat, u: nat)
    requires TasksOk(s) && CallersOk(s) && WaitsOn(s, t, u)
    ensures s.tasks[t].pc.Body? && IsTask(s, u)
  {
    assert TaskOk(s.tasks[t]) && CallerOk(s, s.tasks[t].waiting.value);
  }

  /** A Wait on a task that never ends lasts. */
  lemma {:induction false} WaitPersists(r: Run, i: nat, j: nat, t: nat, u: nat)
    requires IsRun(r) && i <= j && WaitsOn(r.state(i), t, u) && !EndsSometime(r, u)
    ensures WaitsOn(r.state(j), t, u)
    decreases j - i
  {
    if i < j {
      WaiterIsInBody(r, i, t, u);
      assert Follows(r, i) && !DoneAt(r, i, u);
      HungWait(r.state(i), r.step(i), t, u);
      hide Enabled, Next, WaitsOn, Inv, TaskOk, OwnersOk;
      WaitPersists(r, i + 1, j, t, u);
    }
  }

  /** A task that waits on one that never ends is never done: not before, since it is still in its Run then, and not after. */
  lemma Hangs(r: Run, j: nat, m: nat, t: nat, u: nat)
    requires IsRun(r) && WaitsOn(r.state(j), t, u) && !EndsSometime(r, u)
    ensures !DoneAt(r, m, t)
  {
    if m <= j {
      WaiterIsInBody(r, j, t, u);
      if DoneAt(r, m, t) { TaskAlong(r, m, j, t); }
    } else {
      WaitPersists(r, j, m, t, u);
      WaiterIsInBody(r, m, t, u);
    }
    hide IsRun, WaitsOn, EndsSometime;
  }

  /** Every task of the snapshot is done when StopAll has returned. */
  lemma ReturnedMeansDone(r: Run, m: nat, c: nat, t: nat)
    requires IsRun(r) && StopAllReturned(r.state(m), c) && t in r.state(m).callers[c].order
    ensures DoneAt(r, m, t)
  {
    CallShape(r, m, c);
    hide IsRun, Inv;
  }

  /** A task none of whose own moves comes stays where it is. */
  lemma {:induction false} PcStands(r: Run, i: nat, j: nat, t: nat)
    requires IsRun(r) && i <= j && IsTask(r.state(i), t) && !MovesLater(r, i, t)
    ensures IsTask(r.state(j), t) && r.state(j).tasks[t].pc == r.state(i).tasks[t].pc
    decreases j - i
  {
    if i < j {
      assert Follows(r, i) && !Own(r.step(i), t);
      PcQuiet(r.state(i), r.step(i), t);
      assert !MovesLater(r, i + 1, t);
      hide Enabled, Next, Inv, Own;
      PcStands(r, i + 1, j, t);
    }
  }

  lemma PcQuiet(s: Sys, step: Step, t: nat)
    requires Enabled(s, step) && IsTask(s, t) && !Own(step, t)
    ensures IsTask(Next(s, step), t) && Next(s, step).tasks[t].pc == s.tasks[t].pc
  {
    hide CanMove, Moved;
  }

  /** Whatever is assumed of the tasks, StopAll returns exactly if the code of every task of its snapshot does, in every
      state from which the task is cancelled. */
  lemma ReturnsAsCodeDoes(r: Run, i: nat, c: nat)
    requires IsRun(r) && Fair(r) && StopAllFair(r, c) && StopsAllAt(r, i, c)
    ensures (exists m: nat :: i <= m && StopAllReturned(r.state(m), c))
       <==> forall t | t in r.state(i).callers[c].order :: Leaves(r, t)
  {
    var order := r.state(i).callers[c].order;
    hide IsRun, Fair, StopAllFair, Leaves;
    if exists m: nat :: i <= m && StopAllReturned(r.state(m), c) {
      var m: nat :| i <= m && StopAllReturned(r.state(m), c);
      CallAlong(r, i, m, c);
      forall t | t in order ensures Leaves(r, t) {
        ReturnedMeansDone(r, m, c, t);
        DoneLeft(r, m, t);
      }
    }
    if forall t | t in order :: Leaves(r, t) {
      assert LeaveInTurn(r, order);
      var m := ReturnsInTurn(r, i, c);
    }
  }

  lemma DoneLeft(r: Run, m: nat, t: nat)
    requires IsRun(r) && DoneAt(r, m, t)
    ensures Leaves(r, t)
  {
    hide IsRun, MovesLater;
    forall i: nat | IsTask(r.state(i), t) && r.state(i).tasks[t].cancelled && InBody(r.state(i).tasks[t])
      ensures MovesLater(r, i, t)
    {
      if m <= i { TaskAlong(r, m, i, t); }
      else if !MovesLater(r, i, t) { PcStands(r, i, m, t); }
    }
  }

  /** StopAll returns exactly if no task of its snapshot ever waits on a later one, or on one outside, that never ends. */
  lemma ReturnsExactly(r: Run, i: nat, c: nat)
    requires IsRun(r) && Fair(r) && RunsReturn(r) && StopAllFair(r, c) && StopsAllAt(r, i, c)
    ensures (exists m: nat :: i <= m && StopAllReturned(r.state(m), c)) <==> WaitsAreEarlier(r, r.state(i).callers[c].order)
  {
    var order := r.state(i).callers[c].order;
    hide IsRun, Fair, RunsReturn, StopAllFair;
    if exists m: nat :: i <= m && StopAllReturned(r.state(m), c) {
      var m: nat :| i <= m && StopAllReturned(r.state(m), c);
      CallAlong(r, i, m, c);
      forall k: nat, j: nat, u: nat | k < |order| && WaitsOn(r.state(j), order[k], u)
        ensures u in order[..k] || EndsSometime(r, u)
      {
        ReturnedMeansDone(r, m, c, order[k]);
        if !EndsSometime(r, u) { Hangs(r, j, m, order[k], u); }
      }
    }
    if WaitsAreEarlier(r, order) {
      var m := StopAllReturns(r, i, c);
    }
  }
}
