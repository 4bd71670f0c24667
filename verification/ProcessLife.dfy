/**
  The processes of the pause machine are the Child tasks of the registry: the two machines run as one, in which a pause
  and a waiter go by what the registry shows them, and every run of it is a run of each.
*/
module ProcessLife {
  import opened Options
  import opened TaskModel
  import opened TaskSafety
  import P = PauseModel
  import S = PauseSafety
  import T = PauseTheorems

  // ----- one process --------------------------------------------------------------------------------------------

  /** How a child that has been waited for ended. */
  function ExitOf(f: ForkPc): Option<string> {
    match f
    case Reaped(exit) => exit
    case Released(exit) => exit
    case Over(exit) => exit
    case _ => None
  }

  /** What a Child task shows of its process: its state, and whether the process still lives. */
  function PhaseOf(t: Task): P.Phase {
    match t.state
    case Starting => P.Starting
    case Failed => P.Ended(false, false)
    case Exited => P.Ended(true, false)
    case Running =>
      match t.child.proc
      case Alive(_) => P.Running
      case Dead(exit) => P.Ended(exit.None?, true)
      case _ => P.Ended(ExitOf(t.child.fork).None?, true)
  }

  /** A Child is starting until it publishes its pid, and once it has run its result is how its process ended. */
  predicate ResultOk(t: Task) {
    && (t.pc.Launching? || t.pc.Body? || t.pc.InChild? || t.pc.PresetArmed? ==> t.state.Starting?)
    && (t.state.Running? && t.pc.Returned? ==> t.child.fork.Over? && t.child.proc.Gone? && t.child.fork.exit == t.pc.result)
  }

  predicate IsChild(t: Task) { t.spec.work.ChildWork? && TaskOk(t) && ResultOk(t) }

  /** Its waiter has gone on. */
  predicate Past(phase: P.Phase) { phase.Unlisted? || phase.Answered? }

  /** The process is at the point the task shows; its waiter has gone on only once the task is done. */
  predicate Shows(q: P.Process, t: Task) {
    && q.id == t.spec.id && q.preset == t.spec.preset && q.pid == t.pid
    && if Past(q.phase) then t.Done() && (q.phase.Unlisted? ==> (q.phase.ok <==> t.state.Exited?)) else q.phase == PhaseOf(t)
  }

  /** Nothing but process p differs, and it has only gone on. */
  predicate OnlyProc(s: P.Sys, s': P.Sys, p: nat) {
    && P.IsProc(s, p) && |s'.procs| == |s.procs|
    && s' == s.(procs := s.procs[p := s.procs[p].(phase := s'.procs[p].phase, pid := s'.procs[p].pid)])
  }

  lemma MoveKeepsChild(t: Task, m: Move)
    requires IsChild(t) && CanMove(t, m)
    ensures IsChild(Moved(t, m))
  {
    MoveKeepsTask(t, m);
  }

  /** The steps of process p that a move of its task is: none, one or two. */
  function Seen(p: nat, t: Task, m: Move): seq<P.Step> {
    match m
    case PublishPid =>
      if t.child.proc.Dead? then [P.Publish(p, t.child.pid), P.End(p, t.child.proc.exit.None?)]
      else [P.Publish(p, t.child.pid)]
    case ProcExits(exit) => if t.state.Running? then [P.End(p, exit.None?)] else []
    case Record => if t.state.Running? then [P.Settle(p)] else [P.End(p, false)]
    case _ => []
  }

  /** Where the steps lead, if they can be taken. */
  ghost function Follow(s: P.Sys, steps: seq<P.Step>): P.Sys {
    if P.CanRun(s, steps, false) then P.After(s, steps) else s
  }

  lemma OneStep(s: P.Sys, step: P.Step)
    requires P.Enabled(s, step)
    ensures P.CanRun(s, [step], false) && Follow(s, [step]) == P.Next(s, step)
    ensures P.Disciplined(s, step) ==> P.CanRun(s, [step], true)
  {
    assert [step][1..] == [];
    assert P.After(s, [step]) == P.After(P.Next(s, step), []);
    hide P.Next, P.Enabled;
  }

  /** The pid and the state are published: of a process that lives, or of one that has already ended. */
  lemma PublishShows(s: P.Sys, p: nat, t: Task)
    requires IsChild(t) && CanMove(t, PublishPid) && P.IsProc(s, p) && Shows(s.procs[p], t)
    ensures var steps := Seen(p, t, PublishPid);
      && P.CanRun(s, steps, true) && P.CanRun(s, steps, false)
      && OnlyProc(s, Follow(s, steps), p) && Shows(Follow(s, steps).procs[p], Moved(t, PublishPid))
  {
    var publish := P.Publish(p, t.child.pid);
    var s1 := P.Next(s, publish);
    OneStep(s, publish);
    if t.child.proc.Dead? {
      var end := P.End(p, t.child.proc.exit.None?);
      OneStep(s1, end);
      assert [publish, end][1..] == [end];
    }
  }

  lemma ExitShows(s: P.Sys, p: nat, t: Task, exit: Option<string>)
    requires IsChild(t) && CanMove(t, ProcExits(exit)) && P.IsProc(s, p) && Shows(s.procs[p], t)
    ensures var steps := Seen(p, t, ProcExits(exit));
      && P.CanRun(s, steps, true) && P.CanRun(s, steps, false)
      && OnlyProc(s, Follow(s, steps), p) && Shows(Follow(s, steps).procs[p], Moved(t, ProcExits(exit)))
  {
    if t.state.Running? { OneStep(s, P.End(p, exit.None?)); }
  }

  lemma RecordShows(s: P.Sys, p: nat, t: Task)
    requires IsChild(t) && CanMove(t, Move.Record) && P.IsProc(s, p) && Shows(s.procs[p], t)
    ensures var steps := Seen(p, t, Move.Record);
      && P.CanRun(s, steps, true) && P.CanRun(s, steps, false)
      && OnlyProc(s, Follow(s, steps), p) && Shows(Follow(s, steps).procs[p], Moved(t, Move.Record))
  {
    OneStep(s, if t.state.Running? then P.Settle(p) else P.End(p, false));
  }

  /** The other moves leave what the task shows. */
  lemma QuietMove(t: Task, m: Move, q: P.Process)
    requires IsChild(t) && CanMove(t, m) && !m.PublishPid? && !m.ProcExits? && !m.Record? && Shows(q, t)
    ensures Shows(q, Moved(t, m))
  {
  }

  /** Each move of a Child is those steps of its process. */
  lemma MoveShows(s: P.Sys, p: nat, t: Task, m: Move)
    requires IsChild(t) && CanMove(t, m) && P.IsProc(s, p) && Shows(s.procs[p], t)
    ensures var steps := Seen(p, t, m);
      && P.CanRun(s, steps, true) && P.CanRun(s, steps, false)
      && OnlyProc(s, Follow(s, steps), p) && Shows(Follow(s, steps).procs[p], Moved(t, m))
  {
    var q := s.procs[p];
    hide IsChild, CanMove, Moved, Shows;
    match m
    case PublishPid => PublishShows(s, p, t);
    case ProcExits(exit) => ExitShows(s, p, t, exit);
    case Record => RecordShows(s, p, t);
    case _ => QuietMove(t, m, q);
  }

  // ----- the two machines as one --------------------------------------------------------------------------------

  /** The registry, the pauses, and the task of each process. */
  datatype Job = Job(reg: Sys, sys: P.Sys, of: seq<nat>)

  const START := Job(INIT, P.INIT, [])

  datatype Event =
    | Registers(step: Step)                            // any step of the registry; that of a Child's task is its process's
    | GoesOn(p: nat, c: nat)                           // the waiter of p goes on from its Wait, the call c
    | Finds(p: nat, stdout: string, stderr: string)    // a pause finds the task of p listed as running
    | Kills(k: nat, p: nat, note: string)              // the dump of pause k ends p
    | Works(effect: P.Step)                            // an answer, or any other effect of a pause

  /** Where a Start finds the pid it presets. */
  predicate Restores(sys: P.Sys, spec: Spec) {
    && P.At(sys.disk, P.Images(spec.id)).Some? && sys.disk[P.Images(spec.id)].snapshot.Some?
    && sys.disk[P.Images(spec.id)].snapshot.value.rec.pid == spec.preset
  }

  /** A pause and a waiter go by the registry alone. */
  ghost predicate Allowed(j: Job, e: Event) {
    match e
    case Registers(step) =>
      && Enabled(j.reg, step)
      && (step.Start? && step.spec.work.ChildWork? && step.spec.preset != 0 ==> Restores(j.sys, step.spec))
    case GoesOn(p, c) =>
      && p < |j.of| && p < |j.sys.procs| && !Past(j.sys.procs[p].phase)
      && c < |j.reg.callers| && j.reg.callers[c].Waited? && j.reg.callers[c].target == j.of[p]
    case Finds(p, _, _) =>
      && p < |j.of| && IsTask(j.reg, j.of[p]) && j.reg.tasks[j.of[p]].state.Running?
      && j.reg.tasks[j.of[p]].spec.id in j.reg.reg && j.reg.reg[j.reg.tasks[j.of[p]].spec.id] == j.of[p]
    case Kills(k, p, note) =>
      && p < |j.of| && IsTask(j.reg, j.of[p]) && j.reg.tasks[j.of[p]].state.Running?
      && j.reg.tasks[j.of[p]].child.proc.Alive? && P.At0(j.sys, k, P.Made)
      && j.reg.tasks[j.of[p]].pid == j.sys.pauses[k].rec.pid
    case Works(effect) =>
      && P.Enabled(j.sys, effect)
      && if effect.Dump? then effect.target.None? else effect.Answer? || !(S.ProcStep(effect) || effect.Select?)
  }

  /** The hypotheses of PauseModel.Disciplined, of an event. */
  predicate Orderly(j: Job, e: Event) {
    match e
    case Registers(step) => step.Start? && step.spec.work.ChildWork? ==> P.Plain(step.spec.id) && step.spec.id !in j.sys.pending
    case Finds(p, _, _) => p < |j.sys.procs| && j.sys.procs[p].id !in j.sys.busy
    case Kills(k, p, _) => k < |j.sys.pauses| && j.sys.pauses[k].target == p
    case _ => true
  }

  ghost function Place(of: seq<nat>, t: nat): (p: nat)
    requires t in of
    ensures p < |of| && of[p] == t
  {
    var p: nat :| p < |of| && of[p] == t;
    p
  }

  /** The steps of the pause machine an event is. */
  ghost function SeenBy(j: Job, e: Event): seq<P.Step> {
    match e
    case Registers(Start(spec)) =>
      if !spec.work.ChildWork? then [] else if spec.preset == 0 then [P.Begin(spec.id)] else [P.Resume(spec.id)]
    case Registers(Acts(t, m)) => if t in j.of && IsTask(j.reg, t) then Seen(Place(j.of, t), j.reg.tasks[t], m) else []
    case Registers(_) => []
    case GoesOn(p, _) => [P.Unlist(p)]
    case Finds(p, stdout, stderr) => [P.Select(p, stdout, stderr)]
    case Kills(k, p, _) => [P.Dump(k, Some(p), true)]
    case Works(effect) => [effect]
  }

  /** The step of the registry it is. */
  function Within(j: Job, e: Event): Step {
    match e
    case Registers(step) => step
    case Kills(_, p, note) => if p < |j.of| then Acts(j.of[p], ProcExits(Some(note))) else Idling
    case _ => Idling
  }

  ghost function Go(j: Job, e: Event): Job
    requires Allowed(j, e)
  {
    var step := Within(j, e);
    Job(Next(j.reg, step), Follow(j.sys, SeenBy(j, e)),
        if step.Start? && step.spec.work.ChildWork? then j.of + [|j.reg.tasks|] else j.of)
  }

  // ----- what they keep between them ----------------------------------------------------------------------------

  predicate Linked(tasks: seq<Task>, procs: seq<P.Process>, of: seq<nat>, p: nat)
    requires p < |of|
  {
    p < |procs| && of[p] < |tasks| && IsChild(tasks[of[p]]) && Shows(procs[p], tasks[of[p]])
  }

  /** Each process is a Child and each Child a process, in the order they were started. */
  predicate Agree(tasks: seq<Task>, procs: seq<P.Process>, of: seq<nat>) {
    && |of| == |procs|
    && (forall p | 0 <= p < |of| :: Linked(tasks, procs, of, p))
    && (forall p, q | 0 <= p < q < |of| :: of[p] < of[q])
    && (forall t | 0 <= t < |tasks| && tasks[t].spec.work.ChildWork? :: t in of)
  }

  ghost predicate JobOk(j: Job) { Inv(j.reg) && Agree(j.reg.tasks, j.sys.procs, j.of) }

  /** The event can be taken on both sides, and they agree after it. */
  ghost predicate Fits(j: Job, e: Event)
    requires Allowed(j, e)
  {
    && P.CanRun(j.sys, SeenBy(j, e), false) && (Orderly(j, e) ==> P.CanRun(j.sys, SeenBy(j, e), true))
    && Agree(Go(j, e).reg.tasks, Go(j, e).sys.procs, Go(j, e).of)
  }

  /** What a process shows of its task. */
  predicate SameFace(t: Task, t': Task) {
    && t'.spec == t.spec && t'.state == t.state && t'.pid == t.pid && t'.pc == t.pc
    && t'.child.proc == t.child.proc && t'.child.fork == t.child.fork
  }

  lemma FaceShows(t: Task, t': Task)
    requires SameFace(t, t') && IsChild(t) && TaskOk(t')
    ensures IsChild(t')
    ensures forall q: P.Process :: Shows(q, t) ==> Shows(q, t')
  {
    hide TaskOk;
  }

  /** No step of the registry but its own moves touches what a Child shows. */
  lemma OthersLeave(s: Sys, step: Step, t: nat)
    requires Enabled(s, step) && IsTask(s, t) && IsChild(s.tasks[t]) && !(step.Acts? && step.t == t)
    ensures IsTask(Next(s, step), t) && SameFace(s.tasks[t], Next(s, step).tasks[t])
  {
    hide CanMove, Moved;
  }

  lemma Stays(s: Sys, step: Step, t: nat, q: P.Process)
    requires Inv(s) && Enabled(s, step) && IsTask(s, t) && IsChild(s.tasks[t]) && !(step.Acts? && step.t == t)
    requires Shows(q, s.tasks[t])
    ensures IsTask(Next(s, step), t) && IsChild(Next(s, step).tasks[t]) && Shows(q, Next(s, step).tasks[t])
  {
    OthersLeave(s, step, t);
    StepKeepsInv(s, step);
    hide Next, Enabled, IsChild, Shows, SameFace, TaskOk;
    FaceShows(s.tasks[t], Next(s, step).tasks[t]);
  }

  /** A step of the registry that is no Child's leaves every process where it is. */
  lemma QuietStep(j: Job, step: Step)
    requires JobOk(j) && Enabled(j.reg, step) && !step.Start? && !(step.Acts? && step.t in j.of)
    ensures Agree(Next(j.reg, step).tasks, j.sys.procs, j.of)
  {
    var tasks := Next(j.reg, step).tasks;
    forall p | 0 <= p < |j.of| ensures Linked(tasks, j.sys.procs, j.of, p) {
      assert Linked(j.reg.tasks, j.sys.procs, j.of, p);
      Stays(j.reg, step, j.of[p], j.sys.procs[p]);
    }
    SameSpecs(j.reg, step);
    hide Next, Enabled, Inv, Linked;
  }

  lemma SameSpecs(s: Sys, step: Step)
    requires Inv(s) && Enabled(s, step)
    ensures |Next(s, step).tasks| == |s.tasks| + if step.Start? then 1 else 0
    ensures forall t | 0 <= t < |s.tasks| :: Next(s, step).tasks[t].spec == s.tasks[t].spec
  {
    StepGrows(s, step);
    hide Inv, CanMove, Moved, TaskOk;
  }

  /** A move of a Child is its process's, and nobody else's. */
  lemma ChildMoves(j: Job, t: nat, m: Move)
    requires JobOk(j) && Enabled(j.reg, Acts(t, m)) && t in j.of
    ensures Fits(j, Registers(Acts(t, m)))
  {
    var p := Place(j.of, t);
    assert Linked(j.reg.tasks, j.sys.procs, j.of, p);
    MoveShows(j.sys, p, j.reg.tasks[t], m);
    MoveKeepsChild(j.reg.tasks[t], m);
    var sys := Follow(j.sys, Seen(p, j.reg.tasks[t], m));
    Moves(j, p, m, sys.procs);
    hide JobOk, Agree, Moved, CanMove, Seen, IsChild, Shows, P.CanRun, P.After;
  }

  lemma Moves(j: Job, p: nat, m: Move, procs: seq<P.Process>)
    requires JobOk(j) && p < |j.of| && Enabled(j.reg, Acts(j.of[p], m)) && IsChild(Moved(j.reg.tasks[j.of[p]], m))
    requires p < |procs| == |j.sys.procs| && Shows(procs[p], Moved(j.reg.tasks[j.of[p]], m))
    requires forall q | 0 <= q < |procs| && q != p :: procs[q] == j.sys.procs[q]
    ensures Agree(Next(j.reg, Acts(j.of[p], m)).tasks, procs, j.of)
  {
    var tasks, tasks' := j.reg.tasks, Next(j.reg, Acts(j.of[p], m)).tasks;
    SameSpecs(j.reg, Acts(j.of[p], m));
    hide Inv, CanMove, Moved, IsChild, Shows;
    forall q | 0 <= q < |j.of| ensures Linked(tasks', procs, j.of, q) {
      assert Linked(tasks, j.sys.procs, j.of, q);
      assert q != p ==> j.of[q] != j.of[p];
    }
  }

  /** The list of tasks and processes, one task longer. */
  lemma OneMore(tasks: seq<Task>, procs: seq<P.Process>, of: seq<nat>, q: P.Process)
    requires |tasks| > 0 && |of| == |procs| && (forall p, q | 0 <= p < q < |of| :: of[p] < of[q])
    requires forall p | 0 <= p < |of| :: of[p] < |tasks| - 1 && Linked(tasks, procs, of, p)
    requires forall t | 0 <= t < |tasks| - 1 && tasks[t].spec.work.ChildWork? :: t in of
    requires IsChild(tasks[|tasks| - 1]) && Shows(q, tasks[|tasks| - 1])
    ensures Agree(tasks, procs + [q], of + [|tasks| - 1])
  {
    hide IsChild, Shows;
    var more, procs' := of + [|tasks| - 1], procs + [q];
    forall p | 0 <= p < |of| ensures Linked(tasks, procs', more, p) { assert Linked(tasks, procs, of, p); }
    forall t | 0 <= t < |tasks| - 1 && tasks[t].spec.work.ChildWork? ensures t in more { assert t in of; }
    assert more[|of|] == |tasks| - 1;
  }

  /** A Child starts where a process begun, or resumed with its pid, does. */
  lemma StartShows(s: P.Sys, spec: Spec)
    requires spec.work.ChildWork? && (spec.preset != 0 ==> Restores(s, spec))
    ensures var begin := if spec.preset == 0 then P.Begin(spec.id) else P.Resume(spec.id);
      && P.Enabled(s, begin) && IsChild(Fresh(spec))
      && |P.Next(s, begin).procs| == |s.procs| + 1 && P.Next(s, begin).procs[..|s.procs|] == s.procs
      && Shows(P.Next(s, begin).procs[|s.procs|], Fresh(spec))
  {
  }

  lemma StartFits(j: Job, spec: Spec)
    requires JobOk(j) && Allowed(j, Registers(Start(spec)))
    ensures Fits(j, Registers(Start(spec)))
  {
    var tasks := Next(j.reg, Start(spec)).tasks;
    SameSpecs(j.reg, Start(spec));
    assert tasks[|j.reg.tasks|] == Fresh(spec);
    Earlier(j, spec);
    forall p | 0 <= p < |j.of| ensures j.of[p] < |tasks| - 1 { assert Linked(j.reg.tasks, j.sys.procs, j.of, p); }
    hide Enabled, Next, Inv, Linked, IsChild, Shows, Fresh, P.Plain, P.Images, P.Part;
    if spec.work.ChildWork? {
      var begin := if spec.preset == 0 then P.Begin(spec.id) else P.Resume(spec.id);
      StartShows(j.sys, spec);
      OneStep(j.sys, begin);
      var q := P.Next(j.sys, begin).procs[|j.sys.procs|];
      assert P.Next(j.sys, begin).procs == j.sys.procs + [q];
      OneMore(tasks, j.sys.procs, j.of, q);
      hide Restores, Agree, P.Enabled, P.Next;
    }
  }

  /** Starting a task leaves the earlier ones as their processes show them. */
  lemma Earlier(j: Job, spec: Spec)
    requires JobOk(j)
    ensures forall p | 0 <= p < |j.of| :: Linked(Next(j.reg, Start(spec)).tasks, j.sys.procs, j.of, p)
  {
    forall p | 0 <= p < |j.of| ensures Linked(Next(j.reg, Start(spec)).tasks, j.sys.procs, j.of, p) {
      assert Linked(j.reg.tasks, j.sys.procs, j.of, p);
      Stays(j.reg, Start(spec), j.of[p], j.sys.procs[p]);
    }
    hide Next, Inv, Linked;
  }

  /** An event that is one step of the pause machine and none of the registry. */
  lemma OneEffect(j: Job, e: Event, step: P.Step)
    requires JobOk(j) && Allowed(j, e) && !e.Registers? && !e.Kills? && SeenBy(j, e) == [step]
    requires P.Enabled(j.sys, step) && (Orderly(j, e) ==> P.Disciplined(j.sys, step))
    requires Agree(j.reg.tasks, P.Next(j.sys, step).procs, j.of)
    ensures Fits(j, e)
  {
    OneStep(j.sys, step);
    assert Within(j, e) == Idling && Go(j, e).of == j.of;
    NothingHappens(j.reg);
    hide Inv, Agree, Next, Enabled, SeenBy, Allowed, Orderly, Follow, P.Enabled, P.Next, P.CanRun, P.Disciplined;
  }

  lemma NothingHappens(s: Sys)
    ensures Enabled(s, Idling) && Next(s, Idling) == s
  {
  }

  /** One process has gone on, and its task shows it. */
  lemma Other(tasks: seq<Task>, procs: seq<P.Process>, of: seq<nat>, p: nat, q: P.Process)
    requires Agree(tasks, procs, of) && p < |of| && of[p] < |tasks| && Shows(q, tasks[of[p]])
    ensures p < |procs| && Agree(tasks, procs[p := q], of)
  {
    hide IsChild, Shows;
    var procs' := procs[p := q];
    forall i | 0 <= i < |of| ensures Linked(tasks, procs', of, i) { assert Linked(tasks, procs, of, i); }
  }

  /** A Wait has returned: the task is done and its process has ended, with the same outcome. */
  lemma WaitedHasEnded(j: Job, p: nat, c: nat)
    requires JobOk(j) && Allowed(j, GoesOn(p, c))
    ensures j.of[p] < |j.reg.tasks| && j.reg.tasks[j.of[p]].Done()
    ensures j.sys.procs[p].phase == P.Ended(j.reg.tasks[j.of[p]].state.Exited?, false)
  {
    assert Linked(j.reg.tasks, j.sys.procs, j.of, p) && CallerOk(j.reg, c);
    hide Inv, Agree;
  }

  lemma GoesOnFits(j: Job, p: nat, c: nat)
    requires JobOk(j) && Allowed(j, GoesOn(p, c))
    ensures Fits(j, GoesOn(p, c))
  {
    WaitedHasEnded(j, p, c);
    assert Linked(j.reg.tasks, j.sys.procs, j.of, p);
    var q := j.sys.procs[p].(phase := P.Unlisted(j.reg.tasks[j.of[p]].state.Exited?));
    assert P.Next(j.sys, P.Unlist(p)).procs == j.sys.procs[p := q];
    Other(j.reg.tasks, j.sys.procs, j.of, p, q);
    OneEffect(j, GoesOn(p, c), P.Unlist(p));
    hide JobOk, Agree, IsChild, Fits;
  }

  /** What a pause finds in the registry is a process it can select. */
  lemma FindsFits(j: Job, p: nat, stdout: string, stderr: string)
    requires JobOk(j) && Allowed(j, Finds(p, stdout, stderr))
    ensures Fits(j, Finds(p, stdout, stderr))
  {
    assert Linked(j.reg.tasks, j.sys.procs, j.of, p);
    RunningIsShown(j.sys.procs[p], j.reg.tasks[j.of[p]]);
    hide JobOk, Agree, IsChild, Shows, Fits, P.Shown, P.Images, P.Part;
    OneEffect(j, Finds(p, stdout, stderr), P.Select(p, stdout, stderr));
  }

  lemma RunningIsShown(q: P.Process, t: Task)
    requires IsChild(t) && Shows(q, t)
    ensures P.Shown(q) <==> t.state.Running?
  {
  }

  /** What CRIU ends is a process the pause machine has running. */
  lemma KillsFits(j: Job, k: nat, p: nat, note: string)
    requires JobOk(j) && Allowed(j, Kills(k, p, note))
    ensures Fits(j, Kills(k, p, note))
  {
    assert Linked(j.reg.tasks, j.sys.procs, j.of, p);
    var t := j.reg.tasks[j.of[p]];
    var m := ProcExits(Some(note));
    var dump := P.Dump(k, Some(p), true);
    MoveKeepsChild(t, m);
    KillShows(j.sys, dump, t, m);
    OneStep(j.sys, dump);
    Moves(j, p, m, P.Next(j.sys, dump).procs);
    hide Inv, Agree, IsChild, Shows, P.Enabled, P.Next;
  }

  lemma KillShows(s: P.Sys, dump: P.Step, t: Task, m: Move)
    requires dump.Dump? && dump.target.Some? && P.IsProc(s, dump.target.value) && dump.wrote && P.At0(s, dump.k, P.Made)
    requires IsChild(t) && t.state.Running? && t.child.proc.Alive? && m.ProcExits? && m.exit.Some?
    requires Shows(s.procs[dump.target.value], t) && t.pid == s.pauses[dump.k].rec.pid
    ensures P.Enabled(s, dump) && (s.pauses[dump.k].target == dump.target.value ==> P.Disciplined(s, dump))
    ensures |P.Next(s, dump).procs| == |s.procs| && Shows(P.Next(s, dump).procs[dump.target.value], Moved(t, m))
    ensures forall q | 0 <= q < |s.procs| && q != dump.target.value :: P.Next(s, dump).procs[q] == s.procs[q]
  {
    hide P.Images, P.Part;
  }

  /** The effects of pauses and the answers of waiters are seen by no task. */
  lemma WorksFits(j: Job, effect: P.Step)
    requires JobOk(j) && Allowed(j, Works(effect))
    ensures Fits(j, Works(effect))
  {
    if effect.Answer? {
      assert Linked(j.reg.tasks, j.sys.procs, j.of, effect.p);
      Other(j.reg.tasks, j.sys.procs, j.of, effect.p, P.Next(j.sys, effect).procs[effect.p]);
    }
    EffectLeaves(j.sys, effect);
    hide JobOk, Agree, IsChild, Fits, P.Images, P.Part;
    OneEffect(j, Works(effect), effect);
  }

  lemma EffectLeaves(s: P.Sys, effect: P.Step)
    requires P.Enabled(s, effect) && !effect.Select? && (effect.Dump? ==> effect.target.None?)
    requires effect.Answer? || !S.ProcStep(effect)
    ensures P.Disciplined(s, effect)
    ensures !effect.Answer? ==> P.Next(s, effect).procs == s.procs
    ensures effect.Answer? ==> P.Next(s, effect).procs == s.procs[effect.p := P.Next(s, effect).procs[effect.p]]
  {
    hide P.Images, P.Part;
  }

  lemma EventFits(j: Job, e: Event)
    requires JobOk(j) && Allowed(j, e)
    ensures Fits(j, e)
  {
    hide JobOk, Fits;
    match e
    case Registers(step) => RegistersFits(j, step);
    case GoesOn(p, c) => GoesOnFits(j, p, c);
    case Finds(p, stdout, stderr) => FindsFits(j, p, stdout, stderr);
    case Kills(k, p, note) => KillsFits(j, k, p, note);
    case Works(effect) => WorksFits(j, effect);
  }

  lemma RegistersFits(j: Job, step: Step)
    requires JobOk(j) && Allowed(j, Registers(step))
    ensures Fits(j, Registers(step))
  {
    hide JobOk, Fits;
    match step
    case Start(spec) => StartFits(j, spec);
    case Acts(t, m) => if t in j.of { ChildMoves(j, t, m); } else { QuietFits(j, step); }
    case _ => QuietFits(j, step);
  }

  lemma QuietFits(j: Job, step: Step)
    requires JobOk(j) && Allowed(j, Registers(step)) && !step.Start? && !(step.Acts? && step.t in j.of)
    ensures Fits(j, Registers(step))
  {
    QuietStep(j, step);
    assert SeenBy(j, Registers(step)) == [];
    hide JobOk, Agree, Next, Enabled;
  }

  lemma RegistryStep(j: Job, e: Event)
    requires Allowed(j, e)
    ensures Enabled(j.reg, Within(j, e)) && Go(j, e).reg == Next(j.reg, Within(j, e))
  {
    hide Next;
  }

  /** Every event keeps the registry's invariant and the agreement. */
  lemma EventKeeps(j: Job, e: Event)
    requires JobOk(j) && Allowed(j, e)
    ensures JobOk(Go(j, e))
  {
    RegistryStep(j, e);
    EventFits(j, e);
    hide Inv, Agree, Next, Enabled, Allowed, Within, SeenBy, Orderly;
    StepKeepsInv(j.reg, Within(j, e));
  }

  // ----- every run of the two -----------------------------------------------------------------------------------

  /** events can happen one after another from j; if strict, each keeping the hypotheses. */
  ghost predicate CanGo(j: Job, events: seq<Event>, strict: bool)
    decreases |events|
  {
    || events == []
    || (Allowed(j, events[0]) && (strict ==> Orderly(j, events[0])) && CanGo(Go(j, events[0]), events[1..], strict))
  }

  ghost function GoAll(j: Job, events: seq<Event>, strict: bool): Job
    requires CanGo(j, events, strict)
    decreases |events|
  {
    if events == [] then j else GoAll(Go(j, events[0]), events[1..], strict)
  }

  ghost predicate Reached(j: Job, strict: bool) {
    exists events: seq<Event> :: CanGo(START, events, strict) && GoAll(START, events, strict) == j
  }

  /** A run of the two is a run of each. */
  lemma {:induction false} RunIsARun(j: Job, events: seq<Event>, strict: bool) returns (steps: seq<Step>, seen: seq<P.Step>)
    requires JobOk(j) && CanGo(j, events, strict)
    ensures JobOk(GoAll(j, events, strict))
    ensures CanRun(j.reg, steps) && After(j.reg, steps) == GoAll(j, events, strict).reg
    ensures P.CanRun(j.sys, seen, strict) && P.CanRun(j.sys, seen, false) && P.After(j.sys, seen) == GoAll(j, events, strict).sys
    decreases |events|
  {
    hide JobOk, Allowed, Orderly, Within, SeenBy, Next, Enabled, P.Next, P.Enabled, P.Disciplined;
    if events == [] {
      steps, seen := [], [];
    } else {
      var j' := Go(j, events[0]);
      RegistryStep(j, events[0]);
      EventKeeps(j, events[0]);
      EventFits(j, events[0]);
      var steps', seen' := RunIsARun(j', events[1..], strict);
      SeenAppend(j.sys, SeenBy(j, events[0]), seen', strict);
      steps, seen := [Within(j, events[0])] + steps', SeenBy(j, events[0]) + seen';
      assert steps[1..] == steps';
    }
  }

  lemma {:induction false} SeenAppend(s: P.Sys, a: seq<P.Step>, b: seq<P.Step>, strict: bool)
    requires P.CanRun(s, a, strict) && P.CanRun(s, a, false)
    requires P.CanRun(P.After(s, a), b, strict) && P.CanRun(P.After(s, a), b, false)
    ensures P.CanRun(s, a + b, strict) && P.CanRun(s, a + b, false) && P.After(s, a + b) == P.After(P.After(s, a), b)
    decreases |a|
  {
    hide P.Next, P.Enabled, P.Disciplined;
    if a == [] {
      assert a + b == b;
    } else {
      SeenAppend(P.Next(s, a[0]), a[1..], b, strict);
      assert (a + b)[1..] == a[1..] + b;
    }
  }

  lemma StartOk()
    ensures JobOk(START)
  {
  }

  /** Whatever the registry does, with any number of Children, waiters and Stops, and whatever pauses do beside it, what
      the pauses see is a run of the pause machine, and one that keeps the hypotheses if each event does. */
  lemma JobsAreRuns(j: Job, strict: bool)
    requires Reached(j, strict)
    ensures JobOk(j) && Reachable(j.reg) && P.Reached(j.sys, strict)
  {
    var events: seq<Event> :| CanGo(START, events, strict) && GoAll(START, events, strict) == j;
    StartOk();
    hide JobOk, Allowed, Orderly, Go, Enabled, Next, P.Enabled, P.Next, P.Disciplined;
    var steps, seen := RunIsARun(START, events, strict);
  }

  /** The waiter of a Child answers by the task's own end: 202 exactly if it was paused, in the sense of EveryAnswer, else
      200 for a task that exited and 500 for one that failed. */
  lemma WaiterAnswers(j: Job, p: nat)
    requires Reached(j, true) && Allowed(j, Works(P.Answer(p)))
    ensures p < |j.of| && IsTask(j.reg, j.of[p]) && j.reg.tasks[j.of[p]].Done()
    ensures p < |Go(j, Works(P.Answer(p))).sys.procs|
    ensures Go(j, Works(P.Answer(p))).sys.procs[p].phase ==
      P.Answered(if T.AnsweredPaused(j.sys, p) then 202 else if j.reg.tasks[j.of[p]].state.Exited? then 200 else 500)
  {
    JobsAreRuns(j, true);
    assert Linked(j.reg.tasks, j.sys.procs, j.of, p);
    OneStep(j.sys, P.Answer(p));
    T.EveryAnswer(j.sys, p);
    hide Inv, Agree, IsChild, T.AnsweredPaused;
  }

  /** A running Child, resumed any number of times, has the id and the pid of the first task of its line, which was started
      without a preset one. */
  lemma ChildKeepsItsPid(j: Job, p: nat)
    requires Reached(j, true) && p < |j.of| && IsTask(j.reg, j.of[p])
    requires j.reg.tasks[j.of[p]].state.Running? && j.reg.tasks[j.of[p]].child.proc.Alive?
    ensures exists o: nat | o < |j.of| && IsTask(j.reg, j.of[o]) ::
      var first, t := j.reg.tasks[j.of[o]], j.reg.tasks[j.of[p]];
      first.spec.id == t.spec.id && first.spec.preset == 0 && first.pid == t.pid && first.pid != 0
  {
    JobsAreRuns(j, true);
    assert Linked(j.reg.tasks, j.sys.procs, j.of, p);
    T.PidSurvives(j.sys, p);
    var o := j.sys.procs[p].origin;
    assert Linked(j.reg.tasks, j.sys.procs, j.of, o);
    hide Inv, Agree, IsChild;
  }

  /** What a pause and a waiter test of the task: it is listed as running exactly if the process is shown, and it is done
      only once the process has ended with the same outcome and its waiter may go on. */
  lemma TestsAgree(j: Job, p: nat)
    requires JobOk(j) && p < |j.of|
    ensures p < |j.sys.procs| && IsTask(j.reg, j.of[p])
    ensures P.Shown(j.sys.procs[p]) <==> j.reg.tasks[j.of[p]].state.Running?
    ensures j.reg.tasks[j.of[p]].Done() && !Past(j.sys.procs[p].phase) ==>
      P.Enabled(j.sys, P.Unlist(p)) && (j.sys.procs[p].phase.ok <==> j.reg.tasks[j.of[p]].state.Exited?)
  {
    assert Linked(j.reg.tasks, j.sys.procs, j.of, p);
    RunningIsShown(j.sys.procs[p], j.reg.tasks[j.of[p]]);
    hide Inv, Agree, P.Images, P.Part;
  }

  // ----- a run of the two ---------------------------------------------------------------------------------------

  lemma {:induction false} GoThen(j: Job, events: seq<Event>, e: Event)
    requires CanGo(j, events, true) && Allowed(GoAll(j, events, true), e) && Orderly(GoAll(j, events, true), e)
    ensures CanGo(j, events + [e], true) && GoAll(j, events + [e], true) == Go(GoAll(j, events, true), e)
    decreases |events|
  {
    hide Allowed, Orderly, Go;
    if events == [] {
      assert [e][1..] == [] && CanGo(Go(j, e), [], true);
      assert events + [e] == [e];
    } else {
      GoThen(Go(j, events[0]), events[1..], e);
      assert (events + [e])[1..] == events[1..] + [e];
    }
  }

  lemma Extend(j: Job, e: Event) returns (j': Job)
    requires Reached(j, true) && Allowed(j, e) && Orderly(j, e)
    ensures j' == Go(j, e) && Reached(j', true)
  {
    hide Allowed, Orderly, Go;
    var events: seq<Event> :| CanGo(START, events, true) && GoAll(START, events, true) == j;
    GoThen(START, events, e);
    j' := Go(j, e);
  }

  const PAYLOAD := Spec("payload", "process", 0, ChildWork, 0)

  /** A move of the only task, a Child. */
  lemma Makes(j: Job, m: Move) returns (j': Job)
    requires Reached(j, true) && j.of == [0] && |j.reg.tasks| == 1 && CanMove(j.reg.tasks[0], m)
    ensures Reached(j', true)
    ensures j' == Job(j.reg.(tasks := [Moved(j.reg.tasks[0], m)]), Follow(j.sys, Seen(0, j.reg.tasks[0], m)), [0])
  {
    hide CanMove, Moved, Seen, Follow;
    assert 0 in j.of && Place(j.of, 0) == 0;
    j' := Extend(j, Registers(Acts(0, m)));
  }

  /** A Child runs, a pause finds it, and its dump ends the process, the task still running for the registry. */
  lemma AChildIsDumped() returns (j: Job)
    ensures Reached(j, true) && j.of == [0] && |j.sys.procs| == 1 && j.sys.procs[0].dumpedBy == Some(0)
    ensures |j.reg.tasks| == 1 && j.reg.tasks[0].state.Running? && j.reg.tasks[0].child.proc.Dead?
  {
    j := FoundChild();
    hide P.Plain, P.Images, P.Part;
    j := Effect(j, P.Mark(0));
    j := Effect(j, P.Make(0, true));
    j := Killed(j);
  }

  /** An effect of a pause. */
  lemma Effect(j: Job, effect: P.Step) returns (j': Job)
    requires Reached(j, true) && P.Enabled(j.sys, effect) && (effect.Mark? || effect.Make?)
    ensures Reached(j', true) && j' == Job(j.reg, P.Next(j.sys, effect), j.of)
  {
    OneStep(j.sys, effect);
    NothingHappens(j.reg);
    hide P.Enabled, P.Next, P.CanRun, Next, Enabled;
    j' := Extend(j, Works(effect));
  }

  lemma Killed(j: Job) returns (j': Job)
    requires Reached(j, true) && j.of == [0] && |j.sys.procs| == 1 && |j.sys.pauses| == 1 && |j.reg.tasks| == 1
    requires j.sys.procs[0].phase.Running? && j.sys.procs[0].pid == 7 == j.sys.pauses[0].rec.pid && j.sys.pauses[0].target == 0
    requires j.reg.tasks[0].state.Running? && j.reg.tasks[0].child.proc.Alive? && j.reg.tasks[0].pid == 7
    requires j.sys.pauses[0].pc.Made?
    ensures Reached(j', true) && j'.of == [0] && |j'.sys.procs| == 1 && j'.sys.procs[0].dumpedBy == Some(0)
    ensures |j'.reg.tasks| == 1 && j'.reg.tasks[0].state.Running? && j'.reg.tasks[0].child.proc.Dead?
  {
    hide P.Images, P.Part;
    OneStep(j.sys, P.Dump(0, Some(0), true));
    j' := Extend(j, Kills(0, 0, "signal: killed"));
    hide P.CanRun, Allowed, Orderly;
  }

  lemma FoundChild() returns (j: Job)
    ensures Reached(j, true) && j.of == [0] && |j.sys.procs| == 1 && |j.sys.pauses| == 1 && |j.reg.tasks| == 1
    ensures j.sys.procs[0].phase.Running? && j.sys.procs[0].pid == 7 == j.sys.pauses[0].rec.pid && j.sys.pauses[0].target == 0
    ensures j.reg.tasks[0].state.Running? && j.reg.tasks[0].child.proc.Alive? && j.reg.tasks[0].pid == 7
    ensures j.sys.pauses[0].pc.Selected?
  {
    j := RunningChild();
    hide P.Images, P.Part;
    OneStep(j.sys, P.Select(0, "", ""));
    j := Extend(j, Finds(0, "", ""));
    hide P.CanRun, Allowed, Orderly;
  }

  lemma RunningChild() returns (j: Job)
    ensures Reached(j, true) && j.of == [0] && j.sys.pauses == [] && j.sys.busy == map[]
    ensures |j.sys.procs| == 1 && j.sys.procs[0].id == "payload" && j.sys.procs[0].phase.Running? && j.sys.procs[0].pid == 7
    ensures j.reg.reg == map["payload" := 0] && |j.reg.tasks| == 1 && j.reg.tasks[0].spec == PAYLOAD
    ensures j.reg.tasks[0].state.Running? && j.reg.tasks[0].child.proc.Alive? && j.reg.tasks[0].pid == 7
  {
    j := StartedChild();
    j := Readied(j);
    OneStep(j.sys, P.Publish(0, 7));
    j := Makes(j, PublishPid);
    hide P.CanRun;
  }

  /** Up to the point where it publishes its pid. */
  lemma Readied(j: Job) returns (j': Job)
    requires Reached(j, true) && j.of == [0] && j.reg.tasks == [Fresh(PAYLOAD)]
    ensures Reached(j', true) && j'.sys == j.sys && j'.of == [0]
    ensures j'.reg == j.reg.(tasks := [Fresh(PAYLOAD).(pc := PresetArmed, child := Child(Watched, Alive(7), 7, Armed, Off))])
  {
    j' := ForkedChild(j);
    j' := Makes(j', Watch);
    j' := Makes(j', ArmPreset);
    hide Reached;
  }

  lemma ForkedChild(j: Job) returns (j': Job)
    requires Reached(j, true) && j.of == [0] && j.reg.tasks == [Fresh(PAYLOAD)]
    ensures Reached(j', true) && j'.sys == j.sys && j'.of == [0]
    ensures j'.reg == j.reg.(tasks := [Fresh(PAYLOAD).(pc := InChild, child := Child(Forked, Alive(7), 7, Off, Off))])
  {
    j' := Makes(j, Launch);
    j' := Makes(j', Prepared);
    j' := Makes(j', Move.Fork(7));
    hide Reached;
  }

  lemma StartedChild() returns (j: Job)
    ensures Reached(j, true)
    ensures j == Job(DoStart(INIT, PAYLOAD), P.NewProc(P.INIT, "payload", 0, 0), [0])
  {
    assert CanGo(START, [], true) && GoAll(START, [], true) == START;
    OneStep(P.INIT, P.Begin("payload"));
    j := Extend(START, Registers(Start(PAYLOAD)));
    hide P.CanRun, CanGo;
  }
}
