/**
  What every disciplined run of pauses and resumes keeps: the mark of an id means one thing, a checkpoint is replaced
  whole, and a pid is carried from the first process of a line to every one resumed after it.
*/
module PauseSafety {
  import opened Options
  import opened PauseModel

  predicate InProgress(p: Pause) { !p.pc.Returned? }

  predicate Unanswered(p: Process) { !p.phase.Answered? }

  /** The pause has set the mark and not yet deleted it. */
  predicate Marking(p: Pause) {
    p.pc.Marked? || p.pc.Made? || p.pc.Dumped? || p.pc.Written? || p.pc.Removed? || p.pc.Failing?
  }

  /** The pause has deleted the mark, having failed. */
  predicate Withdrawn(p: Pause) { p.pc.Unmarked? || p.pc == Returned(500) }

  predicate Proper(p: Pause) { Plain(p.id) && (p.pc.Returned? ==> p.pc.code == 200 || p.pc.code == 500) }

  /** The pause has ended the process it selected, and has not failed since. */
  predicate Succeeding(p: Pause) { p.pc.Dumped? || p.pc.Written? || p.pc.Removed? || p.pc == Returned(200) }

  /** At most one pause in progress per id, and none begun after it. */
  ghost predicate BusyOk(pauses: seq<Pause>, busy: map<string, nat>) {
    && (forall id | id in busy :: busy[id] < |pauses| && pauses[busy[id]].id == id && InProgress(pauses[busy[id]]))
    && (forall k | 0 <= k < |pauses| && InProgress(pauses[k]) :: pauses[k].id in busy && busy[pauses[k].id] == k)
    && (forall k | 0 <= k < |pauses| && pauses[k].id in busy :: k <= busy[pauses[k].id])
    && (forall k | 0 <= k < |pauses| :: Proper(pauses[k]))
  }

  /** At most one unanswered process per id, and none begun after it. */
  ghost predicate PendingOk(procs: seq<Process>, pending: map<string, nat>) {
    && (forall id | id in pending :: pending[id] < |procs| && procs[pending[id]].id == id && Unanswered(procs[pending[id]]))
    && (forall p | 0 <= p < |procs| && Unanswered(procs[p]) :: procs[p].id in pending && pending[procs[p].id] == p)
    && (forall p | 0 <= p < |procs| && procs[p].id in pending :: p <= pending[procs[p].id])
    && (forall p | 0 <= p < |procs| :: Plain(procs[p].id))
  }

  /** A pause that selected p, k or one begun after it, has failed and taken the mark with it. */
  ghost predicate Undone(pauses: seq<Pause>, p: nat, k: nat) {
    exists j | k <= j < |pauses| :: pauses[j].target == p && Withdrawn(pauses[j])
  }

  /** A process ended by a dump was that of the pause that selected it; its mark is there until it is answered or a pause
      that selected it takes it, and it is answered 202 unless one has. */
  ghost predicate DumpOk(s: Sys, p: nat)
    requires IsProc(s, p)
  {
    var q := s.procs[p];
    q.dumpedBy.Some? ==>
      var k := q.dumpedBy.value;
      && k < |s.pauses| && s.pauses[k].target == p && s.pauses[k].id == q.id
      && !s.pauses[k].pc.Selected? && !s.pauses[k].pc.Marked? && !s.pauses[k].pc.Made?
      && !q.phase.Starting? && !q.phase.Running?
      && (Unanswered(q) && !Undone(s.pauses, p, k) ==> q.id in s.marks)
      && (q.phase.Answered? && q.phase.code != 202 ==> Undone(s.pauses, p, k))
  }

  /** A pause begun after the one that dumped the process cannot succeed on it, nor select another of its id before it is
      answered. */
  ghost predicate LaterOk(s: Sys, p: nat)
    requires IsProc(s, p)
  {
    s.procs[p].dumpedBy.Some? ==>
      forall j | s.procs[p].dumpedBy.value < j < |s.pauses| ::
        && (s.pauses[j].target == p ==> !Succeeding(s.pauses[j]))
        && (s.pauses[j].id == s.procs[p].id && Unanswered(s.procs[p]) ==> s.pauses[j].target == p)
  }

  /** A mark is there only while a pause of the id is at work, or for the process a successful one ended. */
  ghost predicate MarkOk(s: Sys, id: string) {
    id in s.marks ==>
      || (id in s.busy && s.busy[id] < |s.pauses| && Marking(s.pauses[s.busy[id]]))
      || (&& id in s.pending && IsProc(s, s.pending[id]) && s.procs[s.pending[id]].dumpedBy.Some?
          && s.procs[s.pending[id]].dumpedBy.value < |s.pauses|
          && s.pauses[s.procs[s.pending[id]].dumpedBy.value].pc == Returned(200)
          && !Undone(s.pauses, s.pending[id], s.procs[s.pending[id]].dumpedBy.value))
  }

  /** The mark a pause set stays until the process it selected is answered, and is gone once the pause has deleted it;
      and once the process is dumped, the mark is its. */
  ghost predicate PauseOk(s: Sys, k: nat)
    requires k < |s.pauses|
  {
    var p := s.pauses[k];
    && IsProc(s, p.target) && s.procs[p.target].id == p.id
    && (Marking(p) && Unanswered(s.procs[p.target]) ==> p.id in s.marks)
    && (p.pc.Unmarked? ==> p.id !in s.marks)
    && (Succeeding(p) ==> s.procs[p.target].dumpedBy == Some(k))
    && (Succeeding(p) && InProgress(p) && p.id in s.marks ==> p.id in s.pending && s.pending[p.id] == p.target)
  }

  /** Of the processes of the id begun after t, none has taken a mark. */
  predicate NoneTook(procs: seq<Process>, t: nat, id: string) {
    forall q | t < q < |procs| && procs[q].id == id :: procs[q].phase != Answered(202)
  }

  /** A pause at work on a process that has been answered: before it sets the mark there is none, and nobody has taken one
      since; and the mark it sets is there exactly if it was set after that answer and nobody has taken it. */
  predicate StaleOk(s: Sys, k: nat)
    requires k < |s.pauses|
  {
    var p := s.pauses[k];
    InProgress(p) && IsProc(s, p.target) ==>
      if Unanswered(s.procs[p.target]) then !p.late
      else
        && (p.pc.Selected? ==> p.id !in s.marks && NoneTook(s.procs, p.target, p.id))
        && (Marking(p) ==> (p.id in s.marks <==> p.late && NoneTook(s.procs, p.target, p.id)))
  }

  ghost predicate MarksOk(s: Sys) {
    && (forall k | 0 <= k < |s.pauses| :: StaleOk(s, k))
    && (forall k | 0 <= k < |s.pauses| :: PauseOk(s, k))
    && (forall p | 0 <= p < |s.procs| :: DumpOk(s, p))
    && (forall p | 0 <= p < |s.procs| :: LaterOk(s, p))
    && (forall id | id in s.marks :: MarkOk(s, id))
  }

  // ----- one pause per id, one process per id -------------------------------------------------------------------

  lemma BusyBegins(pauses: seq<Pause>, busy: map<string, nat>, p: Pause)
    requires BusyOk(pauses, busy) && Proper(p) && InProgress(p) && p.id !in busy
    ensures BusyOk(pauses + [p], busy[p.id := |pauses|])
  {
  }

  lemma BusyMoves(pauses: seq<Pause>, busy: map<string, nat>, k: nat, p: Pause)
    requires BusyOk(pauses, busy) && k < |pauses| && InProgress(pauses[k]) && InProgress(p) && p.id == pauses[k].id
    ensures BusyOk(pauses[k := p], busy)
  {
  }

  lemma BusyEnds(pauses: seq<Pause>, busy: map<string, nat>, k: nat, p: Pause)
    requires BusyOk(pauses, busy) && k < |pauses| && InProgress(pauses[k]) && !InProgress(p) && p.id == pauses[k].id
    requires Proper(p)
    ensures BusyOk(pauses[k := p], busy - {p.id})
  {
  }

  /** The step of a pause replaces its record, and keeps what the pause is. */
  lemma PauseReplaced(s: Sys, step: Step)
    requires Enabled(s, step) && !step.Select? && !ProcStep(step)
    ensures Of(step) < |s.pauses| && InProgress(s.pauses[Of(step)])
    ensures exists p' ::
      var p := s.pauses[Of(step)];
      && Next(s, step).pauses == s.pauses[Of(step) := p']
      && p'.id == p.id && p'.found == p.found && p'.earlier == p.earlier && p'.rec == p.rec && p'.target == p.target
      && (!step.Dump? ==> p'.origin == p.origin)
      && (InProgress(p') || p'.pc == Returned(200) || p'.pc == Returned(500))
  {
    assert Next(s, step).pauses == s.pauses[Of(step) := Next(s, step).pauses[Of(step)]];
    hide Part, Images;
  }

  lemma BusyAfter(s: Sys, step: Step)
    requires Enabled(s, step) && !step.Select? && !ProcStep(step)
    ensures var k, s' := Of(step), Next(s, step);
      k < |s.pauses| == |s'.pauses| && s'.busy == if InProgress(s'.pauses[k]) then s.busy else s.busy - {s.pauses[k].id}
  {
    hide Part, Images;
  }

  lemma StepKeepsBusy(s: Sys, step: Step)
    requires BusyOk(s.pauses, s.busy) && PendingOk(s.procs, s.pending) && Enabled(s, step) && Disciplined(s, step)
    ensures BusyOk(Next(s, step).pauses, Next(s, step).busy)
  {
    var s' := Next(s, step);
    if step.Select? {
      BusyBegins(s.pauses, s.busy, s'.pauses[|s.pauses|]);
      hide BusyOk, Part, Images;
    } else if ProcStep(step) {
      assert s'.pauses == s.pauses && s'.busy == s.busy;
      hide BusyOk;
    } else {
      PauseReplaced(s, step);
      BusyAfter(s, step);
      var k := Of(step);
      assert Proper(s.pauses[k]);
      hide Next, Enabled, Disciplined, PendingOk, Plain;
      if InProgress(s'.pauses[k]) { BusyMoves(s.pauses, s.busy, k, s'.pauses[k]); }
      else { BusyEnds(s.pauses, s.busy, k, s'.pauses[k]); }
    }
  }

  lemma PendingBegins(procs: seq<Process>, pending: map<string, nat>, p: Process)
    requires PendingOk(procs, pending) && Plain(p.id) && Unanswered(p) && p.id !in pending
    ensures PendingOk(procs + [p], pending[p.id := |procs|])
  {
  }

  lemma PendingMoves(procs: seq<Process>, pending: map<string, nat>, k: nat, p: Process)
    requires PendingOk(procs, pending) && k < |procs| && Unanswered(procs[k]) && Unanswered(p) && p.id == procs[k].id
    ensures PendingOk(procs[k := p], pending)
  {
  }

  lemma PendingEnds(procs: seq<Process>, pending: map<string, nat>, k: nat, p: Process)
    requires PendingOk(procs, pending) && k < |procs| && Unanswered(procs[k]) && !Unanswered(p) && p.id == procs[k].id
    ensures PendingOk(procs[k := p], pending - {p.id})
  {
  }

  lemma ProcStepKeepsPending(s: Sys, step: Step)
    requires PendingOk(s.procs, s.pending) && Enabled(s, step) && Disciplined(s, step) && ProcStep(step)
    ensures PendingOk(Next(s, step).procs, Next(s, step).pending)
  {
    var s' := Next(s, step);
    match step
    case Begin(_) => PendingBegins(s.procs, s.pending, s'.procs[|s.procs|]);
    case Resume(_) => PendingBegins(s.procs, s.pending, s'.procs[|s.procs|]);
    case Publish(p, _) => PendingMoves(s.procs, s.pending, p, s'.procs[p]);
    case End(p, _) => PendingMoves(s.procs, s.pending, p, s'.procs[p]);
    case Settle(p) => PendingMoves(s.procs, s.pending, p, s'.procs[p]);
    case Unlist(p) => PendingMoves(s.procs, s.pending, p, s'.procs[p]);
    case Answer(p) => PendingEnds(s.procs, s.pending, p, s'.procs[p]);
    hide PendingOk;
  }

  lemma StepKeepsPending(s: Sys, step: Step)
    requires PendingOk(s.procs, s.pending) && Enabled(s, step) && Disciplined(s, step)
    ensures PendingOk(Next(s, step).procs, Next(s, step).pending)
  {
    var s' := Next(s, step);
    if ProcStep(step) {
      hide PendingOk, Next, Enabled, Disciplined;
      ProcStepKeepsPending(s, step);
    } else if step.Dump? {
      if step.target.Some? { PendingMoves(s.procs, s.pending, step.target.value, s'.procs[step.target.value]); }
      hide PendingOk, Part, Images;
    } else {
      hide PendingOk, Part, Images;
    }
  }

  // ----- the mark -----------------------------------------------------------------------------------------------

  ghost predicate ShapeOk(s: Sys) { BusyOk(s.pauses, s.busy) && PendingOk(s.procs, s.pending) }

  /** The steps of a process and its waiter. */
  predicate ProcStep(step: Step) {
    step.Begin? || step.Resume? || step.Publish? || step.End? || step.Settle? || step.Unlist? || step.Answer?
  }

  /** The pause a step belongs to, if it is one's. */
  function Of(step: Step): nat {
    match step
    case Mark(k) => k
    case Make(k, _) => k
    case Dump(k, _, _) => k
    case Write(k, _) => k
    case Remove(k, _) => k
    case Rename(k, _) => k
    case Unmark(k) => k
    case Clean(k, _) => k
    case _ => 0
  }

  /** A step of a pause finds it in progress, so it is the one of its id. */
  lemma OwnPause(s: Sys, step: Step)
    requires Ready(s, step) && !ProcStep(step) && !step.Select?
    ensures var k := Of(step);
      k < |s.pauses| && s.pauses[k].id in s.busy && s.busy[s.pauses[k].id] == k && PauseOk(s, k)
  {
    assert InProgress(s.pauses[Of(step)]);
  }

  /** How a pause goes on without a dump: to its next stage, or to its failure, and then out. */
  predicate PcMoves(pc: PausePc, pc': PausePc) {
    || (pc.Selected? && pc'.Marked?)
    || (pc.Marked? && (pc'.Made? || pc'.Failing?))
    || (pc.Dumped? && (pc'.Written? || pc'.Failing?))
    || (pc.Written? && pc'.Removed?)
    || (pc.Removed? && (pc' == Returned(200) || pc'.Failing?))
    || (pc.Failing? && pc'.Unmarked?)
    || (pc.Unmarked? && pc' == Returned(500))
  }

  /** What such a step changes beside the folders. */
  ghost predicate GoesOn(s: Sys, s': Sys, k: nat, p': Pause) {
    && k < |s.pauses| && p'.id == s.pauses[k].id && p'.target == s.pauses[k].target && PcMoves(s.pauses[k].pc, p'.pc)
    && p'.late == (if p'.pc.Marked? then IsProc(s, p'.target) && s.procs[p'.target].phase.Answered? else s.pauses[k].late)
    && s'.procs == s.procs && s'.pending == s.pending && s'.pauses == s.pauses[k := p']
    && s'.marks == (if p'.pc.Marked? then s.marks + {p'.id} else if p'.pc.Unmarked? then s.marks - {p'.id} else s.marks)
    && s'.busy == (if p'.pc.Returned? then s.busy - {p'.id} else s.busy)
  }

  lemma PauseStepGoesOn(s: Sys, step: Step)
    requires Enabled(s, step) && !ProcStep(step) && !step.Select? && !step.Dump?
    ensures var k := Of(step); k < |s.pauses| && GoesOn(s, Next(s, step), k, Next(s, step).pauses[k])
  {
  }

  /** What a dump changes beside the folders: if ok, the process of the pause is ended by it. */
  ghost predicate Dumps(s: Sys, s': Sys, k: nat, ok: bool) {
    && k < |s.pauses| && s.pauses[k].pc.Made? && |s'.pauses| == |s.pauses| && IsProc(s, s.pauses[k].target)
    && (forall j | 0 <= j < |s.pauses| && j != k :: s'.pauses[j] == s.pauses[j])
    && s'.pauses[k].id == s.pauses[k].id && s'.pauses[k].target == s.pauses[k].target && s'.pauses[k].late == s.pauses[k].late
    && s'.pauses[k].pc == (if ok then Dumped else Failing)
    && s'.marks == s.marks && s'.busy == s.busy && s'.pending == s.pending
    && (ok ==> s.procs[s.pauses[k].target].phase.Running?)
    && s'.procs == (if ok then s.procs[s.pauses[k].target :=
                                 s.procs[s.pauses[k].target].(phase := Ended(false, true), dumpedBy := Some(k))]
                    else s.procs)
  }

  lemma DumpGoesOn(s: Sys, step: Step)
    requires Ready(s, step) && step.Dump?
    ensures Dumps(s, Next(s, step), step.k, step.target.Some?) && PauseOk(s, step.k)
  {
    assert PauseOk(s, step.k);
    hide MarksOk, BusyOk, PendingOk, Part, Plain;
  }

  ghost predicate Ready(s: Sys, step: Step) {
    ShapeOk(s) && MarksOk(s) && Enabled(s, step) && Disciplined(s, step)
  }

  lemma PauseFacts(s: Sys, step: Step, k: nat)
    requires Ready(s, step) && !ProcStep(step) && !step.Select? && !step.Dump? && k < |Next(s, step).pauses|
    ensures var i := Of(step);
      && i < |s.pauses| && i < |Next(s, step).pauses| && GoesOn(s, Next(s, step), i, Next(s, step).pauses[i])
      && InProgress(s.pauses[i]) && PauseOk(s, i) && k < |s.pauses| && PauseOk(s, k)
  {
    OwnPause(s, step);
    PauseStepGoesOn(s, step);
    hide Next, Enabled, Disciplined, PauseOk;
  }

  /** What a step of a process or its waiter changes: it begins one, moves one on, or answers one. */
  ghost predicate ProcGoes(s: Sys, s': Sys) {
    && s'.pauses == s.pauses && s'.busy == s.busy
    && (|| (exists q: Process ::
             && Unanswered(q) && q.dumpedBy.None? && q.id !in s.pending && s'.procs == s.procs + [q]
             && s'.pending == s.pending[q.id := |s.procs|] && s'.marks == s.marks)
        || (exists p: nat, q: Process ::
             && p < |s.procs| && Unanswered(s.procs[p]) && q.id == s.procs[p].id && q.dumpedBy == s.procs[p].dumpedBy
             && !q.phase.Starting? && (q.phase.Running? ==> s.procs[p].phase.Starting?)
             && s'.procs == s.procs[p := q]
             && if Unanswered(q) then s'.marks == s.marks && s'.pending == s.pending
                else s'.marks == s.marks - {q.id} && s'.pending == s.pending - {q.id}
                     && (q.phase.code == 202 <==> q.id in s.marks)))
  }

  lemma ProcessGoes(s: Sys, step: Step)
    requires Ready(s, step) && ProcStep(step)
    ensures ProcGoes(s, Next(s, step))
  {
    hide MarksOk, ShapeOk, Plain;
    var s' := Next(s, step);
    match step
    case Begin(id) => assert s'.procs == s.procs + [s'.procs[|s.procs|]];
    case Resume(id) => assert s'.procs == s.procs + [s'.procs[|s.procs|]];
    case Publish(p, _) => assert s'.procs == s.procs[p := s'.procs[p]];
    case End(p, _) => assert s'.procs == s.procs[p := s'.procs[p]];
    case Settle(p) => assert s'.procs == s.procs[p := s'.procs[p]];
    case Unlist(p) => assert s'.procs == s.procs[p := s'.procs[p]];
    case Answer(p) => assert s'.procs == s.procs[p := s'.procs[p]];
  }

  /** What such steps leave of who has taken a mark. */
  lemma UndoneAfter(s: Sys, s': Sys, i: nat, p': Pause, p: nat, k: nat)
    requires GoesOn(s, s', i, p')
    ensures Undone(s'.pauses, p, k) <==> Undone(s.pauses, p, k) || (p'.pc.Unmarked? && k <= i && p'.target == p)
  {
    if Undone(s.pauses, p, k) {
      var j :| k <= j < |s.pauses| && s.pauses[j].target == p && Withdrawn(s.pauses[j]);
      assert s'.pauses[j].target == p && Withdrawn(s'.pauses[j]);
    }
    if p'.pc.Unmarked? && k <= i && p'.target == p { assert s'.pauses[i].target == p && Withdrawn(s'.pauses[i]); }
    if Undone(s'.pauses, p, k) {
      var j :| k <= j < |s'.pauses| && s'.pauses[j].target == p && Withdrawn(s'.pauses[j]);
      assert j != i ==> s.pauses[j].target == p && Withdrawn(s.pauses[j]);
      assert s.pauses[i].target == p'.target;
    }
  }

  /** Nor does beginning a pause, or dumping. */
  lemma UndoneSame(before: seq<Pause>, after: seq<Pause>, p: nat, k: nat)
    requires |before| <= |after|
    requires forall j | 0 <= j < |before| :: after[j].target == before[j].target && Withdrawn(after[j]) == Withdrawn(before[j])
    requires forall j | |before| <= j < |after| :: !Withdrawn(after[j])
    ensures Undone(after, p, k) == Undone(before, p, k)
  {
    if Undone(before, p, k) {
      var j :| k <= j < |before| && before[j].target == p && Withdrawn(before[j]);
      assert after[j].target == p && Withdrawn(after[j]);
    }
    if Undone(after, p, k) {
      var j :| k <= j < |after| && after[j].target == p && Withdrawn(after[j]);
      assert before[j].target == p && Withdrawn(before[j]);
    }
  }

  /** The pause at work on the id of an unanswered, dumped process is the one that dumped it or one that selected it since. */
  lemma BusyIsOnIt(s: Sys, p: nat)
    requires ShapeOk(s) && IsProc(s, p) && DumpOk(s, p) && LaterOk(s, p)
    requires s.procs[p].dumpedBy.Some? && Unanswered(s.procs[p]) && s.procs[p].id in s.busy
    ensures s.procs[p].dumpedBy.value <= s.busy[s.procs[p].id] < |s.pauses|
    ensures s.pauses[s.busy[s.procs[p].id]].target == p
  {
    hide Undone, PendingOk;
  }

  lemma ProcGoesKeepsDump(s: Sys, s': Sys, p: nat)
    requires PendingOk(s.procs, s.pending) && ProcGoes(s, s') && IsProc(s', p)
    requires IsProc(s, p) ==> DumpOk(s, p) && LaterOk(s, p)
    ensures DumpOk(s', p) && LaterOk(s', p)
  {
    hide Undone, Plain;
  }

  lemma ProcessStepKeepsDump(s: Sys, step: Step, p: nat)
    requires Ready(s, step) && ProcStep(step) && IsProc(Next(s, step), p)
    ensures DumpOk(Next(s, step), p) && LaterOk(Next(s, step), p)
  {
    assert IsProc(s, p) ==> DumpOk(s, p) && LaterOk(s, p);
    ProcessGoes(s, step);
    hide Next, Enabled, Disciplined, MarksOk, DumpOk, LaterOk, ProcGoes;
    ProcGoesKeepsDump(s, Next(s, step), p);
  }

  lemma GoesOnKeepsDump(s: Sys, s': Sys, i: nat, p': Pause, p: nat)
    requires ShapeOk(s) && GoesOn(s, s', i, p') && PauseOk(s, i) && InProgress(s.pauses[i])
    requires IsProc(s, p) && DumpOk(s, p) && LaterOk(s, p)
    ensures DumpOk(s', p) && LaterOk(s', p)
  {
    assert s.busy[s.pauses[i].id] == i;
    if s.procs[p].dumpedBy.Some? {
      UndoneAfter(s, s', i, p', p, s.procs[p].dumpedBy.value);
      if Unanswered(s.procs[p]) && s.procs[p].id in s.busy { BusyIsOnIt(s, p); }
    }
    hide BusyOk, PendingOk, Plain, Undone, PauseOk;
  }

  lemma PauseStepKeepsDump(s: Sys, step: Step, p: nat)
    requires Ready(s, step) && !ProcStep(step) && !step.Select? && !step.Dump? && IsProc(Next(s, step), p)
    ensures DumpOk(Next(s, step), p) && LaterOk(Next(s, step), p)
  {
    PauseFacts(s, step, Of(step));
    assert IsProc(s, p) && DumpOk(s, p) && LaterOk(s, p);
    hide Next, Enabled, Disciplined, PauseOk, GoesOn, MarksOk, DumpOk, LaterOk;
    GoesOnKeepsDump(s, Next(s, step), Of(step), Next(s, step).pauses[Of(step)], p);
  }

  lemma SelectStepKeepsDump(s: Sys, step: Step, p: nat)
    requires Ready(s, step) && step.Select? && IsProc(Next(s, step), p)
    ensures DumpOk(Next(s, step), p) && LaterOk(Next(s, step), p)
  {
    assert DumpOk(s, p) && LaterOk(s, p);
    var s' := Next(s, step);
    if s.procs[p].dumpedBy.Some? { UndoneSame(s.pauses, s'.pauses, p, s.procs[p].dumpedBy.value); }
    assert PendingOk(s.procs, s.pending) && Unanswered(s.procs[step.p]);
    hide MarksOk, Undone, BusyOk, Plain;
  }

  /** A dump that succeeds ends the selected process; before it no pause of the id was begun later. */
  lemma DumpedNow(s: Sys, s': Sys, k: nat)
    requires ShapeOk(s) && MarksOk(s) && Dumps(s, s', k, true) && PauseOk(s, k)
    ensures DumpOk(s', s.pauses[k].target) && LaterOk(s', s.pauses[k].target)
  {
    var p := s.pauses[k].target;
    NoneLater(s, k, p);
    UndoneSame(s.pauses, s'.pauses, p, k);
    hide MarksOk, PendingOk, BusyOk, Undone;
  }

  lemma DumpLeaves(s: Sys, s': Sys, k: nat, ok: bool, p: nat)
    requires IsProc(s, p) && Dumps(s, s', k, ok) && !(ok && s.pauses[k].target == p) && DumpOk(s, p) && LaterOk(s, p)
    ensures DumpOk(s', p) && LaterOk(s', p)
  {
    if s.procs[p].dumpedBy.Some? { UndoneSame(s.pauses, s'.pauses, p, s.procs[p].dumpedBy.value); }
    assert s'.procs[p] == s.procs[p];
    hide Undone;
  }

  lemma DumpStepKeepsDump(s: Sys, step: Step, p: nat)
    requires Ready(s, step) && step.Dump? && IsProc(Next(s, step), p)
    ensures DumpOk(Next(s, step), p) && LaterOk(Next(s, step), p)
  {
    DumpGoesOn(s, step);
    assert IsProc(s, p) && DumpOk(s, p) && LaterOk(s, p);
    hide Next, Enabled, Disciplined, DumpOk, LaterOk, MarksOk, ShapeOk;
    if step.target.Some? && s.pauses[step.k].target == p {
      DumpedNow(s, Next(s, step), step.k);
    } else {
      DumpLeaves(s, Next(s, step), step.k, step.target.Some?, p);
    }
  }

  lemma NoneLater(s: Sys, k: nat, p: nat)
    requires ShapeOk(s) && MarksOk(s) && k < |s.pauses| && InProgress(s.pauses[k]) && s.pauses[k].target == p
    ensures forall j | k < j < |s.pauses| :: s.pauses[j].target != p && s.pauses[j].id != s.pauses[k].id
  {
    forall j | k < j < |s.pauses| ensures s.pauses[j].target != p && s.pauses[j].id != s.pauses[k].id {
      assert PauseOk(s, j) && PauseOk(s, k);
    }
    hide MarksOk, Undone, PendingOk;
  }

  lemma StepKeepsDump(s: Sys, step: Step, p: nat)
    requires Ready(s, step) && IsProc(Next(s, step), p)
    ensures DumpOk(Next(s, step), p) && LaterOk(Next(s, step), p)
  {
    hide Ready, Next, DumpOk, LaterOk;
    if ProcStep(step) {
      ProcessStepKeepsDump(s, step, p);
    } else if step.Select? {
      SelectStepKeepsDump(s, step, p);
    } else if step.Dump? {
      DumpStepKeepsDump(s, step, p);
    } else {
      PauseStepKeepsDump(s, step, p);
    }
  }

  lemma ProcGoesKeepsMark(s: Sys, s': Sys, id: string)
    requires PendingOk(s.procs, s.pending) && ProcGoes(s, s') && (id in s.marks ==> MarkOk(s, id))
    ensures MarkOk(s', id)
  {
    hide Undone, Plain;
  }

  lemma ProcessStepKeepsMark(s: Sys, step: Step, id: string)
    requires Ready(s, step) && ProcStep(step)
    ensures MarkOk(Next(s, step), id)
  {
    assert id in s.marks ==> MarkOk(s, id);
    ProcessGoes(s, step);
    hide Next, Enabled, Disciplined, MarksOk, MarkOk, ProcGoes;
    ProcGoesKeepsMark(s, Next(s, step), id);
  }

  lemma GoesOnKeepsMark(s: Sys, s': Sys, i: nat, p': Pause, id: string)
    requires ShapeOk(s) && MarksOk(s) && GoesOn(s, s', i, p') && PauseOk(s, i) && InProgress(s.pauses[i])
    requires id in s.marks ==> MarkOk(s, id)
    ensures MarkOk(s', id)
  {
    assert s.busy[s.pauses[i].id] == i;
    if id in s.pending && IsProc(s, s.pending[id]) && s.procs[s.pending[id]].dumpedBy.Some? {
      UndoneAfter(s, s', i, p', s.pending[id], s.procs[s.pending[id]].dumpedBy.value);
      if p'.pc == Returned(200) { JustReturned(s, i); }
    }
    hide MarksOk, PendingOk, Plain, Proper, Undone;
  }

  lemma PauseStepKeepsMark(s: Sys, step: Step, id: string)
    requires Ready(s, step) && !ProcStep(step) && !step.Select? && !step.Dump?
    ensures MarkOk(Next(s, step), id)
  {
    assert id in s.marks ==> MarkOk(s, id);
    hide Next, Enabled, Disciplined, PauseOk, GoesOn, MarksOk, MarkOk;
    PauseFacts(s, step, Of(step));
    GoesOnKeepsMark(s, Next(s, step), Of(step), Next(s, step).pauses[Of(step)], id);
  }

  /** A pause about to return 200 has its process unspoilt. */
  lemma JustReturned(s: Sys, k: nat)
    requires ShapeOk(s) && MarksOk(s) && k < |s.pauses| && s.pauses[k].pc.Removed?
    ensures !Undone(s.pauses, s.pauses[k].target, k)
  {
    NoneLater(s, k, s.pauses[k].target);
    hide MarksOk;
  }

  lemma SelectStepKeepsMark(s: Sys, step: Step, id: string)
    requires Ready(s, step) && step.Select?
    ensures MarkOk(Next(s, step), id)
  {
    assert id in s.marks ==> MarkOk(s, id);
    var s' := Next(s, step);
    if id in s.pending && IsProc(s, s.pending[id]) && s.procs[s.pending[id]].dumpedBy.Some? {
      UndoneSame(s.pauses, s'.pauses, s.pending[id], s.procs[s.pending[id]].dumpedBy.value);
    }
    hide MarksOk, Undone, Plain;
  }

  lemma DumpStepKeepsMark(s: Sys, step: Step, id: string)
    requires Ready(s, step) && step.Dump?
    ensures MarkOk(Next(s, step), id)
  {
    DumpGoesOn(s, step);
    assert id in s.marks ==> MarkOk(s, id);
    assert step.target.Some? ==> DumpOk(s, s.pauses[step.k].target);
    var s' := Next(s, step);
    if id in s.pending && IsProc(s, s.pending[id]) && s.procs[s.pending[id]].dumpedBy.Some? {
      UndoneSame(s.pauses, s'.pauses, s.pending[id], s.procs[s.pending[id]].dumpedBy.value);
    }
    hide MarksOk, PendingOk, Undone, Plain, Next, Enabled, Disciplined;
  }

  lemma StepKeepsMark(s: Sys, step: Step, id: string)
    requires Ready(s, step)
    ensures MarkOk(Next(s, step), id)
  {
    hide Ready, Next, MarkOk;
    if ProcStep(step) { ProcessStepKeepsMark(s, step, id); }
    else if step.Select? { SelectStepKeepsMark(s, step, id); }
    else if step.Dump? { DumpStepKeepsMark(s, step, id); }
    else { PauseStepKeepsMark(s, step, id); }
  }

  lemma ProcGoesKeepsPause(s: Sys, s': Sys, k: nat)
    requires PendingOk(s.procs, s.pending) && ProcGoes(s, s') && k < |s.pauses| && PauseOk(s, k)
    ensures PauseOk(s', k)
  {
    hide Plain;
  }

  lemma ProcessStepKeepsPause(s: Sys, step: Step, k: nat)
    requires Ready(s, step) && ProcStep(step) && k < |Next(s, step).pauses|
    ensures PauseOk(Next(s, step), k)
  {
    ProcessGoes(s, step);
    assert k < |s.pauses| && PauseOk(s, k);
    hide Next, Enabled, Disciplined, MarksOk, PauseOk, ProcGoes;
    ProcGoesKeepsPause(s, Next(s, step), k);
  }

  lemma GoesOnKeepsPause(s: Sys, s': Sys, i: nat, p': Pause, k: nat)
    requires BusyOk(s.pauses, s.busy) && GoesOn(s, s', i, p') && PauseOk(s, i) && k < |s.pauses| && PauseOk(s, k)
    requires InProgress(s.pauses[i])
    ensures PauseOk(s', k)
  {
    assert i != k && InProgress(s.pauses[k]) ==> s.pauses[k].id != s.pauses[i].id;
    hide Plain, Proper, BusyOk;
  }

  lemma PauseStepKeepsPause(s: Sys, step: Step, k: nat)
    requires Ready(s, step) && !ProcStep(step) && !step.Select? && !step.Dump? && k < |Next(s, step).pauses|
    ensures PauseOk(Next(s, step), k)
  {
    hide Next, Enabled, Disciplined, PauseOk, GoesOn, MarksOk;
    PauseFacts(s, step, k);
    GoesOnKeepsPause(s, Next(s, step), Of(step), Next(s, step).pauses[Of(step)], k);
  }

  lemma SelectStepKeepsPause(s: Sys, step: Step, k: nat)
    requires Ready(s, step) && step.Select? && k < |Next(s, step).pauses|
    ensures PauseOk(Next(s, step), k)
  {
    if k < |s.pauses| { assert PauseOk(s, k); }
    hide MarksOk, Undone, Plain;
  }

  lemma DumpStepKeepsPause(s: Sys, step: Step, k: nat)
    requires Ready(s, step) && step.Dump? && k < |Next(s, step).pauses|
    ensures PauseOk(Next(s, step), k)
  {
    DumpGoesOn(s, step);
    assert PauseOk(s, k);
    if step.target.Some? { assert DumpOk(s, s.pauses[step.k].target); }
    hide MarksOk, Undone, Plain, LaterOk, MarkOk, Next, Enabled, Disciplined;
  }

  lemma StepKeepsPause(s: Sys, step: Step, k: nat)
    requires Ready(s, step) && k < |Next(s, step).pauses|
    ensures PauseOk(Next(s, step), k)
  {
    hide Ready, Next, PauseOk;
    if ProcStep(step) { ProcessStepKeepsPause(s, step, k); }
    else if step.Select? { SelectStepKeepsPause(s, step, k); }
    else if step.Dump? { DumpStepKeepsPause(s, step, k); }
    else { PauseStepKeepsPause(s, step, k); }
  }

  /** Beginning a process changes nobody's answer, and moving one on its own alone. */
  lemma TookGrows(procs: seq<Process>, q: Process, t: nat, id: string)
    requires Unanswered(q)
    ensures NoneTook(procs + [q], t, id) <==> NoneTook(procs, t, id)
  {
    if NoneTook(procs + [q], t, id) {
      forall i | t < i < |procs| && procs[i].id == id ensures procs[i].phase != Answered(202) {
        assert (procs + [q])[i] == procs[i];
      }
    }
  }

  lemma TookMoves(procs: seq<Process>, p: nat, q: Process, t: nat, id: string)
    requires p < |procs| && Unanswered(procs[p]) && q.id == procs[p].id
    ensures NoneTook(procs[p := q], t, id) <==> NoneTook(procs, t, id) && !(t < p && q.id == id && q.phase == Answered(202))
  {
    var after := procs[p := q];
    if NoneTook(after, t, id) {
      forall i | t < i < |procs| && procs[i].id == id ensures procs[i].phase != Answered(202) {
        assert after[i] == if i == p then q else procs[i];
      }
      if t < p && q.id == id { assert after[p] == q; }
    }
  }

  /** Which mark is there for a pause of an answered process changes only with an answer of the id. */
  lemma ProcGoesKeepsStale(s: Sys, s': Sys, k: nat)
    requires PendingOk(s.procs, s.pending) && ProcGoes(s, s') && k < |s.pauses| && StaleOk(s, k) && IsProc(s, s.pauses[k].target)
    requires s.procs[s.pauses[k].target].id == s.pauses[k].id
    ensures StaleOk(s', k)
  {
    var t, id := s.pauses[k].target, s.pauses[k].id;
    if |s'.procs| == |s.procs| + 1 {
      assert s'.procs == s.procs + [s'.procs[|s.procs|]];
      TookGrows(s.procs, s'.procs[|s.procs|], t, id);
      hide Plain, NoneTook, PendingOk;
    } else {
      var p: nat, q: Process :| p < |s.procs| && Unanswered(s.procs[p]) && q.id == s.procs[p].id
        && s'.procs == s.procs[p := q]
        && if Unanswered(q) then s'.marks == s.marks && s'.pending == s.pending
           else s'.marks == s.marks - {q.id} && s'.pending == s.pending - {q.id} && (q.phase.code == 202 <==> q.id in s.marks);
      TookMoves(s.procs, p, q, t, id);
      if p == t { assert NoneTook(s.procs, t, id); }
      hide Plain, NoneTook, ProcGoes, PendingOk;
    }
  }

  lemma ProcessStepKeepsStale(s: Sys, step: Step, k: nat)
    requires Ready(s, step) && ProcStep(step) && k < |Next(s, step).pauses|
    ensures StaleOk(Next(s, step), k)
  {
    ProcessGoes(s, step);
    assert k < |s.pauses| && StaleOk(s, k) && PauseOk(s, k);
    hide Next, Enabled, Disciplined, MarksOk, StaleOk, ProcGoes;
    ProcGoesKeepsStale(s, Next(s, step), k);
  }

  lemma GoesOnKeepsStale(s: Sys, s': Sys, i: nat, p': Pause, k: nat)
    requires BusyOk(s.pauses, s.busy) && GoesOn(s, s', i, p') && InProgress(s.pauses[i])
    requires k < |s.pauses| && StaleOk(s, k)
    ensures StaleOk(s', k)
  {
    assert i != k && InProgress(s.pauses[k]) ==> s.pauses[k].id != s.pauses[i].id;
    hide Plain, Proper, BusyOk;
  }

  lemma PauseStepKeepsStale(s: Sys, step: Step, k: nat)
    requires Ready(s, step) && !ProcStep(step) && !step.Select? && !step.Dump? && k < |Next(s, step).pauses|
    ensures StaleOk(Next(s, step), k)
  {
    PauseFacts(s, step, k);
    assert StaleOk(s, k);
    hide Next, Enabled, Disciplined, StaleOk, GoesOn, MarksOk;
    GoesOnKeepsStale(s, Next(s, step), Of(step), Next(s, step).pauses[Of(step)], k);
  }

  lemma SelectStepKeepsStale(s: Sys, step: Step, k: nat)
    requires Ready(s, step) && step.Select? && k < |Next(s, step).pauses|
    ensures StaleOk(Next(s, step), k)
  {
    if k < |s.pauses| { assert StaleOk(s, k); }
    hide MarksOk, Undone, Plain;
  }

  /** A dump ends an unanswered process, and takes no mark. */
  lemma DumpsKeepsStale(s: Sys, s': Sys, i: nat, ok: bool, k: nat)
    requires Dumps(s, s', i, ok) && k < |s.pauses| && StaleOk(s, k)
    ensures StaleOk(s', k)
  {
    var d := s.pauses[i].target;
    if ok { TookMoves(s.procs, d, s'.procs[d], s.pauses[k].target, s.pauses[k].id); }
    hide NoneTook;
  }

  lemma DumpStepKeepsStale(s: Sys, step: Step, k: nat)
    requires Ready(s, step) && step.Dump? && k < |Next(s, step).pauses|
    ensures StaleOk(Next(s, step), k)
  {
    DumpGoesOn(s, step);
    assert StaleOk(s, k);
    hide MarksOk, StaleOk, ShapeOk, Dumps, PauseOk, Next, Enabled, Disciplined;
    DumpsKeepsStale(s, Next(s, step), step.k, step.target.Some?, k);
  }

  lemma StepKeepsStale(s: Sys, step: Step, k: nat)
    requires Ready(s, step) && k < |Next(s, step).pauses|
    ensures StaleOk(Next(s, step), k)
  {
    hide Ready, Next, StaleOk;
    if ProcStep(step) { ProcessStepKeepsStale(s, step, k); }
    else if step.Select? { SelectStepKeepsStale(s, step, k); }
    else if step.Dump? { DumpStepKeepsStale(s, step, k); }
    else { PauseStepKeepsStale(s, step, k); }
  }

  lemma StepKeepsMarks(s: Sys, step: Step)
    requires Ready(s, step)
    ensures MarksOk(Next(s, step))
  {
    var s' := Next(s, step);
    hide Ready, Next, DumpOk, LaterOk, MarkOk, PauseOk, StaleOk, Enabled;
    forall k | 0 <= k < |s'.pauses| ensures StaleOk(s', k) { StepKeepsStale(s, step, k); }
    forall p | 0 <= p < |s'.procs| ensures DumpOk(s', p) && LaterOk(s', p) { StepKeepsDump(s, step, p); }
    forall k | 0 <= k < |s'.pauses| ensures PauseOk(s', k) { StepKeepsPause(s, step, k); }
    forall id | id in s'.marks ensures MarkOk(s', id) { StepKeepsMark(s, step, id); }
  }

  // ----- the folders --------------------------------------------------------------------------------------------

  /** The two folders of a plain id are its own. */
  lemma PathsApart(a: string, b: string)
    requires Plain(a) && Plain(b)
    ensures Images(a) != Part(b)
    ensures Part(a) == Part(b) ==> a == b
  {
    assert Part(b)[|Part(b)| - 5..] == ".part";
    if Part(a) == Part(b) { assert a == Part(a)[..|a|] == Part(b)[..|b|] == b; }
  }

  /** What pause k leaves when it succeeds: its record, and its images beside those of the .part it found. */
  function CheckpointOf(k: nat, p: Pause): Folder {
    Folder(Kept(p.found).writers + {k}, Some(Snapshot(k, p.rec, p.origin)))
  }

  /** f is the checkpoint of a successful pause of id. */
  predicate Whole(pauses: seq<Pause>, id: string, f: Folder) {
    && f.snapshot.Some? && f.snapshot.value.author < |pauses|
    && pauses[f.snapshot.value.author].id == id && pauses[f.snapshot.value.author].pc == Returned(200)
    && f == CheckpointOf(f.snapshot.value.author, pauses[f.snapshot.value.author])
  }

  /** The last pause of id before the nth failed, and so did its removal of .part. */
  ghost predicate LeftBehind(pauses: seq<Pause>, id: string, n: nat)
    requires n <= |pauses|
  {
    exists k | 0 <= k < n ::
      pauses[k].id == id && pauses[k].pc == Returned(500) && !pauses[k].cleaned && forall j | k < j < n :: pauses[j].id != id
  }

  /** Images of earlier pauses of id, if any. */
  predicate Stale(pauses: seq<Pause>, id: string, n: nat, f: Folder) {
    forall w | w in f.writers :: w < n && w < |pauses| && pauses[w].id == id
  }

  /** What pause k found. */
  ghost predicate FoundOk(pauses: seq<Pause>, k: nat)
    requires k < |pauses|
  {
    var p := pauses[k];
    && (p.found.Some? <==> LeftBehind(pauses, p.id, k))
    && (p.found.Some? ==> Stale(pauses, p.id, k, p.found.value))
    && (p.earlier.Some? ==> Whole(pauses, p.id, p.earlier.value))
  }

  /** .part is what pause k found, or that with its own images. */
  predicate OwnPart(k: nat, p: Pause, part: Option<Folder>) {
    part == p.found || (part.Some? && part.value.writers <= Kept(p.found).writers + {k})
  }

  /** What the folders of a pause in progress hold. */
  predicate FolderOk(disk: map<string, Folder>, k: nat, p: Pause) {
    var images, part := At(disk, Images(p.id)), At(disk, Part(p.id));
    && (p.pc.Selected? || p.pc.Marked? ==> part == p.found)
    && (p.pc.Made? ==> part == Some(Kept(p.found)))
    && (p.pc.Dumped? ==> part == Some(WrittenBy(k, Some(Kept(p.found)))))
    && (p.pc.Written? || p.pc.Removed? ==> part == Some(CheckpointOf(k, p)))
    && (p.pc.Failing? || p.pc.Unmarked? ==> OwnPart(k, p, part))
    && (p.removed ==> p.pc.Removed? || p.pc.Failing? || p.pc.Unmarked?)
    && images == if p.removed then None else p.earlier
  }

  /** And when it has just returned. */
  predicate ReturnOk(disk: map<string, Folder>, k: nat, p: Pause) {
    var images, part := At(disk, Images(p.id)), At(disk, Part(p.id));
    && (p.pc == Returned(200) ==> part.None? && images == Some(CheckpointOf(k, p)))
    && (p.pc == Returned(500) ==>
          && (part.None? <==> p.cleaned) && (part.Some? ==> OwnPart(k, p, part))
          && images == if p.removed then None else p.earlier)
    && (p.pc == Returned(200) || p.pc == Returned(500))
  }

  /** No pause of id at work: the checkpoint of a successful one or none, and a .part only where the last one left it. */
  ghost predicate QuietFolder(pauses: seq<Pause>, disk: map<string, Folder>, id: string) {
    && (Images(id) in disk ==> Whole(pauses, id, disk[Images(id)]))
    && (Part(id) in disk <==> LeftBehind(pauses, id, |pauses|))
    && (Part(id) in disk ==> Stale(pauses, id, |pauses|, disk[Part(id)]))
  }

  ghost predicate DiskOk(s: Sys) {
    && (forall k | 0 <= k < |s.pauses| && InProgress(s.pauses[k]) :: FolderOk(s.disk, k, s.pauses[k]))
    && (forall k | 0 <= k < |s.pauses| :: FoundOk(s.pauses, k))
    && (forall id | Plain(id) && id !in s.busy :: QuietFolder(s.pauses, s.disk, id))
  }

  lemma OtherFolders(s: Sys, step: Step, id: string)
    requires BusyOk(s.pauses, s.busy) && Enabled(s, step) && Plain(id)
    requires ProcStep(step) || step.Select? || s.pauses[Of(step)].id != id
    ensures At(Next(s, step).disk, Images(id)) == At(s.disk, Images(id))
    ensures At(Next(s, step).disk, Part(id)) == At(s.disk, Part(id))
  {
    if !ProcStep(step) && !step.Select? {
      assert Proper(s.pauses[Of(step)]);
      PathsApart(s.pauses[Of(step)].id, id);
      PathsApart(id, s.pauses[Of(step)].id);
    }
  }

  predicate Builds(step: Step) { step.Mark? || step.Make? || step.Dump? || step.Write? }

  lemma OwnFoldersBuild(s: Sys, step: Step)
    requires Enabled(s, step) && Builds(step) && FolderOk(s.disk, Of(step), s.pauses[Of(step)])
    requires Images(s.pauses[Of(step)].id) != Part(s.pauses[Of(step)].id)
    ensures FolderOk(Next(s, step).disk, Of(step), Next(s, step).pauses[Of(step)])
    ensures InProgress(Next(s, step).pauses[Of(step)])
  {
    hide Part, Images, FolderOk;
    match step
    case Dump(k, target, wrote) => OwnFoldersDump(s, k, target, wrote);
    case Write(k, ok) => OwnFoldersWrite(s, k, ok);
    case Make(k, ok) => OwnFoldersMake(s, k, ok);
    case Mark(k) => OwnFoldersMark(s, k);
  }

  lemma OwnFoldersMark(s: Sys, k: nat)
    requires Enabled(s, Mark(k)) && FolderOk(s.disk, k, s.pauses[k])
    ensures FolderOk(Next(s, Mark(k)).disk, k, Next(s, Mark(k)).pauses[k])
    ensures InProgress(Next(s, Mark(k)).pauses[k])
  {
    hide Part, Images;
  }

  lemma OwnFoldersMake(s: Sys, k: nat, ok: bool)
    requires Enabled(s, Make(k, ok)) && FolderOk(s.disk, k, s.pauses[k])
    requires Images(s.pauses[k].id) != Part(s.pauses[k].id)
    ensures FolderOk(Next(s, Make(k, ok)).disk, k, Next(s, Make(k, ok)).pauses[k])
    ensures InProgress(Next(s, Make(k, ok)).pauses[k])
  {
    hide Part, Images;
  }

  lemma OwnFoldersWrite(s: Sys, k: nat, ok: bool)
    requires Enabled(s, Write(k, ok)) && FolderOk(s.disk, k, s.pauses[k])
    requires Images(s.pauses[k].id) != Part(s.pauses[k].id)
    ensures FolderOk(Next(s, Write(k, ok)).disk, k, Next(s, Write(k, ok)).pauses[k])
    ensures InProgress(Next(s, Write(k, ok)).pauses[k])
  {
    hide Part, Images;
  }

  lemma OwnFoldersDump(s: Sys, k: nat, target: Option<nat>, wrote: bool)
    requires Enabled(s, Dump(k, target, wrote)) && FolderOk(s.disk, k, s.pauses[k])
    requires Images(s.pauses[k].id) != Part(s.pauses[k].id)
    ensures FolderOk(DoDump(s, k, target, wrote).disk, k, DoDump(s, k, target, wrote).pauses[k])
    ensures InProgress(DoDump(s, k, target, wrote).pauses[k])
  {
    hide Part, Images;
  }

  lemma OwnFoldersEnd(s: Sys, step: Step)
    requires Enabled(s, step) && !Builds(step) && !ProcStep(step) && !step.Select?
    requires FolderOk(s.disk, Of(step), s.pauses[Of(step)])
    requires Images(s.pauses[Of(step)].id) != Part(s.pauses[Of(step)].id)
    ensures var p := Next(s, step).pauses[Of(step)];
      if InProgress(p) then FolderOk(Next(s, step).disk, Of(step), p) else ReturnOk(Next(s, step).disk, Of(step), p)
  {
    hide Part, Images;
    if step.Rename? { OwnFoldersRename(s, step.k, step.ok); hide FolderOk, ReturnOk, Next; }
    else if step.Clean? { OwnFoldersClean(s, step.k, step.ok); hide FolderOk, ReturnOk, Next; }
    else { hide CheckpointOf, ReturnOk, OwnPart; }
  }

  lemma OwnFoldersRename(s: Sys, k: nat, ok: bool)
    requires Enabled(s, Rename(k, ok)) && FolderOk(s.disk, k, s.pauses[k])
    requires Images(s.pauses[k].id) != Part(s.pauses[k].id)
    ensures var s' := Next(s, Rename(k, ok));
      if InProgress(s'.pauses[k]) then FolderOk(s'.disk, k, s'.pauses[k]) else ReturnOk(s'.disk, k, s'.pauses[k])
  {
    hide Part, Images;
  }

  lemma OwnFoldersClean(s: Sys, k: nat, ok: bool)
    requires Enabled(s, Clean(k, ok)) && FolderOk(s.disk, k, s.pauses[k])
    requires Images(s.pauses[k].id) != Part(s.pauses[k].id)
    ensures var s' := Next(s, Clean(k, ok)); !InProgress(s'.pauses[k]) && ReturnOk(s'.disk, k, s'.pauses[k])
  {
    hide Part, Images;
  }

  /** The step of a pause keeps what its own folders hold. */
  lemma OwnFolders(s: Sys, step: Step)
    requires Enabled(s, step) && !ProcStep(step) && !step.Select? && FolderOk(s.disk, Of(step), s.pauses[Of(step)])
    requires Plain(s.pauses[Of(step)].id)
    ensures var p := Next(s, step).pauses[Of(step)];
      if InProgress(p) then FolderOk(Next(s, step).disk, Of(step), p) else ReturnOk(Next(s, step).disk, Of(step), p)
  {
    PathsApart(s.pauses[Of(step)].id, s.pauses[Of(step)].id);
    hide Part, Images, FolderOk, ReturnOk, Next;
    if Builds(step) { OwnFoldersBuild(s, step); } else { OwnFoldersEnd(s, step); }
  }

  /** One pause in progress goes on; the others stay, and it keeps what it found. */
  ghost predicate OneMoves(before: seq<Pause>, after: seq<Pause>, k: nat) {
    && k < |before| == |after| && InProgress(before[k])
    && after[k].id == before[k].id && after[k].found == before[k].found && after[k].earlier == before[k].earlier
    && forall j | 0 <= j < |before| && j != k :: after[j] == before[j]
  }

  lemma PauseMoves(s: Sys, step: Step)
    requires Enabled(s, step) && !step.Select? && !ProcStep(step)
    ensures OneMoves(s.pauses, Next(s, step).pauses, Of(step))
    ensures var k, s' := Of(step), Next(s, step);
      s'.busy == if InProgress(s'.pauses[k]) then s.busy else s.busy - {s.pauses[k].id}
  {
    PauseReplaced(s, step);
    BusyAfter(s, step);
    hide Next, Enabled;
  }

  lemma WholeStays(before: seq<Pause>, after: seq<Pause>, k: nat, id: string, f: Folder)
    requires OneMoves(before, after, k) && Whole(before, id, f)
    ensures Whole(after, id, f)
  {
  }

  lemma StaleStays(before: seq<Pause>, after: seq<Pause>, k: nat, id: string, n: nat, f: Folder)
    requires OneMoves(before, after, k) && Stale(before, id, n, f)
    ensures Stale(after, id, n, f)
  {
  }

  /** What is left behind is a matter of the pauses of the id before n. */
  lemma LeftStays(before: seq<Pause>, after: seq<Pause>, id: string, n: nat)
    requires n <= |before| && n <= |after|
    requires forall j | 0 <= j < n :: after[j].id == before[j].id && (before[j].id == id ==> after[j] == before[j])
    ensures LeftBehind(after, id, n) == LeftBehind(before, id, n)
  {
    if LeftBehind(before, id, n) {
      var k :| 0 <= k < n && before[k].id == id && before[k].pc == Returned(500) && !before[k].cleaned
        && forall j | k < j < n :: before[j].id != id;
      assert after[k] == before[k];
    }
    if LeftBehind(after, id, n) {
      var k :| 0 <= k < n && after[k].id == id && after[k].pc == Returned(500) && !after[k].cleaned
        && forall j | k < j < n :: after[j].id != id;
      assert after[k] == before[k] && forall j | k < j < n :: before[j].id != id;
    }
  }

  lemma FoundStays(pauses: seq<Pause>, busy: map<string, nat>, after: seq<Pause>, i: nat, k: nat)
    requires BusyOk(pauses, busy) && OneMoves(pauses, after, i) && k < |pauses| && FoundOk(pauses, k)
    ensures FoundOk(after, k)
  {
    var p := pauses[k];
    assert i < k ==> p.id != pauses[i].id;
    LeftStays(pauses, after, p.id, k);
    if p.found.Some? { StaleStays(pauses, after, i, p.id, k, p.found.value); }
    if p.earlier.Some? { WholeStays(pauses, after, i, p.id, p.earlier.value); }
    hide BusyOk, LeftBehind, Stale, Whole;
  }

  /** Another id's folders, left alone, stay quiet. */
  lemma QuietStays(before: seq<Pause>, after: seq<Pause>, i: nat, d: map<string, Folder>, d': map<string, Folder>, id: string)
    requires OneMoves(before, after, i) && before[i].id != id && QuietFolder(before, d, id)
    requires At(d', Images(id)) == At(d, Images(id)) && At(d', Part(id)) == At(d, Part(id))
    ensures QuietFolder(after, d', id)
  {
    LeftStays(before, after, id, |before|);
    if Images(id) in d { WholeStays(before, after, i, id, d[Images(id)]); }
    if Part(id) in d { StaleStays(before, after, i, id, |before|, d[Part(id)]); }
    hide LeftBehind, Stale, Whole, Images, Part;
  }

  /** The id's own folders, once its pause has returned. */
  lemma QuietAgain(pauses: seq<Pause>, disk: map<string, Folder>, k: nat)
    requires k < |pauses| && !InProgress(pauses[k]) && FoundOk(pauses, k) && ReturnOk(disk, k, pauses[k])
    requires forall j | k < j < |pauses| :: pauses[j].id != pauses[k].id
    ensures QuietFolder(pauses, disk, pauses[k].id)
  {
    var p := pauses[k];
    assert LeftBehind(pauses, p.id, |pauses|) <==> p.pc == Returned(500) && !p.cleaned;
    if Part(p.id) in disk { StaleAgain(pauses, k, disk[Part(p.id)]); }
    hide LeftBehind, Images, Part, Stale;
  }

  lemma StaleAgain(pauses: seq<Pause>, k: nat, f: Folder)
    requires k < |pauses| && FoundOk(pauses, k) && OwnPart(k, pauses[k], Some(f))
    ensures Stale(pauses, pauses[k].id, |pauses|, f)
  {
    hide LeftBehind, Whole;
  }

  lemma SelectKeepsDisk(s: Sys, step: Step)
    requires Ready(s, step) && DiskOk(s) && step.Select?
    ensures DiskOk(Next(s, step))
  {
    var s', id, n := Next(s, step), s.procs[step.p].id, |s.pauses|;
    var p := s'.pauses[n];
    assert s'.pauses == s.pauses + [p] && s'.disk == s.disk && Plain(id) && QuietFolder(s.pauses, s.disk, id);
    hide MarksOk, Images, Part, Plain, PendingOk;
    forall k | 0 <= k < |s'.pauses| ensures FoundOk(s'.pauses, k) { FoundWithMore(s.pauses, p, k); }
    forall other | Plain(other) && other !in s'.busy ensures QuietFolder(s'.pauses, s'.disk, other) {
      assert QuietFolder(s.pauses, s.disk, other);
      QuietWithMore(s.pauses, p, s.disk, other);
    }
    hide BusyOk, FoundOk, LeftBehind, Whole, Stale;
  }

  /** A new pause changes nothing of what the earlier ones found, and finds what is there. */
  lemma FoundWithMore(pauses: seq<Pause>, p: Pause, k: nat)
    requires k < |pauses| ==> FoundOk(pauses, k)
    requires k == |pauses| ==>
      && (p.found.Some? <==> LeftBehind(pauses, p.id, k)) && (p.found.Some? ==> Stale(pauses, p.id, k, p.found.value))
      && (p.earlier.Some? ==> Whole(pauses, p.id, p.earlier.value))
    requires k <= |pauses|
    ensures FoundOk(pauses + [p], k)
  {
    LeftStays(pauses, pauses + [p], if k < |pauses| then pauses[k].id else p.id, k);
    hide LeftBehind;
  }

  lemma QuietWithMore(pauses: seq<Pause>, p: Pause, disk: map<string, Folder>, id: string)
    requires QuietFolder(pauses, disk, id) && p.id != id
    ensures QuietFolder(pauses + [p], disk, id)
  {
    var after := pauses + [p];
    if LeftBehind(pauses, id, |pauses|) {
      var k :| 0 <= k < |pauses| && pauses[k].id == id && pauses[k].pc == Returned(500) && !pauses[k].cleaned
        && forall j | k < j < |pauses| :: pauses[j].id != id;
      assert after[k].id == id && forall j | k < j < |after| :: after[j].id != id;
    }
    if LeftBehind(after, id, |after|) {
      var k :| 0 <= k < |after| && after[k].id == id && after[k].pc == Returned(500) && !after[k].cleaned
        && forall j | k < j < |after| :: after[j].id != id;
      assert k < |pauses| && forall j | k < j < |pauses| :: pauses[j].id == after[j].id;
    }
    hide LeftBehind, Images, Part;
  }

  lemma StepKeepsDisk(s: Sys, step: Step)
    requires Ready(s, step) && DiskOk(s)
    ensures DiskOk(Next(s, step))
  {
    if step.Select? {
      SelectKeepsDisk(s, step);
    } else if ProcStep(step) {
      assert Next(s, step).disk == s.disk && Next(s, step).pauses == s.pauses && Next(s, step).busy == s.busy;
      hide FoundOk, QuietFolder, FolderOk;
    } else {
      PauseStepKeepsDisk(s, step);
    }
  }

  lemma PauseStepKeepsDisk(s: Sys, step: Step)
    requires Ready(s, step) && DiskOk(s) && !step.Select? && !ProcStep(step)
    ensures DiskOk(Next(s, step))
  {
    OwnPause(s, step);
    PauseMoves(s, step);
    var k, s' := Of(step), Next(s, step);
    var mine := s.pauses[k].id;
    assert FolderOk(s.disk, k, s.pauses[k]) && Proper(s.pauses[k]);
    OwnFolders(s, step);
    hide MarksOk, PendingOk, FolderOk, FoundOk, QuietFolder, ReturnOk, Images, Part, Plain;
    forall j | 0 <= j < |s'.pauses| ensures FoundOk(s'.pauses, j) { FoundStays(s.pauses, s.busy, s'.pauses, k, j); }
    OthersKeepFolders(s, step);
    forall id | Plain(id) && id !in s'.busy ensures QuietFolder(s'.pauses, s'.disk, id) {
      if id == mine {
        assert forall j | k < j < |s.pauses| :: s.pauses[j].id != mine;
        QuietAgain(s'.pauses, s'.disk, k);
      } else {
        assert QuietFolder(s.pauses, s.disk, id);
        OtherFolders(s, step, id);
        QuietStays(s.pauses, s'.pauses, k, s.disk, s'.disk, id);
      }
    }
    hide Next, Enabled, Disciplined;
  }

  lemma OthersKeepFolders(s: Sys, step: Step)
    requires Ready(s, step) && DiskOk(s) && !step.Select? && !ProcStep(step)
    ensures forall j | 0 <= j < |Next(s, step).pauses| && j != Of(step) && InProgress(Next(s, step).pauses[j]) ::
      FolderOk(Next(s, step).disk, j, Next(s, step).pauses[j])
  {
    PauseMoves(s, step);
    OwnPause(s, step);
    var s' := Next(s, step);
    hide MarksOk, PendingOk, FoundOk, QuietFolder, Images, Part, Plain, Next, Enabled, Disciplined;
    forall j | 0 <= j < |s'.pauses| && j != Of(step) && InProgress(s'.pauses[j]) ensures FolderOk(s'.disk, j, s'.pauses[j]) {
      assert FolderOk(s.disk, j, s.pauses[j]) && Proper(s.pauses[j]) && s.busy[s.pauses[j].id] == j;
      OtherFolders(s, step, s.pauses[j].id);
    }
  }

  // ----- the pid ------------------------------------------------------------------------------------------------

  /** pid stands for the line begun by process o: it is that process's, a real one. */
  predicate RecOk(procs: seq<Process>, pid: nat, o: nat, id: string) {
    && o < |procs| && procs[o].id == id && procs[o].origin == o && procs[o].preset == 0
    && pid != 0 && pid == procs[o].pid
  }

  predicate LineOk(procs: seq<Process>, p: nat)
    requires p < |procs|
  {
    var q := procs[p];
    && q.origin < |procs| && procs[q.origin].id == q.id
    && (q.preset == 0 ==> q.origin == p)
    && (q.preset != 0 ==> q.pid == q.preset && RecOk(procs, q.preset, q.origin, q.id))
    && (Shown(q) ==> q.pid != 0)
    && (q.phase.Starting? && q.preset == 0 ==> q.pid == 0)
  }

  /** A pause records the pid and the line of the process it selected, which had been started. */
  predicate TargetOk(s: Sys, k: nat)
    requires k < |s.pauses|
  {
    var p := s.pauses[k];
    && IsProc(s, p.target) && s.procs[p.target].pid == p.rec.pid != 0 && s.procs[p.target].origin == p.origin
    && !s.procs[p.target].phase.Starting?
  }

  ghost predicate PidsOk(s: Sys) {
    && (forall p | 0 <= p < |s.procs| :: LineOk(s.procs, p))
    && (forall k | 0 <= k < |s.pauses| :: TargetOk(s, k))
  }

  /** The line of a process with a pid is that of the pid. */
  lemma LineOfPid(procs: seq<Process>, p: nat)
    requires p < |procs| && LineOk(procs, p) && procs[p].pid != 0
    ensures RecOk(procs, procs[p].pid, procs[p].origin, procs[p].id)
  {
  }

  /** A checkpoint is of a line: its record has the pid of the first process of it. */
  lemma CheckpointLine(s: Sys, id: string, f: Folder)
    requires Inv(s) && Whole(s.pauses, id, f)
    ensures RecOk(s.procs, f.snapshot.value.rec.pid, f.snapshot.value.origin, id)
  {
    var k := f.snapshot.value.author;
    assert TargetOk(s, k) && PauseOk(s, k) && LineOk(s.procs, s.pauses[k].target);
    LineOfPid(s.procs, s.pauses[k].target);
    hide Inv;
  }

  /** A step leaves every published pid, and every process's id and line, alone. */
  lemma PidsStay(s: Sys, step: Step, o: nat)
    requires Enabled(s, step) && IsProc(s, o) && LineOk(s.procs, o)
    ensures IsProc(Next(s, step), o)
    ensures var q, q' := s.procs[o], Next(s, step).procs[o];
      && q'.id == q.id && q'.origin == q.origin && q'.preset == q.preset
      && (q.pid != 0 ==> q'.pid == q.pid)
      && (Shown(q') ==> q'.pid != 0)
      && (q'.phase.Starting? ==> q.phase.Starting? && q'.pid == q.pid)
  {
    hide Part, Images;
  }

  lemma RecStays(s: Sys, step: Step, pid: nat, o: nat, id: string)
    requires PidsOk(s) && Enabled(s, step) && RecOk(s.procs, pid, o, id)
    ensures RecOk(Next(s, step).procs, pid, o, id)
  {
    PidsStay(s, step, o);
    hide PidsOk, Next, Enabled;
  }

  lemma LineStays(s: Sys, step: Step, p: nat)
    requires PidsOk(s) && Enabled(s, step) && IsProc(s, p)
    ensures IsProc(Next(s, step), p) && LineOk(Next(s, step).procs, p)
  {
    var q := s.procs[p];
    assert LineOk(s.procs, p) && LineOk(s.procs, q.origin);
    PidsStay(s, step, p);
    PidsStay(s, step, q.origin);
    if q.preset != 0 { RecStays(s, step, q.preset, q.origin, q.id); }
    hide PidsOk, Next, Enabled;
  }

  lemma NewLine(s: Sys, step: Step)
    requires Inv(s) && Enabled(s, step) && Disciplined(s, step) && (step.Begin? || step.Resume?)
    ensures |Next(s, step).procs| == |s.procs| + 1 && LineOk(Next(s, step).procs, |s.procs|)
  {
    if step.Resume? {
      var f := s.disk[Images(step.id)];
      CheckpointHere(s, step.id);
      CheckpointLine(s, step.id, f);
      RecStays(s, step, f.snapshot.value.rec.pid, f.snapshot.value.origin, step.id);
    }
    hide Inv;
  }

  /** What the folder of an id holds is the checkpoint of a successful pause, whether one is at work or not. */
  lemma CheckpointHere(s: Sys, id: string)
    requires Inv(s) && Plain(id) && Images(id) in s.disk
    ensures Whole(s.pauses, id, s.disk[Images(id)])
  {
    if id in s.busy {
      var k := s.busy[id];
      assert FolderOk(s.disk, k, s.pauses[k]) && FoundOk(s.pauses, k);
    } else {
      assert QuietFolder(s.pauses, s.disk, id);
    }
    hide Inv, MarksOk, PidsOk, PendingOk, Images, Part, LeftBehind, Stale, Whole;
  }

  lemma ProcCount(s: Sys, step: Step)
    requires Enabled(s, step) && !step.Begin? && !step.Resume?
    ensures |Next(s, step).procs| == |s.procs|
  {
    hide Part, Images;
  }

  lemma TargetStays(s: Sys, step: Step, k: nat)
    requires PidsOk(s) && Enabled(s, step) && Disciplined(s, step) && k < |Next(s, step).pauses|
    ensures TargetOk(Next(s, step), k)
  {
    if k < |s.pauses| {
      assert TargetOk(s, k) && LineOk(s.procs, s.pauses[k].target);
      PidsStay(s, step, s.pauses[k].target);
      RecordStays(s, step, k);
    } else {
      assert step.Select? && LineOk(s.procs, step.p);
    }
    hide PidsOk, Part, Images;
  }

  lemma DumpKeepsRecord(s: Sys, step: Step, k: nat)
    requires Enabled(s, step) && Disciplined(s, step) && step.Dump? && k < |s.pauses| && TargetOk(s, k)
    ensures k < |Next(s, step).pauses|
    ensures var p, p' := s.pauses[k], Next(s, step).pauses[k];
      p'.rec == p.rec && p'.origin == p.origin && p'.target == p.target
  {
    hide Part, Images, Plain;
  }

  lemma RecordStays(s: Sys, step: Step, k: nat)
    requires Enabled(s, step) && Disciplined(s, step) && k < |s.pauses| && TargetOk(s, k)
    ensures k < |Next(s, step).pauses|
    ensures var p, p' := s.pauses[k], Next(s, step).pauses[k];
      p'.rec == p.rec && p'.origin == p.origin && p'.target == p.target
  {
    if step.Dump? {
      DumpKeepsRecord(s, step, k);
      hide Next, Enabled, Disciplined;
    } else if step.Select? || ProcStep(step) {
      hide Part, Images, Plain;
    } else {
      PauseReplaced(s, step);
      hide Next, Enabled, Disciplined;
    }
  }

  lemma StepKeepsPids(s: Sys, step: Step)
    requires Inv(s) && Ready(s, step)
    ensures PidsOk(Next(s, step))
  {
    var s' := Next(s, step);
    hide MarksOk, DiskOk, Next, LineOk, TargetOk;
    forall p | 0 <= p < |s'.procs| ensures LineOk(s'.procs, p) {
      if p < |s.procs| { LineStays(s, step, p); }
      else if step.Begin? || step.Resume? { NewLine(s, step); }
      else { ProcCount(s, step); }
    }
    forall k | 0 <= k < |s'.pauses| ensures TargetOk(s', k) { TargetStays(s, step, k); }
  }

  // ----- every disciplined run ----------------------------------------------------------------------------------

  ghost predicate Inv(s: Sys) { ShapeOk(s) && MarksOk(s) && DiskOk(s) && PidsOk(s) }

  lemma StepKeepsInv(s: Sys, step: Step)
    requires Inv(s) && Enabled(s, step) && Disciplined(s, step)
    ensures Inv(Next(s, step))
  {
    assert Ready(s, step);
    StepKeepsBusy(s, step);
    StepKeepsPending(s, step);
    StepKeepsMarks(s, step);
    StepKeepsDisk(s, step);
    StepKeepsPids(s, step);
    hide Next, Enabled, Disciplined, BusyOk, PendingOk, MarksOk, DiskOk, PidsOk;
  }

  lemma {:induction false} RunKeepsInv(s: Sys, steps: seq<Step>)
    requires Inv(s) && CanRun(s, steps, true)
    ensures CanRun(s, steps, false) && Inv(After(s, steps))
    decreases |steps|
  {
    StrictIsARun(s, steps);
    hide Next, Enabled, Disciplined, Inv;
    if steps != [] {
      StepKeepsInv(s, steps[0]);
      RunKeepsInv(Next(s, steps[0]), steps[1..]);
    }
  }

  lemma ReachableInv(s: Sys)
    requires Reachable(s)
    ensures Inv(s)
  {
    var steps: seq<Step> :| CanRun(INIT, steps, true) && CanRun(INIT, steps, false) && After(INIT, steps) == s;
    assert Inv(INIT);
    RunKeepsInv(INIT, steps);
  }
}
