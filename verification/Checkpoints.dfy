/**
  The code of checkpoint.pause and of the tail of servers.Run over the state they update in place: the marks, the
  folders and the processes. Every effect is a method taking one step of the model, and between any two of them every
  other request is free to move.
*/
module Checkpoints {
  import opened Options
  import opened PauseModel
  import opened PauseSafety
  import opened PauseTheorems

  predicate OfPause(step: Step, k: nat) { !ProcStep(step) && !step.Select? && Of(step) == k }

  ghost predicate Elsewhere(steps: seq<Step>, k: nat) { forall i | 0 <= i < |steps| :: !OfPause(steps[i], k) }

  /** Others, keeping the hypotheses, lead from s to s'. */
  ghost predicate OthersMove(s: Sys, s': Sys, k: nat) {
    exists steps: seq<Step> ::
      CanRun(s, steps, true) && CanRun(s, steps, false) && After(s, steps) == s' && Elsewhere(steps, k)
  }

  lemma StepLeavesPause(s: Sys, step: Step, k: nat)
    requires Enabled(s, step) && k < |s.pauses| && !OfPause(step, k)
    ensures k < |Next(s, step).pauses| && Next(s, step).pauses[k] == s.pauses[k]
  {
    if !ProcStep(step) && !step.Select? && !step.Dump? { PauseStepGoesOn(s, step); }
  }

  lemma {:induction false} PauseStands(s: Sys, steps: seq<Step>, k: nat)
    requires CanRun(s, steps, false) && Elsewhere(steps, k) && k < |s.pauses|
    ensures k < |After(s, steps).pauses| && After(s, steps).pauses[k] == s.pauses[k]
    decreases |steps|
  {
    if steps != [] {
      assert !OfPause(steps[0], k);
      StepLeavesPause(s, steps[0], k);
      hide Enabled, Next;
      PauseStands(Next(s, steps[0]), steps[1..], k);
    }
  }

  /** The process pause k selected is over, and the pause is not what ended it. */
  predicate EndedOtherwise(s: Sys, k: nat) {
    && k < |s.pauses| && IsProc(s, s.pauses[k].target)
    && !s.procs[s.pauses[k].target].phase.Starting? && !s.procs[s.pauses[k].target].phase.Running?
    && s.procs[s.pauses[k].target].dumpedBy != Some(k)
  }

  lemma StepLeavesEnded(s: Sys, step: Step, k: nat)
    requires Enabled(s, step) && !OfPause(step, k) && EndedOtherwise(s, k)
    ensures EndedOtherwise(Next(s, step), k)
  {
    StepLeavesPause(s, step, k);
    hide Part, Images;
  }

  /** It stays so: an ended process does not run again, and no other pause ends it in this one's name. */
  lemma {:induction false} EndedStays(s: Sys, steps: seq<Step>, k: nat)
    requires CanRun(s, steps, false) && Elsewhere(steps, k) && EndedOtherwise(s, k)
    ensures EndedOtherwise(After(s, steps), k)
    decreases |steps|
  {
    if steps != [] {
      assert !OfPause(steps[0], k);
      StepLeavesEnded(s, steps[0], k);
      hide Enabled, Next, EndedOtherwise;
      EndedStays(Next(s, steps[0]), steps[1..], k);
    }
  }

  /** Before its dump, the process a pause selected has the pid it recorded; and is over only if it ended otherwise. */
  predicate EndedBefore(s: Sys, k: nat) {
    && k < |s.pauses| && IsProc(s, s.pauses[k].target) && s.procs[s.pauses[k].target].pid == s.pauses[k].rec.pid
    && (s.pauses[k].pc.Made? && !s.procs[s.pauses[k].target].phase.Running? ==> EndedOtherwise(s, k))
  }

  lemma MadeNotDumped(s: Sys, k: nat)
    requires Inv(s) && k < |s.pauses|
    ensures EndedBefore(s, k)
  {
    assert PauseOk(s, k) && TargetOk(s, k) && DumpOk(s, s.pauses[k].target);
    hide Inv, Undone;
  }

  /** What a pause in the middle of its work can count on: the invariant, and its own record. */
  lemma OthersKeep(s: Sys, s': Sys, k: nat)
    requires Inv(s) && OthersMove(s, s', k) && k < |s.pauses|
    ensures Inv(s') && k < |s'.pauses| && s'.pauses[k] == s.pauses[k]
    ensures EndedOtherwise(s, k) ==> EndedOtherwise(s', k)
    ensures IsProc(s', s'.pauses[k].target) && s'.procs[s'.pauses[k].target].id == s'.pauses[k].id
    ensures EndedBefore(s', k)
    ensures InProgress(s'.pauses[k]) ==> FolderOk(s'.disk, k, s'.pauses[k])
  {
    var steps: seq<Step> :| CanRun(s, steps, true) && CanRun(s, steps, false) && After(s, steps) == s' && Elsewhere(steps, k);
    RunKeepsInv(s, steps);
    PauseStands(s, steps, k);
    if EndedOtherwise(s, k) { EndedStays(s, steps, k); }
    MadeNotDumped(s', k);
    hide EndedOtherwise, EndedBefore;
    assert PauseOk(s', k);
    assert InProgress(s'.pauses[k]) ==> FolderOk(s'.disk, k, s'.pauses[k]);
  }

  /** One disciplined step leads from s to s'. */
  ghost predicate Took(s: Sys, s': Sys, step: Step) {
    Enabled(s, step) && Disciplined(s, step) && s' == Next(s, step)
  }

  // Each effect of a pause with its change of the state written out.

  lemma ByMark(s: Sys, k: nat)
    requires Inv(s) && At0(s, k, Selected)
    ensures var p := s.pauses[k];
      var late := IsProc(s, p.target) && s.procs[p.target].phase.Answered?;
      var s' := s.(pauses := s.pauses[k := p.(pc := Marked, late := late)], marks := s.marks + {p.id});
      Took(s, s', Mark(k)) && Inv(s')
  {
    StepKeepsInv(s, Mark(k));
  }

  lemma ByMake(s: Sys, k: nat, ok: bool)
    requires Inv(s) && At0(s, k, Marked)
    ensures var s' := if ok then
      SetPc(s, k, Made).(disk := s.disk[Part(s.pauses[k].id) := Kept(At(s.disk, Part(s.pauses[k].id)))])
      else SetPc(s, k, Failing);
      Took(s, s', Make(k, ok)) && Inv(s')
  {
    StepKeepsInv(s, Make(k, ok));
  }

  lemma ByDump(s: Sys, k: nat, ok: bool, wrote: bool)
    requires Inv(s) && At0(s, k, Made) && IsProc(s, s.pauses[k].target) && (ok ==> wrote)
    requires ok ==> s.procs[s.pauses[k].target].phase.Running? && s.procs[s.pauses[k].target].pid == s.pauses[k].rec.pid
    ensures var t := if ok then Some(s.pauses[k].target) else None;
      Took(s, DoDump(s, k, t, wrote), Dump(k, t, wrote)) && Inv(DoDump(s, k, t, wrote))
  {
    StepKeepsInv(s, Dump(k, if ok then Some(s.pauses[k].target) else None, wrote));
  }

  lemma DumpEndsFrom(s: Sys, k: nat, t: nat)
    requires Inv(s) && At0(s, k, Made) && t == s.pauses[k].target && IsProc(s, t)
    requires s.procs[t].phase.Running? && s.procs[t].pid == s.pauses[k].rec.pid
    ensures var p := s.pauses[k];
      var s' := s.(pauses := s.pauses[k := p.(pc := Dumped, origin := s.procs[t].origin)],
                   procs := s.procs[t := s.procs[t].(phase := Ended(false, true), dumpedBy := Some(k))],
                   disk := s.disk[Part(p.id) := WrittenBy(k, At(s.disk, Part(p.id)))]);
      Took(s, s', Dump(k, Some(t), true)) && Inv(s')
  {
    hide Inv, Took, Images, Part, Enabled, Next, FolderOk, WrittenBy;
    ByDump(s, k, true, true);
  }

  lemma DumpFailsFrom(s: Sys, k: nat, wrote: bool)
    requires Inv(s) && At0(s, k, Made) && IsProc(s, s.pauses[k].target)
    ensures var p := s.pauses[k];
      var disk := if wrote then s.disk[Part(p.id) := WrittenBy(k, At(s.disk, Part(p.id)))] else s.disk;
      var s' := s.(pauses := s.pauses[k := p.(pc := Failing)], disk := disk);
      Took(s, s', Dump(k, None, wrote)) && Inv(s')
  {
    hide Inv, Took, Images, Part, Enabled, Next, FolderOk, WrittenBy;
    ByDump(s, k, false, wrote);
  }

  lemma ByWrite(s: Sys, k: nat, ok: bool)
    requires Inv(s) && At0(s, k, Dumped)
    ensures var p := s.pauses[k];
      var s' := if ok then SetPc(s, k, Written).(disk := s.disk[Part(p.id) := Signed(s, k)]) else SetPc(s, k, Failing);
      Took(s, s', Write(k, ok)) && Inv(s')
  {
    StepKeepsInv(s, Write(k, ok));
  }

  lemma ByRemove(s: Sys, k: nat, ok: bool)
    requires Inv(s) && At0(s, k, Written)
    ensures var p := s.pauses[k];
      var s' := s.(pauses := s.pauses[k := p.(pc := Removed, removed := ok)],
                   disk := if ok then Erase(s.disk, Images(p.id)) else s.disk);
      Took(s, s', Remove(k, ok)) && Inv(s')
  {
    StepKeepsInv(s, Remove(k, ok));
  }

  lemma ByRename(s: Sys, k: nat)
    requires Inv(s) && At0(s, k, Removed) && Images(s.pauses[k].id) !in s.disk
    ensures var p := s.pauses[k];
      var f := CheckpointOf(k, p);
      var s' := SetPc(s, k, Returned(200)).(disk := Erase(s.disk, Part(p.id))[Images(p.id) := f], busy := s.busy - {p.id});
      Part(p.id) in s.disk && s.disk[Part(p.id)] == f && Part(p.id) != Images(p.id) && Took(s, s', Rename(k, true)) && Inv(s')
  {
    assert FolderOk(s.disk, k, s.pauses[k]) && Proper(s.pauses[k]);
    PathsApart(s.pauses[k].id, s.pauses[k].id);
    StepKeepsInv(s, Rename(k, true));
    hide Inv;
  }

  lemma ByNoRename(s: Sys, k: nat)
    requires Inv(s) && At0(s, k, Removed)
    ensures Took(s, SetPc(s, k, Failing), Rename(k, false)) && Inv(SetPc(s, k, Failing))
  {
    StepKeepsInv(s, Rename(k, false));
    hide Inv;
  }

  lemma ByUnmark(s: Sys, k: nat)
    requires Inv(s) && At0(s, k, Failing)
    ensures var s' := SetPc(s, k, Unmarked).(marks := s.marks - {s.pauses[k].id}); Took(s, s', Unmark(k)) && Inv(s')
  {
    StepKeepsInv(s, Unmark(k));
  }

  lemma ByClean(s: Sys, k: nat, ok: bool)
    requires Inv(s) && At0(s, k, Unmarked) && (!ok ==> Part(s.pauses[k].id) in s.disk)
    ensures var p := s.pauses[k];
      var s' := s.(pauses := s.pauses[k := p.(pc := Returned(500), cleaned := ok)],
                   disk := if ok then Erase(s.disk, Part(p.id)) else s.disk, busy := s.busy - {p.id});
      Took(s, s', Clean(k, ok)) && Inv(s') && Part(p.id) != Images(p.id)
      && At(s.disk, Images(p.id)) == if p.removed then None else p.earlier
  {
    assert FolderOk(s.disk, k, s.pauses[k]) && Proper(s.pauses[k]);
    PathsApart(s.pauses[k].id, s.pauses[k].id);
    StepKeepsInv(s, Clean(k, ok));
    hide Inv;
  }

  lemma ByResume(s: Sys, id: string)
    requires Inv(s) && Plain(id) && id !in s.pending
    ensures Images(id) in s.disk ==> s.disk[Images(id)].snapshot.Some?
    ensures Images(id) in s.disk ==>
      var f := s.disk[Images(id)].snapshot.value;
      && Took(s, NewProc(s, id, f.rec.pid, f.origin), PauseModel.Resume(id)) && Inv(NewProc(s, id, f.rec.pid, f.origin))
      && IsProc(s, f.origin) && s.procs[f.origin].id == id && s.procs[f.origin].preset == 0
      && s.procs[f.origin].pid == f.rec.pid != 0
  {
    if Images(id) in s.disk {
      CheckpointHere(s, id);
      CheckpointLine(s, id, s.disk[Images(id)]);
      StepKeepsInv(s, PauseModel.Resume(id));
    }
    hide Inv, Images;
  }

  lemma SelectFrom(s: Sys, p: nat, stdout: string, stderr: string)
    requires Inv(s) && IsProc(s, p) && Shown(s.procs[p]) && s.procs[p].id !in s.busy
    ensures var q := s.procs[p];
      var k := PauseModel.Pause.Pause(q.id, p, Record(q.pid, stdout, stderr), Selected, q.origin,
                                      At(s.disk, Images(q.id)), At(s.disk, Part(q.id)), false, false, false);
      Inv(s.(pauses := s.pauses + [k], busy := s.busy[q.id := |s.pauses|]))
  {
    hide Inv, Images, Part;
    StepKeepsInv(s, Select(p, stdout, stderr));
  }

  lemma AnswerFrom(s: Sys, p: nat)
    requires Inv(s) && IsProc(s, p) && s.procs[p].phase.Unlisted?
    ensures var id := s.procs[p].id;
      var s' := s.(procs := s.procs[p := s.procs[p].(phase := Answered(Code(s.procs[p].phase.ok, id in s.marks)))],
                   marks := s.marks - {id}, pending := s.pending - {id});
      Took(s, s', Answer(p)) && Inv(s')
  {
    hide Inv;
    StepKeepsInv(s, Answer(p));
  }

  lemma DumpedItsTarget(s: Sys, k: nat)
    requires Inv(s) && k < |s.pauses| && s.pauses[k].pc == Returned(200)
    ensures IsProc(s, s.pauses[k].target) && s.procs[s.pauses[k].target].dumpedBy == Some(k)
  {
    assert PauseOk(s, k);
    hide Inv;
  }

  /** The same pause of the same process, however far on. */
  predicate SameJob(p: Pause, q: Pause) {
    p.id == q.id && p.target == q.target && p.rec == q.rec && p.earlier == q.earlier && p.found == q.found
  }

  class Host {
    var procs: seq<Process>
    var pauses: seq<Pause>       // the pauses in progress, each its request's own
    var marks: set<string>
    var disk: map<string, Folder>
    ghost var busy: map<string, nat>
    ghost var pending: map<string, nat>

    ghost function State(): Sys
      reads this
    {
      Sys(procs, pauses, marks, disk, busy, pending)
    }

    constructor ()
      ensures State() == INIT && Inv(State())
    {
      procs, pauses, marks, disk := [], [], {}, map[];
      busy, pending := map[], map[];
    }

    /** Any steps of other requests and processes; callers know only the contract. */
    method Others(ghost k: nat)
      requires Inv(State()) && k < |pauses|
      modifies this
      ensures Inv(State()) && k < |pauses| && pauses[k] == old(pauses[k])
      ensures IsProc(State(), pauses[k].target) && procs[pauses[k].target].id == pauses[k].id
      ensures EndedBefore(State(), k) && (old(EndedOtherwise(State(), k)) ==> EndedOtherwise(State(), k))
      ensures InProgress(pauses[k]) ==> FolderOk(disk, k, pauses[k])
    {
      assert CanRun(State(), [], true) && CanRun(State(), [], false) && After(State(), []) == State() && Elsewhere([], k);
      assert OthersMove(State(), State(), k);
      OthersKeep(State(), State(), k);
    }

    /** checkpoint.go lines 62-63: a task of the id listed as running, whose process may have ended. */
    method Find(id: string) returns (p: Option<nat>)
      ensures p.Some? ==> p.value < |procs| && procs[p.value].id == id && Shown(procs[p.value])
      ensures p.None? ==> forall q | 0 <= q < |procs| :: !(procs[q].id == id && Shown(procs[q]))
    {
      var i := 0;
      while i < |procs|
        invariant 0 <= i <= |procs|
        invariant forall q | 0 <= q < i :: !(procs[q].id == id && Shown(procs[q]))
      {
        if procs[i].id == id && Shown(procs[i]) { return Some(i); }
        i := i + 1;
      }
      return None;
    }

    method Chosen(p: nat, stdout: string, stderr: string) returns (k: nat)
      requires Inv(State()) && IsProc(State(), p) && Shown(procs[p]) && procs[p].id !in busy
      modifies this
      ensures Inv(State()) && k == old(|pauses|) < |pauses| && disk == old(disk)
      ensures pauses[k].pc == Selected && pauses[k].id == old(procs[p].id) && pauses[k].target == p
      ensures pauses[k].rec == Record(old(procs[p].pid), stdout, stderr) && !pauses[k].removed
      ensures pauses[k].earlier == At(disk, Images(pauses[k].id))
    {
      hide Inv, Images, Part, Enabled, Next, Disciplined;
      SelectFrom(State(), p, stdout, stderr);
      k := |pauses|;
      var q := procs[p];
      busy := busy[q.id := k];
      var r := Record(q.pid, stdout, stderr);
      pauses := pauses + [PauseModel.Pause.Pause(q.id, p, r, Selected, q.origin,
                                            At(disk, Images(q.id)), At(disk, Part(q.id)), false, false, false)];
    }

    /** Line 79. */
    method SetMark(k: nat)
      requires Inv(State()) && At0(State(), k, Selected)
      modifies this
      ensures Inv(State()) && Took(old(State()), State(), Mark(k))
      ensures k < |pauses| && pauses[k] == old(pauses[k]).(pc := Marked, late := pauses[k].late)
      ensures pauses[k].late <==> IsProc(State(), pauses[k].target) && procs[pauses[k].target].phase.Answered?
    {
      hide Inv, Took, Images, Part, Enabled, Next, FolderOk;
      ByMark(State(), k);
      var t := pauses[k].target;
      pauses := pauses[k := pauses[k].(pc := Marked, late := t < |procs| && procs[t].phase.Answered?)];
      marks := marks + {pauses[k].id};
    }

    /** Line 80. */
    method MakePart(k: nat, ok: bool)
      requires Inv(State()) && At0(State(), k, Marked)
      modifies this
      ensures Inv(State()) && Took(old(State()), State(), Make(k, ok))
      ensures k < |pauses| && pauses[k] == old(pauses[k]).(pc := if ok then Made else Failing)
    {
      hide Inv, Took, Images, Part, Enabled, Next, FolderOk;
      ByMake(State(), k, ok);
      var part := Part(pauses[k].id);
      if ok { disk := disk[part := Kept(At(disk, part))]; }
      pauses := pauses[k := pauses[k].(pc := if ok then Made else Failing)];
    }

    /** A dump that ends the selected process. */
    method DumpEnds(k: nat)
      requires Inv(State()) && At0(State(), k, Made) && IsProc(State(), pauses[k].target)
      requires procs[pauses[k].target].phase.Running? && procs[pauses[k].target].pid == pauses[k].rec.pid
      modifies this
      ensures Inv(State()) && Took(old(State()), State(), Dump(k, Some(old(pauses[k].target)), true))
      ensures k < |pauses| && SameJob(pauses[k], old(pauses[k])) && pauses[k].pc == Dumped
    {
      var t, part := pauses[k].target, Part(pauses[k].id);
      hide Inv, Took, Images, Part, Enabled, Next, FolderOk, WrittenBy;
      DumpEndsFrom(State(), k, t);
      disk := disk[part := WrittenBy(k, At(disk, part))];
      pauses := pauses[k := pauses[k].(pc := Dumped, origin := procs[t].origin)];
      procs := procs[t := procs[t].(phase := Ended(false, true), dumpedBy := Some(k))];
    }

    /** One that ends nothing; criu may not even have been started. */
    method DumpFails(k: nat, wrote: bool)
      requires Inv(State()) && At0(State(), k, Made) && IsProc(State(), pauses[k].target)
      modifies this
      ensures Inv(State()) && Took(old(State()), State(), Dump(k, None, wrote)) && procs == old(procs)
      ensures k < |pauses| && pauses[k] == old(pauses[k]).(pc := Failing)
    {
      var part := Part(pauses[k].id);
      hide Inv, Took, Images, Part, Enabled, Next, FolderOk, WrittenBy;
      DumpFailsFrom(State(), k, wrote);
      if wrote { disk := disk[part := WrittenBy(k, At(disk, part))]; }
      pauses := pauses[k := pauses[k].(pc := Failing)];
    }

    /** Lines 81-83: criu ends the selected process, or fails, having written images or not. */
    method DumpTarget(k: nat, ok: bool, wrote: bool)
      requires Inv(State()) && At0(State(), k, Made) && IsProc(State(), pauses[k].target)
      requires ok ==> procs[pauses[k].target].phase.Running? && procs[pauses[k].target].pid == pauses[k].rec.pid
      modifies this
      ensures Inv(State())
      ensures Took(old(State()), State(), Dump(k, if ok then Some(old(pauses[k].target)) else None, ok || wrote))
      ensures k < |pauses| && SameJob(pauses[k], old(pauses[k])) && pauses[k].pc == if ok then Dumped else Failing
      ensures !ok ==> procs == old(procs)
    {
      hide Inv, Took;
      if ok { DumpEnds(k); } else { DumpFails(k, wrote); }
    }

    /** Lines 84-87. */
    method WriteRecord(k: nat, ok: bool)
      requires Inv(State()) && At0(State(), k, Dumped)
      modifies this
      ensures Inv(State()) && Took(old(State()), State(), Write(k, ok))
      ensures k < |pauses| && pauses[k] == old(pauses[k]).(pc := if ok then Written else Failing)
    {
      hide Inv, Took, Images, Part, Enabled, Next, FolderOk;
      ByWrite(State(), k, ok);
      var p := pauses[k];
      if ok {
        disk := disk[Part(p.id) := WrittenBy(k, At(disk, Part(p.id))).(snapshot := Some(Snapshot(k, p.rec, p.origin)))];
      }
      pauses := pauses[k := pauses[k].(pc := if ok then Written else Failing)];
    }

    /** Line 89, whose error is dropped. */
    method RemoveImages(k: nat, ok: bool)
      requires Inv(State()) && At0(State(), k, Written)
      modifies this
      ensures Inv(State()) && Took(old(State()), State(), Remove(k, ok))
      ensures k < |pauses| && pauses[k] == old(pauses[k]).(pc := Removed, removed := ok)
    {
      hide Inv, Took, Images, Part, Enabled, Next, FolderOk;
      ByRemove(State(), k, ok);
      if ok { disk := Erase(disk, Images(pauses[k].id)); }
      pauses := pauses[k := pauses[k].(pc := Removed, removed := ok)];
    }

    /** Line 93. */
    method Unmarks(k: nat)
      requires Inv(State()) && At0(State(), k, Failing)
      modifies this
      ensures Inv(State()) && Took(old(State()), State(), Unmark(k)) && procs == old(procs)
      ensures k < |pauses| && pauses[k] == old(pauses[k]).(pc := Unmarked)
    {
      hide Inv, Took, Images, Part, Enabled, Next, FolderOk;
      ByUnmark(State(), k);
      pauses := pauses[k := pauses[k].(pc := Unmarked)];
      marks := marks - {pauses[k].id};
    }

    /** A rename that succeeds. */
    method Renames(k: nat)
      requires Inv(State()) && At0(State(), k, Removed) && Images(pauses[k].id) !in disk
      modifies this
      ensures Inv(State()) && k < |pauses| && pauses[k] == old(pauses[k]).(pc := Returned(200))
      ensures At(disk, Images(pauses[k].id)) == Some(CheckpointOf(k, pauses[k])) && At(disk, Part(pauses[k].id)).None?
    {
      var id := pauses[k].id;
      hide Inv, Took, Images, Part, Enabled, Next, FolderOk;
      ByRename(State(), k);
      disk := (disk - {Part(id)})[Images(id) := disk[Part(id)]];
      busy := busy - {id};
      pauses := pauses[k := pauses[k].(pc := Returned(200))];
    }

    /** Line 90: a rename onto a folder that is still there fails. */
    method RenamePart(k: nat, ok: bool)
      requires Inv(State()) && At0(State(), k, Removed) && (ok ==> Images(pauses[k].id) !in disk)
      modifies this
      ensures Inv(State()) && k < |pauses| && pauses[k] == old(pauses[k]).(pc := if ok then Returned(200) else Failing)
      ensures ok ==> At(disk, Images(pauses[k].id)) == Some(CheckpointOf(k, pauses[k]))
      ensures ok ==> At(disk, Part(pauses[k].id)).None?
      ensures !ok ==> disk == old(disk)
    {
      hide Inv, Took, Images, Part, Enabled, Next, FolderOk, CheckpointOf;
      if ok {
        Renames(k);
      } else {
        ByNoRename(State(), k);
        pauses := pauses[k := pauses[k].(pc := Failing)];
      }
    }

    /** Lines 94-95: an error of RemoveAll is dropped here too, and then .part stays. */
    method CleanPart(k: nat, ok: bool)
      requires Inv(State()) && At0(State(), k, Unmarked) && (!ok ==> Part(pauses[k].id) in disk)
      modifies this
      ensures Inv(State()) && k < |pauses| && pauses[k] == old(pauses[k]).(pc := Returned(500), cleaned := ok)
      ensures procs == old(procs)
      ensures At(disk, Part(pauses[k].id)).None? <==> ok
      ensures At(disk, Images(pauses[k].id)) == if pauses[k].removed then None else pauses[k].earlier
    {
      hide Inv, Took, Images, Part, Enabled, Next, FolderOk;
      ByClean(State(), k, ok);
      if ok { disk := disk - {Part(pauses[k].id)}; }
      busy := busy - {pauses[k].id};
      pauses := pauses[k := pauses[k].(pc := Returned(500), cleaned := ok)];
    }

    /** Lines 79-91, each effect tried only while none has failed; images is whether a dump that fails has written any. */
    method Replace(k: nat, makes: bool, dumps: bool, images: bool, writes: bool, removes: bool, renames: bool)
      requires Inv(State()) && At0(State(), k, Selected)
      modifies this
      ensures Inv(State()) && k < |pauses| && SameJob(pauses[k], old(pauses[k]))
      ensures pauses[k].pc == Returned(200) || pauses[k].pc == Failing
      ensures pauses[k].pc == Returned(200) ==> makes && dumps && writes && renames
      ensures pauses[k].pc == Returned(200) ==> At(disk, Part(pauses[k].id)).None?
      ensures pauses[k].pc == Returned(200) ==>
        At(disk, Images(pauses[k].id)) == Some(CheckpointOf(k, pauses[k]))
      ensures pauses[k].pc == Failing && makes && dumps && writes && renames && (removes || pauses[k].earlier.None?) ==>
        EndedOtherwise(State(), k)
    {
      hide Inv, Took, Images, Part;
      SetMark(k);
      Others(k);
      MakePart(k, makes);
      Others(k);
      if pauses[k].pc == Made {
        var t := procs[pauses[k].target];
        DumpTarget(k, dumps && t.phase.Running? && t.pid == pauses[k].rec.pid, images);
        Others(k);
      }
      if pauses[k].pc == Dumped {
        WriteRecord(k, writes);
        Others(k);
      }
      if pauses[k].pc == Written {
        RemoveImages(k, removes);
        Others(k);
        RenamePart(k, renames && Images(pauses[k].id) !in disk);
      }
    }

    /** Lines 92-95, the others moving between. */
    method CleansUp(k: nat, cleans: bool)
      requires Inv(State()) && At0(State(), k, Failing)
      modifies this
      ensures Inv(State()) && k < |pauses| && SameJob(pauses[k], old(pauses[k])) && pauses[k].pc == Returned(500)
      ensures At(disk, Images(pauses[k].id)) == if pauses[k].removed then None else pauses[k].earlier
      ensures (At(disk, Part(pauses[k].id)).None? <==> pauses[k].cleaned) && (cleans ==> pauses[k].cleaned)
      ensures old(EndedOtherwise(State(), k)) ==> EndedOtherwise(State(), k)
    {
      hide Inv, Took, Images, Part, Enabled, Next, FolderOk, EndedBefore;
      Others(k);
      Unmarks(k);
      Others(k);
      CleanPart(k, cleans || Part(pauses[k].id) !in disk);
    }

    /** pause, lines 57-98. The hypotheses: a plain id, and no other pause of it in progress. */
    method Pause(id: string, criu: bool, stdout: string, stderr: string,
                 makes: bool, dumps: bool, images: bool, writes: bool, removes: bool, renames: bool, cleans: bool)
      returns (status: nat, k: nat)
      requires Inv(State()) && Plain(id) && id !in busy
      modifies this
      ensures Inv(State()) && (status == 501 <==> !criu)
      ensures status == 404 <==> criu && forall q | 0 <= q < old(|procs|) :: old(!(procs[q].id == id && Shown(procs[q])))
      ensures status == 501 || status == 404 ==> State() == old(State())
      ensures status == 501 || status == 404 || status == 200 || status == 500
      ensures status == 200 || status == 500 ==> k < |pauses| && pauses[k].id == id && pauses[k].pc == Returned(status)
      ensures status == 200 ==> At(disk, Images(id)) == Some(CheckpointOf(k, pauses[k])) && At(disk, Part(id)).None?
      ensures status == 200 ==> IsProc(State(), pauses[k].target) && procs[pauses[k].target].dumpedBy == Some(k)
      ensures status == 500 ==> At(disk, Images(id)) == if pauses[k].removed then None else pauses[k].earlier
      ensures status == 500 ==> (At(disk, Part(id)).None? <==> pauses[k].cleaned) && (cleans ==> pauses[k].cleaned)
      ensures status == 500 && makes && dumps && writes && renames && (removes || pauses[k].earlier.None?) ==>
        EndedOtherwise(State(), k)
    {
      hide Inv, Took, Images, Part, Enabled, Next, FolderOk, CheckpointOf, EndedOtherwise, EndedBefore;
      k := 0;
      if !criu { return 501, k; }
      var p := Find(id);
      if p.None? { return 404, k; }
      k := Chosen(p.value, stdout, stderr);
      Others(k);
      Replace(k, makes, dumps, images, writes, removes, renames);
      if pauses[k].pc == Returned(200) {
        DumpedItsTarget(State(), k);
        return 200, k;
      }
      CleansUp(k, cleans);
      status := 500;
    }

    /** resume, lines 100-116, up to its wait for the process. The hypotheses: a plain id, whose last process has been
        answered. */
    method Resume(id: string, criu: bool) returns (refused: Option<nat>, p: nat)
      requires Inv(State()) && Plain(id) && id !in pending
      modifies this
      ensures Inv(State()) && (refused == Some(501) <==> !criu)
      ensures refused == Some(404) <==> criu && old(At(disk, Images(id))).None?
      ensures refused.Some? ==> State() == old(State()) && (refused == Some(501) || refused == Some(404))
      ensures refused.None? ==> Took(old(State()), State(), PauseModel.Resume(id)) && p == old(|procs|) < |procs|
      ensures refused.None? ==> old(At(disk, Images(id)).Some? && disk[Images(id)].snapshot.Some?)
      ensures refused.None? ==> procs[p].id == id && procs[p].phase == Starting
      ensures refused.None? ==> procs[p].pid == old(disk[Images(id)].snapshot.value.rec.pid)
      ensures refused.None? ==>
        var o := procs[p].origin; o < p && procs[o].id == id && procs[o].preset == 0 && procs[o].pid == procs[p].pid != 0
    {
      p := |procs|;
      if !criu { return Some(501), p; }
      hide Inv, Took, Images, Part, Enabled, Next, FolderOk;
      ByResume(State(), id);
      if Images(id) !in disk { return Some(404), p; }
      var snapshot := disk[Images(id)].snapshot.value;
      pending := pending[id := |procs|];
      procs := procs + [Process(id, snapshot.rec.pid, Starting, snapshot.rec.pid, snapshot.origin, None)];
      refused := None;
    }

    /** servers.go lines 72 and 78-84: the waiter takes the mark and answers. */
    method Answers(p: nat) returns (status: nat)
      requires Inv(State()) && IsProc(State(), p) && procs[p].phase.Unlisted?
      modifies this
      ensures Inv(State()) && Took(old(State()), State(), Answer(p))
      ensures status == (if old(procs[p].id in marks) then 202 else if old(procs[p].phase.ok) then 200 else 500)
      ensures IsProc(State(), p) && procs[p].phase == Answered(status)
      ensures old(procs[p].id) !in marks
    {
      hide Inv, Took, Enabled, Next, Images, Part;
      AnswerFrom(State(), p);
      var id := procs[p].id;
      var paused := id in marks;
      marks := marks - {id};
      status := if paused then 202 else if !procs[p].phase.ok then 500 else 200;
      procs := procs[p := procs[p].(phase := Answered(status))];
      pending := pending - {id};
    }
  }
}
