/**
  The promises of a pause, for every interleaving of processes, waiters, pauses and resumes that keeps the hypotheses
  of PauseModel.Disciplined.
*/
module PauseTheorems {
  import opened Options
  import opened PauseModel
  import opened PauseSafety

  // ----- the mark -----------------------------------------------------------------------------------------------

  /** No pause of the id was begun after pause k. */
  predicate LastOfId(s: Sys, k: nat, id: string) { forall j | k < j < |s.pauses| :: s.pauses[j].id != id }

  /** With no pause of the id at work, the waiter answers 202 exactly if a successful pause ended the process and no pause
      of the id was begun after that one: so one that ends after a failed pause has returned is never answered 202. */
  lemma AnswerIsExact(s: Sys, p: nat)
    requires Reachable(s) && Enabled(s, Answer(p)) && s.procs[p].id !in s.busy
    ensures Next(s, Answer(p)).procs[p].phase == Answered(202) <==>
      var d := s.procs[p].dumpedBy;
      d.Some? && d.value < |s.pauses| && s.pauses[d.value].pc == Returned(200) && LastOfId(s, d.value, s.procs[p].id)
  {
    ReachableInv(s);
    MarkIsExact(s, p);
    var d := s.procs[p].dumpedBy;
    if d.Some? && d.value < |s.pauses| && s.pauses[d.value].pc == Returned(200) {
      assert DumpOk(s, p);
      hide Inv, Undone;
      forall j | d.value < j < |s.pauses| && s.pauses[j].id == s.procs[p].id ensures !s.pauses[j].pc.Selected? {
        NotAtWork(s, j);
      }
    }
    hide Inv;
  }

  lemma NotAtWork(s: Sys, j: nat)
    requires Inv(s) && j < |s.pauses| && s.pauses[j].id !in s.busy
    ensures !InProgress(s.pauses[j])
  {
    hide MarksOk, DiskOk, PidsOk, PendingOk;
  }

  /** The pauses of the id begun after the one that dumped the process have got no further than selecting it. */
  predicate OnlySelectedSince(s: Sys, p: nat, k: nat) {
    forall j | k < j < |s.pauses| && IsProc(s, p) && s.pauses[j].id == s.procs[p].id :: s.pauses[j].pc.Selected?
  }

  /** Whether the mark of a successful pause has been taken shows in the later pauses of the id. */
  lemma UndoneExactly(s: Sys, p: nat, k: nat)
    requires Inv(s) && IsProc(s, p) && Unanswered(s.procs[p]) && s.procs[p].dumpedBy == Some(k)
    requires k < |s.pauses| && s.pauses[k].pc == Returned(200)
    requires s.procs[p].id in s.busy ==>
      s.busy[s.procs[p].id] < |s.pauses| && !Marking(s.pauses[s.busy[s.procs[p].id]])
    ensures Undone(s.pauses, p, k) <==> !OnlySelectedSince(s, p, k)
  {
    ProcFacts(s, p);
    UndoneStarted(s, p, k);
    hide Inv, DumpOk, Undone, OnlySelectedSince, Marking;
    if Undone(s.pauses, p, k) { UndoneShows(s, p, k); }
    if !OnlySelectedSince(s, p, k) { LaterUndoes(s, p, k); }
  }

  lemma UndoneShows(s: Sys, p: nat, k: nat)
    requires IsProc(s, p) && k < |s.pauses| && s.pauses[k].pc == Returned(200) && Undone(s.pauses, p, k)
    requires forall j | 0 <= j < |s.pauses| && s.pauses[j].target == p :: s.pauses[j].id == s.procs[p].id
    ensures !OnlySelectedSince(s, p, k)
  {
    var j :| k <= j < |s.pauses| && s.pauses[j].target == p && Withdrawn(s.pauses[j]);
    assert s.pauses[j].id == s.procs[p].id;
  }

  lemma LaterUndoes(s: Sys, p: nat, k: nat)
    requires Inv(s) && IsProc(s, p) && Unanswered(s.procs[p]) && s.procs[p].dumpedBy == Some(k) && LaterOk(s, p)
    requires s.procs[p].id in s.busy ==>
      s.busy[s.procs[p].id] < |s.pauses| && !Marking(s.pauses[s.busy[s.procs[p].id]])
    requires !OnlySelectedSince(s, p, k)
    ensures Undone(s.pauses, p, k)
  {
    hide Inv, LaterOk;
    var j :| k < j < |s.pauses| && s.pauses[j].id == s.procs[p].id && !s.pauses[j].pc.Selected?;
    LaterFailed(s, p, k, j);
  }

  lemma ProcFacts(s: Sys, p: nat)
    requires Inv(s) && IsProc(s, p)
    ensures DumpOk(s, p) && LaterOk(s, p)
    ensures Unanswered(s.procs[p]) ==> s.procs[p].id in s.pending && s.pending[s.procs[p].id] == p
  {
    hide DumpOk, LaterOk, DiskOk, PidsOk, BusyOk;
  }

  lemma UndoneStarted(s: Sys, p: nat, k: nat)
    requires Inv(s) && IsProc(s, p)
    ensures forall j | 0 <= j < |s.pauses| && s.pauses[j].target == p :: s.pauses[j].id == s.procs[p].id
  {
    forall j | 0 <= j < |s.pauses| && s.pauses[j].target == p ensures s.pauses[j].id == s.procs[p].id {
      assert PauseOk(s, j);
    }
    hide Inv;
  }

  lemma LaterFailed(s: Sys, p: nat, k: nat, j: nat)
    requires Inv(s) && IsProc(s, p) && Unanswered(s.procs[p]) && s.procs[p].dumpedBy == Some(k) && LaterOk(s, p)
    requires k < j < |s.pauses| && s.pauses[j].id == s.procs[p].id && !s.pauses[j].pc.Selected?
    requires s.procs[p].id in s.busy ==>
      s.busy[s.procs[p].id] < |s.pauses| && !Marking(s.pauses[s.busy[s.procs[p].id]])
    ensures s.pauses[j].target == p && Withdrawn(s.pauses[j])
  {
    assert Proper(s.pauses[j]);
    assert InProgress(s.pauses[j]) ==> s.busy[s.pauses[j].id] == j;
    hide MarksOk, DiskOk, PidsOk, PendingOk, Plain;
  }

  /** When the mark of an unanswered process is there: a pause of it has set it and not deleted it, or a successful one
      ended it and no later one has touched it. */
  lemma MarkIsExact(s: Sys, p: nat)
    requires Inv(s) && IsProc(s, p) && Unanswered(s.procs[p])
    requires s.procs[p].id in s.busy ==>
      s.busy[s.procs[p].id] < |s.pauses| && s.pauses[s.busy[s.procs[p].id]].target == p
    ensures var q, d := s.procs[p], s.procs[p].dumpedBy;
      q.id in s.marks <==>
        || (q.id in s.busy && Marking(s.pauses[s.busy[q.id]]))
        || (d.Some? && d.value < |s.pauses| && s.pauses[d.value].pc == Returned(200) && OnlySelectedSince(s, p, d.value))
  {
    var q, d := s.procs[p], s.procs[p].dumpedBy;
    ProcFacts(s, p);
    if q.id in s.marks { assert MarkOk(s, q.id); }
    if q.id in s.busy { assert PauseOk(s, s.busy[q.id]); }
    if !(q.id in s.busy && Marking(s.pauses[s.busy[q.id]]))
       && d.Some? && d.value < |s.pauses| && s.pauses[d.value].pc == Returned(200) {
      UndoneExactly(s, p, d.value);
    }
    hide Inv, Undone, OnlySelectedSince;
  }

  /** While a pause of the process is at work, it is answered 202 exactly if that pause has its mark set, or has not got
      to it and an earlier one has ended the process and succeeded. */
  lemma AnswerDuringAPause(s: Sys, p: nat, k: nat)
    requires Reachable(s) && Enabled(s, Answer(p)) && k < |s.pauses| && InProgress(s.pauses[k]) && s.pauses[k].target == p
    ensures Next(s, Answer(p)).procs[p].phase == Answered(202) <==>
      || Marking(s.pauses[k])
      || (var d := s.procs[p].dumpedBy;
          && s.pauses[k].pc.Selected? && d.Some? && d.value < |s.pauses|
          && s.pauses[d.value].pc == Returned(200) && OnlySelectedSince(s, p, d.value))
  {
    ReachableInv(s);
    assert PauseOk(s, k) && s.busy[s.pauses[k].id] == k;
    MarkIsExact(s, p);
    var d := s.procs[p].dumpedBy;
    assert DumpOk(s, p) && LaterOk(s, p);
    if d.Some? { BusyIsOnIt(s, p); }
    hide Inv, Undone, LaterOk;
  }

  /** Of the processes of the id begun after t and before p, none has been answered 202. */
  predicate NoneTookSince(s: Sys, t: nat, p: nat) {
    forall q | t < q < p && p < |s.procs| && s.procs[q].id == s.procs[p].id :: s.procs[q].phase != Answered(202)
  }

  /** A pause of the id still at work on a process answered before p began: p is answered 202 exactly if that pause set
      its mark too late for its own process, has not deleted it, and no process in between has taken it. */
  lemma AnswerAfterALateMark(s: Sys, p: nat)
    requires Reachable(s) && Enabled(s, Answer(p)) && s.procs[p].id in s.busy && s.busy[s.procs[p].id] < |s.pauses|
    requires s.pauses[s.busy[s.procs[p].id]].target != p
    ensures var k := s.pauses[s.busy[s.procs[p].id]];
      Next(s, Answer(p)).procs[p].phase == Answered(202) <==> Marking(k) && k.late && NoneTookSince(s, k.target, p)
  {
    ReachableInv(s);
    var k := s.busy[s.procs[p].id];
    assert PauseOk(s, k) && StaleOk(s, k) && InProgress(s.pauses[k]);
    var t := s.pauses[k].target;
    assert t < p && !Unanswered(s.procs[t]);
    assert NoneTook(s.procs, t, s.procs[p].id) <==> NoneTookSince(s, t, p) by { NewestTook(s, t, p); }
    hide Inv, NoneTook, NoneTookSince;
  }

  lemma NewestTook(s: Sys, t: nat, p: nat)
    requires PendingOk(s.procs, s.pending) && IsProc(s, p) && Unanswered(s.procs[p])
    ensures NoneTook(s.procs, t, s.procs[p].id) <==> NoneTookSince(s, t, p)
  {
    hide Plain;
  }

  /** The pause of the id at work, if there is one. */
  function AtWork(s: Sys, id: string): Option<Pause> {
    if id in s.busy && s.busy[id] < |s.pauses| then Some(s.pauses[s.busy[id]]) else None
  }

  /** When process p is answered 202, in every case: no pause of its id is at work, or one of p, or one of an earlier
      process of its id. */
  predicate AnsweredPaused(s: Sys, p: nat)
    requires IsProc(s, p)
  {
    var id, d := s.procs[p].id, s.procs[p].dumpedBy;
    var ended := d.Some? && d.value < |s.pauses| && s.pauses[d.value].pc == Returned(200);
    match AtWork(s, id)
    case None => ended && LastOfId(s, d.value, id)
    case Some(k) =>
      if k.target == p then Marking(k) || (k.pc.Selected? && ended && OnlySelectedSince(s, p, d.value))
      else Marking(k) && k.late && NoneTookSince(s, k.target, p)
  }

  lemma BusyIsAtWork(s: Sys, id: string)
    requires Reachable(s) && id in s.busy
    ensures s.busy[id] < |s.pauses| && InProgress(s.pauses[s.busy[id]]) && s.pauses[s.busy[id]].id == id
  {
    ReachableInv(s);
    hide MarksOk, DiskOk, PidsOk, PendingOk;
  }

  lemma EveryAnswer(s: Sys, p: nat)
    requires Reachable(s) && Enabled(s, Answer(p))
    ensures Next(s, Answer(p)).procs[p].phase == Answered(202) <==> AnsweredPaused(s, p)
  {
    var id := s.procs[p].id;
    if id in s.busy { BusyIsAtWork(s, id); }
    hide Reachable, Next, Enabled, Marking, LastOfId, OnlySelectedSince, NoneTookSince;
    if id !in s.busy { AnswerIsExact(s, p); }
    else if s.pauses[s.busy[id]].target == p { AnswerDuringAPause(s, p, s.busy[id]); }
    else { AnswerAfterALateMark(s, p); }
  }

  /** A process that a successful pause ended, and that no later one has selected and failed on, is answered 202; until
      then its mark is there. */
  lemma PausedIsAnswered202(s: Sys, p: nat)
    requires Reachable(s) && IsProc(s, p) && s.procs[p].dumpedBy.Some?
    ensures var k := s.procs[p].dumpedBy.value;
      && k < |s.pauses| && s.pauses[k].target == p
      && (s.pauses[k].pc == Returned(200)
          && (forall j | k < j < |s.pauses| :: s.pauses[j].target != p || !Withdrawn(s.pauses[j])) ==>
            if s.procs[p].phase.Answered? then s.procs[p].phase == Answered(202) else s.procs[p].id in s.marks)
  {
    ReachableInv(s);
    ProcFacts(s, p);
    hide Inv, Reachable, LaterOk;
  }

  /** No mark leaks: with every process of the id answered and no pause of it at work, there is none. */
  lemma NoMarkLeaks(s: Sys, id: string)
    requires Reachable(s) && id !in s.busy && id !in s.pending
    ensures id !in s.marks
  {
    ReachableInv(s);
    assert id in s.marks ==> MarkOk(s, id);
  }

  // ----- the folders --------------------------------------------------------------------------------------------

  /** At every step the folder of a plain id is absent or the checkpoint of a pause of it that returned 200, with that
      pause's record and images; it holds those of no other pause exactly if that pause found no .part with images in it,
      and of no other id's in any case. */
  lemma CheckpointIsWhole(s: Sys, id: string)
    requires Reachable(s) && Plain(id) && Images(id) in s.disk
    ensures s.disk[Images(id)].snapshot.Some?
    ensures var f := s.disk[Images(id)];
      var k := f.snapshot.value.author;
      && k < |s.pauses| && s.pauses[k].id == id && s.pauses[k].pc == Returned(200)
      && f.snapshot.value.rec == s.pauses[k].rec && k in f.writers
      && (f.writers == {k} <==> s.pauses[k].found.None? || s.pauses[k].found.value.writers == {})
      && forall w | w in f.writers :: w <= k && s.pauses[w].id == id
  {
    ReachableInv(s);
    CheckpointHere(s, id);
    var k := s.disk[Images(id)].snapshot.value.author;
    assert FoundOk(s.pauses, k);
    hide Inv, LeftBehind, Images, Plain;
    if s.pauses[k].found.Some? && s.pauses[k].found.value.writers != {} {
      var w :| w in s.pauses[k].found.value.writers;
      assert w < k && w in s.disk[Images(id)].writers;
    }
  }

  /** A pause finds a .part exactly if the last pause of the id before it failed and so did its cleanup; and between
      pauses there is one exactly then. */
  lemma PartIsLeftBehind(s: Sys, id: string)
    requires Reachable(s) && Plain(id)
    ensures forall k | 0 <= k < |s.pauses| && s.pauses[k].id == id :: s.pauses[k].found.Some? <==> LeftBehind(s.pauses, id, k)
    ensures id !in s.busy ==> (At(s.disk, Part(id)).Some? <==> LeftBehind(s.pauses, id, |s.pauses|))
  {
    ReachableInv(s);
    forall k | 0 <= k < |s.pauses| && s.pauses[k].id == id ensures s.pauses[k].found.Some? <==> LeftBehind(s.pauses, id, k) {
      assert FoundOk(s.pauses, k);
    }
    if id !in s.busy { assert QuietFolder(s.pauses, s.disk, id); }
    hide Inv, LeftBehind;
  }

  /** From its start to its return a pause leaves the folder as it found it, until it has removed it. */
  lemma CheckpointStages(s: Sys, k: nat)
    requires Reachable(s) && k < |s.pauses| && InProgress(s.pauses[k])
    ensures At(s.disk, Images(s.pauses[k].id)) == if s.pauses[k].removed then None else s.pauses[k].earlier
    ensures s.pauses[k].removed ==> s.pauses[k].pc.Removed? || s.pauses[k].pc.Failing? || s.pauses[k].pc.Unmarked?
  {
    ReachableInv(s);
    assert FolderOk(s.disk, k, s.pauses[k]);
  }

  /** A pause that returns 200 leaves its checkpoint in place and no .part; one that returns 500 leaves the earlier one,
      unless it had already removed it, and no .part exactly if the cleanup succeeded. */
  lemma PauseOutcome(s: Sys, step: Step, k: nat)
    requires Reachable(s) && Enabled(s, step) && (step.Rename? || step.Clean?) && Of(step) == k < |s.pauses|
    requires Next(s, step).pauses[k].pc.Returned?
    ensures var p, s' := s.pauses[k], Next(s, step);
      && (step.Rename? ==> s'.pauses[k].pc == Returned(200) && At(s'.disk, Part(p.id)).None?
                           && At(s'.disk, Images(p.id)) == Some(CheckpointOf(k, p)))
      && (step.Clean? ==> s'.pauses[k].pc == Returned(500) && (At(s'.disk, Part(p.id)).None? <==> step.ok)
                          && At(s'.disk, Images(p.id)) == if p.removed then None else p.earlier)
  {
    ReachableInv(s);
    assert FolderOk(s.disk, k, s.pauses[k]) && Proper(s.pauses[k]);
    OwnFolders(s, step);
    hide Inv, Images, Part;
  }

  /** A step of one id's pause touches no other plain id's folders. */
  lemma OtherCheckpointsUntouched(s: Sys, step: Step, id: string)
    requires Reachable(s) && Enabled(s, step) && Plain(id)
    requires ProcStep(step) || step.Select? || s.pauses[Of(step)].id != id
    ensures At(Next(s, step).disk, Images(id)) == At(s.disk, Images(id))
    ensures At(Next(s, step).disk, Part(id)) == At(s.disk, Part(id))
  {
    ReachableInv(s);
    OtherFolders(s, step, id);
  }

  // ----- the pid ------------------------------------------------------------------------------------------------

  /** A running process, resumed any number of times, runs under the id and the pid of the first process of its line. */
  lemma PidSurvives(s: Sys, p: nat)
    requires Reachable(s) && IsProc(s, p) && s.procs[p].phase.Running?
    ensures var o := s.procs[p].origin;
      && IsProc(s, o) && s.procs[o].id == s.procs[p].id && s.procs[o].preset == 0
      && s.procs[p].pid == s.procs[o].pid && s.procs[o].pid != 0
  {
    ReachableInv(s);
    assert LineOk(s.procs, p);
  }

  /** A resume continues the line of its checkpoint: its pid is preset to the first process's. */
  lemma ResumeContinues(s: Sys, id: string)
    requires Reachable(s) && Enabled(s, Resume(id)) && Disciplined(s, Resume(id))
    ensures var q := Next(s, Resume(id)).procs[|s.procs|];
      q.id == id && IsProc(s, q.origin) && s.procs[q.origin].id == id && q.pid == s.procs[q.origin].pid && q.pid != 0
  {
    ReachableInv(s);
    CheckpointHere(s, id);
    CheckpointLine(s, id, s.disk[Images(id)]);
    hide Inv, Images;
  }

  /** Every checkpoint is of a process a pause of its id ended: its record is of that process's line and has its pid. */
  lemma CheckpointOfTheDumped(s: Sys, id: string)
    requires Reachable(s) && Plain(id) && Images(id) in s.disk
    ensures s.disk[Images(id)].snapshot.Some?
    ensures var f := s.disk[Images(id)].snapshot.value;
      exists p: nat | IsProc(s, p) ::
        && s.procs[p].id == id && s.procs[p].dumpedBy == Some(f.author) && f.author < |s.pauses| && s.pauses[f.author].id == id
        && s.procs[p].origin == f.origin && s.procs[p].pid == f.rec.pid
  {
    ReachableInv(s);
    CheckpointHere(s, id);
    var k := s.disk[Images(id)].snapshot.value.author;
    assert PauseOk(s, k) && TargetOk(s, k);
    hide Inv, Images;
    assert IsProc(s, s.pauses[k].target);
  }
}
