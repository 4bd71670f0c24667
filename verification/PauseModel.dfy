/**
  Pausing and resuming processes: internal/servers' marks, subsystems/checkpoint's folders, and the pids that pass
  through both, as a state machine over ids.

  A process is one run of servers.Run: it starts, publishes its pid, ends, has its end recorded by its task, is unlisted
  by its waiter, and is answered when the waiter has taken the pause mark. A pause is one call of checkpoint.pause,
  stopped between any two of its effects. Everything may interleave. What the outside does (a dump or a file operation
  failing, a process ending) is a parameter of a step; RemoveAll and Rename do all of their work or none.

  `busy`, `pending`, `target`, `origin`, `dumpedBy`, `earlier`, `found`, `removed`, `cleaned`, `late`, `writers`
  and a snapshot's `author` are history: no step reads them to decide anything.
*/
module PauseModel {
  import opened Options
  import TaskModel

  /** What is written beside the images, as checkpoint.record. */
  datatype Record = Record(pid: nat, stdout: string, stderr: string)

  /** The snapshot file: a pause's record. origin is the first process of the line it dumped. */
  datatype Snapshot = Snapshot(author: nat, rec: Record, origin: nat)

  /** A folder under checkpoints/: the pauses whose criu has written images into it, and its snapshot file if there is one. */
  datatype Folder = Folder(writers: set<nat>, snapshot: Option<Snapshot>)

  datatype Phase =
    | Starting
    | Running
    | Ended(ok: bool, shown: bool)  // the process is gone; shown while its task is still listed as running
    | Unlisted(ok: bool)  // tasks.Wait has returned
    | Answered(code: nat)

  datatype Process = Process(
    id: string, preset: nat, phase: Phase, pid: nat, origin: nat, dumpedBy: Option<nat>)

  datatype PausePc =
    | Selected | Marked | Made | Dumped | Written | Removed
    | Failing | Unmarked | Returned(code: nat)

  datatype Pause = Pause(
    id: string, target: nat, rec: Record, pc: PausePc, origin: nat,
    earlier: Option<Folder>, found: Option<Folder>, // the two folders of the id when the pause began
    removed: bool, cleaned: bool,                   // whether each RemoveAll succeeded
    late: bool)                                     // whether the process had been answered when the mark was set

  datatype Sys = Sys(
    procs: seq<Process>, pauses: seq<Pause>, marks: set<string>, disk: map<string, Folder>,
    busy: map<string, nat>, pending: map<string, nat>)

  const INIT := Sys([], [], {}, map[], map[], map[])

  /** imagesDir and its .part, relative to the checkpoints folder; a plain id is one path element. */
  function Images(id: string): string { id }
  function Part(id: string): string { Images(id) + ".part" }

  /** No separator, not . or .., and no .part suffix. */
  predicate Plain(id: string) {
    && id != "" && id != "." && id != ".."
    && '/' !in id
    && !(|id| >= 5 && id[|id| - 5..] == ".part")
  }

  function At(disk: map<string, Folder>, path: string): Option<Folder> {
    if path in disk then Some(disk[path]) else None
  }

  function Erase(disk: map<string, Folder>, path: string): map<string, Folder> { disk - {path} }

  datatype Step =
    | Begin(id: string)                                  // shell.exec under that ref
    | Resume(id: string)                                 // restores the checkpoint of id, its pid preset
    | Publish(p: nat, forked: nat)
    | End(p: nat, ok: bool)                              // by itself, or stopped
    | Settle(p: nat)                                     // the task records the end
    | Unlist(p: nat)
    | Answer(p: nat)                                     // LoadAndDelete, then 202, 200 or 500
    | Select(p: nat, stdout: string, stderr: string)     // a pause finds the task of p listed as running
    | Mark(k: nat)
    | Make(k: nat, ok: bool)
    | Dump(k: nat, target: Option<nat>, wrote: bool)     // criu dump: ends the target, or fails, with images written or not
    | Write(k: nat, ok: bool)
    | Remove(k: nat, ok: bool)                           // an error of RemoveAll is ignored
    | Rename(k: nat, ok: bool)
    | Unmark(k: nat)
    | Clean(k: nat, ok: bool)                            // so is an error of this one

  predicate At0(s: Sys, k: nat, pc: PausePc) { k < |s.pauses| && s.pauses[k].pc == pc }

  predicate IsProc(s: Sys, p: nat) { p < |s.procs| }

  /** The task of the process is listed as running, as a pause tests it. */
  predicate Shown(q: Process) { q.phase.Running? || (q.phase.Ended? && q.phase.shown) }

  /** A live process is one a dump can end. RemoveAll of a folder that is not there does not fail. */
  predicate Enabled(s: Sys, step: Step) {
    match step
    case Begin(_) => true
    case Resume(id) => At(s.disk, Images(id)).Some? && s.disk[Images(id)].snapshot.Some?
    case Publish(p, forked) => IsProc(s, p) && s.procs[p].phase.Starting? && forked != 0
    case End(p, ok) => IsProc(s, p) && (s.procs[p].phase.Running? || (s.procs[p].phase.Starting? && !ok))
    case Settle(p) => IsProc(s, p) && s.procs[p].phase.Ended? && s.procs[p].phase.shown
    case Unlist(p) => IsProc(s, p) && s.procs[p].phase.Ended? && !s.procs[p].phase.shown
    case Answer(p) => IsProc(s, p) && s.procs[p].phase.Unlisted?
    case Select(p, _, _) => IsProc(s, p) && Shown(s.procs[p])
    case Mark(k) => At0(s, k, Selected)
    case Make(k, _) => At0(s, k, Marked)
    case Dump(k, target, wrote) =>
      && At0(s, k, Made) && (target.Some? ==> wrote)
      && (target.Some? ==> IsProc(s, target.value) && s.procs[target.value].phase.Running?
                           && s.procs[target.value].pid == s.pauses[k].rec.pid)
    case Write(k, _) => At0(s, k, Dumped)
    case Remove(k, _) => At0(s, k, Written)
    case Rename(k, ok) => At0(s, k, Removed) && (ok ==> Images(s.pauses[k].id) !in s.disk)
    case Unmark(k) => At0(s, k, Failing)
    case Clean(k, ok) => At0(s, k, Unmarked) && (!ok ==> Part(s.pauses[k].id) in s.disk)
  }

  function Code(ok: bool, paused: bool): nat { if paused then 202 else if ok then 200 else 500 }

  function NewProc(s: Sys, id: string, preset: nat, origin: nat): Sys {
    s.(procs := s.procs + [Process(id, preset, Starting, preset, origin, None)], pending := s.pending[id := |s.procs|])
  }

  function SetPhase(s: Sys, p: nat, phase: Phase): Sys
    requires IsProc(s, p)
  {
    s.(procs := s.procs[p := s.procs[p].(phase := phase)])
  }

  function SetPc(s: Sys, k: nat, pc: PausePc): Sys
    requires k < |s.pauses|
  {
    s.(pauses := s.pauses[k := s.pauses[k].(pc := pc)])
  }

  function DoSelect(s: Sys, p: nat, stdout: string, stderr: string): Sys
    requires IsProc(s, p)
  {
    var id := s.procs[p].id;
    s.(pauses := s.pauses + [Pause(id, p, Record(s.procs[p].pid, stdout, stderr), Selected, s.procs[p].origin,
                                   At(s.disk, Images(id)), At(s.disk, Part(id)), false, false, false)],
       busy := s.busy[id := |s.pauses|])
  }

  /** What criu writes goes beside whatever is there. */
  function WrittenBy(k: nat, f: Option<Folder>): Folder {
    if f.None? then Folder({k}, None) else f.value.(writers := f.value.writers + {k})
  }

  function DoDump(s: Sys, k: nat, target: Option<nat>, wrote: bool): Sys
    requires k < |s.pauses| && (target.Some? ==> IsProc(s, target.value))
  {
    var part := Part(s.pauses[k].id);
    var disk := if wrote then s.disk[part := WrittenBy(k, At(s.disk, part))] else s.disk;
    if target.None? then SetPc(s, k, Failing).(disk := disk)
    else
      var q := s.procs[target.value];
      s.(pauses := s.pauses[k := s.pauses[k].(pc := Dumped, origin := q.origin)],
         procs := s.procs[target.value := q.(phase := Ended(false, true), dumpedBy := Some(k))],
         disk := disk)
  }

  /** MkdirAll keeps what is there. */
  function Kept(f: Option<Folder>): Folder { if f.None? then Folder({}, None) else f.value }

  /** The snapshot file is written over one that is there. */
  function Signed(s: Sys, k: nat): Folder
    requires k < |s.pauses|
  {
    var p := s.pauses[k];
    WrittenBy(k, At(s.disk, Part(p.id))).(snapshot := Some(Snapshot(k, p.rec, p.origin)))
  }

  function DoAnswer(s: Sys, p: nat): Sys
    requires IsProc(s, p) && s.procs[p].phase.Unlisted?
  {
    var id := s.procs[p].id;
    SetPhase(s, p, Answered(Code(s.procs[p].phase.ok, id in s.marks))).(marks := s.marks - {id}, pending := s.pending - {id})
  }

  function Next(s: Sys, step: Step): Sys
    requires Enabled(s, step)
  {
    match step
    case Begin(id) => NewProc(s, id, 0, |s.procs|)
    case Resume(id) => NewProc(s, id, s.disk[Images(id)].snapshot.value.rec.pid, s.disk[Images(id)].snapshot.value.origin)
    case Publish(p, forked) =>
      s.(procs := s.procs[p := s.procs[p].(phase := Running, pid := TaskModel.PublishedPid(s.procs[p].pid, forked))])
    case End(p, ok) => SetPhase(s, p, Ended(ok, s.procs[p].phase.Running?))
    case Settle(p) => SetPhase(s, p, Ended(s.procs[p].phase.ok, false))
    case Unlist(p) => SetPhase(s, p, Unlisted(s.procs[p].phase.ok))
    case Answer(p) => DoAnswer(s, p)
    case Select(p, stdout, stderr) => DoSelect(s, p, stdout, stderr)
    case Mark(k) =>
      var p := s.pauses[k];
      s.(pauses := s.pauses[k := p.(pc := Marked, late := IsProc(s, p.target) && s.procs[p.target].phase.Answered?)],
         marks := s.marks + {p.id})
    case Make(k, ok) =>
      if ok then SetPc(s, k, Made).(disk := s.disk[Part(s.pauses[k].id) := Kept(At(s.disk, Part(s.pauses[k].id)))])
      else SetPc(s, k, Failing)
    case Dump(k, target, wrote) => DoDump(s, k, target, wrote)
    case Write(k, ok) =>
      if ok then SetPc(s, k, Written).(disk := s.disk[Part(s.pauses[k].id) := Signed(s, k)]) else SetPc(s, k, Failing)
    case Remove(k, ok) =>
      var s' := s.(pauses := s.pauses[k := s.pauses[k].(pc := Removed, removed := ok)]);
      if ok then s'.(disk := Erase(s.disk, Images(s.pauses[k].id))) else s'
    case Rename(k, ok) =>
      var id := s.pauses[k].id;
      if ok && Part(id) in s.disk then
        SetPc(s, k, Returned(200)).(disk := Erase(s.disk, Part(id))[Images(id) := s.disk[Part(id)]],
                                    busy := s.busy - {id})
      else SetPc(s, k, Failing)
    case Unmark(k) => SetPc(s, k, Unmarked).(marks := s.marks - {s.pauses[k].id})
    case Clean(k, ok) =>
      s.(pauses := s.pauses[k := s.pauses[k].(pc := Returned(500), cleaned := ok)],
         disk := if ok then Erase(s.disk, Part(s.pauses[k].id)) else s.disk,
         busy := s.busy - {s.pauses[k].id})
  }

  /** The hypotheses on callers and on CRIU: plain ids; an id is not reused while a waiter of it is pending; one pause
      at a time per id; and the pid a dump ends is still the selected process's. */
  predicate Disciplined(s: Sys, step: Step)
    requires Enabled(s, step)
  {
    match step
    case Begin(id) => Plain(id) && id !in s.pending
    case Resume(id) => Plain(id) && id !in s.pending
    case Select(p, _, _) => s.procs[p].id !in s.busy
    case Dump(k, target, _) => target.Some? ==> target.value == s.pauses[k].target
    case _ => true
  }

  /** steps can be taken one after another from s; if strict, each keeping the hypotheses. */
  predicate CanRun(s: Sys, steps: seq<Step>, strict: bool)
    decreases |steps|
  {
    || steps == []
    || (Enabled(s, steps[0]) && (strict ==> Disciplined(s, steps[0])) && CanRun(Next(s, steps[0]), steps[1..], strict))
  }

  function After(s: Sys, steps: seq<Step>): Sys
    requires CanRun(s, steps, false)
    decreases |steps|
  {
    if steps == [] then s else After(Next(s, steps[0]), steps[1..])
  }

  lemma {:induction false} StrictIsARun(s: Sys, steps: seq<Step>)
    requires CanRun(s, steps, true)
    ensures CanRun(s, steps, false)
    decreases |steps|
  {
    if steps != [] { StrictIsARun(Next(s, steps[0]), steps[1..]); }
  }

  /** A run leads from nothing started and no checkpoint to s. */
  ghost predicate Reached(s: Sys, strict: bool) {
    exists steps: seq<Step> :: CanRun(INIT, steps, strict) && CanRun(INIT, steps, false) && After(INIT, steps) == s
  }

  /** A run that keeps the hypotheses does. */
  ghost predicate Reachable(s: Sys) { Reached(s, true) }
}
