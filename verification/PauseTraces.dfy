/**
  Concrete runs of pauses: where a promise ends even under the hypotheses of PauseModel.Disciplined, and, for each
  hypothesis, a run without it that breaks a promise.
*/
module PauseTraces {
  import opened Options
  import opened PauseModel
  import opened PauseSafety

  lemma {:induction false} RunThen(s: Sys, steps: seq<Step>, step: Step, strict: bool)
    requires CanRun(s, steps, strict) && CanRun(s, steps, false)
    requires Enabled(After(s, steps), step) && (strict ==> Disciplined(After(s, steps), step))
    ensures CanRun(s, steps + [step], strict) && CanRun(s, steps + [step], false)
    ensures After(s, steps + [step]) == Next(After(s, steps), step)
    decreases |steps|
  {
    hide Enabled, Next, Disciplined;
    if steps == [] {
      assert [step][1..] == [] && CanRun(Next(s, step), [], strict) && CanRun(Next(s, step), [], false);
      assert steps + [step] == [step];
    } else {
      RunThen(Next(s, steps[0]), steps[1..], step, strict);
      assert (steps + [step])[1..] == steps[1..] + [step];
    }
  }

  lemma Extend(s: Sys, step: Step, strict: bool)
    requires Reached(s, strict) && Enabled(s, step) && (strict ==> Disciplined(s, step))
    ensures Reached(Next(s, step), strict)
  {
    var steps: seq<Step> :| CanRun(INIT, steps, strict) && CanRun(INIT, steps, false) && After(INIT, steps) == s;
    RunThen(INIT, steps, step, strict);
  }

  lemma InitReached(strict: bool)
    ensures Reached(INIT, strict)
  {
    assert CanRun(INIT, [], strict) && CanRun(INIT, [], false) && After(INIT, []) == INIT;
  }

  /** A process with pid 7, the first of its line. */
  function Payload(id: string, phase: Phase, dumpedBy: Option<nat>): Process { Process(id, 0, phase, 7, 0, dumpedBy) }

  function PauseAt(id: string, pc: PausePc, earlier: Option<Folder>): Pause {
    Pause(id, 0, Record(7, "", ""), pc, 0, earlier, None, false, false, false)
  }

  /** A process of the id, running. */
  lemma RunningPayload(id: string, strict: bool) returns (s: Sys)
    requires strict ==> Plain(id)
    ensures Reached(s, strict) && s == Sys([Payload(id, Running, None)], [], {}, map[], map[], map[id := 0])
  {
    InitReached(strict);
    s := INIT;
    Extend(s, Begin(id), strict);
    s := Next(s, Begin(id));
    Extend(s, Publish(0, 7), strict);
    s := Next(s, Publish(0, 7));
  }

  /** Selected by a pause that has set the mark. */
  lemma MarkedPayload(id: string, strict: bool) returns (s: Sys)
    requires strict ==> Plain(id)
    ensures Reached(s, strict)
    ensures s == Sys([Payload(id, Running, None)], [PauseAt(id, Marked, None)], {id}, map[], map[id := 0], map[id := 0])
  {
    s := RunningPayload(id, strict);
    Extend(s, Select(0, "", ""), strict);
    s := Next(s, Select(0, "", ""));
    Extend(s, Mark(0), strict);
    s := Next(s, Mark(0));
  }

  /** The first process ends, of itself, and its waiter answers. */
  lemma EndsAndAnswers(s: Sys, strict: bool) returns (s': Sys)
    requires Reached(s, strict) && IsProc(s, 0) && s.procs[0].phase.Running?
    ensures Reached(s', strict)
    ensures var id := s.procs[0].id;
      s' == s.(procs := s.procs[0 := s.procs[0].(phase := Answered(if id in s.marks then 202 else 200))],
               marks := s.marks - {id}, pending := s.pending - {id})
  {
    s' := s;
    Extend(s', End(0, true), strict);
    s' := Next(s', End(0, true));
    Extend(s', Settle(0), strict);
    s' := Next(s', Settle(0));
    Extend(s', Unlist(0), strict);
    s' := Next(s', Unlist(0));
    Extend(s', Answer(0), strict);
    s' := Next(s', Answer(0));
  }

  /** Even under the hypotheses a 202 does not prove a pause: a payload that ends while one is still at work on it gets
      the pause's mark. */
  lemma EndsDuringAPause() returns (s: Sys)
    ensures Reachable(s) && s.procs == [Payload("payload", Answered(202), None)]
  {
    s := MarkedPayload("payload", true);
    s := EndsAndAnswers(s, true);
  }

  /** The folder a single pause of the payload leaves. */
  function FirstCheckpoint(): Folder { Folder({0}, Some(Snapshot(0, Record(7, "", ""), 0))) }

  lemma OwnPaths(id: string)
    ensures Images(id) != Part(id)
  {
    assert |Part(id)| == |id| + 5;
  }

  /** The pause has made the folder it dumps into. */
  lemma MadePayload(id: string, strict: bool) returns (s: Sys)
    requires strict ==> Plain(id)
    ensures Reached(s, strict)
    ensures s == Sys([Payload(id, Running, None)], [PauseAt(id, Made, None)], {id},
                     map[Part(id) := Folder({}, None)], map[id := 0], map[id := 0])
  {
    s := MarkedPayload(id, strict);
    Extend(s, Make(0, true), strict);
    s := Next(s, Make(0, true));
    assert s.disk == map[Part(id) := Folder({}, None)];
    hide Part, Plain;
  }

  /** The pause has dumped the payload. */
  lemma DumpedPayload(id: string, strict: bool) returns (s: Sys)
    requires strict ==> Plain(id)
    ensures Reached(s, strict)
    ensures s == Sys([Payload(id, Ended(false, true), Some(0))], [PauseAt(id, Dumped, None)], {id},
                     map[Part(id) := Folder({0}, None)], map[id := 0], map[id := 0])
  {
    s := MadePayload(id, strict);
    Extend(s, Dump(0, Some(0), true), strict);
    s := Next(s, Dump(0, Some(0), true));
    assert {} + {0} == {0};
    assert s.disk == map[Part(id) := Folder({0}, None)];
    hide Part, Plain;
  }

  /** Then it has written its record beside the images. */
  lemma WrittenPayload(id: string, strict: bool) returns (s: Sys)
    requires strict ==> Plain(id)
    ensures Reached(s, strict)
    ensures s == Sys([Payload(id, Ended(false, true), Some(0))], [PauseAt(id, Written, None)], {id},
                     map[Part(id) := FirstCheckpoint()], map[id := 0], map[id := 0])
  {
    s := DumpedPayload(id, strict);
    Extend(s, Write(0, true), strict);
    s := Next(s, Write(0, true));
    assert {0} + {0} == {0};
    assert s.disk == map[Part(id) := FirstCheckpoint()];
    hide Part, Plain;
  }

  /** A payload ended by a pause that has returned 200, its waiter not yet through. */
  lemma PausedPayload(id: string, strict: bool) returns (s: Sys)
    requires strict ==> Plain(id)
    ensures Reached(s, strict)
    ensures s == Sys([Payload(id, Ended(false, true), Some(0))],
                     [PauseAt(id, Returned(200), None).(removed := true)], {id},
                     map[Images(id) := FirstCheckpoint()], map[], map[id := 0])
  {
    OwnPaths(id);
    hide Part, Images, FirstCheckpoint, Plain;
    s := WrittenPayload(id, strict);
    Extend(s, Remove(0, true), strict);
    s := Next(s, Remove(0, true));
    assert s.disk == map[Part(id) := FirstCheckpoint()];
    Extend(s, Rename(0, true), strict);
    s := Next(s, Rename(0, true));
    assert s.disk == map[Images(id) := FirstCheckpoint()];
  }

  /** A process whose mark is gone when its waiter comes is answered 500. */
  lemma AnswersPlainly(s: Sys, strict: bool) returns (s': Sys)
    requires Reached(s, strict) && |s.procs| > 0 && s.procs[0].phase == Ended(false, true) && s.procs[0].id !in s.marks
    ensures Reached(s', strict) && s'.procs == s.procs[0 := s.procs[0].(phase := Answered(500))] && s'.pauses == s.pauses
    ensures s'.disk == s.disk && s'.marks == s.marks - {s.procs[0].id} && s'.pending == s.pending - {s.procs[0].id}
    ensures s'.busy == s.busy
  {
    s' := s;
    Extend(s', Settle(0), strict);
    s' := Next(s', Settle(0));
    Extend(s', Unlist(0), strict);
    s' := Next(s', Unlist(0));
    Extend(s', Answer(0), strict);
    s' := Next(s', Answer(0));
  }

  /** A pause that fails before its dump takes the mark of the id with it. */
  lemma FailsAtOnce(s: Sys, k: nat, strict: bool) returns (s': Sys)
    requires Reached(s, strict) && k < |s.pauses| && s.pauses[k].pc.Selected?
    ensures Reached(s', strict) && s'.marks == s.marks - {s.pauses[k].id}
    ensures k < |s'.pauses|
    ensures s' == s.(pauses := s.pauses[k := s.pauses[k].(pc := Unmarked, late := s'.pauses[k].late)], marks := s'.marks)
  {
    hide Part, Images;
    s' := FailsToMake(s, k, strict);
    Extend(s', Unmark(k), strict);
    s' := Next(s', Unmark(k));
  }

  lemma FailsToMake(s: Sys, k: nat, strict: bool) returns (s': Sys)
    requires Reached(s, strict) && k < |s.pauses| && s.pauses[k].pc.Selected?
    ensures Reached(s', strict) && s'.marks == s.marks + {s.pauses[k].id}
    ensures k < |s'.pauses|
    ensures s' == s.(pauses := s.pauses[k := s.pauses[k].(pc := Failing, late := s'.pauses[k].late)], marks := s'.marks)
  {
    hide Part, Images;
    Extend(s, Mark(k), strict);
    s' := Next(s, Mark(k));
    Extend(s', Make(k, false), strict);
    s' := Next(s', Make(k, false));
  }

  /** A pause that has dumped, into the only folder there is, returns 200, and the folder has the images it then had. */
  lemma Returns(s: Sys, k: nat, strict: bool) returns (s': Sys)
    requires Reached(s, strict) && k < |s.pauses| && s.pauses[k].pc.Dumped? && s.disk.Keys == {Part(s.pauses[k].id)}
    requires k in s.disk[Part(s.pauses[k].id)].writers
    ensures Reached(s', strict) && s'.procs == s.procs && s'.marks == s.marks && s'.pending == s.pending
    ensures s'.busy == s.busy - {s.pauses[k].id}
    ensures |s'.pauses| == |s.pauses| && s'.pauses[k].pc == Returned(200)
    ensures forall j | 0 <= j < |s.pauses| && j != k :: s'.pauses[j] == s.pauses[j]
    ensures At(s'.disk, Images(s.pauses[k].id)).Some?
    ensures s'.disk[Images(s.pauses[k].id)].writers == s.disk[Part(s.pauses[k].id)].writers
  {
    hide Part, Images, Enabled, Next;
    s' := Writes(s, k, strict);
    s' := Replaces(s', k, strict);
  }

  lemma Writes(s: Sys, k: nat, strict: bool) returns (s': Sys)
    requires Reached(s, strict) && k < |s.pauses| && s.pauses[k].pc.Dumped? && s.disk.Keys == {Part(s.pauses[k].id)}
    requires k in s.disk[Part(s.pauses[k].id)].writers
    ensures Reached(s', strict) && s' == s.(pauses := s.pauses[k := s.pauses[k].(pc := Written)], disk := s'.disk)
    ensures s'.disk.Keys == s.disk.Keys
    ensures s'.disk[Part(s.pauses[k].id)].writers == s.disk[Part(s.pauses[k].id)].writers
  {
    var f := s.disk[Part(s.pauses[k].id)];
    assert f.writers + {k} == f.writers;
    hide Part, Images;
    Extend(s, Write(k, true), strict);
    s' := Next(s, Write(k, true));
  }

  lemma Replaces(s: Sys, k: nat, strict: bool) returns (s': Sys)
    requires Reached(s, strict) && k < |s.pauses| && s.pauses[k].pc.Written? && s.disk.Keys == {Part(s.pauses[k].id)}
    ensures Reached(s', strict)
    ensures s' == s.(pauses := s.pauses[k := s.pauses[k].(pc := Returned(200), removed := true)],
                     disk := s'.disk, busy := s.busy - {s.pauses[k].id})
    ensures At(s'.disk, Images(s.pauses[k].id)) == Some(s.disk[Part(s.pauses[k].id)])
  {
    s' := s;
    OwnPaths(s.pauses[k].id);
    hide Part, Images;
    Extend(s', Remove(k, true), strict);
    s' := Next(s', Remove(k, true));
    Extend(s', Rename(k, true), strict);
    s' := Next(s', Rename(k, true));
  }

  lemma PlainPayload()
    ensures Plain("payload")
  {
  }

  /** Under the hypotheses a 202 is not owed to every paused process: a second pause that still finds the ended process
      listed as running fails and takes the mark with it, and the paused process is answered 500. */
  lemma SecondPauseTakesTheMark() returns (s: Sys)
    ensures Reachable(s) && |s.procs| == 1 && |s.pauses| == 2
    ensures s.procs[0] == Payload("payload", Answered(500), Some(0)) && s.pauses[0].pc == Returned(200)
  {
    PlainPayload();
    s := PausedPayload("payload", true);
    hide Images, Part, FirstCheckpoint, Plain;
    Extend(s, Select(0, "", ""), true);
    s := Next(s, Select(0, "", ""));
    s := FailsAtOnce(s, 1, true);
    s := AnswersPlainly(s, true);
  }

  /** Under the hypotheses a mark can reach a process begun later: a pause has found the first process listed as running, it
      ends and is answered, its id is started again, and only then is the mark set. */
  lemma ALateMarkReachesTheNext() returns (s: Sys)
    ensures Reachable(s) && |s.procs| == 2 && |s.pauses| == 1 && s.pauses[0].target == 0
    ensures s.procs[0] == Payload("payload", Answered(200), None)
    ensures s.procs[1].id == "payload" && s.procs[1].phase == Answered(202) && s.procs[1].dumpedBy.None?
  {
    PlainPayload();
    s := RunningPayload("payload", true);
    hide Plain, Images, Part;
    Extend(s, Select(0, "", ""), true);
    s := Next(s, Select(0, "", ""));
    s := EndsAndAnswers(s, true);
    s := BeginsAgain(s);
    Extend(s, Mark(0), true);
    s := Next(s, Mark(0));
    s := SecondEnds(s);
  }

  lemma BeginsAgain(s: Sys) returns (s': Sys)
    requires Reached(s, true) && |s.procs| == 1 && s.pending == map[] && Plain("payload")
    ensures Reached(s', true)
    ensures s' == s.(procs := s.procs + [Process("payload", 0, Running, 8, 1, None)], pending := map["payload" := 1])
  {
    hide Plain;
    s' := s;
    Extend(s', Begin("payload"), true);
    s' := Next(s', Begin("payload"));
    Extend(s', Publish(1, 8), true);
    s' := Next(s', Publish(1, 8));
  }

  /** The second process ends, of itself, and its waiter answers. */
  lemma SecondEnds(s: Sys) returns (s': Sys)
    requires Reached(s, true) && |s.procs| == 2 && s.procs[1].phase.Running? && s.procs[1].id in s.marks
    ensures Reached(s', true) && s'.pauses == s.pauses
    ensures s'.procs == s.procs[1 := s.procs[1].(phase := Answered(202))]
  {
    s' := s;
    Extend(s', End(1, true), true);
    s' := Next(s', End(1, true));
    Extend(s', Settle(1), true);
    s' := Next(s', Settle(1));
    Extend(s', Unlist(1), true);
    s' := Next(s', Unlist(1));
    Extend(s', Answer(1), true);
    s' := Next(s', Answer(1));
  }

  /** Under the hypotheses a checkpoint can hold the images of two pauses: the dump of the first fails after it has written
      some, its cleanup fails too, and the second succeeds. */
  lemma StaleImagesStay() returns (s: Sys)
    ensures Reachable(s) && |s.pauses| == 2 && s.pauses[0].pc == Returned(500) && s.pauses[1].pc == Returned(200)
    ensures At(s.disk, Images("payload")).Some? && s.disk[Images("payload")].writers == {0, 1}
  {
    PlainPayload();
    s := FailsAndLeaves("payload");
    hide Plain, Images, Part;
    s := SecondDumps(s, "payload");
    s := Returns(s, 1, true);
  }

  /** The dump of a pause fails when it has written images, and so does its cleanup. */
  lemma FailsAndLeaves(id: string) returns (s: Sys)
    requires Plain(id)
    ensures Reachable(s) && s.procs == [Payload(id, Running, None)] && s.busy == map[]
    ensures s.pauses == [PauseAt(id, Returned(500), None)] && s.disk == map[Part(id) := Folder({0}, None)]
  {
    hide Plain, Images, Part;
    s := MadePayload(id, true);
    Extend(s, Dump(0, None, true), true);
    s := Next(s, Dump(0, None, true));
    assert {} + {0} == {0};
    Extend(s, Unmark(0), true);
    s := Next(s, Unmark(0));
    Extend(s, Clean(0, false), true);
    s := Next(s, Clean(0, false));
  }

  lemma SecondMarks(s: Sys, id: string) returns (s': Sys)
    requires Reachable(s) && s.procs == [Payload(id, Running, None)] && s.busy == map[]
    requires s.pauses == [PauseAt(id, Returned(500), None)]
    ensures Reachable(s') && s'.procs == s.procs && s'.disk == s.disk
    ensures |s'.pauses| == 2 && s'.pauses[0] == s.pauses[0]
    ensures s'.pauses[1].id == id && s'.pauses[1].target == 0 && s'.pauses[1].pc.Marked? && s'.pauses[1].rec.pid == 7
  {
    hide Plain, Images, Part;
    Extend(s, Select(0, "", ""), true);
    s' := Next(s, Select(0, "", ""));
    Extend(s', Mark(1), true);
    s' := Next(s', Mark(1));
  }

  lemma SecondMakes(s: Sys, id: string) returns (s': Sys)
    requires Reachable(s) && s.procs == [Payload(id, Running, None)] && s.busy == map[]
    requires s.pauses == [PauseAt(id, Returned(500), None)] && s.disk == map[Part(id) := Folder({0}, None)]
    ensures Reachable(s') && s'.procs == s.procs && s'.disk == s.disk
    ensures |s'.pauses| == 2 && s'.pauses[0] == s.pauses[0]
    ensures s'.pauses[1].id == id && s'.pauses[1].target == 0 && s'.pauses[1].pc.Made? && s'.pauses[1].rec.pid == 7
  {
    hide Plain, Images, Part;
    s' := SecondMarks(s, id);
    Extend(s', Make(1, true), true);
    s' := Next(s', Make(1, true));
  }

  lemma SecondDumps(s: Sys, id: string) returns (s': Sys)
    requires Reachable(s) && s.procs == [Payload(id, Running, None)] && s.busy == map[]
    requires s.pauses == [PauseAt(id, Returned(500), None)] && s.disk == map[Part(id) := Folder({0}, None)]
    ensures Reachable(s') && |s'.pauses| == 2 && s'.pauses[0] == s.pauses[0] && s'.pauses[1].id == id
    ensures s'.pauses[1].pc.Dumped? && s'.disk == map[Part(id) := Folder({0, 1}, None)]
  {
    hide Plain, Images, Part;
    s' := SecondMakes(s, id);
    Extend(s', Dump(1, Some(0), true), true);
    s' := Next(s', Dump(1, Some(0), true));
    assert {0} + {1} == {0, 1};
  }

  // ----- why each hypothesis is needed --------------------------------------------------------------------------

  /** An id used again while the waiter of its paused namesake is pending: the mark is keyed by id, not by process, so the
      new process is answered 202 and the paused one 500. */
  lemma ReusedIdTakesTheMark() returns (s: Sys)
    ensures Reached(s, false) && |s.procs| == 2 && |s.pauses| == 1
    ensures s.procs[0] == Payload("payload", Answered(500), Some(0)) && s.pauses[0].pc == Returned(200)
    ensures s.procs[1].phase == Answered(202) && s.procs[1].dumpedBy.None?
  {
    s := PausedPayload("payload", false);
    hide Images, FirstCheckpoint;
    Extend(s, Begin("payload"), false);
    s := Next(s, Begin("payload"));
    Extend(s, End(1, false), false);
    s := Next(s, End(1, false));
    Extend(s, Unlist(1), false);
    s := Next(s, Unlist(1));
    Extend(s, Answer(1), false);
    s := Next(s, Answer(1));
    s := AnswersPlainly(s, false);
  }

  /** Two pauses of one id at a time: the second succeeds and the first, failing, takes its mark; no pause of the id was
      begun after the one that succeeded, and the process is answered 500. */
  lemma OverlappingPausesSpoil() returns (s: Sys)
    ensures Reached(s, false) && |s.procs| == 1 && |s.pauses| == 2
    ensures s.procs[0] == Payload("payload", Answered(500), Some(1)) && s.pauses[1].pc == Returned(200)
  {
    s := TwoPauses();
    s := SecondWrites(s);
    s := Returns(s, 1, false);
    hide Images, Part;
    Extend(s, Unmark(0), false);
    s := Next(s, Unmark(0));
    s := AnswersPlainly(s, false);
  }

  lemma TwoPauses() returns (s: Sys)
    ensures Reached(s, false) && s.procs == [Payload("payload", Running, None)]
    ensures s.pauses == [PauseAt("payload", Failing, None), PauseAt("payload", Marked, None)]
    ensures s.disk == map[] && s.marks == {"payload"}
  {
    s := MarkedPayload("payload", false);
    hide Part, Images;
    Extend(s, Make(0, false), false);
    s := Next(s, Make(0, false));
    Extend(s, Select(0, "", ""), false);
    s := Next(s, Select(0, "", ""));
    Extend(s, Mark(1), false);
    s := Next(s, Mark(1));
  }

  lemma SecondWrites(s: Sys) returns (s': Sys)
    requires Reached(s, false) && s.procs == [Payload("payload", Running, None)] && s.marks == {"payload"}
    requires s.pauses == [PauseAt("payload", Failing, None), PauseAt("payload", Marked, None)] && s.disk == map[]
    ensures Reached(s', false) && s'.procs == [Payload("payload", Ended(false, true), Some(1))] && s'.marks == {"payload"}
    ensures s'.pauses == [PauseAt("payload", Failing, None), PauseAt("payload", Dumped, None)]
    ensures s'.disk.Keys == {Part("payload")}
    ensures 1 in s'.disk[Part("payload")].writers
  {
    s' := s;
    hide Part, Images;
    Extend(s', Make(1, true), false);
    s' := Next(s', Make(1, true));
    Extend(s', Dump(1, Some(0), true), false);
    s' := Next(s', Dump(1, Some(0), true));
  }

  /** A pid used again: the selected process has ended and been answered, and the dump ends another id's process that has
      its pid. The pause returns 200 and leaves a mark that nobody is there to take. */
  lemma ReusedPidLeavesAMark() returns (s: Sys)
    ensures Reached(s, false) && "payload" in s.marks && "payload" !in s.busy && "payload" !in s.pending
    ensures |s.procs| == 2 && s.procs[1].id == "other" && s.procs[1].dumpedBy == Some(0)
  {
    s := ReusedPid();
    s := DumpsTheOther(s);
    s := Returns(s, 0, false);
  }

  lemma ReusedPid() returns (s: Sys)
    ensures Reached(s, false) && |s.procs| == 2 && s.pauses == [PauseAt("payload", Selected, None)]
    ensures s.procs[1].phase.Running? && s.procs[1].pid == 7 && s.procs[1].id == "other" && s.disk == map[]
    ensures s.busy == map["payload" := 0] && s.pending == map["other" := 1]
  {
    s := RunningPayload("payload", false);
    hide Part, Images;
    Extend(s, Select(0, "", ""), false);
    s := Next(s, Select(0, "", ""));
    s := EndsAndAnswers(s, false);
    assert s.pending == map[];
    Extend(s, Begin("other"), false);
    s := Next(s, Begin("other"));
    Extend(s, Publish(1, 7), false);
    s := Next(s, Publish(1, 7));
  }

  lemma DumpsTheOther(s: Sys) returns (s': Sys)
    requires Reached(s, false) && |s.procs| == 2 && s.pauses == [PauseAt("payload", Selected, None)]
    requires s.procs[1].phase.Running? && s.procs[1].pid == 7 && s.procs[1].id == "other" && s.disk == map[]
    ensures Reached(s', false) && |s'.procs| == 2 && s'.procs[1].id == "other" && s'.procs[1].dumpedBy == Some(0)
    ensures |s'.pauses| == 1 && s'.pauses[0].pc == Dumped && s'.pauses[0].id == "payload"
    ensures "payload" in s'.marks && s'.busy == s.busy && s'.pending == s.pending
    ensures s'.disk.Keys == {Part("payload")}
    ensures 0 in s'.disk[Part("payload")].writers
  {
    hide Part, Images;
    s' := MarksAndMakes(s);
    Extend(s', Dump(0, Some(1), true), false);
    s' := Next(s', Dump(0, Some(1), true));
  }

  lemma MarksAndMakes(s: Sys) returns (s': Sys)
    requires Reached(s, false) && s.pauses == [PauseAt("payload", Selected, None)] && s.disk == map[]
    ensures Reached(s', false) && s'.disk.Keys == {Part("payload")} && "payload" in s'.marks
    ensures |s'.pauses| == 1
    ensures s' == s.(pauses := [PauseAt("payload", Made, None).(late := s'.pauses[0].late)], marks := s'.marks, disk := s'.disk)
  {
    s' := s;
    hide Part, Images;
    Extend(s', Mark(0), false);
    s' := Next(s', Mark(0));
    Extend(s', Make(0, true), false);
    s' := Next(s', Make(0, true));
  }

  /** Ids that are not plain: the .part of "a" is the folder of "a.part", so the cleanup of a failed pause of "a" removes
      the checkpoint of "a.part". */
  lemma UnplainIdsCollide() returns (s: Sys, step: Step)
    ensures Reached(s, false) && Enabled(s, step) && step.Clean? && s.pauses[step.k].id == "a"
    ensures At(s.disk, Images("a.part")).Some? && s.disk[Images("a.part")].snapshot.Some?
    ensures At(Next(s, step).disk, Images("a.part")).None?
  {
    s := PausedPayload("a.part", false);
    assert Part("a") == Images("a.part") && Images("a") != Images("a.part");
    hide Part, Images;
    s := SecondIdPauses(s);
    step := Clean(1, true);
  }

  /** A process of "a" is started, and a pause of it fails before the dump. */
  lemma SecondIdPauses(s: Sys) returns (s': Sys)
    requires Reached(s, false) && |s.procs| == 1 && |s.pauses| == 1
    requires Part("a") in s.disk
    ensures Reached(s', false) && s'.disk == s.disk
    ensures |s'.pauses| == 2 && s'.pauses[1].id == "a" && s'.pauses[1].pc.Unmarked?
  {
    s' := s;
    hide Part, Images;
    Extend(s', Begin("a"), false);
    s' := Next(s', Begin("a"));
    Extend(s', Publish(1, 8), false);
    s' := Next(s', Publish(1, 8));
    Extend(s', Select(1, "", ""), false);
    s' := Next(s', Select(1, "", ""));
    s' := FailsAtOnce(s', 1, false);
  }
}
