/**
  The task of a loaded workflow: one goroutine runs the start steps and then the ready steps, while the loop beside it
  takes whichever of cancellation, that goroutine's result and a signal is there. Each run of a moment's steps may take
  any time and end in any way; the interleavings are the sequences of steps.
*/
module EventLoop {
  import opened Options

  datatype Setup = InStart | InReady | Finished(err: Option<string>)

  datatype Loop = Selecting | InSignal(sig: string) | Returned(err: Option<string>)

  /** startErr, readyErr and signalFailed are history. */
  datatype State = State(
    setup: Setup, sent: bool, listening: bool, loop: Loop, signal: Option<string>, cancelled: bool, sigterms: nat,
    startErr: Option<Option<string>>, readyBegun: bool, readyErr: Option<Option<string>>, signalFailed: bool)

  const INIT := State(InStart, false, true, Selecting, None, false, 0, None, false, None, false)

  datatype Step =
    | StartReturns(err: Option<string>)
    | ReadyReturns(err: Option<string>)
    | Post                                  // setup <- err, which never blocks
    | Cancel
    | Arrive(sig: string)                   // a second signal is dropped while one is pending
    | TakeDone
    | TakeSetup
    | TakeSignal
    | SignalReturns(err: Option<string>)

  predicate Enabled(s: State, step: Step) {
    match step
    case StartReturns(_) => s.setup.InStart?
    case ReadyReturns(_) => s.setup.InReady?
    case Post => s.setup.Finished? && !s.sent
    case Cancel => true
    case Arrive(_) => true
    case TakeDone => s.loop.Selecting? && s.cancelled
    case TakeSetup => s.loop.Selecting? && s.sent && s.listening && s.setup.Finished?
    case TakeSignal => s.loop.Selecting? && s.signal.Some?
    case SignalReturns(_) => s.loop.InSignal?
  }

  function Next(s: State, step: Step): State
    requires Enabled(s, step)
  {
    match step
    case StartReturns(err) =>
      var s' := s.(startErr := Some(err));
      if err.None? then s'.(setup := InReady, readyBegun := true) else s'.(setup := Finished(err))
    case ReadyReturns(err) => s.(setup := Finished(err), readyErr := Some(err))
    case Post => s.(sent := true)
    case Cancel => s.(cancelled := true)
    case Arrive(sig) => if s.signal.None? then s.(signal := Some(sig)) else s
    case TakeDone => s.(loop := Returned(None))
    case TakeSetup =>
      if s.setup.err.Some? then s.(loop := Returned(s.setup.err))
      else s.(sigterms := s.sigterms + 1, listening := false)
    case TakeSignal => s.(loop := InSignal(s.signal.value), signal := None)
    case SignalReturns(err) =>
      if err.None? then s.(loop := Selecting) else s.(loop := Returned(err), signalFailed := true)
  }

  predicate CanRun(s: State, steps: seq<Step>)
    decreases |steps|
  {
    steps == [] || (Enabled(s, steps[0]) && CanRun(Next(s, steps[0]), steps[1..]))
  }

  function After(s: State, steps: seq<Step>): State
    requires CanRun(s, steps)
    decreases |steps|
  {
    if steps == [] then s else After(Next(s, steps[0]), steps[1..])
  }

  predicate BothDone(s: State) { s.startErr == Some(None) && s.readyErr == Some(None) }

  predicate Inv(s: State) {
    && (s.readyBegun ==> s.startErr == Some(None))
    && (s.setup.InStart? ==> s.startErr.None? && !s.readyBegun)
    && (s.setup.InReady? ==> s.readyBegun && s.readyErr.None?)
    && (s.readyErr.Some? ==> s.readyBegun)
    && (s.setup == Finished(None) ==> BothDone(s))
    && (s.sent ==> s.setup.Finished?)
    && (s.listening <==> s.sigterms == 0) && s.sigterms <= 1
    && (s.sigterms == 1 ==> s.sent && s.setup == Finished(None))
    && (s.signalFailed ==> s.loop.Returned? && s.loop.err.Some?)
    && (s.loop == Returned(None) ==> s.cancelled)
    && (s.loop.Returned? && s.loop.err.Some? && !s.signalFailed ==> s.setup == Finished(s.loop.err))
  }

  /** Over every interleaving: ready runs only once start has returned nil; SIGTERM is sent at most once, and only after
      both have; the loop ends without error only when cancelled, and otherwise with the error of start, ready or a signal. */
  lemma {:induction false} LoopIsSafe(s: State, steps: seq<Step>)
    requires Inv(s) && CanRun(s, steps)
    ensures var t := After(s, steps);
      && Inv(t)
      && (t.readyBegun ==> t.startErr == Some(None))
      && t.sigterms <= 1 && (t.sigterms == 1 ==> BothDone(t))
      && (t.loop == Returned(None) ==> t.cancelled)
      && (t.loop.Returned? && t.loop.err.Some? ==> t.signalFailed || t.setup == Finished(t.loop.err))
    decreases |steps|
  {
    if steps != [] { LoopIsSafe(Next(s, steps[0]), steps[1..]); }
  }

  /** SIGTERM is sent only between signals' steps, never once one of them failed, and never twice. */
  lemma SigtermOnlyAtRest(steps: seq<Step>, step: Step)
    requires CanRun(INIT, steps) && Enabled(After(INIT, steps), step)
    requires Next(After(INIT, steps), step).sigterms > After(INIT, steps).sigterms
    ensures var s := After(INIT, steps);
      s.loop.Selecting? && !s.signalFailed && s.sigterms == 0 && BothDone(s) && Next(s, step).loop.Selecting?
  {
    LoopIsSafe(INIT, steps);
  }

  /** Once the loop has returned nothing more is taken: no SIGTERM, no signal's steps. */
  lemma {:induction false} ReturnIsFinal(s: State, steps: seq<Step>)
    requires s.loop.Returned? && CanRun(s, steps)
    ensures After(s, steps).loop == s.loop && After(s, steps).sigterms == s.sigterms
    decreases |steps|
  {
    if steps != [] { ReturnIsFinal(Next(s, steps[0]), steps[1..]); }
  }

  /** Some continuation begins the ready steps. */
  ghost predicate MayBeginReady(s: State) { exists steps: seq<Step> :: CanRun(s, steps) && After(s, steps).readyBegun }

  lemma {:induction false} ReadyNeedsStart(s: State, steps: seq<Step>)
    requires Inv(s) && CanRun(s, steps) && !s.readyBegun && !s.setup.InStart?
    ensures !After(s, steps).readyBegun
    decreases |steps|
  {
    if steps != [] {
      LoopIsSafe(s, [steps[0]]) by { assert [steps[0]][1..] == []; }
      ReadyNeedsStart(Next(s, steps[0]), steps[1..]);
    }
  }

  /** When the ready steps may still begin: exactly while the start steps run, whether the loop has returned or not. */
  lemma ReadyMayBeginExactly(s: State)
    requires Inv(s) && !s.readyBegun
    ensures MayBeginReady(s) <==> s.setup.InStart?
  {
    if s.setup.InStart? {
      var steps := [StartReturns(None)];
      assert steps[1..] == [] && CanRun(s, steps);
    }
    if MayBeginReady(s) {
      var steps: seq<Step> :| CanRun(s, steps) && After(s, steps).readyBegun;
      if !s.setup.InStart? { ReadyNeedsStart(s, steps); }
    }
  }

  /** But the goroutine of start and ready is not waited for: the task may be over, cancelled, and the ready steps begin
      after that. */
  lemma ReadyMayBeginAfterTheEnd() returns (ended: seq<Step>)
    ensures CanRun(INIT, ended) && After(INIT, ended).loop == Returned(None) && !After(INIT, ended).readyBegun
    ensures Enabled(After(INIT, ended), StartReturns(None)) && Next(After(INIT, ended), StartReturns(None)).readyBegun
  {
    ended := [Cancel, TakeDone];
    var s1 := Next(INIT, Cancel);
    assert ended[1..] == [TakeDone] && CanRun(s1, [TakeDone]) by {
      assert [TakeDone][1..] == [] && CanRun(Next(s1, TakeDone), []);
    }
    assert After(s1, [TakeDone]) == Next(s1, TakeDone) by { assert [TakeDone][1..] == []; }
  }

  // ----- the code -----------------------------------------------------------------------------------------------

  lemma {:induction false} RunThen(s: State, steps: seq<Step>, more: seq<Step>)
    requires CanRun(s, steps) && CanRun(After(s, steps), more)
    ensures CanRun(s, steps + more) && After(s, steps + more) == After(After(s, steps), more)
    decreases |steps|
  {
    if steps == [] {
      assert steps + more == more;
    } else {
      RunThen(Next(s, steps[0]), steps[1..], more);
      assert (steps + more)[1..] == steps[1..] + more;
    }
  }

  // ----- which signal's steps run -------------------------------------------------------------------------------

  /** Arrival i is the one that is pending at the end: none has been taken since, and every one before it had been. */
  predicate FirstPending(steps: seq<Step>, i: nat) {
    && i < |steps| && steps[i].Arrive?
    && (forall k | i < k < |steps| :: !steps[k].TakeSignal?)
    && (forall j | 0 <= j < i && steps[j].Arrive? :: TakenSince(steps, j, i))
  }

  /** A signal is taken between arrival j and n. */
  predicate TakenSince(steps: seq<Step>, j: nat, n: nat)
    requires n <= |steps|
  {
    exists k | j < k < n :: steps[k].TakeSignal?
  }

  /** The slot holds the first arrival since a signal was last taken, and is empty if there is none. */
  predicate SlotOk(steps: seq<Step>, signal: Option<string>) {
    match signal
    case Some(sig) => exists i | 0 <= i < |steps| :: FirstPending(steps, i) && steps[i].sig == sig
    case None => forall j | 0 <= j < |steps| && steps[j].Arrive? :: TakenSince(steps, j, |steps|)
  }

  lemma TakenStill(steps: seq<Step>, step: Step, j: nat, n: nat)
    requires n <= |steps| && TakenSince(steps, j, n)
    ensures TakenSince(steps + [step], j, n) && TakenSince(steps + [step], j, |steps| + 1)
  {
    var k :| j < k < n && steps[k].TakeSignal?;
    assert (steps + [step])[k].TakeSignal?;
  }

  lemma SlotAfter(s: State, steps: seq<Step>, step: Step)
    requires Enabled(s, step) && SlotOk(steps, s.signal)
    ensures SlotOk(steps + [step], Next(s, step).signal)
  {
    var more, n := steps + [step], |steps|;
    match s.signal
    case Some(sig) =>
      var i :| 0 <= i < n && FirstPending(steps, i) && steps[i].sig == sig;
      if step.TakeSignal? {
        assert more[n].TakeSignal?;
        forall j | 0 <= j < n + 1 && more[j].Arrive? ensures TakenSince(more, j, n + 1) {}
      } else {
        forall j | 0 <= j < i && more[j].Arrive? ensures TakenSince(more, j, i) { TakenStill(steps, step, j, i); }
        assert FirstPending(more, i) && more[i].sig == sig;
      }
    case None =>
      forall j | 0 <= j < n && more[j].Arrive? ensures TakenSince(more, j, n) && TakenSince(more, j, n + 1) {
        TakenStill(steps, step, j, n);
      }
      if step.Arrive? { assert FirstPending(more, n); }
  }

  lemma {:induction false} SlotHolds(steps: seq<Step>)
    requires CanRun(INIT, steps)
    ensures SlotOk(steps, After(INIT, steps).signal)
    decreases |steps|
  {
    hide Next, Enabled;
    if steps != [] {
      var n := |steps| - 1;
      RunSplits(INIT, steps[..n], steps[n]) by { assert steps == steps[..n] + [steps[n]]; }
      assert steps == steps[..n] + [steps[n]];
      SlotHolds(steps[..n]);
      SlotAfter(After(INIT, steps[..n]), steps[..n], steps[n]);
    }
  }

  lemma {:induction false} RunSplits(s: State, steps: seq<Step>, step: Step)
    requires CanRun(s, steps + [step])
    ensures CanRun(s, steps) && Enabled(After(s, steps), step)
    ensures After(s, steps + [step]) == Next(After(s, steps), step)
    decreases |steps|
  {
    hide Next, Enabled;
    if steps == [] {
      assert steps + [step] == [step];
      assert [step][1..] == [];
      assert After(s, [step]) == After(Next(s, step), []);
    } else {
      assert (steps + [step])[1..] == steps[1..] + [step] && (steps + [step])[0] == steps[0];
      RunSplits(Next(s, steps[0]), steps[1..], step);
    }
  }

  /** The history is that of the run: what start, ready and a signal's steps came back with, and whether it was cancelled. */
  ghost predicate HistoryOk(steps: seq<Step>, s: State) {
    && (forall err :: s.startErr == Some(err) <==> StartReturns(err) in steps)
    && (forall err :: s.readyErr == Some(err) <==> ReadyReturns(err) in steps)
    && (s.setup.Finished? && s.setup.err.Some? ==> StartReturns(s.setup.err) in steps || ReadyReturns(s.setup.err) in steps)
    && (s.cancelled <==> Cancel in steps)
    && (s.signalFailed ==> s.loop.Returned? && SignalReturns(s.loop.err) in steps)
    && (!s.signalFailed ==> forall err :: SignalReturns(Some(err)) !in steps)
  }

  lemma HistoryAfter(s: State, steps: seq<Step>, step: Step)
    requires Enabled(s, step) && Inv(s) && HistoryOk(steps, s)
    ensures HistoryOk(steps + [step], Next(s, step))
  {
    assert forall x :: x in steps + [step] <==> x in steps || x == step;
  }

  lemma {:induction false} HistoryIsTrue(steps: seq<Step>)
    requires CanRun(INIT, steps)
    ensures HistoryOk(steps, After(INIT, steps))
    decreases |steps|
  {
    hide Next, Enabled;
    if steps != [] {
      var n := |steps| - 1;
      assert steps == steps[..n] + [steps[n]];
      RunSplits(INIT, steps[..n], steps[n]);
      HistoryIsTrue(steps[..n]);
      LoopIsSafe(INIT, steps[..n]);
      HistoryAfter(After(INIT, steps[..n]), steps[..n], steps[n]);
    }
  }

  /** How the loop ends, by what has happened: without error only if cancelled; with an error that the start steps, the
      ready steps or a signal's came back with; and SIGTERM is sent only if start and ready have come back without one. */
  lemma EndsByWhatHappened(steps: seq<Step>)
    requires CanRun(INIT, steps)
    ensures var s := After(INIT, steps);
      && (s.loop == Returned(None) ==> Cancel in steps)
      && (s.loop.Returned? && s.loop.err.Some? ==>
            StartReturns(s.loop.err) in steps || ReadyReturns(s.loop.err) in steps || SignalReturns(s.loop.err) in steps)
      && (s.sigterms > 0 ==> s.sigterms == 1 && StartReturns(None) in steps && ReadyReturns(None) in steps)
  {
    LoopIsSafe(INIT, steps);
    HistoryIsTrue(steps);
    hide Next, Enabled;
  }

  /** The steps the loop runs for a signal are those of the first one to arrive since it last took one: later ones are
      dropped, and none is made up. */
  lemma SignalIsTheFirstPending(steps: seq<Step>) returns (i: nat)
    requires CanRun(INIT, steps) && Enabled(After(INIT, steps), TakeSignal)
    ensures FirstPending(steps, i) && Next(After(INIT, steps), TakeSignal).loop == InSignal(steps[i].sig)
    ensures Next(After(INIT, steps), TakeSignal).signal.None?
  {
    SlotHolds(steps);
    i :| 0 <= i < |steps| && FirstPending(steps, i) && steps[i].sig == After(INIT, steps).signal.value;
  }

  ghost predicate Reached(s: State) { exists steps: seq<Step> :: CanRun(INIT, steps) && After(INIT, steps) == s }

  /** The steps that are not the loop's own. */
  predicate Outside(step: Step) {
    step.StartReturns? || step.ReadyReturns? || step.Post? || step.Cancel? || step.Arrive?
  }

  ghost predicate LedOutside(s: State, s': State) {
    exists steps: seq<Step> :: CanRun(s, steps) && After(s, steps) == s' && forall k | 0 <= k < |steps| :: Outside(steps[k])
  }

  lemma ReachedOutside(s: State, s': State)
    requires Reached(s) && LedOutside(s, s')
    ensures Reached(s') && s'.loop == s.loop
  {
    hide Enabled, Next;
    var a: seq<Step> :| CanRun(INIT, a) && After(INIT, a) == s;
    var b: seq<Step> :| CanRun(s, b) && After(s, b) == s' && forall k | 0 <= k < |b| :: Outside(b[k]);
    RunThen(INIT, a, b);
    LoopStands(s, b);
  }

  lemma {:induction false} LoopStands(s: State, steps: seq<Step>)
    requires CanRun(s, steps) && forall k | 0 <= k < |steps| :: Outside(steps[k])
    ensures After(s, steps).loop == s.loop
    decreases |steps|
  {
    if steps != [] {
      assert Outside(steps[0]);
      LoopStands(Next(s, steps[0]), steps[1..]);
    }
  }

  lemma ReachedByStep(s: State, step: Step)
    requires Reached(s) && Enabled(s, step)
    ensures Reached(Next(s, step))
  {
    hide Enabled, Next;
    var a: seq<Step> :| CanRun(INIT, a) && After(INIT, a) == s;
    assert [step][1..] == [] && CanRun(Next(s, step), []);
    RunThen(INIT, a, [step]);
  }

  /** A turn of the loop from s to s': if anything is ready it takes one of them, and nothing else is taken. */
  ghost predicate Turned(s: State, took: Option<Step>, s': State, answer: Option<string>) {
    match took
    case None => !s.cancelled && !(s.setup.Finished? && s.sent && s.listening) && s.signal.None? && s' == s
    case Some(TakeDone) => s.cancelled && s' == s.(loop := Returned(None))
    case Some(TakeSetup) =>
      && s.setup.Finished? && s.sent && s.listening && s.loop.Selecting?
      && s' == if s.setup.err.Some? then s.(loop := Returned(s.setup.err)) else s.(sigterms := s.sigterms + 1, listening := false)
    case Some(TakeSignal) =>
      s.signal.Some? && exists mid: State ::
        && LedOutside(s.(loop := InSignal(s.signal.value), signal := None), mid) && mid.loop == InSignal(s.signal.value)
        && s' == if answer.None? then mid.(loop := Selecting) else mid.(loop := Returned(answer), signalFailed := true)
    case _ => false
  }

  /** A turn: the state its select finds, what it takes, and what that makes of the state. */
  datatype View = View(seen: State, took: Option<Step>, after: State)

  /** Turn number i follows on the one before, the rest having moved in between. */
  ghost predicate Follows(views: seq<View>, i: nat, answers: nat -> Option<string>)
    requires i < |views|
  {
    && Turned(views[i].seen, views[i].took, views[i].after, answers(i))
    && LedOutside(if i == 0 then INIT else views[i - 1].after, views[i].seen)
  }

  ghost predicate Watched(views: seq<View>, answers: nat -> Option<string>) {
    forall i | 0 <= i < |views| :: Follows(views, i, answers)
  }

  lemma WatchedMore(views: seq<View>, v: View, answers: nat -> Option<string>)
    requires Watched(views, answers) && Turned(v.seen, v.took, v.after, answers(|views|))
    requires LedOutside(if views == [] then INIT else views[|views| - 1].after, v.seen)
    ensures Watched(views + [v], answers)
  {
    hide Turned, LedOutside;
    var more := views + [v];
    forall i | 0 <= i < |more| ensures Follows(more, i, answers) {
      if i < |views| { assert Follows(views, i, answers); }
    }
  }

  // Each thing taken, with its change of the state written out.

  lemma ByDone(s: State)
    requires Reached(s) && s.loop.Selecting? && s.cancelled
    ensures Reached(s.(loop := Returned(None)))
  {
    hide Reached;
    ReachedByStep(s, TakeDone);
  }

  lemma BySetup(s: State)
    requires Reached(s) && s.loop.Selecting? && s.sent && s.listening && s.setup.Finished?
    ensures Reached(
      if s.setup.err.Some? then s.(loop := Returned(s.setup.err)) else s.(sigterms := s.sigterms + 1, listening := false))
  {
    hide Reached;
    ReachedByStep(s, TakeSetup);
  }

  lemma BySignal(s: State)
    requires Reached(s) && s.loop.Selecting? && s.signal.Some?
    ensures Reached(s.(loop := InSignal(s.signal.value), signal := None))
  {
    hide Reached;
    ReachedByStep(s, TakeSignal);
  }

  class Loaded {
    var state: State

    constructor ()
      ensures state == INIT && Reached(state)
    {
      state := INIT;
      assert CanRun(INIT, []) && After(INIT, []) == INIT;
    }

    /** The goroutine of start and ready, the signals and the cancellation, for a while; callers know only the contract. */
    method Others()
      modifies this
      ensures LedOutside(old(state), state)
    {
      assert CanRun(state, []) && After(state, []) == state;
    }

    /** A run of a signal's steps, during which the rest goes on. */
    method RunSignal(sig: string, err: Option<string>) returns (ghost seen: State)
      requires Reached(state) && state.loop == InSignal(sig)
      modifies this
      ensures Reached(state) && LedOutside(old(state), seen) && seen.loop == InSignal(sig)
      ensures state == if err.None? then seen.(loop := Selecting) else seen.(loop := Returned(err), signalFailed := true)
    {
      ghost var here := state;
      Others();
      seen := state;
      ReachedOutside(here, state);
      ReachedByStep(state, SignalReturns(err));
      state := if err.None? then state.(loop := Selecting) else state.(loop := Returned(err), signalFailed := true);
    }

    /** One turn of the select: whichever is ready is taken, any of them if several are. Seen is the state it finds. */
    method Turn(answer: Option<string>) returns (took: Option<Step>, ghost seen: State)
      requires Reached(state) && state.loop.Selecting?
      modifies this
      ensures Reached(state) && LedOutside(old(state), seen) && Turned(seen, took, state, answer)
      ensures state.loop.Selecting? || state.loop.Returned?
    {
      ghost var here := state;
      Others();
      ReachedOutside(here, state);
      seen := state;
      hide Reached, LedOutside, Enabled, Next;
      if
      case state.cancelled =>
        took := Some(TakeDone);
        ByDone(state);
        state := state.(loop := Returned(None));
      case state.sent && state.listening && state.setup.Finished? =>
        took := Some(TakeSetup);
        BySetup(state);
        if state.setup.err.Some? {
          state := state.(loop := Returned(state.setup.err));
        } else {
          state := state.(sigterms := state.sigterms + 1, listening := false);
        }
      case state.signal.Some? =>
        took := Some(TakeSignal);
        BySignal(state);
        var sig := state.signal.value;
        state := state.(loop := InSignal(sig), signal := None);
        ghost var mid := RunSignal(sig, answer);
      case !state.cancelled && !(state.sent && state.listening && state.setup.Finished?) && state.signal.None? =>
        took := None;
    }

    /** The loop, watched for a number of turns: it ends early only by returning. */
    method Loop(answers: nat -> Option<string>, turns: nat) returns (err: Option<string>, returned: bool, ghost views: seq<View>)
      requires state == INIT
      modifies this
      ensures Reached(state) && (returned <==> state.loop.Returned?) && (returned ==> state.loop == Returned(err))
      ensures state.sigterms <= 1 && (state.sigterms == 1 ==> BothDone(state))
      ensures returned && err.None? ==> state.cancelled
      ensures returned && err.Some? ==> state.signalFailed || state.setup == Finished(err)
      ensures Watched(views, answers) && |views| <= turns && (!returned ==> |views| == turns)
      ensures state == if views == [] then INIT else views[|views| - 1].after
    {
      assert CanRun(INIT, []) && After(INIT, []) == INIT;
      hide Reached, LedOutside, Turned, Inv, BothDone;
      err, returned, views := None, false, [];
      assert Watched(views, answers);
      hide Watched;
      for turn := 0 to turns
        invariant Reached(state) && state.loop.Selecting? && !returned && err.None?
        invariant |views| == turn && Watched(views, answers)
        invariant state == if views == [] then INIT else views[|views| - 1].after
      {
        var took: Option<Step>;
        ghost var seen: State;
        took, seen := Turn(answers(turn));
        WatchedMore(views, View(seen, took, state), answers);
        views := views + [View(seen, took, state)];
        if state.loop.Returned? {
          err, returned := state.loop.err, true;
          break;
        }
      }
      ReachedIsSafe(state);
    }
  }

  lemma ReachedIsSafe(s: State)
    requires Reached(s)
    ensures s.sigterms <= 1 && (s.sigterms == 1 ==> BothDone(s))
    ensures s.loop == Returned(None) ==> s.cancelled
    ensures s.loop.Returned? && s.loop.err.Some? ==> s.signalFailed || s.setup == Finished(s.loop.err)
  {
    var steps: seq<Step> :| CanRun(INIT, steps) && After(INIT, steps) == s;
    LoopIsSafe(INIT, steps);
  }
}
