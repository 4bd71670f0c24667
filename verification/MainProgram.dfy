/**
  main.go: what is validated before anything is bound, what is started in which order, and the order of the end.
  Every effect is an event of a trace; what the outside does is a parameter.
*/
module MainProgram {
  import opened Options

  datatype Flags = Flags(
    printVersion: bool, port: nat, portSet: bool, socket: string, workflow: bool, transports: seq<string>)

  datatype Addr = NoAddr | Loopback(port: nat) | Socket(path: string)

  /** A task to start: its kind, and where it listens. */
  datatype Entry = Entry(kind: string, addr: Addr)

  /** What wakes main once everything runs: a signal, or an error on Failed. */
  datatype Wake = Signalled | Fatal

  /** --socket alone drops the default port. */
  function Listeners(f: Flags): seq<Entry> {
    (if f.portSet || f.socket == "" then [Entry("http", Loopback(f.port))] else [])
    + (if f.socket != "" then [Entry("http", Socket(f.socket))] else [])
  }

  function Transports(names: seq<string>): seq<Entry> {
    seq(|names|, i requires 0 <= i < |names| => Entry(names[i], NoAddr))
  }

  /** Every task, in the order it is started in: the listeners first, the workflow last. */
  function All(f: Flags): seq<Entry> {
    Listeners(f) + [Entry("usage", NoAddr)] + Transports(f.transports)
    + (if f.workflow then [Entry("workflow", NoAddr)] else [])
  }

  /** The list in words: a listener on loopback first, unless --socket stands alone; then the one on the socket, if one is
      named; usage; the transports as they are listed; and the workflow last, if there is a document. */
  predicate InOrder(f: Flags, all: seq<Entry>) {
    var ports := if f.portSet || f.socket == "" then 1 else 0;
    var usage := ports + (if f.socket != "" then 1 else 0);
    var names := usage + 1 + |f.transports|;
    && |all| == names + (if f.workflow then 1 else 0)
    && (ports == 1 ==> all[0] == Entry("http", Loopback(f.port)))
    && (f.socket != "" ==> all[ports] == Entry("http", Socket(f.socket)))
    && all[usage] == Entry("usage", NoAddr)
    && (forall i | 0 <= i < |f.transports| :: all[usage + 1 + i] == Entry(f.transports[i], NoAddr))
    && (f.workflow ==> all[names] == Entry("workflow", NoAddr))
  }

  /** No other list is in order. */
  lemma OneOrder(f: Flags, all: seq<Entry>)
    ensures InOrder(f, all) <==> all == All(f)
  {
    var usage := |Listeners(f)|;
    if InOrder(f, all) {
      assert all[..usage] == Listeners(f);
      assert all[usage + 1..usage + 1 + |f.transports|] == Transports(f.transports);
    }
  }

  predicate Valid(f: Flags, parses: bool, loads: bool) { parses && (f.workflow ==> loads) }

  /** Whatever the flags, the API listens somewhere. */
  lemma AlwaysListens(f: Flags)
    ensures Listeners(f) != [] && forall i | 0 <= i < |Listeners(f)| :: Listeners(f)[i].kind == "http"
  {
  }

  // ----- main as steps over its stack of defers -----------------------------------------------------------------

  /** What flag.Parse makes of the command line: it exits by itself for -h, with 0, and for a bad flag, with 2. */
  datatype Parse = Parsed | Help | Bad

  /** What there is to see of a run of main. */
  datatype Event =
    | BadFlags | Usage | PrintVersion | Refused | Started(entry: Entry) | StartFailed
    | Woken(wake: Wake) | RunStop | StopFailed | Panicked | StopAll | Exit(code: nat)

  /** The two deferred functions: the exit with whatever the code is by then, and StopAll. */
  datatype Deferred = ExitWithCode | Cleanup

  datatype Pc =
    | AtFlags | Validating | Starting(next: nat) | Selecting | InStop
    | Leaving      // the body has returned or panicked; the deferred functions run, the last one first
    | InCleanup    // in the deferred StopAll
    | Gone         // os.Exit has been called

  /** notified is history: whether NotifyContext, and the defer beside it, have been reached. */
  datatype State = State(pc: Pc, defers: seq<Deferred>, code: nat, notified: bool, trace: seq<Event>)

  const ENTERED := State(AtFlags, [ExitWithCode], 0, false, [])

  /** Whatever main calls may also panic, which runs the deferred functions. */
  datatype Step =
    | ParseFlags(parse: Parse)
    | Validate(parses: bool, loads: bool)
    | StartNext(ok: bool)
    | AllStarted
    | Wake(wake: Wake)
    | StopReturns(ok: bool)
    | Panic
    | RunDeferred
    | CleanupReturns

  predicate Enabled(f: Flags, s: State, step: Step) {
    match step
    case ParseFlags(_) => s.pc.AtFlags?
    case Validate(_, _) => s.pc.Validating?
    case StartNext(_) => s.pc.Starting? && s.pc.next < |All(f)|
    case AllStarted => s.pc.Starting? && s.pc.next == |All(f)|
    case Wake(_) => s.pc.Selecting?
    case StopReturns(_) => s.pc.InStop?
    case Panic =>
      || s.pc.AtFlags? || s.pc.Validating? || (s.pc.Starting? && s.pc.next < |All(f)|) || s.pc.InStop? || s.pc.InCleanup?
    case RunDeferred => s.pc.Leaving? && s.defers != []
    case CleanupReturns => s.pc.InCleanup?
  }

  function See(s: State, e: Event): State { s.(trace := s.trace + [e]) }

  function Next(f: Flags, s: State, step: Step): State
    requires Enabled(f, s, step)
  {
    match step
    case ParseFlags(parse) =>
      if parse.Bad? then See(See(s, BadFlags), Exit(2)).(pc := Gone)
      else if parse.Help? then See(See(s, Usage), Exit(0)).(pc := Gone)
      else if f.printVersion then See(s, PrintVersion).(pc := Leaving)
      else s.(pc := Validating, defers := s.defers + [Cleanup], notified := true)
    case Validate(parses, loads) =>
      if Valid(f, parses, loads) then s.(pc := Starting(0)) else See(s, Refused).(pc := Leaving, code := 1)
    case StartNext(ok) =>
      if ok then See(s, Started(All(f)[s.pc.next])).(pc := Starting(s.pc.next + 1))
      else See(s, StartFailed).(pc := Leaving, code := 1)
    case AllStarted => s.(pc := Selecting)
    case Wake(wake) =>
      See(See(s, Woken(wake)), RunStop).(pc := InStop, code := if wake.Fatal? then 1 else s.code)
    case StopReturns(ok) => if ok then s.(pc := Leaving) else See(s, StopFailed).(pc := Leaving, code := 1)
    case Panic => See(s, Panicked).(pc := Leaving)
    case RunDeferred =>
      var last := s.defers[|s.defers| - 1];
      var s' := s.(defers := s.defers[..|s.defers| - 1]);
      if last.Cleanup? then See(s', StopAll).(pc := InCleanup) else See(s', Exit(s.code)).(pc := Gone)
    case CleanupReturns => s.(pc := Leaving)
  }

  predicate CanRun(f: Flags, s: State, steps: seq<Step>)
    decreases |steps|
  {
    steps == [] || (Enabled(f, s, steps[0]) && CanRun(f, Next(f, s, steps[0]), steps[1..]))
  }

  function After(f: Flags, s: State, steps: seq<Step>): State
    requires CanRun(f, s, steps)
    decreases |steps|
  {
    if steps == [] then s else After(f, Next(f, s, steps[0]), steps[1..])
  }

  ghost predicate Reached(f: Flags, s: State) {
    exists steps: seq<Step> :: CanRun(f, ENTERED, steps) && After(f, ENTERED, steps) == s
  }

  // ----- what every run keeps -----------------------------------------------------------------------------------

  function StartedAll(entries: seq<Entry>): seq<Event> {
    seq(|entries|, i requires 0 <= i < |entries| => Started(entries[i]))
  }

  /** The events that make the exit code 1. */
  predicate Fails(e: Event) { e.Refused? || e.StartFailed? || e == Woken(Fatal) || e.StopFailed? }

  predicate Failed(trace: seq<Event>) { exists i | 0 <= i < |trace| :: Fails(trace[i]) }

  /** The beginning of the trace once everything is up and main has been woken. */
  predicate Up(f: Flags, trace: seq<Event>) {
    var n := |All(f)|;
    n + 2 <= |trace| && trace[..n] == StartedAll(All(f)) && trace[n].Woken? && trace[n + 1].RunStop?
  }

  /** Some task, in order, was not started. */
  predicate Broken(f: Flags, trace: seq<Event>) { exists i | 0 <= i < |All(f)| && i < |trace| :: !trace[i].Started? }

  function Count(trace: seq<Event>, e: Event): nat {
    if trace == [] then 0
    else Count(trace[..|trace| - 1], e) + (if trace[|trace| - 1] == e then 1 else 0)
  }

  predicate HasExit(trace: seq<Event>) { exists i | 0 <= i < |trace| :: trace[i].Exit? }

  /** In the body nothing has failed; after it something was not started, or everything was and main has been woken. */
  predicate BodyOk(f: Flags, s: State) {
    match s.pc
    case AtFlags => s.trace == []
    case Validating => s.trace == []
    case Starting(i) => i <= |All(f)| && s.trace == StartedAll(All(f)[..i])
    case Selecting => s.trace == StartedAll(All(f))
    case InStop => Up(f, s.trace)
    case _ => Up(f, s.trace) || Broken(f, s.trace)
  }

  predicate InBody(pc: Pc) { pc.Validating? || pc.Starting? || pc.Selecting? || pc.InStop? }

  /** The deferred StopAll stands to be run from NotifyContext on until it is run, and is run once. */
  predicate DefersOk(s: State) {
    && (s.pc.AtFlags? ==> s.defers == [ExitWithCode] && !s.notified)
    && (InBody(s.pc) ==> s.defers == [ExitWithCode, Cleanup] && s.notified)
    && (s.pc.Leaving? ==> s.defers == [ExitWithCode] || (s.defers == [ExitWithCode, Cleanup] && s.notified))
    && (s.pc.InCleanup? ==> s.defers == [ExitWithCode] && s.notified)
    && Count(s.trace, StopAll) == (if s.notified && s.defers != [ExitWithCode, Cleanup] then 1 else 0)
    && (s.pc.Gone? ==> s.defers != [ExitWithCode, Cleanup])
  }

  /** The stop steps run once, when every task has been started in order and main has been woken. */
  predicate StopOk(f: Flags, trace: seq<Event>) {
    forall i | 0 <= i < |trace| && trace[i].RunStop? :: Up(f, trace) && i == |All(f)| + 1
  }

  /** Nothing is started before the flags and the document are accepted, and what is, in order. */
  predicate OrderOk(f: Flags, trace: seq<Event>) {
    forall i | 0 <= i < |trace| ::
      && (trace[i].Refused? ==> i == 0)
      && (trace[i].Started? ==> i < |All(f)| && trace[i].entry == All(f)[i] && forall j | 0 <= j < i :: trace[j].Started?)
  }

  /** What made flag.Parse exit by itself, if anything did. */
  function AtOnce(trace: seq<Event>): Option<Event> {
    if BadFlags in trace then Some(BadFlags) else if Usage in trace then Some(Usage) else None
  }

  /** An exit of flag.Parse runs no deferred function; otherwise the code is 1 exactly if something has failed. */
  predicate CodeOk(s: State) {
    && (!s.pc.Gone? ==> !HasExit(s.trace) && AtOnce(s.trace).None? && s.code == if Failed(s.trace) then 1 else 0)
    && (s.pc.Gone? ==>
          && |s.trace| > 0 && !HasExit(s.trace[..|s.trace| - 1])
          && match AtOnce(s.trace)
             case Some(e) => s.trace == [e, Exit(if e.BadFlags? then 2 else 0)]
             case None => s.trace[|s.trace| - 1] == Exit(if Failed(s.trace) then 1 else 0))
  }

  predicate Inv(f: Flags, s: State) { BodyOk(f, s) && DefersOk(s) && StopOk(f, s.trace) && OrderOk(f, s.trace) && CodeOk(s) }

  lemma CountMore(trace: seq<Event>, e: Event, x: Event)
    ensures Count(trace + [x], e) == Count(trace, e) + (if x == e then 1 else 0)
  {
    assert (trace + [x])[..|trace|] == trace;
  }

  /** One more event. */
  lemma SeeMore(f: Flags, trace: seq<Event>, x: Event)
    ensures Failed(trace + [x]) <==> Failed(trace) || Fails(x)
    ensures HasExit(trace + [x]) <==> HasExit(trace) || x.Exit?
    ensures BadFlags in trace + [x] <==> BadFlags in trace || x == BadFlags
    ensures Usage in trace + [x] <==> Usage in trace || x == Usage
    ensures Count(trace + [x], StopAll) == Count(trace, StopAll) + (if x == StopAll then 1 else 0)
    ensures Up(f, trace) ==> Up(f, trace + [x])
    ensures Broken(f, trace) ==> Broken(f, trace + [x])
    ensures StopOk(f, trace) && !x.RunStop? ==> StopOk(f, trace + [x])
    ensures OrderOk(f, trace) && !x.Refused? && !x.Started? ==> OrderOk(f, trace + [x])
  {
    CountMore(trace, StopAll, x);
    var t := trace + [x];
    assert t[..|trace|] == trace && t[|trace|] == x;
    if Failed(trace) {
      var i :| 0 <= i < |trace| && Fails(trace[i]);
      assert Fails(t[i]);
    }
    if Fails(x) { assert Fails(t[|trace|]); }
    if HasExit(trace) {
      var i :| 0 <= i < |trace| && trace[i].Exit?;
      assert t[i].Exit?;
    }
    if x.Exit? { assert t[|trace|].Exit?; }
    if Up(f, trace) { assert t[..|All(f)|] == trace[..|All(f)|]; }
    if Broken(f, trace) {
      var i :| 0 <= i < |All(f)| && i < |trace| && !trace[i].Started?;
      assert !t[i].Started?;
    }
    hide All, StartedAll, Count;
  }

  lemma StartedTrace(f: Flags, i: nat)
    requires i <= |All(f)|
    ensures var t := StartedAll(All(f)[..i]); !Failed(t) && !HasExit(t) && AtOnce(t).None? && Count(t, StopAll) == 0
  {
    hide All;
    var t := StartedAll(All(f)[..i]);
    NoneCounted(t);
    hide StartedAll, Count;
  }

  lemma {:induction false} NoneCounted(t: seq<Event>)
    requires forall i | 0 <= i < |t| :: t[i].Started?
    ensures Count(t, StopAll) == 0
  {
    if t != [] { NoneCounted(t[..|t| - 1]); }
  }

  /** Something that is not a start, among the events that should be starts. */
  lemma Breaks(f: Flags, trace: seq<Event>, x: Event)
    requires |trace| < |All(f)| && !x.Started?
    ensures Broken(f, trace + [x])
  {
    assert (trace + [x])[|trace|] == x;
    hide All;
  }

  lemma SomethingToStart(f: Flags)
    ensures |All(f)| > 0
  {
  }

  lemma StartedSoFar(f: Flags, i: nat)
    requires i <= |All(f)|
    ensures StartedAll(All(f)[..0]) == [] && All(f)[..|All(f)|] == All(f) && |StartedAll(All(f)[..i])| == i
    ensures i < |All(f)| ==> StartedAll(All(f)[..i + 1]) == StartedAll(All(f)[..i]) + [Started(All(f)[i])]
    ensures OrderOk(f, StartedAll(All(f)[..i])) && OrderOk(f, [Refused])
  {
    hide All;
  }

  lemma ParseStep(f: Flags, s: State, parse: Parse)
    requires Inv(f, s) && Enabled(f, s, ParseFlags(parse))
    ensures Inv(f, Next(f, s, ParseFlags(parse)))
  {
    hide All, StartedAll, Up, Broken, Failed, HasExit, Count, StopOk, OrderOk, Valid;
    SomethingToStart(f);
    if parse.Bad? {
      SeeMore(f, s.trace, BadFlags);
      SeeMore(f, s.trace + [BadFlags], Exit(2));
      Breaks(f, s.trace, BadFlags);
      assert (s.trace + [BadFlags] + [Exit(2)])[..|s.trace| + 1] == s.trace + [BadFlags];
    } else if parse.Help? {
      SeeMore(f, s.trace, Usage);
      SeeMore(f, s.trace + [Usage], Exit(0));
      Breaks(f, s.trace, Usage);
      assert (s.trace + [Usage] + [Exit(0)])[..|s.trace| + 1] == s.trace + [Usage];
    } else if f.printVersion {
      SeeMore(f, s.trace, PrintVersion);
      Breaks(f, s.trace, PrintVersion);
    }
  }

  lemma StartStep(f: Flags, s: State, step: Step)
    requires Inv(f, s) && Enabled(f, s, step) && (step.Validate? || step.StartNext? || step.AllStarted?)
    ensures Inv(f, Next(f, s, step))
  {
    hide All, StartedAll, Up, Broken, Failed, HasExit, Count, StopOk, OrderOk, Valid;
    SomethingToStart(f);
    if step.Validate? {
      SeeMore(f, s.trace, Refused);
      Breaks(f, s.trace, Refused);
      StartedSoFar(f, 0);
      assert s.trace + [Refused] == [Refused];
    } else {
      StartedSoFar(f, s.pc.next);
      if step.StartNext? {
        StartedSoFar(f, s.pc.next + 1);
        SeeMore(f, s.trace, Started(All(f)[s.pc.next]));
        SeeMore(f, s.trace, StartFailed);
        Breaks(f, s.trace, StartFailed);
      }
    }
  }

  lemma Wakes(f: Flags, trace: seq<Event>, wake: Wake)
    requires trace == StartedAll(All(f)) && StopOk(f, trace)
    ensures Up(f, trace + [Woken(wake)] + [RunStop]) && StopOk(f, trace + [Woken(wake)] + [RunStop])
  {
    var t := trace + [Woken(wake)] + [RunStop];
    assert t[..|All(f)|] == trace;
    hide All;
  }

  lemma WakeStep(f: Flags, s: State, wake: Wake)
    requires Inv(f, s) && Enabled(f, s, Step.Wake(wake))
    ensures Inv(f, Next(f, s, Step.Wake(wake)))
  {
    hide All, StartedAll, Up, Broken, Failed, HasExit, Count, StopOk, OrderOk, Valid;
    SeeMore(f, s.trace, Woken(wake));
    SeeMore(f, s.trace + [Woken(wake)], RunStop);
    Wakes(f, s.trace, wake);
    StartedTrace(f, |All(f)|);
    StartedSoFar(f, |All(f)|);
  }

  lemma LeaveStep(f: Flags, s: State, step: Step)
    requires Inv(f, s) && Enabled(f, s, step) && (step.StopReturns? || step.CleanupReturns? || step.Panic?)
    ensures Inv(f, Next(f, s, step))
  {
    hide All, StartedAll, Up, Broken, Failed, HasExit, Count, StopOk, OrderOk, Valid;
    SomethingToStart(f);
    SeeMore(f, s.trace, StopFailed);
    SeeMore(f, s.trace, Panicked);
    if s.pc.Starting? { StartedSoFar(f, s.pc.next); }
    if |s.trace| < |All(f)| { Breaks(f, s.trace, Panicked); }
  }

  lemma DeferredStep(f: Flags, s: State)
    requires Inv(f, s) && Enabled(f, s, RunDeferred)
    ensures Inv(f, Next(f, s, RunDeferred))
  {
    hide All, StartedAll, Up, Broken, Failed, HasExit, Count, StopOk, OrderOk, Valid;
    SeeMore(f, s.trace, StopAll);
    SeeMore(f, s.trace, Exit(s.code));
    assert (s.trace + [Exit(s.code)])[..|s.trace|] == s.trace;
  }

  lemma StepKeepsInv(f: Flags, s: State, step: Step)
    requires Inv(f, s) && Enabled(f, s, step)
    ensures Inv(f, Next(f, s, step))
  {
    hide Inv, Next;
    match step
    case Wake(wake) => WakeStep(f, s, wake);
    case RunDeferred => DeferredStep(f, s);
    case StopReturns(_) => LeaveStep(f, s, step);
    case Panic => LeaveStep(f, s, step);
    case CleanupReturns => LeaveStep(f, s, step);
    case ParseFlags(parse) => ParseStep(f, s, parse);
    case _ => StartStep(f, s, step);
  }

  lemma {:induction false} RunKeepsInv(f: Flags, s: State, steps: seq<Step>)
    requires Inv(f, s) && CanRun(f, s, steps)
    ensures Inv(f, After(f, s, steps))
    decreases |steps|
  {
    hide Inv, Next, Enabled;
    if steps != [] {
      StepKeepsInv(f, s, steps[0]);
      RunKeepsInv(f, Next(f, s, steps[0]), steps[1..]);
    }
  }

  lemma ReachedInv(f: Flags, s: State)
    requires Reached(f, s)
    ensures Inv(f, s)
  {
    var steps: seq<Step> :| CanRun(f, ENTERED, steps) && After(f, ENTERED, steps) == s;
    RunKeepsInv(f, ENTERED, steps);
  }

  // ----- the order of the end -----------------------------------------------------------------------------------

  /** In every run the stop steps are run at most once, after every task has been started in order and main has been woken,
      and so before StopAll. */
  lemma StopStepsOnce(f: Flags, s: State, i: nat)
    requires Reached(f, s) && i < |s.trace| && s.trace[i].RunStop?
    ensures i == |All(f)| + 1 && s.trace[..|All(f)|] == StartedAll(All(f)) && s.trace[|All(f)|].Woken?
    ensures forall j | 0 <= j < i :: !s.trace[j].StopAll?
  {
    ReachedInv(f, s);
    assert s.trace[..|All(f)|] == StartedAll(All(f));
    forall j | 0 <= j < i ensures !s.trace[j].StopAll? {
      if j < |All(f)| { assert s.trace[j] == s.trace[..|All(f)|][j]; }
    }
    hide All;
  }

  /** When main is gone: its last event, and no other, is the exit; StopAll was run exactly once if NotifyContext had been
      reached and not at all otherwise, panic or not; and the stop steps were run exactly if every task had been started. */
  lemma Ends(f: Flags, s: State)
    requires Reached(f, s) && s.pc.Gone?
    ensures |s.trace| > 0 && forall i | 0 <= i < |s.trace| :: s.trace[i].Exit? <==> i == |s.trace| - 1
    ensures Count(s.trace, StopAll) == if s.notified then 1 else 0
    ensures RunStop in s.trace <==> StartedAll(All(f)) <= s.trace
  {
    ReachedInv(f, s);
    var n := |s.trace| - 1;
    assert forall i | 0 <= i < n :: s.trace[..n][i] == s.trace[i];
    hide All, Count, StartedAll;
    if Up(f, s.trace) {
      assert s.trace[|All(f)| + 1] == RunStop;
    } else if StartedAll(All(f)) <= s.trace {
      AllStartedIsNotBroken(f, s.trace);
    }
  }

  lemma AllStartedIsNotBroken(f: Flags, trace: seq<Event>)
    requires StartedAll(All(f)) <= trace
    ensures !Broken(f, trace)
  {
    forall i | 0 <= i < |All(f)| && i < |trace| ensures trace[i].Started? {
      assert trace[i] == StartedAll(All(f))[i];
    }
    hide All;
  }

  /** Tasks are started in order, from the first, and none if the flags or the document are refused. */
  lemma StartsInOrder(f: Flags, s: State, i: nat)
    requires Reached(f, s) && i < |s.trace| && s.trace[i].Started?
    ensures i < |All(f)| && s.trace[i] == Started(All(f)[i])
    ensures forall j | 0 <= j < i :: s.trace[j].Started?
    ensures Refused !in s.trace
  {
    ReachedInv(f, s);
    assert s.trace[0].Started?;
    hide All;
  }

  /** The exit code: 2 exactly for a bad flag, 1 exactly if the document or the flags were refused, a task did not start, an
      error came on Failed, or the stop steps failed; 0 in every other case, -h and a panic among them. Nothing but the exit
      follows a bad flag or -h: neither runs a deferred function. */
  lemma ExitCode(f: Flags, s: State)
    requires Reached(f, s) && s.pc.Gone?
    ensures |s.trace| > 0
    ensures s.trace[|s.trace| - 1] == Exit(2) <==> BadFlags in s.trace
    ensures s.trace[|s.trace| - 1] == Exit(1) <==> BadFlags !in s.trace && Failed(s.trace)
    ensures s.trace[|s.trace| - 1] == Exit(0) <==> BadFlags !in s.trace && !Failed(s.trace)
    ensures BadFlags in s.trace ==> s.trace == [BadFlags, Exit(2)]
    ensures Usage in s.trace ==> s.trace == [Usage, Exit(0)]
  {
    ReachedInv(f, s);
    hide All, Count;
  }

  /** A stop step that panics after a signal: StopAll still runs, and the exit code is 0. */
  lemma PanicExitsZero(f: Flags) returns (s: State)
    requires !f.printVersion && Valid(f, true, true)
    ensures Reached(f, s) && s.pc.Gone? && s.trace == StartedAll(All(f)) + [Woken(Signalled), RunStop, Panicked, StopAll, Exit(0)]
  {
    s := Starts(f);
    hide All, Valid, StartedAll;
    var t := s.trace;
    s := Take(f, s, Step.Wake(Signalled));
    s := Take(f, s, Panic);
    s := Take(f, s, RunDeferred);
    s := Take(f, s, CleanupReturns);
    s := Take(f, s, RunDeferred);
    assert s.trace == t + [Woken(Signalled), RunStop, Panicked, StopAll, Exit(0)];
  }

  /** Everything starts. */
  lemma Starts(f: Flags) returns (s: State)
    requires !f.printVersion && Valid(f, true, true)
    ensures Reached(f, s) && s == State(Selecting, [ExitWithCode, Cleanup], 0, true, StartedAll(All(f)))
  {
    hide All;
    s := EnteredReached(f);
    s := Take(f, s, ParseFlags(Parsed));
    s := Take(f, s, Validate(true, true));
    StartedSoFar(f, 0);
    var i := 0;
    while i < |All(f)|
      invariant i <= |All(f)| && Reached(f, s)
      invariant s == State(Starting(i), [ExitWithCode, Cleanup], 0, true, StartedAll(All(f)[..i]))
    {
      StartedSoFar(f, i);
      s := Take(f, s, StartNext(true));
      i := i + 1;
    }
    StartedSoFar(f, |All(f)|);
    s := Take(f, s, AllStarted);
  }

  lemma EnteredReached(f: Flags) returns (s: State)
    ensures s == ENTERED && Reached(f, s)
  {
    s := ENTERED;
    assert CanRun(f, ENTERED, []) && After(f, ENTERED, []) == ENTERED;
  }

  lemma Take(f: Flags, s: State, step: Step) returns (s': State)
    requires Reached(f, s) && Enabled(f, s, step)
    ensures s' == Next(f, s, step) && Reached(f, s')
  {
    hide Enabled, Next;
    var steps: seq<Step> :| CanRun(f, ENTERED, steps) && After(f, ENTERED, steps) == s;
    RunThen(f, ENTERED, steps, step);
    s' := Next(f, s, step);
  }

  lemma {:induction false} RunThen(f: Flags, s: State, steps: seq<Step>, step: Step)
    requires CanRun(f, s, steps) && Enabled(f, After(f, s, steps), step)
    ensures CanRun(f, s, steps + [step]) && After(f, s, steps + [step]) == Next(f, After(f, s, steps), step)
    decreases |steps|
  {
    hide Enabled, Next;
    if steps == [] {
      assert [step][1..] == [] && CanRun(f, Next(f, s, step), []);
      assert steps + [step] == [step];
    } else {
      RunThen(f, Next(f, s, steps[0]), steps[1..], step);
      assert (steps + [step])[1..] == steps[1..] + [step];
    }
  }

  // ----- the code -----------------------------------------------------------------------------------------------

  /** How a call main makes comes back. */
  datatype Outcome = Returns | Errs | Panics

  /** What the outside does to one run of main; without flags, reading them panics. */
  datatype World = World(
    flags: Option<Parse>, validate: Outcome, parses: bool, loads: bool, start: nat -> Outcome, wake: Wake, stop: Outcome,
    cleanup: Outcome)

  /** Nothing panics before the flags and the document have been looked at. */
  predicate Looks(f: Flags, w: World) { w.flags == Some(Parsed) && !f.printVersion && !w.validate.Panics? }

  /** They are, and are accepted: the flags are sound, and the document loads if there is one. */
  predicate Accepts(f: Flags, w: World) { Looks(f, w) && w.parses && (f.workflow ==> w.loads) }

  /** Start i is the first that does not return. */
  predicate FirstOut(f: Flags, w: World, i: nat) {
    i < |All(f)| && !w.start(i).Returns? && forall j: nat | j < i :: w.start(j).Returns?
  }

  /** Everything is accepted and starts. */
  predicate ComesUp(f: Flags, w: World) { Accepts(f, w) && forall i: nat | i < |All(f)| :: w.start(i).Returns? }

  /** What makes the program exit with 1. */
  ghost predicate GoesWrong(f: Flags, w: World) {
    || (Looks(f, w) && !Accepts(f, w))
    || (Accepts(f, w) && exists i: nat :: FirstOut(f, w, i) && w.start(i).Errs?)
    || (ComesUp(f, w) && (w.wake.Fatal? || w.stop.Errs?))
  }

  /** What there is to see of the body of main, up to its deferred functions. */
  ghost predicate Tells(f: Flags, w: World, t: seq<Event>) {
    || (w.flags.None? && t == [Panicked])
    || (w.flags == Some(Parsed) && f.printVersion && t == [PrintVersion])
    || (w.flags == Some(Parsed) && !f.printVersion && w.validate.Panics? && t == [Panicked])
    || (Looks(f, w) && !Accepts(f, w) && t == [Refused])
    || (Accepts(f, w) && exists i: nat ::
          FirstOut(f, w, i) && t == StartedAll(All(f)[..i]) + [if w.start(i).Errs? then StartFailed else Panicked])
    || (ComesUp(f, w) && t == StartedAll(All(f)) + [Woken(w.wake), RunStop] + Stopping(w))
  }

  /** Two starts cannot both be the first that does not return. */
  lemma OneFirst(f: Flags, w: World, i: nat)
    requires FirstOut(f, w, i)
    ensures forall j: nat | FirstOut(f, w, j) :: j == i
  {
    hide All;
  }

  /** What the stop steps add. */
  function Stopping(w: World): seq<Event> {
    match w.stop
    case Returns => []
    case Errs => [StopFailed]
    case Panics => [Panicked]
  }

  /** What the deferred functions add, from NotifyContext on. */
  function Deferring(w: World): seq<Event> { if w.cleanup.Panics? then [StopAll, Panicked] else [StopAll] }

  class Goroutine {
    var pc: Pc
    var defers: seq<Deferred>
    var code: nat
    ghost var notified: bool
    ghost var trace: seq<Event>

    ghost function Here(): State
      reads this
    {
      State(pc, defers, code, notified, trace)
    }

    constructor ()
      ensures Here() == ENTERED
    {
      pc, defers, code, notified, trace := AtFlags, [ExitWithCode], 0, false, [];
    }

    /** A panic in the body. */
    method Unwinds(f: Flags)
      requires Reached(f, Here()) && Enabled(f, Here(), Panic)
      modifies this
      ensures Reached(f, Here()) && pc.Leaving? && defers == old(defers) && code == old(code)
      ensures trace == old(trace) + [Panicked]
    {
      ghost var s := Take(f, Here(), Panic);
      pc, trace := Leaving, trace + [Panicked];
    }

    /** Lines 147-161: the flags, and the defer of StopAll. */
    method ParsesFlags(f: Flags, w: World)
      requires Reached(f, Here()) && Here() == ENTERED
      modifies this
      ensures Reached(f, Here()) && (pc.Gone? || pc.Leaving? || pc.Validating?)
      ensures pc.Gone? <==> w.flags == Some(Bad) || w.flags == Some(Help)
      ensures pc.Gone? ==> trace == (if w.flags == Some(Bad) then [BadFlags, Exit(2)] else [Usage, Exit(0)])
      ensures pc.Leaving? <==> w.flags.None? || (w.flags == Some(Parsed) && f.printVersion)
      ensures pc.Leaving? ==> defers == [ExitWithCode] && code == 0
      ensures pc.Leaving? ==> trace == [if w.flags.None? then Panicked else PrintVersion]
      ensures pc.Validating? <==> w.flags == Some(Parsed) && !f.printVersion
      ensures pc.Validating? ==> Here() == State(Validating, [ExitWithCode, Cleanup], 0, true, [])
    {
      if w.flags.None? {
        Unwinds(f);
        return;
      }
      ghost var s := Take(f, Here(), ParseFlags(w.flags.value));
      if w.flags.value.Bad? {
        pc, trace := Gone, trace + [BadFlags] + [Exit(2)];
      } else if w.flags.value.Help? {
        pc, trace := Gone, trace + [Usage] + [Exit(0)];
      } else if f.printVersion {
        pc, trace := Leaving, trace + [PrintVersion];
      } else {
        pc, defers, notified := Validating, defers + [Cleanup], true;
      }
    }

    /** The tasks of startAll, lines 108-134: there is always one, and the API is the first. */
    static method Lists(f: Flags) returns (all: seq<Entry>)
      ensures InOrder(f, all) && all[0].kind == "http"
    {
      all := [];
      if f.portSet || f.socket == "" { all := all + [Entry("http", Loopback(f.port))]; }
      if f.socket != "" { all := all + [Entry("http", Socket(f.socket))]; }
      assert all == Listeners(f);
      all := all + [Entry("usage", NoAddr)] + Transports(f.transports);
      if f.workflow { all := all + [Entry("workflow", NoAddr)]; }
      OneOrder(f, all);
    }

    /** The starts of startAll, lines 135-139, one after another. */
    method StartEach(f: Flags, w: World, all: seq<Entry>)
      requires Reached(f, Here()) && all == All(f) && Accepts(f, w)
      requires Here() == State(Starting(0), [ExitWithCode, Cleanup], 0, true, [])
      modifies this
      ensures Reached(f, Here()) && defers == [ExitWithCode, Cleanup]
      ensures if ComesUp(f, w) then pc.Selecting? && code == 0 && trace == StartedAll(All(f))
              else pc.Leaving? && Tells(f, w, trace) && code == if GoesWrong(f, w) then 1 else 0
    {
      hide All, Valid, Reached, InOrder;
      StartedSoFar(f, 0);
      for i := 0 to |all|
        invariant Reached(f, Here()) && Here() == State(Starting(i), [ExitWithCode, Cleanup], 0, true, StartedAll(All(f)[..i]))
        invariant forall j: nat | j < i :: w.start(j).Returns?
      {
        StartedSoFar(f, i);
        if !w.start(i).Returns? { assert FirstOut(f, w, i); OneFirst(f, w, i); }
        if w.start(i).Panics? {
          Unwinds(f);
          return;
        }
        ghost var s := Take(f, Here(), StartNext(w.start(i).Returns?));
        if w.start(i).Errs? {
          pc, code, trace := Leaving, 1, trace + [StartFailed];
          return;
        }
        pc, trace := Pc.Starting(i + 1), trace + [Started(all[i])];
      }
      StartedSoFar(f, |All(f)|);
      ghost var s := Take(f, Here(), AllStarted);
      pc := Selecting;
    }

    /** startAll, lines 107-141, and what main makes of its error. */
    method StartsAll(f: Flags, w: World)
      requires Reached(f, Here()) && Here() == State(Validating, [ExitWithCode, Cleanup], 0, true, [])
      requires w.flags == Some(Parsed) && !f.printVersion
      modifies this
      ensures Reached(f, Here()) && defers == [ExitWithCode, Cleanup]
      ensures if ComesUp(f, w) then pc.Selecting? && code == 0 && trace == StartedAll(All(f))
              else pc.Leaving? && Tells(f, w, trace) && code == if GoesWrong(f, w) then 1 else 0
    {
      hide All, Reached, InOrder;
      if w.validate.Panics? {
        Unwinds(f);
        return;
      }
      ghost var s := Take(f, Here(), Validate(w.parses, w.loads));
      if !Valid(f, w.parses, w.loads) {
        pc, code, trace := Leaving, 1, trace + [Refused];
        return;
      }
      pc := Pc.Starting(0);
      var all := Lists(f);
      OneOrder(f, all);
      StartEach(f, w, all);
    }

    /** Lines 169-179: the select, and the stop steps. */
    method Waits(f: Flags, w: World)
      requires Reached(f, Here()) && pc.Selecting? && defers == [ExitWithCode, Cleanup] && code == 0
      modifies this
      ensures Reached(f, Here()) && pc.Leaving? && defers == [ExitWithCode, Cleanup]
      ensures trace == old(trace) + [Woken(w.wake), RunStop] + Stopping(w)
      ensures code == if w.wake.Fatal? || w.stop.Errs? then 1 else 0
    {
      hide All, Reached;
      ghost var s := Take(f, Here(), Step.Wake(w.wake));
      pc, trace := InStop, trace + [Woken(w.wake)] + [RunStop];
      if w.wake.Fatal? { code := 1; }
      if w.stop.Panics? {
        Unwinds(f);
        return;
      }
      s := Take(f, Here(), StopReturns(w.stop.Returns?));
      pc := Leaving;
      if w.stop.Errs? { code, trace := 1, trace + [StopFailed]; }
    }

    /** The deferred functions, the last one first; a panic in one goes on to the next. */
    method RunDefers(f: Flags, w: World)
      requires Reached(f, Here()) && pc.Leaving? && (defers == [ExitWithCode] || defers == [ExitWithCode, Cleanup])
      modifies this
      ensures Reached(f, Here()) && pc.Gone?
      ensures trace == old(trace) + (if old(defers) == [ExitWithCode] then [] else Deferring(w)) + [Exit(old(code))]
    {
      hide All, Reached;
      while !pc.Gone?
        invariant Reached(f, Here()) && (pc.Gone? || pc.Leaving?) && code == old(code)
        invariant pc.Leaving? && defers == old(defers) ==> trace == old(trace)
        invariant pc.Leaving? && defers != old(defers) ==>
          defers == [ExitWithCode] && trace == old(trace) + Deferring(w)
        invariant pc.Leaving? ==> defers == [ExitWithCode] || defers == [ExitWithCode, Cleanup]
        invariant pc.Gone? ==>
          trace == old(trace) + (if old(defers) == [ExitWithCode] then [] else Deferring(w)) + [Exit(code)]
        decreases |defers|
      {
        ghost var s := Take(f, Here(), RunDeferred);
        var last := defers[|defers| - 1];
        defers := defers[..|defers| - 1];
        if last.ExitWithCode? {
          pc, trace := Gone, trace + [Exit(code)];
        } else {
          pc, trace := InCleanup, trace + [StopAll];
          if w.cleanup.Panics? {
            Unwinds(f);
          } else {
            s := Take(f, Here(), CleanupReturns);
            pc := Leaving;
          }
        }
      }
    }

    /** main: whatever the outside does, short of a StopAll that does not return, it ends, on a run of the machine, with
        what it has done and its code as the world decides. */
    method Run(f: Flags, w: World)
      requires Here() == ENTERED
      modifies this
      ensures Reached(f, Here()) && pc.Gone?
      ensures w.flags == Some(Bad) ==> trace == [BadFlags, Exit(2)]
      ensures w.flags == Some(Help) ==> trace == [Usage, Exit(0)]
      ensures w.flags.None? || w.flags == Some(Parsed) ==> exists t: seq<Event> ::
        && Tells(f, w, t)
        && trace == t + (if w.flags.None? || f.printVersion then [] else Deferring(w)) + [Exit(if GoesWrong(f, w) then 1 else 0)]
    {
      hide Reached, Valid, All;
      ghost var s := EnteredReached(f);
      ParsesFlags(f, w);
      if pc.Validating? {
        StartsAll(f, w);
        if pc.Selecting? { Waits(f, w); }
      }
      if pc.Leaving? {
        ghost var t := trace;
        assert Tells(f, w, t);
        RunDefers(f, w);
      }
    }
  }
}
