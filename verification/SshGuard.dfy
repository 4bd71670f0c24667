/**
  subsystems/vscode: a start of an SSH server looks for a running one of the same ref under startMu, and registers a
  new one only if it finds none. Starts interleave with each other and with every other step of the task registry.
*/
module SshGuard {
  import opened Options
  import opened TaskModel
  import opened TaskSafety
  import opened TaskTheorems

  const KIND := "sshd"

  datatype Answer =
    | BadKey                             // 400
    | Serving(id: string, port: nat)     // 200
    | Created(id: string, port: nat)     // 201
    | ListenFailed                       // 500

  /** Where a start stands: Locked and Looked hold startMu. */
  datatype Stage = Asked | Locked | Looked | Answered(answer: Answer)

  datatype Call = Call(ref: string, keyOk: bool, stage: Stage)

  datatype Sessions = Sessions(sys: Sys, mu: Option<nat>, calls: seq<Call>)

  const EMPTY := Sessions(INIT, None, [])

  datatype Event =
    | Ask(ref: string, keyOk: bool)
    | Refuse(c: nat)                     // no key, a malformed one, or one with options
    | Lock(c: nat)
    | Look(c: nat)                       // Select, and the loop over what it lists
    | Begin(c: nat, port: Option<nat>)   // Start; None when no port can be bound
    | Elsewhere(step: Step)              // anything else in the registry

  function Decimal(n: nat): string {
    if n < 10 then ["0123456789"[n]] else Decimal(n / 10) + ["0123456789"[n % 10]]
  }

  /** The id a task without one is given: the first letter of its kind and its port. */
  function DefaultId(port: nat): string { "s-" + Decimal(port) }

  predicate Digits(s: string) { forall i | 0 <= i < |s| :: '0' <= s[i] <= '9' }

  /** The number a string of digits spells. */
  function Spelled(s: string): nat
    requires Digits(s)
  {
    if s == "" then 0
    else
      var n := |s| - 1;
      assert Digits(s[..n]);
      10 * Spelled(s[..n]) + (s[n] as int - '0' as int)
  }

  lemma {:induction false} DecimalReads(n: nat)
    ensures Decimal(n) != "" && Digits(Decimal(n)) && Spelled(Decimal(n)) == n
    ensures |Decimal(n)| > 1 ==> Decimal(n)[0] != '0'
    ensures n > 0 ==> Decimal(n)[0] != '0'
  {
    if n >= 10 {
      DecimalReads(n / 10);
      assert Decimal(n)[..|Decimal(n)| - 1] == Decimal(n / 10);
    }
  }

  /** The default id is the initial of the kind and the port, in decimal and without leading zeros: no two ports share one. */
  lemma DefaultIdReads(port: nat)
    ensures var id := DefaultId(port);
      && |id| > 2 && id[0] == KIND[0] && id[1] == '-' && Digits(id[2..]) && Spelled(id[2..]) == port
      && (|id| > 3 ==> id[2] != '0')
  {
    DecimalReads(port);
    assert DefaultId(port)[2..] == Decimal(port);
  }

  function Server(ref: string, port: nat): Spec {
    Spec(if ref != "" then ref else DefaultId(port), KIND, port, ServerWork, 0)
  }

  predicate StartsServer(step: Step) { step.Start? && step.spec.kind == KIND }

  predicate Ssh(s: Sys, t: nat) { IsTask(s, t) && s.tasks[t].spec.kind == KIND }

  /** t is listed under id, is an SSH server and is running. */
  predicate Serves(s: Sys, id: string, t: nat) {
    id in s.reg && s.reg[id] == t && Ssh(s, t) && s.tasks[t].state.Running?
  }

  /** What the loop over the listed servers finds. */
  function Found(s: Sys, ref: string): Option<nat> {
    if ref in s.reg && Serves(s, ref, s.reg[ref]) then Some(s.reg[ref]) else None
  }

  predicate At(g: Sessions, c: nat, stage: Stage) { c < |g.calls| && g.calls[c].stage == stage }

  ghost predicate CanHappen(g: Sessions, e: Event) {
    match e
    case Ask(_, _) => true
    case Refuse(c) => At(g, c, Asked) && !g.calls[c].keyOk
    case Lock(c) => At(g, c, Asked) && g.calls[c].keyOk && g.mu.None?
    case Look(c) => At(g, c, Locked)
    case Begin(c, _) => At(g, c, Looked)
    case Elsewhere(step) => Enabled(g.sys, step) && !StartsServer(step)
  }

  function Moved(g: Sessions, c: nat, stage: Stage): Sessions
    requires c < |g.calls|
  {
    g.(calls := g.calls[c := g.calls[c].(stage := stage)])
  }

  ghost function Happened(g: Sessions, e: Event): Sessions
    requires CanHappen(g, e)
  {
    match e
    case Ask(ref, keyOk) => g.(calls := g.calls + [Call(ref, keyOk, Asked)])
    case Refuse(c) => Moved(g, c, Answered(BadKey))
    case Lock(c) => Moved(g, c, Locked).(mu := Some(c))
    case Look(c) =>
      var found := Found(g.sys, g.calls[c].ref);
      if found.None? then Moved(g, c, Looked)
      else Moved(g, c, Answered(Serving(g.calls[c].ref, g.sys.tasks[found.value].spec.port))).(mu := None)
    case Begin(c, port) =>
      if port.None? then Moved(g, c, Answered(ListenFailed)).(mu := None)
      else
        var p := Server(g.calls[c].ref, port.value);
        Moved(g, c, Answered(Created(p.id, p.port))).(mu := None, sys := DoStart(g.sys, p))
    case Elsewhere(step) => g.(sys := Next(g.sys, step))
  }

  ghost predicate CanGo(g: Sessions, events: seq<Event>)
    decreases |events|
  {
    events == [] || (CanHappen(g, events[0]) && CanGo(Happened(g, events[0]), events[1..]))
  }

  ghost function Onward(g: Sessions, events: seq<Event>): Sessions
    requires CanGo(g, events)
    decreases |events|
  {
    if events == [] then g else Onward(Happened(g, events[0]), events[1..])
  }

  ghost predicate Comes(g: Sessions) { exists events: seq<Event> :: CanGo(EMPTY, events) && Onward(EMPTY, events) == g }

  /** Every start so far has named a ref. */
  predicate AllNamed(g: Sessions) { forall c | 0 <= c < |g.calls| :: g.calls[c].ref != "" }

  // ----- what every event keeps ---------------------------------------------------------------------------------

  predicate Holds(stage: Stage) { stage.Locked? || stage.Looked? }

  /** startMu is held by the one start past it. */
  ghost predicate MuOk(g: Sessions) {
    && (forall c | 0 <= c < |g.calls| && Holds(g.calls[c].stage) :: g.mu == Some(c))
    && (g.mu.Some? ==> g.mu.value < |g.calls|)
  }

  ghost predicate ServersOk(s: Sys) { forall t | 0 <= t < |s.tasks| && Ssh(s, t) :: s.tasks[t].spec.work.ServerWork? }

  /** What a start has not found is still not there. */
  ghost predicate LookOk(g: Sessions) {
    forall c | 0 <= c < |g.calls| && g.calls[c].stage.Looked? :: Found(g.sys, g.calls[c].ref).None?
  }

  predicate SucceededBySsh(s: Sys, t: nat)
    requires IsTask(s, t)
  {
    s.tasks[t].fate.Replaced? && Ssh(s, s.tasks[t].fate.successor)
  }

  /** An SSH server replaced by another had ended. */
  ghost predicate SparedOk(s: Sys) {
    forall t | 0 <= t < |s.tasks| && Ssh(s, t) && SucceededBySsh(s, t) :: s.tasks[t].Terminal()
  }

  ghost predicate Good(g: Sessions) {
    Inv(g.sys) && MuOk(g) && ServersOk(g.sys) && LookOk(g) && (AllNamed(g) ==> SparedOk(g.sys))
  }

  /** An SSH server is running or has ended. */
  lemma ServerNeverStarting(s: Sys, t: nat)
    requires TasksOk(s) && ServersOk(s) && Ssh(s, t)
    ensures s.tasks[t].state.Running? || s.tasks[t].Terminal()
  {
    assert TaskOk(s.tasks[t]);
  }

  /** Nothing but a start of an SSH server makes one serve. */
  lemma ServedBefore(s: Sys, step: Step, ref: string, t: nat)
    requires Inv(s) && ServersOk(s) && Enabled(s, step) && !StartsServer(step) && Serves(Next(s, step), ref, t)
    ensures Serves(s, ref, t)
  {
    InvBits(s);
    StepGrows(s, step);
    StepKeepsMap(s, step);
    OldUnlessStarted(s, step, t);
    assert Evolves(s.tasks[t], Next(s, step).tasks[t]);
    hide TaskOk, Next, Enabled, Inv;
    ServerNeverStarting(s, t);
  }

  lemma NotFoundStays(s: Sys, step: Step, ref: string)
    requires Inv(s) && ServersOk(s) && Enabled(s, step) && !StartsServer(step) && Found(s, ref).None?
    ensures Found(Next(s, step), ref).None?
  {
    if Found(Next(s, step), ref).Some? { ServedBefore(s, step, ref, Next(s, step).reg[ref]); }
    hide TaskOk, Next, Enabled, Inv;
  }

  lemma InvBits(s: Sys)
    requires Inv(s)
    ensures TasksOk(s) && MapOk(s) && FateOk(s)
  {
    hide TaskOk, MapOk, FateOk;
  }

  lemma OldUnlessStarted(s: Sys, step: Step, t: nat)
    requires Enabled(s, step) && !StartsServer(step) && Ssh(Next(s, step), t)
    ensures IsTask(s, t)
  {
    hide CanMove;
  }

  /** Only a Start replaces a task, by the task it adds. */
  lemma ReplacedByStart(s: Sys, step: Step, t: nat)
    requires Enabled(s, step) && IsTask(s, t) && IsTask(Next(s, step), t)
    requires s.tasks[t].fate.Listed? && Next(s, step).tasks[t].fate.Replaced?
    ensures step.Start? && step.spec.id in s.reg && s.reg[step.spec.id] == t
    ensures Next(s, step).tasks[t].fate.successor == |s.tasks|
  {
    if !Relists(step) { QuietFates(s, step); }
  }

  lemma StepKeepsServers(s: Sys, step: Step)
    requires Enabled(s, step) && !StartsServer(step) && ServersOk(s) && Grows(s, Next(s, step))
    ensures ServersOk(Next(s, step))
  {
    forall t | 0 <= t < |Next(s, step).tasks| && Ssh(Next(s, step), t) ensures Next(s, step).tasks[t].spec.work.ServerWork? {
      OldUnlessStarted(s, step, t);
      hide TaskOk, Next, Enabled;
      assert Evolves(s.tasks[t], Next(s, step).tasks[t]);
    }
  }

  lemma StepKeepsSpared(s: Sys, step: Step)
    requires Inv(s) && SparedOk(s) && Enabled(s, step) && !StartsServer(step) && Grows(s, Next(s, step))
    ensures SparedOk(Next(s, step))
  {
    var s' := Next(s, step);
    hide TaskOk, Next, Enabled, Inv, Evolves, Ssh, SucceededBySsh;
    forall t | 0 <= t < |s'.tasks| && Ssh(s', t) && SucceededBySsh(s', t) ensures s'.tasks[t].Terminal() {
      StepSpares(s, step, t);
    }
  }

  lemma StepSpares(s: Sys, step: Step, t: nat)
    requires SparedOk(s) && Enabled(s, step) && !StartsServer(step) && Grows(s, Next(s, step))
    requires Ssh(Next(s, step), t) && SucceededBySsh(Next(s, step), t)
    ensures Next(s, step).tasks[t].Terminal()
  {
    OldUnlessStarted(s, step, t);
    OldUnlessStarted(s, step, Next(s, step).tasks[t].fate.successor);
    if s.tasks[t].fate.Listed? { ReplacedByStart(s, step, t); }
    hide TaskOk, Next, Enabled;
    assert Evolves(s.tasks[t], Next(s, step).tasks[t]);
  }

  lemma ElsewhereKeepsGood(g: Sessions, step: Step)
    requires Good(g) && CanHappen(g, Elsewhere(step))
    ensures Good(Happened(g, Elsewhere(step)))
  {
    hide Inv, TaskOk, MapOk, FateOk, Next, Enabled, Found, SparedOk, ServersOk;
    InvBits(g.sys);
    StepGrows(g.sys, step);
    StepKeepsInv(g.sys, step);
    StepKeepsServers(g.sys, step);
    if AllNamed(g) { StepKeepsSpared(g.sys, step); }
    forall c | 0 <= c < |g.calls| && g.calls[c].stage.Looked? ensures Found(Next(g.sys, step), g.calls[c].ref).None? {
      NotFoundStays(g.sys, step, g.calls[c].ref);
    }
  }

  /** A start that registers a server replaces, of the SSH servers, only one that has ended. */
  lemma BeginKeepsSpared(s: Sys, p: Spec)
    requires Inv(s) && ServersOk(s) && SparedOk(s) && Grows(s, DoStart(s, p)) && Found(s, p.id).None?
    ensures SparedOk(DoStart(s, p))
  {
    var s' := DoStart(s, p);
    NewIsListed(s, p);
    hide TaskOk, Inv, DoStart, Found, ServersOk, Evolves, Ssh, SucceededBySsh;
    forall t | 0 <= t < |s'.tasks| && Ssh(s', t) && SucceededBySsh(s', t) ensures s'.tasks[t].Terminal() {
      if t < |s.tasks| { BeginSpares(s, p, t); }
    }
  }

  lemma NewIsListed(s: Sys, p: Spec)
    ensures |DoStart(s, p).tasks| == |s.tasks| + 1 && !SucceededBySsh(DoStart(s, p), |s.tasks|)
  {
  }

  lemma BeginSpares(s: Sys, p: Spec, t: nat)
    requires Inv(s) && ServersOk(s) && SparedOk(s) && Grows(s, DoStart(s, p)) && Found(s, p.id).None? && IsTask(s, t)
    requires Ssh(DoStart(s, p), t) && SucceededBySsh(DoStart(s, p), t)
    ensures DoStart(s, p).tasks[t].Terminal()
  {
    hide TaskOk, Inv, DoStart, Found, ServersOk;
    BeginReplaces(s, p, t);
    if !s.tasks[t].fate.Listed? { SuccessorIsSsh(s, p, t); }
    assert Evolves(s.tasks[t], DoStart(s, p).tasks[t]);
  }

  lemma SuccessorIsSsh(s: Sys, p: Spec, t: nat)
    requires Inv(s) && IsTask(s, t) && s.tasks[t].fate.Replaced? && SucceededBySsh(DoStart(s, p), t)
    ensures SucceededBySsh(s, t)
  {
    InvBits(s);
    hide Inv, TaskOk, Cancel;
  }

  lemma BeginReplaces(s: Sys, p: Spec, t: nat)
    requires Inv(s) && ServersOk(s) && Found(s, p.id).None? && IsTask(s, t)
    ensures IsTask(DoStart(s, p), t) && DoStart(s, p).tasks[t].spec == s.tasks[t].spec
    ensures s.tasks[t].fate.Listed? && DoStart(s, p).tasks[t].fate.Replaced? && Ssh(s, t) ==> s.tasks[t].Terminal()
    ensures !s.tasks[t].fate.Listed? ==> DoStart(s, p).tasks[t].fate == s.tasks[t].fate
  {
    InvBits(s);
    hide Inv, TaskOk, FateOk, Cancel;
    if Ssh(s, t) { ServerNeverStarting(s, t); }
  }

  lemma NamedStays(g: Sessions, c: nat, stage: Stage)
    requires c < |g.calls|
    ensures AllNamed(Moved(g, c, stage)) <==> AllNamed(g)
  {
    forall d | 0 <= d < |g.calls| ensures Moved(g, c, stage).calls[d].ref == g.calls[d].ref {}
  }

  /** A start that answers leaves startMu free: no other start has looked. */
  lemma AnswerFrees(g: Sessions, c: nat, answer: Answer, s: Sys)
    requires MuOk(g) && c < |g.calls| && Holds(g.calls[c].stage)
    ensures var g' := Moved(g, c, Answered(answer)).(mu := None, sys := s);
      MuOk(g') && LookOk(g') && (AllNamed(g') <==> AllNamed(g))
  {
    hide Found;
    NamedStays(g, c, Answered(answer));
    var g' := Moved(g, c, Answered(answer)).(mu := None, sys := s);
    forall d | 0 <= d < |g'.calls| ensures !Holds(g'.calls[d].stage) {
      if d != c { assert g'.calls[d] == g.calls[d]; }
    }
  }

  lemma StartKeepsServers(s: Sys, ref: string, port: nat)
    requires ServersOk(s) && Grows(s, DoStart(s, Server(ref, port)))
    ensures ServersOk(DoStart(s, Server(ref, port)))
  {
    var s' := DoStart(s, Server(ref, port));
    forall t | 0 <= t < |s'.tasks| && Ssh(s', t) ensures s'.tasks[t].spec.work.ServerWork? {
      hide TaskOk;
      if t < |s.tasks| { assert Evolves(s.tasks[t], s'.tasks[t]); }
    }
  }

  lemma BeginKeepsGood(g: Sessions, c: nat, port: nat)
    requires Good(g) && CanHappen(g, Begin(c, Some(port)))
    ensures Good(Happened(g, Begin(c, Some(port))))
  {
    hide Inv, TaskOk, Found, Evolves, SparedOk, ServersOk, MuOk, LookOk, AllNamed, DoStart, DefaultId;
    var p := Server(g.calls[c].ref, port);
    InvBits(g.sys);
    StepGrows(g.sys, Start(p));
    StepKeepsInv(g.sys, Start(p));
    StartKeepsServers(g.sys, g.calls[c].ref, port);
    AnswerFrees(g, c, Created(p.id, p.port), DoStart(g.sys, p));
    if AllNamed(g) {
      LookedForId(g, c, port);
      BeginKeepsSpared(g.sys, p);
    }
  }

  lemma LookedForId(g: Sessions, c: nat, port: nat)
    requires LookOk(g) && AllNamed(g) && At(g, c, Looked)
    ensures Found(g.sys, Server(g.calls[c].ref, port).id).None?
  {
    hide Found;
  }

  lemma AskKeepsGood(g: Sessions, ref: string, keyOk: bool)
    requires Good(g)
    ensures Good(Happened(g, Ask(ref, keyOk)))
  {
    hide Inv, Found, SparedOk, ServersOk;
    var g' := Happened(g, Ask(ref, keyOk));
    assert forall c | 0 <= c < |g.calls| :: g'.calls[c] == g.calls[c];
  }

  lemma RefuseOrLockKeepsGood(g: Sessions, e: Event)
    requires Good(g) && CanHappen(g, e) && (e.Refuse? || e.Lock?)
    ensures Good(Happened(g, e))
  {
    hide Inv, SparedOk, ServersOk, Found;
    NamedStays(g, e.c, Happened(g, e).calls[e.c].stage);
  }

  lemma LookKeepsGood(g: Sessions, c: nat)
    requires Good(g) && CanHappen(g, Look(c))
    ensures Good(Happened(g, Look(c)))
  {
    hide Inv, SparedOk, ServersOk, AllNamed;
    var found := Found(g.sys, g.calls[c].ref);
    if found.Some? {
      AnswerFrees(g, c, Serving(g.calls[c].ref, g.sys.tasks[found.value].spec.port), g.sys);
    } else {
      NamedStays(g, c, Looked);
    }
    hide Found;
  }

  lemma FailKeepsGood(g: Sessions, c: nat)
    requires Good(g) && CanHappen(g, Begin(c, None))
    ensures Good(Happened(g, Begin(c, None)))
  {
    hide Inv, SparedOk, ServersOk, AllNamed, Found;
    AnswerFrees(g, c, ListenFailed, g.sys);
  }

  lemma EventKeepsGood(g: Sessions, e: Event)
    requires Good(g) && CanHappen(g, e)
    ensures Good(Happened(g, e))
  {
    hide Good, CanHappen, Happened;
    match e
    case Elsewhere(step) => ElsewhereKeepsGood(g, step);
    case Ask(ref, keyOk) => AskKeepsGood(g, ref, keyOk);
    case Look(c) => LookKeepsGood(g, c);
    case Begin(c, Some(port)) => BeginKeepsGood(g, c, port);
    case Begin(c, None) => FailKeepsGood(g, c);
    case _ => RefuseOrLockKeepsGood(g, e);
  }

  lemma {:induction false} RunKeepsGood(g: Sessions, events: seq<Event>)
    requires Good(g) && CanGo(g, events)
    ensures Good(Onward(g, events))
    decreases |events|
  {
    hide CanHappen, Happened, Good;
    if events != [] {
      EventKeepsGood(g, events[0]);
      RunKeepsGood(Happened(g, events[0]), events[1..]);
    }
  }

  lemma ComesGood(g: Sessions)
    requires Comes(g)
    ensures Good(g)
  {
    var events: seq<Event> :| CanGo(EMPTY, events) && Onward(EMPTY, events) == g;
    assert Good(EMPTY);
    RunKeepsGood(EMPTY, events);
  }

  // ----- the promises -------------------------------------------------------------------------------------------

  /** What a start of p does to a task: it cancels the one it replaces, and touches no other. */
  lemma StartTouches(s: Sys, p: Spec, t: nat)
    requires MapOk(s) && IsTask(s, t)
    ensures IsTask(DoStart(s, p), t)
    ensures p.id in s.reg && s.reg[p.id] == t ==> DoStart(s, p).tasks[t].cancelled
    ensures !(p.id in s.reg && s.reg[p.id] == t) ==> DoStart(s, p).tasks[t] == s.tasks[t]
    ensures !(p.id in s.reg && s.reg[p.id] == t) && s.tasks[t].spec.id != p.id && s.tasks[t].spec.id in s.reg ==>
      s.tasks[t].spec.id in DoStart(s, p).reg && DoStart(s, p).reg[s.tasks[t].spec.id] == s.reg[s.tasks[t].spec.id]
  {
  }

  /** A start cancels a running SSH server exactly if it names no ref and binds the port that server's ref spells. */
  lemma StartCancelsExactly(g: Sessions, c: nat, port: nat, t: nat)
    requires Comes(g) && CanHappen(g, Begin(c, Some(port)))
    requires Ssh(g.sys, t) && g.sys.tasks[t].state.Running? && !g.sys.tasks[t].cancelled
    ensures var s' := Happened(g, Begin(c, Some(port))).sys;
      IsTask(s', t) && (s'.tasks[t].cancelled <==> g.calls[c].ref == "" && Serves(g.sys, DefaultId(port), t))
  {
    hide Comes, Inv, TaskOk, MapOk, FateOk, DoStart, Cancel, DefaultId, MuOk, ServersOk, SparedOk;
    ComesGood(g);
    InvBits(g.sys);
    StartTouches(g.sys, Server(g.calls[c].ref, port), t);
  }

  /** With refs named, a start leaves every running SSH server as it is. */
  lemma StartSparesServers(g: Sessions, c: nat, port: nat, t: nat)
    requires Comes(g) && AllNamed(g) && CanHappen(g, Begin(c, Some(port)))
    requires Ssh(g.sys, t) && g.sys.tasks[t].state.Running?
    ensures var s' := Happened(g, Begin(c, Some(port))).sys;
      && IsTask(s', t) && s'.tasks[t] == g.sys.tasks[t]
      && (Serves(g.sys, g.sys.tasks[t].spec.id, t) ==> Serves(s', g.sys.tasks[t].spec.id, t))
  {
    hide Comes, Inv, TaskOk, FateOk, DoStart, Cancel, DefaultId, MuOk, ServersOk, SparedOk;
    ComesGood(g);
    InvBits(g.sys);
    LookedForId(g, c, port);
    StartTouches(g.sys, Server(g.calls[c].ref, port), t);
  }

  /** At most one server per ref is running, but for those a Stop or StopAll took or a task of another kind replaced. */
  lemma OneServerPerRef(g: Sessions, t: nat, u: nat)
    requires Comes(g) && AllNamed(g) && t < u && Ssh(g.sys, t) && Ssh(g.sys, u)
    requires g.sys.tasks[t].spec.id == g.sys.tasks[u].spec.id
    requires g.sys.tasks[t].state.Running? && g.sys.tasks[u].state.Running?
    ensures var f := g.sys.tasks[t].fate; f.Taken? || (f.Replaced? && !Ssh(g.sys, f.successor))
    ensures g.sys.tasks[t].cancelled || Held(g.sys, t)
  {
    ComesGood(g);
    InvBits(g.sys);
    assert TaskOk(g.sys.tasks[t]) && Accounted(g.sys, t);
  }

  /** t serves ref in every state of the run. */
  ghost predicate ServesThroughout(g: Sessions, events: seq<Event>, ref: string, t: nat)
    requires CanGo(g, events)
    decreases |events|
  {
    Serves(g.sys, ref, t) && (events != [] ==> ServesThroughout(Happened(g, events[0]), events[1..], ref, t))
  }

  /** Among the starts of ref: one not yet past its look, or answered with the server that serves it. */
  predicate AnswersWith(call: Call, port: nat) {
    && call.keyOk
    && (call.stage.Asked? || call.stage.Locked? || call.stage == Answered(Serving(call.ref, port)))
  }

  lemma EventKeepsAnswer(g: Sessions, e: Event, c: nat, t: nat)
    requires CanHappen(g, e) && c < |g.calls| && Serves(g.sys, g.calls[c].ref, t)
    requires AnswersWith(g.calls[c], g.sys.tasks[t].spec.port)
    ensures c < |Happened(g, e).calls| && Happened(g, e).calls[c].ref == g.calls[c].ref
    ensures AnswersWith(Happened(g, e).calls[c], g.sys.tasks[t].spec.port)
  {
    hide Next, Enabled;
  }

  lemma SpecsStay(g: Sessions, e: Event, t: nat)
    requires Good(g) && CanHappen(g, e) && IsTask(g.sys, t)
    ensures IsTask(Happened(g, e).sys, t) && Happened(g, e).sys.tasks[t].spec == g.sys.tasks[t].spec
  {
    match e
    case Elsewhere(step) =>
      hide Inv, Found;
      SpecStays(g.sys, step, t);
    case _ => hide Inv, TaskOk, Found;
  }

  lemma SpecStays(s: Sys, step: Step, t: nat)
    requires Inv(s) && Enabled(s, step) && IsTask(s, t)
    ensures IsTask(Next(s, step), t) && Next(s, step).tasks[t].spec == s.tasks[t].spec
  {
    InvBits(s);
    hide Inv, TaskOk, Enabled, Next;
    StepGrows(s, step);
    assert Evolves(s.tasks[t], Next(s, step).tasks[t]);
  }

  /** While a server is listed and running, a start with a valid key and its ref is answered 200 with its port. */
  lemma {:induction false} ServingIsAnswered(g: Sessions, events: seq<Event>, c: nat, t: nat)
    requires Good(g) && CanGo(g, events) && c < |g.calls| && ServesThroughout(g, events, g.calls[c].ref, t)
    requires AnswersWith(g.calls[c], g.sys.tasks[t].spec.port)
    ensures c < |Onward(g, events).calls| && AnswersWith(Onward(g, events).calls[c], g.sys.tasks[t].spec.port)
    ensures IsTask(Onward(g, events).sys, t) && Onward(g, events).sys.tasks[t].spec == g.sys.tasks[t].spec
    decreases |events|
  {
    if events != [] {
      EventKeepsGood(g, events[0]);
      EventKeepsAnswer(g, events[0], c, t);
      SpecsStay(g, events[0], t);
      hide Good, CanHappen, Happened, Serves, AnswersWith;
      ServingIsAnswered(Happened(g, events[0]), events[1..], c, t);
    }
  }

  // ----- a start without a ref ----------------------------------------------------------------------------------

  lemma {:induction false} GoThen(g: Sessions, events: seq<Event>, e: Event)
    requires CanGo(g, events) && CanHappen(Onward(g, events), e)
    ensures CanGo(g, events + [e]) && Onward(g, events + [e]) == Happened(Onward(g, events), e)
    decreases |events|
  {
    hide CanHappen, Happened;
    if events == [] {
      assert [e][1..] == [] && CanGo(Happened(g, e), []);
      assert events + [e] == [e];
    } else {
      GoThen(Happened(g, events[0]), events[1..], e);
      assert (events + [e])[1..] == events[1..] + [e];
    }
  }

  lemma Further(g: Sessions, e: Event)
    requires Comes(g) && CanHappen(g, e)
    ensures Comes(Happened(g, e))
  {
    var events: seq<Event> :| CanGo(EMPTY, events) && Onward(EMPTY, events) == g;
    GoThen(EMPTY, events, e);
  }

  /** From asking to answering, nobody in between. */
  lemma Undisturbed(g: Sessions, ref: string, port: nat) returns (g': Sessions)
    requires Comes(g) && g.mu.None? && Found(g.sys, ref).None?
    ensures Comes(g') && g'.mu.None?
    ensures g'.sys == DoStart(g.sys, Server(ref, port))
  {
    hide Comes, Inv, DoStart, DefaultId;
    var c := |g.calls|;
    Further(g, Ask(ref, true));
    var g1 := Happened(g, Ask(ref, true));
    Further(g1, Lock(c));
    var g2 := Happened(g1, Lock(c));
    Further(g2, Look(c));
    var g3 := Happened(g2, Look(c));
    Further(g3, Begin(c, Some(port)));
    g' := Happened(g3, Begin(c, Some(port)));
  }

  /** A client that names its server "s-7" loses it to one that names none and is given port 7. */
  lemma UnnamedStartCancels() returns (g: Sessions)
    ensures Comes(g) && Ssh(g.sys, 0) && g.sys.tasks[0].state.Running? && g.sys.tasks[0].cancelled
    ensures g.sys.tasks[0].fate == Replaced(1) && Ssh(g.sys, 1)
  {
    assert CanGo(EMPTY, []) && Onward(EMPTY, []) == EMPTY;
    g := Undisturbed(EMPTY, "s-7", 4000);
    var s := g.sys;
    assert DefaultId(7) == "s-7";
    assert "" !in s.reg;
    g := Undisturbed(g, "", 7);
  }

  // ----- the code -----------------------------------------------------------------------------------------------

  /** Events lead from g to g'. */
  ghost predicate Leads(g: Sessions, g': Sessions) {
    exists events: seq<Event> :: CanGo(g, events) && Onward(g, events) == g'
  }

  /** Events of other calls lead from g to g'. */
  ghost predicate LeadsAround(g: Sessions, g': Sessions, c: nat) {
    exists events: seq<Event> :: CanGo(g, events) && Onward(g, events) == g' && Around(events, c)
  }

  predicate IsOf(e: Event, c: nat) { (e.Refuse? || e.Lock? || e.Look? || e.Begin?) && e.c == c }

  ghost predicate Around(events: seq<Event>, c: nat) { forall k | 0 <= k < |events| :: !IsOf(events[k], c) }

  lemma {:induction false} GoAppend(g: Sessions, a: seq<Event>, b: seq<Event>)
    requires CanGo(g, a) && CanGo(Onward(g, a), b)
    ensures CanGo(g, a + b) && Onward(g, a + b) == Onward(Onward(g, a), b)
    decreases |a|
  {
    hide CanHappen, Happened;
    if a == [] {
      assert a + b == b;
    } else {
      GoAppend(Happened(g, a[0]), a[1..], b);
      assert (a + b)[1..] == a[1..] + b;
    }
  }

  lemma {:induction false} CallUntouched(g: Sessions, events: seq<Event>, c: nat)
    requires CanGo(g, events) && Around(events, c) && c < |g.calls|
    ensures c < |Onward(g, events).calls| && Onward(g, events).calls[c] == g.calls[c]
    decreases |events|
  {
    if events != [] {
      assert !IsOf(events[0], c);
      assert c < |Happened(g, events[0]).calls| && Happened(g, events[0]).calls[c] == g.calls[c] by {
        hide Next, Enabled, DoStart;
      }
      hide CanHappen, Happened;
      CallUntouched(Happened(g, events[0]), events[1..], c);
    }
  }

  /** What a start keeps while the others move. */
  lemma AroundKeeps(start: Sessions, g: Sessions, g': Sessions, c: nat)
    requires Good(g) && Leads(start, g) && LeadsAround(g, g', c) && c < |g.calls|
    ensures Good(g') && Leads(start, g') && c < |g'.calls| && g'.calls[c] == g.calls[c]
  {
    hide Good, CanHappen, Happened;
    var a: seq<Event> :| CanGo(start, a) && Onward(start, a) == g;
    var b: seq<Event> :| CanGo(g, b) && Onward(g, b) == g' && Around(b, c);
    RunKeepsGood(g, b);
    CallUntouched(g, b, c);
    GoAppend(start, a, b);
  }

  lemma OneMore(start: Sessions, g: Sessions, e: Event)
    requires Good(g) && Leads(start, g) && CanHappen(g, e)
    ensures Good(Happened(g, e)) && Leads(start, Happened(g, e))
  {
    hide Good, CanHappen, Happened;
    var a: seq<Event> :| CanGo(start, a) && Onward(start, a) == g;
    EventKeepsGood(g, e);
    GoThen(start, a, e);
  }

  /** In between, a server of the ref was listed and running, and the answer is its id and its port. */
  ghost predicate SeenServing(start: Sessions, end: Sessions, ref: string, answer: Answer) {
    exists g: Sessions, t: nat ::
      && Leads(start, g) && Leads(g, end) && Ssh(g.sys, t) && g.sys.tasks[t].state.Running?
      && ref in g.sys.reg && g.sys.reg[ref] == t && answer == Serving(ref, g.sys.tasks[t].spec.port)
  }

  lemma SeenHere(start: Sessions, g: Sessions, g': Sessions, e: Event, ref: string, t: nat)
    requires Leads(start, g) && CanHappen(g, e) && g' == Happened(g, e) && Serves(g.sys, ref, t)
    ensures SeenServing(start, g', ref, Serving(ref, g.sys.tasks[t].spec.port))
  {
    hide CanHappen, Happened;
    assert CanGo(g, [e]) && Onward(g, [e]) == g' by { assert [e][1..] == [] && CanGo(g', []); }
    assert Leads(g, g');
  }

  lemma GoodMap(g: Sessions)
    requires Good(g)
    ensures MapOk(g.sys)
  {
    InvBits(g.sys);
  }

  lemma LookFrom(start: Sessions, g: Sessions, c: nat)
    requires Good(g) && Leads(start, g) && At(g, c, Locked)
    ensures var found := Found(g.sys, g.calls[c].ref);
      var stage := if found.None? then Looked else Answered(Serving(g.calls[c].ref, g.sys.tasks[found.value].spec.port));
      var g' := g.(calls := g.calls[c := g.calls[c].(stage := stage)], mu := if found.None? then g.mu else None);
      && Good(g') && Leads(start, g')
      && (found.Some? ==> SeenServing(start, g', g.calls[c].ref, stage.answer))
  {
    hide Good, Leads;
    OneMore(start, g, Look(c));
    var found := Found(g.sys, g.calls[c].ref);
    if found.Some? { SeenHere(start, g, Happened(g, Look(c)), Look(c), g.calls[c].ref, found.value); }
    hide Found, SeenServing;
  }

  class Starts {
    var sys: Sys                // the registry, changed by its own critical sections
    var mu: Option<nat>
    var calls: seq<Call>

    ghost function State(): Sessions
      reads this
    {
      Sessions(sys, mu, calls)
    }

    /** What the others may do meanwhile: any events but those of start c. The body does none of them; callers know only
        the contract. */
    method Others(ghost c: nat)
      modifies this
      ensures LeadsAround(old(State()), State(), c)
    {
      assert CanGo(State(), []) && Onward(State(), []) == State() && Around([], c);
    }

    /** tasks.Select(kind), in the order the map is iterated in. */
    method Select() returns (listed: seq<nat>)
      requires MapOk(sys)
      ensures forall t: nat :: t in listed <==> Ssh(sys, t) && sys.tasks[t].fate.Listed?
    {
      hide Cancel;
      listed := [];
      var left := sys.reg.Keys;
      while left != {}
        invariant left <= sys.reg.Keys
        invariant forall t: nat :: t in listed <==> Ssh(sys, t) && sys.tasks[t].fate.Listed? && sys.tasks[t].spec.id !in left
        decreases |left|
      {
        var id :| id in left;
        if sys.tasks[sys.reg[id]].spec.kind == KIND { listed := listed + [sys.reg[id]]; }
        left := left - {id};
      }
    }

    /** The loop over the listed servers. */
    method Find(ref: string) returns (found: Option<nat>)
      requires MapOk(sys)
      ensures found == Found(sys, ref)
    {
      var listed := Select();
      var i := 0;
      while i < |listed|
        invariant 0 <= i <= |listed|
        invariant forall k | 0 <= k < i :: !Serves(sys, ref, listed[k])
      {
        assert listed[i] in listed;
        var running := sys.tasks[listed[i]];
        if running.spec.id == ref && running.state.Running? { return Some(listed[i]); }
        i := i + 1;
      }
      found := None;
    }

    /** A start begins. */
    method Enter(ref: string, keyOk: bool)
      requires Good(State())
      modifies this
      ensures Good(State()) && Leads(old(State()), State())
      ensures calls == old(calls) + [Call(ref, keyOk, Asked)]
    {
      assert CanGo(State(), []) && Onward(State(), []) == State();
      OneMore(State(), State(), Ask(ref, keyOk));
      hide Good, Leads;
      calls := calls + [Call(ref, keyOk, Asked)];
    }

    /** startMu.Lock(). */
    method Acquire(ghost start: Sessions, c: nat, patience: nat) returns (locked: bool)
      requires Good(State()) && Leads(start, State()) && At(State(), c, Asked) && calls[c].keyOk
      modifies this
      ensures Good(State()) && Leads(start, State()) && c < |calls|
      ensures calls[c] == old(calls[c]).(stage := if locked then Locked else Asked)
      ensures if locked then mu == Some(c) else mu.Some?
    {
      hide Good, Leads, LeadsAround;
      var left := patience;
      while left > 0 && mu.Some?
        invariant Good(State()) && Leads(start, State()) && c < |calls| && calls[c] == old(calls[c])
        decreases left
      {
        ghost var here := State();
        Others(c);
        AroundKeeps(start, here, State(), c);
        left := left - 1;
      }
      locked := mu.None?;
      if locked {
        OneMore(start, State(), Lock(c));
        mu := Some(c);
        calls := calls[c := calls[c].(stage := Locked)];
      }
    }

    /** The look, under startMu. */
    method LookUp(ghost start: Sessions, c: nat) returns (answer: Option<Answer>)
      requires Good(State()) && Leads(start, State()) && At(State(), c, Locked)
      modifies this
      ensures Good(State()) && Leads(start, State()) && c < |calls|
      ensures calls[c] == old(calls[c]).(stage := if answer.Some? then Answered(answer.value) else Looked)
      ensures answer.Some? ==> answer.value.Serving? && SeenServing(start, State(), calls[c].ref, answer.value)
    {
      GoodMap(State());
      hide Good, Leads, LeadsAround, Inv, Serves, DoStart, Next, Enabled, MapOk, CanHappen, Happened, SeenServing;
      LookFrom(start, State(), c);
      var ref := calls[c].ref;
      var found := Find(ref);
      answer := None;
      if found.None? {
        calls := calls[c := calls[c].(stage := Looked)];
      } else {
        answer := Some(Serving(ref, sys.tasks[found.value].spec.port));
        calls := calls[c := calls[c].(stage := Answered(answer.value))];
        mu := None;
      }
    }

    /** Start, under startMu. */
    method Register(ghost start: Sessions, c: nat, port: Option<nat>) returns (answer: Answer)
      requires Good(State()) && Leads(start, State()) && At(State(), c, Looked)
      modifies this
      ensures Good(State()) && Leads(start, State()) && c < |calls|
      ensures calls[c] == old(calls[c]).(stage := Answered(answer))
      ensures answer == if port.None? then ListenFailed else Created(Server(calls[c].ref, port.value).id, port.value)
    {
      hide Good, Leads, LeadsAround, DoStart, DefaultId, Found, Fresh, Next, Enabled;
      OneMore(start, State(), Begin(c, port));
      if port.None? {
        answer := ListenFailed;
      } else {
        var p := Server(calls[c].ref, port.value);
        sys := DoStart(sys, p);
        answer := Created(p.id, p.port);
      }
      calls := calls[c := calls[c].(stage := Answered(answer))];
      mu := None;
    }

    /** 400. */
    method Deny(ghost start: Sessions, c: nat)
      requires Good(State()) && Leads(start, State()) && At(State(), c, Asked) && !calls[c].keyOk
      modifies this
      ensures Good(State()) && Leads(start, State()) && c < |calls|
      ensures calls[c] == old(calls[c]).(stage := Answered(BadKey))
    {
      OneMore(start, State(), Refuse(c));
      hide Good, Leads, LeadsAround;
      calls := calls[c := calls[c].(stage := Answered(BadKey))];
    }

    /** startServer. port is what the listener would be given; without an answer the start still waits for startMu. */
    method StartServer(ref: string, keyOk: bool, port: Option<nat>, patience: nat) returns (answer: Option<Answer>)
      requires Good(State())
      modifies this
      ensures Good(State()) && Leads(old(State()), State())
      ensures old(|calls|) < |calls|
      ensures calls[old(|calls|)] == Call(ref, keyOk, if answer.Some? then Answered(answer.value) else Asked)
      ensures answer == Some(BadKey) <==> !keyOk
      ensures answer.None? ==> mu.Some?
      ensures answer.Some? && answer.value.Serving? ==> SeenServing(old(State()), State(), ref, answer.value)
      ensures answer.Some? && answer.value.Created? ==>
        port.Some? && answer.value.port == port.value && answer.value.id == Server(ref, port.value).id
      ensures answer == Some(ListenFailed) ==> port.None?
    {
      hide Good, Leads, LeadsAround, Happened, DefaultId, SeenServing;
      ghost var start := State();
      var c := |calls|;
      Enter(ref, keyOk);
      if !keyOk {
        Deny(start, c);
        return Some(BadKey);
      }
      var locked := Acquire(start, c, patience);
      if !locked { return None; }
      ghost var here := State();
      Others(c);
      AroundKeeps(start, here, State(), c);
      answer := LookUp(start, c);
      if answer.None? {
        here := State();
        Others(c);
        AroundKeeps(start, here, State(), c);
        var registered := Register(start, c, port);
        answer := Some(registered);
      }
    }
  }
}
