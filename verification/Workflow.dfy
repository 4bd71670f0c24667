/**
  The workflow engine of subsystems/workflow: a document validated all or nothing, and the run of a moment's steps.
  What a step's action answers is the environment's choice: the nth step executed is answered env(n).
*/
module Workflow {
  import opened Options

  datatype Value = Text(text: string) | Other

  datatype RawStep = RawStep(name: string, ref: string, action: string, params: map<string, Value>)
  datatype RawTrigger = RawTrigger(on: string, steps: seq<RawStep>)

  /** An action is named by its place in the table main offers. */
  type Action = nat

  datatype Step = Step(name: string, ref: string, action: string, params: map<string, Value>, run: Action)
  datatype Trigger = Trigger(on: string, steps: seq<Step>)

  /** What an action answers; id is that of the server or process in its body, "" when there is none. */
  datatype Outcome = Outcome(status: int, id: string, msg: string)

  datatype StepError = StepError(number: nat, name: string, action: string, status: int, msg: string)

  const MOMENTS := {"start", "ready", "stop", "SIGUSR1", "SIGUSR2", "SIGHUP"}

  // ----- what a moment's run is ---------------------------------------------------------------------------------

  /** A step with its number in its own trigger, as the error names it. */
  datatype Located = Located(step: Step, number: nat)

  function Numbered(steps: seq<Step>): seq<Located> {
    seq(|steps|, i requires 0 <= i < |steps| => Located(steps[i], i + 1))
  }

  /** The steps of all the triggers at one moment, in document order. */
  function Flat(triggers: seq<Trigger>, moment: string): seq<Located> {
    if triggers == [] then []
    else (if triggers[0].on == moment then Numbered(triggers[0].steps) else []) + Flat(triggers[1..], moment)
  }

  lemma {:induction false} FlatAppend(a: seq<Trigger>, b: seq<Trigger>, moment: string)
    ensures Flat(a + b, moment) == Flat(a, moment) + Flat(b, moment)
  {
    if a == [] {
      assert a + b == b;
    } else {
      FlatAppend(a[1..], b, moment);
      assert (a + b)[1..] == a[1..] + b;
    }
  }

  /** The steps one trigger adds to the list. */
  function Own(t: Trigger, moment: string): seq<Located> { if t.on == moment then Numbered(t.steps) else [] }

  /** Where the steps of trigger t stand in the list. */
  lemma FlatAt(triggers: seq<Trigger>, t: nat, moment: string)
    requires t < |triggers|
    ensures var flat, start, own := Flat(triggers, moment), |Flat(triggers[..t], moment)|, Own(triggers[t], moment);
      && |Flat(triggers[..t + 1], moment)| == start + |own| <= |flat|
      && forall j | 0 <= j < |own| :: flat[start + j] == own[j]
  {
    FlatAppend(triggers[..t], [triggers[t]], moment);
    assert triggers[..t] + [triggers[t]] == triggers[..t + 1];
    FlatAppend(triggers[..t + 1], triggers[t + 1..], moment);
    assert triggers[..t + 1] + triggers[t + 1..] == triggers;
    assert Flat([triggers[t]], moment) == Own(triggers[t], moment);
    hide Flat;
  }

  /** How far the list has got after a trigger. */
  lemma LengthAt(triggers: seq<Trigger>, t: nat, moment: string)
    requires t < |triggers|
    ensures |Flat(triggers[..t + 1], moment)| ==
      |Flat(triggers[..t], moment)| + (if triggers[t].on == moment then |triggers[t].steps| else 0)
    ensures |Flat(triggers[..t + 1], moment)| <= |Flat(triggers, moment)|
  {
    FlatAt(triggers, t, moment);
    hide Flat;
  }

  /** The place of one step. */
  lemma StepAt(triggers: seq<Trigger>, t: nat, moment: string, i: nat)
    requires t < |triggers| && triggers[t].on == moment && i < |triggers[t].steps|
    ensures |Flat(triggers[..t], moment)| + i < |Flat(triggers, moment)|
    ensures Flat(triggers, moment)[|Flat(triggers[..t], moment)| + i] == Located(triggers[t].steps[i], i + 1)
  {
    FlatAt(triggers, t, moment);
    assert Own(triggers[t], moment)[i] == Located(triggers[t].steps[i], i + 1);
    hide Flat;
  }

  predicate Succeeds(o: Outcome) { 200 <= o.status < 300 }

  /** Neither a failure nor a pause. */
  predicate Continues(o: Outcome) { Succeeds(o) && o.status != 202 }

  /** n is where the list is cut: after the first step that fails or is paused, or at the end. */
  predicate CutAt(flat: seq<Located>, env: nat -> Outcome, n: nat) {
    && n <= |flat|
    && (forall i: nat | i + 1 < n :: Continues(env(i)))
    && (n < |flat| ==> n > 0 && !Continues(env(n - 1)))
  }

  /** Of count steps n are executed: each but the last answers from 200 to 299 and not 202, and the last too unless all are. */
  predicate InNumbers(count: nat, env: nat -> Outcome, n: nat) {
    && n <= count
    && (forall i: nat | i + 1 < n :: 200 <= env(i).status < 300 && env(i).status != 202)
    && (n < count ==> n > 0 && !(200 <= env(n - 1).status < 300 && env(n - 1).status != 202))
  }

  lemma CutInNumbers(flat: seq<Located>, env: nat -> Outcome, n: nat)
    requires CutAt(flat, env, n)
    ensures InNumbers(|flat|, env, n) && n <= |flat|
    ensures n > 0 ==> (Succeeds(env(n - 1)) <==> 200 <= env(n - 1).status < 300)
  {
    forall i: nat | i + 1 < n ensures 200 <= env(i).status < 300 && env(i).status != 202 { assert Continues(env(i)); }
  }

  /** There is exactly one such n, so CutAt determines what is executed. */
  lemma CutIsUnique(flat: seq<Located>, env: nat -> Outcome, n: nat, m: nat)
    requires CutAt(flat, env, n) && CutAt(flat, env, m)
    ensures n == m
  {
  }

  /** A pause ends every remaining trigger of the moment, not only its own. */
  lemma PauseEndsTheMoment(a: seq<Trigger>, b: seq<Trigger>, moment: string, env: nat -> Outcome, k: nat, n: nat)
    requires CutAt(Flat(a + b, moment), env, n) && k < n && env(k).status == 202
    ensures n == k + 1
    ensures k < |Flat(a, moment)| ==> n <= |Flat(a, moment)|
  {
    assert !Continues(env(k));
  }

  /** An answer without an id starts nothing to wait for. */
  function Noted(started: seq<string>, id: string): seq<string> { if id != "" then started + [id] else started }

  /** The ids the first n steps answered with, in order. */
  function Ids(env: nat -> Outcome, n: nat): seq<string> {
    if n == 0 then [] else Noted(Ids(env, n - 1), env(n - 1).id)
  }

  /** The error is of that step, by its number in its trigger, and of that answer. */
  predicate Names(e: StepError, at: Located, o: Outcome) {
    e.number == at.number && e.name == at.step.name && e.action == at.step.action && e.status == o.status && e.msg == o.msg
  }

  /** Each id a step answered with is among them. */
  lemma {:induction false} EveryIdIsThere(env: nat -> Outcome, n: nat, i: nat)
    requires i < n && env(i).id != ""
    ensures env(i).id in Ids(env, n)
  {
    if i + 1 < n { EveryIdIsThere(env, n - 1, i); }
  }

  /** In the order of their steps, each at its place, and nothing else. */
  lemma {:induction false} IdAt(env: nat -> Outcome, n: nat, i: nat)
    requires i < n
    ensures if env(i).id == "" then Ids(env, i + 1) == Ids(env, i)
            else |Ids(env, i + 1)| == |Ids(env, i)| + 1 <= |Ids(env, n)| && Ids(env, n)[|Ids(env, i)|] == env(i).id
    ensures |Ids(env, i + 1)| <= |Ids(env, n)| && Ids(env, 0) == []
  {
    if i + 1 < n { IdAt(env, n - 1, i); }
  }

  // ----- what a loaded document is ------------------------------------------------------------------------------

  datatype Source = Unreadable | Unparsable | Document(tasks: seq<RawTrigger>)

  datatype LoadError =
    | ReadError | ParseError | NoTasks
    | UnknownMoment(trigger: nat, on: string)
    | NoSteps(trigger: nat)
    | UnknownAction(trigger: nat, name: string, action: string)

  function On(raw: RawTrigger): string { if raw.on != "" then raw.on else "start" }

  /** The moment is left out, for start, or is one of the six. */
  predicate NamesMoment(raw: RawTrigger) {
    || raw.on == "" || raw.on == "start" || raw.on == "ready" || raw.on == "stop"
    || raw.on == "SIGUSR1" || raw.on == "SIGUSR2" || raw.on == "SIGHUP"
  }

  predicate Known(raw: RawTrigger, actions: map<string, Action>) {
    && NamesMoment(raw)
    && raw.steps != []
    && forall j | 0 <= j < |raw.steps| :: raw.steps[j].action in actions
  }

  /** step is raw with its action bound and its ref among its params; every other param is as written. */
  predicate BoundStep(raw: RawStep, step: Step, actions: map<string, Action>) {
    && step.name == raw.name && step.ref == raw.ref && step.action == raw.action
    && raw.action in actions && step.run == actions[raw.action]
    && (raw.ref == "" ==> step.params == raw.params)
    && (raw.ref != "" ==> "ref" in step.params && step.params["ref"] == Text(raw.ref))
    && (forall key | key in raw.params && key != "ref" :: key in step.params && step.params[key] == raw.params[key])
    && (forall key | key in step.params && key != "ref" :: key in raw.params)
  }

  predicate BoundTrigger(raw: RawTrigger, t: Trigger, actions: map<string, Action>) {
    && t.on == (if raw.on == "" then "start" else raw.on) && NamesMoment(raw) && t.steps != []
    && |t.steps| == |raw.steps|
    && forall j | 0 <= j < |t.steps| :: BoundStep(raw.steps[j], t.steps[j], actions)
  }

  /** Every step a run of a loaded document can execute has its own action. */
  lemma {:induction false} StepsAreBound(
      triggers: seq<Trigger>, tasks: seq<RawTrigger>, actions: map<string, Action>, moment: string)
    requires |triggers| == |tasks|
    requires forall i | 0 <= i < |tasks| :: BoundTrigger(tasks[i], triggers[i], actions)
    ensures forall k | 0 <= k < |Flat(triggers, moment)| ::
      var step := Flat(triggers, moment)[k].step; step.action in actions && step.run == actions[step.action]
  {
    if triggers != [] { StepsAreBound(triggers[1..], tasks[1..], actions, moment); }
  }

  /** executed is the beginning of flat. */
  predicate Follows(executed: seq<Step>, flat: seq<Located>) {
    |executed| <= |flat| && forall i | 0 <= i < |executed| :: executed[i] == flat[i].step
  }

  predicate AllContinue(env: nat -> Outcome, n: nat) { forall i: nat | i < n :: Continues(env(i)) }

  /** A run that nothing has cut so far. */
  predicate Going(executed: seq<Step>, started: seq<string>, flat: seq<Located>, env: nat -> Outcome) {
    Follows(executed, flat) && AllContinue(env, |executed|) && started == Ids(env, |executed|)
  }

  /** The next step either keeps the run going or cuts it. */
  lemma GoesOn(executed: seq<Step>, started: seq<string>, flat: seq<Located>, env: nat -> Outcome, step: Step)
    requires Going(executed, started, flat, env) && |executed| < |flat| && step == flat[|executed|].step
    ensures var o, ran := env(|executed|), executed + [step];
      && Follows(ran, flat) && Noted(started, o.id) == Ids(env, |ran|)
      && (Continues(o) ==> Going(ran, Noted(started, o.id), flat, env))
      && (!Continues(o) ==> CutAt(flat, env, |ran|))
  {
  }

  lemma GoneThrough(executed: seq<Step>, started: seq<string>, flat: seq<Located>, env: nat -> Outcome)
    requires Going(executed, started, flat, env) && |executed| == |flat|
    ensures CutAt(flat, env, |executed|) && Follows(executed, flat) && started == Ids(env, |executed|)
    ensures |executed| > 0 ==> Succeeds(env(|executed| - 1))
  {
    if |executed| > 0 { assert Continues(env(|executed| - 1)); }
  }

  class Engine {
    var loaded: seq<Trigger>

    constructor ()
      ensures loaded == []
    {
      loaded := [];
    }

    /** Lines 172-182 of Load for one step. */
    method Bind(raw: RawStep, actions: map<string, Action>) returns (step: Step)
      requires raw.action in actions
      ensures BoundStep(raw, step, actions)
    {
      var params := raw.params;
      if raw.ref != "" { params := params["ref" := Text(raw.ref)]; }
      step := Step(raw.name, raw.ref, raw.action, params, actions[raw.action]);
    }

    /** Lines 165-183 of Load for trigger number i + 1; the error is that of its first bad step. */
    method LoadTrigger(raw: RawTrigger, i: nat, actions: map<string, Action>) returns (t: Trigger, err: Option<LoadError>)
      ensures err.None? <==> Known(raw, actions)
      ensures err.None? ==> BoundTrigger(raw, t, actions)
      ensures err.Some? ==>
        match err.value
        case UnknownMoment(n, on) => n == i + 1 && on == raw.on && !NamesMoment(raw)
        case NoSteps(n) => n == i + 1 && raw.steps == []
        case UnknownAction(n, name, action) =>
          && n == i + 1 && action !in actions
          && exists j | 0 <= j < |raw.steps| ::
            && raw.steps[j].name == name && raw.steps[j].action == action
            && forall l | 0 <= l < j :: raw.steps[l].action in actions
        case _ => false
    {
      t := Trigger(On(raw), []);
      if t.on !in MOMENTS { return t, Some(UnknownMoment(i + 1, t.on)); }
      if |raw.steps| == 0 { return t, Some(NoSteps(i + 1)); }
      var j := 0;
      while j < |raw.steps|
        invariant 0 <= j <= |raw.steps| && t.on == On(raw) && |t.steps| == j
        invariant forall k | 0 <= k < j :: BoundStep(raw.steps[k], t.steps[k], actions)
      {
        if raw.steps[j].action !in actions {
          return t, Some(UnknownAction(i + 1, raw.steps[j].name, raw.steps[j].action));
        }
        var step := Bind(raw.steps[j], actions);
        t := t.(steps := t.steps + [step]);
        j := j + 1;
      }
      err := None;
    }

    /** Load: the whole document is bound, or nothing changes and the error is that of its first bad trigger. */
    method Load(source: Source, actions: map<string, Action>) returns (err: Option<LoadError>)
      modifies this
      ensures err.None? <==>
        source.Document? && source.tasks != [] && forall i | 0 <= i < |source.tasks| :: Known(source.tasks[i], actions)
      ensures err.Some? ==> loaded == old(loaded)
      ensures err.None? ==>
        |loaded| == |source.tasks| && forall i | 0 <= i < |loaded| :: BoundTrigger(source.tasks[i], loaded[i], actions)
      ensures err.Some? && (err.value.UnknownMoment? || err.value.NoSteps? || err.value.UnknownAction?) ==>
        && source.Document? && 1 <= err.value.trigger <= |source.tasks|
        && !Known(source.tasks[err.value.trigger - 1], actions)
        && forall i | 0 <= i < err.value.trigger - 1 :: Known(source.tasks[i], actions)
    {
      match source
      case Unreadable => return Some(ReadError);
      case Unparsable => return Some(ParseError);
      case Document(tasks) =>
        if |tasks| == 0 { return Some(NoTasks); }
        var all: seq<Trigger> := [];
        var i := 0;
        while i < |tasks|
          invariant 0 <= i <= |tasks| && |all| == i && loaded == old(loaded)
          invariant forall k | 0 <= k < i :: Known(tasks[k], actions) && BoundTrigger(tasks[k], all[k], actions)
        {
          var t, e := LoadTrigger(tasks[i], i, actions);
          if e.Some? { return e; }
          all := all + [t];
          i := i + 1;
        }
        loaded := all;
        err := None;
    }

    /** Lines 103-105: a wait for every server or process a step answered with. */
    method WaitAll(started: seq<string>) returns (waited: seq<string>)
      ensures waited == started
    {
      waited := [];
      var w := 0;
      while w < |started|
        invariant 0 <= w <= |started| && waited == started[..w]
      {
        waited := waited + [started[w]];
        w := w + 1;
      }
    }

    /** Lines 84-100, for one step: it is run, and the run goes on, is paused, or fails. */
    method Take(step: Step, i: nat, ghost flat: seq<Located>, env: nat -> Outcome, executed: seq<Step>, started: seq<string>)
      returns (ran: seq<Step>, noted: seq<string>, err: Option<StepError>, paused: bool)
      requires Going(executed, started, flat, env) && |executed| < |flat| && flat[|executed|] == Located(step, i + 1)
      ensures ran == executed + [step] && Follows(ran, flat)
      ensures err.Some? <==> !Succeeds(env(|ran| - 1))
      ensures err.Some? ==> Names(err.value, flat[|ran| - 1], env(|ran| - 1))
      ensures paused ==> err.None?
      ensures err.None? ==> noted == Ids(env, |ran|)
      ensures if err.Some? || paused then CutAt(flat, env, |ran|) else Going(ran, noted, flat, env)
    {
      GoesOn(executed, started, flat, env, step);
      hide Going, Follows, Ids, CutAt, Noted;
      var o := env(|executed|);
      ran, noted, err, paused := executed + [step], started, None, false;
      if o.status < 200 || o.status >= 300 {
        err := Some(StepError(i + 1, step.name, step.action, o.status, o.msg));
        return;
      }
      noted := Noted(started, o.id);
      paused := o.status == 202;
    }

    /** Run: the steps executed are the list of the moment up to its cut, the first step whose status is not from 200 to
        299, or is 202. It fails exactly if the last one's is not from 200 to 299, and otherwise has waited on every id
        they answered with. */
    method Run(moment: string, env: nat -> Outcome)
      returns (executed: seq<Step>, waited: seq<string>, err: Option<StepError>)
      ensures CutAt(Flat(loaded, moment), env, |executed|)
      ensures Follows(executed, Flat(loaded, moment))
      ensures InNumbers(|Flat(loaded, moment)|, env, |executed|)
      ensures err.Some? <==> |executed| > 0 && !(200 <= env(|executed| - 1).status < 300)
      ensures err.Some? ==>
        waited == [] && Names(err.value, Flat(loaded, moment)[|executed| - 1], env(|executed| - 1))
      ensures err.None? ==> waited == Ids(env, |executed|)
    {
      var started: seq<string> := [];
      executed, waited, err := [], [], None;
      var all := loaded;
      ghost var flat := Flat(all, moment);
      assert Flat(all[..0], moment) == [] && Going([], [], flat, env);
      hide Flat, Going, Follows, Ids, CutAt, Succeeds, InNumbers, Names;
      var paused := false;
      var t := 0;
      label run: while t < |all|
        invariant 0 <= t <= |all| && |executed| == |Flat(all[..t], moment)| && !paused && err.None?
        invariant Going(executed, started, flat, env)
      {
        LengthAt(all, t, moment);
        if all[t].on == moment {
          var steps := all[t].steps;
          var i := 0;
          while i < |steps|
            invariant 0 <= i <= |steps| && |executed| == |Flat(all[..t], moment)| + i && !paused && err.None?
            invariant Going(executed, started, flat, env)
          {
            StepAt(all, t, moment, i);
            executed, started, err, paused := Take(steps[i], i, flat, env, executed, started);
            if err.Some? {
              CutInNumbers(flat, env, |executed|);
              return;
            }
            if paused { break run; }
            i := i + 1;
          }
        }
        t := t + 1;
      }
      if !paused {
        assert all[..t] == all;
        GoneThrough(executed, started, flat, env);
      }
      CutInNumbers(flat, env, |executed|);
      waited := WaitAll(started);
    }
  }
}
