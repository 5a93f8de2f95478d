/** The runs of the engine and of the gateways keep every budget, where reservations are those of
    `reserve` and stamps come from the clock. */
module QuotaRuns {
  import opened Json
  import opened Evidence
  import opened Log
  import opened Index
  import opened Temporal
  import QuotaSafety
  import Engine
  import Dispatch
  import DispatchSafety
  import DispatchFinality
  import Controller
  import ControllerRun

  // ---- The engine ----

  /** What a step of the engine appends at `now`: evidence stamped now, reservations by `reserve`. */
  ghost predicate Governed(rules: seq<Rule>, w: Engine.World, s: Engine.Step, now: int) {
    match s
    case Append(input) =>
      Accepts(w.log, input) ==>
        QuotaSafety.Reserves(rules, w.log, input, now) || QuotaSafety.Records(w.log, input, now)
    case Receive(_, _, stamp, _) => stamp == now
    case Moves(p, m) => p in w.procs ==> GovernedMove(rules, w, w.procs[p], m, now)
  }

  ghost predicate GovernedMove(rules: seq<Rule>, w: Engine.World, x: Engine.Proc, m: Engine.Move, now: int) {
    match m
    case Reserve(contract, stamp, eventId) =>
      var y := x.(contract := Some(contract), pc := Engine.Pc.Reserved);
      var input := Engine.Input(ExecutionReserved, y, None, stamp, eventId);
      x.pc.Open? && x.caller.Pending? && Accepts(w.log, input) && x.intent.id !in Latest(w.log) ==>
        QuotaSafety.Reserves(rules, w.log, input, now)
    case Complete(_, stamp, _) => stamp == now
    case Cancel(stamp, _) => stamp == now
    case _ => true
  }

  lemma OneAppend(rules: seq<Rule>, log: Events, input: EventInput, now: int)
    requires QuotaSafety.Reserves(rules, log, input, now) || QuotaSafety.Records(log, input, now)
    ensures QuotaSafety.Next(rules, QuotaSafety.World(log, now), QuotaSafety.World(log + [NextEvent(log, input)], now))
  {
    assert QuotaSafety.Appends(rules, QuotaSafety.World(log, now),
      QuotaSafety.World(log + [NextEvent(log, input)], now), input);
  }

  lemma EngineMove(rules: seq<Rule>, w: Engine.World, p: nat, m: Engine.Move, now: int)
    requires p in w.procs && Engine.ProcOk(w.log, w.procs[p]) && GovernedMove(rules, w, w.procs[p], m, now)
    ensures QuotaSafety.Next(rules, QuotaSafety.World(w.log, now), QuotaSafety.World(Engine.Moved(w, p, m).log, now))
  {
    var x, w' := w.procs[p], Engine.Moved(w, p, m);
    if w'.log != w.log {
      match m
      case Reserve(contract, stamp, eventId) =>
        var y := x.(contract := Some(contract), pc := Engine.Pc.Reserved);
        OneAppend(rules, w.log, Engine.Input(ExecutionReserved, y, None, stamp, eventId), now);
      case Complete(success, stamp, eventId) =>
        OneAppend(rules, w.log, Engine.Input(ExecutionCompleted, x, Some(success), stamp, eventId), now);
      case Cancel(stamp, eventId) =>
        OneAppend(rules, w.log, Engine.Input(ExecutionCancelled, x, None, stamp, eventId), now);
    }
  }

  /** A governed step of the engine is a step the quota theorem knows. */
  lemma EngineStepIsQuotaStep(rules: seq<Rule>, w: Engine.World, s: Engine.Step, now: int)
    requires Engine.Inv(w) && Governed(rules, w, s, now)
    ensures QuotaSafety.Next(rules, QuotaSafety.World(w.log, now), QuotaSafety.World(Engine.Next(w, s).log, now))
  {
    match s
    case Append(input) => if Accepts(w.log, input) { OneAppend(rules, w.log, input, now); }
    case Receive(p, intent, stamp, eventId) =>
      var x := Engine.Proc(intent, None, Engine.Pc.Open, Engine.Caller.Pending, false);
      var input := Engine.Input(IntentReceived, x, None, stamp, eventId);
      if Accepts(w.log, input) { OneAppend(rules, w.log, input, now); }
    case Moves(p, m) =>
      if p in w.procs {
        assert Engine.ProcOk(w.log, w.procs[p]);
        EngineMove(rules, w, p, m, now);
      }
  }

  /** The clock at a step of a run, and what the step appends then. */
  ghost predicate GovernedAt(rules: seq<Rule>, steps: seq<Engine.Step>, clock: seq<int>, i: nat)
    requires i < |steps| == |clock|
  {
    && (i > 0 ==> clock[i - 1] <= clock[i])
    && Governed(rules, Engine.Run(Engine.Empty, steps[..i]), steps[i], clock[i])
  }

  ghost predicate GovernedRun(rules: seq<Rule>, steps: seq<Engine.Step>, clock: seq<int>) {
    |clock| == |steps| && forall i :: 0 <= i < |steps| ==> GovernedAt(rules, steps, clock, i)
  }

  lemma GovernedFront(rules: seq<Rule>, steps: seq<Engine.Step>, clock: seq<int>)
    requires GovernedRun(rules, steps, clock) && steps != []
    ensures GovernedRun(rules, steps[..|steps| - 1], clock[..|steps| - 1])
  {
    var front := steps[..|steps| - 1];
    forall i | 0 <= i < |front| ensures GovernedAt(rules, front, clock[..|front|], i) {
      assert GovernedAt(rules, steps, clock, i);
      assert front[..i] == steps[..i];
    }
  }

  lemma {:induction false} EngineRunIsSafe(rules: seq<Rule>, steps: seq<Engine.Step>, clock: seq<int>)
    requires GovernedRun(rules, steps, clock) && steps != []
    ensures QuotaSafety.Safe(rules, QuotaSafety.World(Engine.Run(Engine.Empty, steps).log, clock[|clock| - 1]))
  {
    var n := |steps| - 1;
    var before, now := Engine.Run(Engine.Empty, steps[..n]), clock[n];
    assert GovernedAt(rules, steps, clock, n);
    if n == 0 {
      assert steps[..0] == [];
      QuotaSafety.EmptyIsSafe(rules, QuotaSafety.World(before.log, now));
    } else {
      GovernedFront(rules, steps, clock);
      EngineRunIsSafe(rules, steps[..n], clock[..n]);
      QuotaSafety.StepKeepsSafe(rules, QuotaSafety.World(before.log, clock[n - 1]), QuotaSafety.World(before.log, now));
    }
    Engine.RunKeepsInv(steps[..n]);
    EngineStepIsQuotaStep(rules, before, steps[n], now);
    QuotaSafety.StepKeepsSafe(rules, QuotaSafety.World(before.log, now),
      QuotaSafety.World(Engine.Next(before, steps[n]).log, now));
  }

  /** Over every governed run of the engine no window ever exceeds its limit. */
  lemma EngineKeepsBudgets(rules: seq<Rule>, steps: seq<Engine.Step>, clock: seq<int>, k: nat, g: Group, t: int)
    requires GovernedRun(rules, steps, clock) && steps != []
    requires QuotaSafety.Budgeted(rules, k) && QuotaSafety.GroupKind(rules[k], g)
    ensures Used(rules[k], g, t, Latest(Engine.Run(Engine.Empty, steps).log)) <= rules[k].limit
  {
    EngineRunIsSafe(rules, steps, clock);
  }

  // ---- The gateways ----

  /** Appends of others are evidence, or reservations by `reserve`. */
  ghost predicate GovernedStep(rules: seq<Rule>, w: Dispatch.World, s: Dispatch.Step) {
    s.Append? && Accepts(w.log, s.input) ==>
      QuotaSafety.Reserves(rules, w.log, s.input, w.c.now) || QuotaSafety.Records(w.log, s.input, w.c.now)
  }

  function Clocked(w: Dispatch.World): QuotaSafety.World { QuotaSafety.World(w.log, w.c.now) }

  lemma StartedRecords(log: Events, x: Dispatch.Exec, intent: Intent, now: int, eventId: string)
    requires HasStatus(log, x.grant.body.proposalId, RESERVED)
    requires Accepts(log, Dispatch.StartedInput(x, intent, now, eventId))
    ensures QuotaSafety.Records(log, Dispatch.StartedInput(x, intent, now, eventId), now)
  {
  }

  lemma CompletedRecords(log: Events, x: Dispatch.Exec, intent: Intent, success: bool, now: int, eventId: string)
    requires intent.id in Latest(log) && Accepts(log, Dispatch.CompletedInput(x, intent, success, now, eventId))
    ensures QuotaSafety.Records(log, Dispatch.CompletedInput(x, intent, success, now, eventId), now)
  {
  }

  /** A redeemed call completes a proposal that has a trace. */
  lemma RedeemedInTrace(w: Dispatch.World, e: nat)
    requires Legal(w.log) && e in w.execs && DispatchSafety.ExecOk(w, e) && w.execs[e].redeemedAt.Some?
    ensures w.execs[e].intent.Some? && w.execs[e].intent.value.id in Latest(w.log)
  {
    DispatchFinality.RedeemedRecord(w, e);
  }

  /** The two logs one step of the clocked run apart. */
  ghost predicate QuotaStep(rules: seq<Rule>, w: Dispatch.World, w': Dispatch.World) {
    QuotaSafety.Next(rules, Clocked(w), Clocked(w'))
  }

  lemma AppendIsQuotaStep(rules: seq<Rule>, w: Dispatch.World, w': Dispatch.World, input: EventInput)
    requires QuotaSafety.Reserves(rules, w.log, input, w.c.now) || QuotaSafety.Records(w.log, input, w.c.now)
    requires w'.log == w.log + [NextEvent(w.log, input)] && w'.c.now == w.c.now
    ensures QuotaStep(rules, w, w')
  {
    OneAppend(rules, w.log, input, w.c.now);
  }

  lemma RedeemStep(rules: seq<Rule>, w: Dispatch.World, e: nat, eventId: string)
    requires e in w.execs
    ensures QuotaStep(rules, w, Dispatch.Consumed(w, e, eventId))
  {
    var x, w' := w.execs[e], Dispatch.Consumed(w, e, eventId);
    if w'.log != w.log {
      StartedRecords(w.log, x, x.intent.value, w.c.now, eventId);
      AppendIsQuotaStep(rules, w, w', Dispatch.StartedInput(x, x.intent.value, w.c.now, eventId));
    }
  }

  lemma CompleteStep(rules: seq<Rule>, w: Dispatch.World, e: nat, eventId: string)
    requires Legal(w.log) && e in w.execs && DispatchSafety.ExecOk(w, e)
    ensures QuotaStep(rules, w, Dispatch.Completed(w, e, eventId))
  {
    var x, w' := w.execs[e], Dispatch.Completed(w, e, eventId);
    if w'.log != w.log {
      RedeemedInTrace(w, e);
      CompletedRecords(w.log, x, x.intent.value, true, w.c.now, eventId);
      AppendIsQuotaStep(rules, w, w', Dispatch.CompletedInput(x, x.intent.value, true, w.c.now, eventId));
    }
  }

  lemma FailureStep(rules: seq<Rule>, w: Dispatch.World, e: nat, eventId: string)
    requires Legal(w.log) && e in w.execs && DispatchSafety.ExecOk(w, e)
    ensures QuotaStep(rules, w, Dispatch.FailureRecorded(w, e, eventId))
  {
    var x, w' := w.execs[e], Dispatch.FailureRecorded(w, e, eventId);
    if w'.log != w.log {
      RedeemedInTrace(w, e);
      CompletedRecords(w.log, x, x.intent.value, false, w.c.now, eventId);
      AppendIsQuotaStep(rules, w, w', Dispatch.CompletedInput(x, x.intent.value, false, w.c.now, eventId));
    }
  }

  lemma QuietStep(rules: seq<Rule>, w: Dispatch.World, e: nat, act: Dispatch.Act)
    requires e in w.execs && !act.Redeem? && !act.Complete? && !act.LogFailure?
    ensures QuotaStep(rules, w, Dispatch.Acted(w, e, act))
  {
  }

  lemma CallStep(rules: seq<Rule>, w: Dispatch.World, e: nat, act: Dispatch.Act)
    requires Legal(w.log) && e in w.execs && DispatchSafety.ExecOk(w, e)
    ensures QuotaStep(rules, w, Dispatch.Acted(w, e, act))
  {
    match act
    case Redeem(eventId) => RedeemStep(rules, w, e, eventId);
    case Complete(eventId) => CompleteStep(rules, w, e, eventId);
    case LogFailure(eventId) => FailureStep(rules, w, e, eventId);
    case _ => QuietStep(rules, w, e, act);
  }

  /** Steps that are not a call's own append only what `GovernedStep` allows. */
  lemma OtherStep(rules: seq<Rule>, w: Dispatch.World, s: Dispatch.Step)
    requires ControllerRun.Inv(w.c) && GovernedStep(rules, w, s) && !s.Acts?
    ensures QuotaStep(rules, w, Dispatch.Next(w, s))
  {
    if s.Append? {
      if Accepts(w.log, s.input) { AppendIsQuotaStep(rules, w, Dispatch.Next(w, s), s.input); }
    } else {
      DispatchFinality.OtherOnward(w, s);
      SameLog(w, s);
    }
  }

  lemma SameLog(w: Dispatch.World, s: Dispatch.Step)
    requires !s.Acts? && !s.Append?
    ensures Dispatch.Next(w, s).log == w.log
  {
  }

  /** A governed step of the gateways is a step the quota theorem knows. */
  lemma GatewayStepIsQuotaStep(rules: seq<Rule>, w: Dispatch.World, s: Dispatch.Step)
    requires DispatchSafety.Inv(w) && GovernedStep(rules, w, s)
    ensures QuotaStep(rules, w, Dispatch.Next(w, s))
  {
    if !s.Acts? {
      OtherStep(rules, w, s);
    } else if s.exec in w.execs {
      assert DispatchSafety.ExecOk(w, s.exec);
      CallStep(rules, w, s.exec, s.act);
    }
  }

  ghost predicate GovernedSteps(rules: seq<Rule>, w: Dispatch.World, steps: seq<Dispatch.Step>) {
    forall i :: 0 <= i < |steps| ==> GovernedStep(rules, Dispatch.Run(w, steps[..i]), steps[i])
  }

  lemma {:induction false} GatewayRunIsSafe(
    rules: seq<Rule>, policy: Controller.Policy, bundleId: string, now: int, steps: seq<Dispatch.Step>)
    requires GovernedSteps(rules, Dispatch.Begin(policy, bundleId, now), steps)
    ensures QuotaSafety.Safe(rules, Clocked(Dispatch.Run(Dispatch.Begin(policy, bundleId, now), steps)))
  {
    var start := Dispatch.Begin(policy, bundleId, now);
    if steps == [] {
      QuotaSafety.EmptyIsSafe(rules, Clocked(start));
    } else {
      var front, s := steps[..|steps| - 1], steps[|steps| - 1];
      forall i | 0 <= i < |front| ensures GovernedStep(rules, Dispatch.Run(start, front[..i]), front[i]) {
        assert front[..i] == steps[..i];
      }
      GatewayRunIsSafe(rules, policy, bundleId, now, front);
      DispatchSafety.RunKeepsInv(policy, bundleId, now, front);
      GatewayStepIsQuotaStep(rules, Dispatch.Run(start, front), s);
      QuotaSafety.StepKeepsSafe(rules, Clocked(Dispatch.Run(start, front)), Clocked(Dispatch.Run(start, steps)));
    }
  }

  /** Over every governed run of the gateways and the controller no window ever exceeds its limit. */
  lemma GatewaysKeepBudgets(
    rules: seq<Rule>, policy: Controller.Policy, bundleId: string, now: int, steps: seq<Dispatch.Step>,
    k: nat, g: Group, t: int)
    requires GovernedSteps(rules, Dispatch.Begin(policy, bundleId, now), steps)
    requires QuotaSafety.Budgeted(rules, k) && QuotaSafety.GroupKind(rules[k], g)
    ensures var w := Dispatch.Run(Dispatch.Begin(policy, bundleId, now), steps);
      Used(rules[k], g, t, Latest(w.log)) <= rules[k].limit
  {
    GatewayRunIsSafe(rules, policy, bundleId, now, steps);
  }
}
