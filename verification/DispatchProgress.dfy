/** A grant in order is dispatched: the runs by which a call reaches the adapter, with a dispatch
    authority and without one. */
module DispatchProgress {
  import opened Json
  import opened Evidence
  import opened Log
  import opened Stability
  import opened Controller
  import opened ControllerRun
  import opened Dispatch
  import opened DispatchSafety
  import opened DispatchGates
  import opened DispatchFinality

  // ---- Up to the redemption ----

  function Moves(w: World, e: nat, m: Move): World { Next(w, Acts(e, Local(m))) }

  function Guarded(w: World, e: nat, n: nat, expiresAt: int): World {
    if n == 0 then w else Moves(Guarded(w, e, n - 1, expiresAt), e, Guard(expiresAt))
  }

  /** The guard lets the call pass in this state. */
  predicate Unlocks(w: World, x: Exec) {
    x.intent.Some? && CanUnlock(x.grant, x.intent.value, w.log, x.gateway.options, w.c.now)
  }

  function Passed(w: World, x: Exec, n: nat, expiresAt: int): Exec
    requires n <= 5
  {
    if n == 0 then x
    else x.(unlocked := Some(Moment(w.log, w.c.now)), deadline := Capped(x.grant, expiresAt, w.c.now),
            pc := if n == 5 then Redeeming else Guarding(5 - n))
  }

  predicate AtGuards(w: World, e: nat) { e in w.execs && w.execs[e].pc == Guarding(5) && Unlocks(w, w.execs[e]) }

  function PassedWorld(w: World, e: nat, n: nat, expiresAt: int): World
    requires AtGuards(w, e) && n <= 5
  {
    Put(w, e, Passed(w, w.execs[e], n, expiresAt))
  }

  lemma GuardPasses(w: World, e: nat, n: nat, expiresAt: int)
    requires AtGuards(w, e) && n < 5 && w.c.now < expiresAt
    ensures Moves(PassedWorld(w, e, n, expiresAt), e, Guard(expiresAt)) == PassedWorld(w, e, n + 1, expiresAt)
  {
    var y := Passed(w, w.execs[e], n, expiresAt);
    GuardOpens(PassedWorld(w, e, n, expiresAt), e, expiresAt);
    MoveTaken(w, e, y, Guard(expiresAt));
    PassedOnce(w, w.execs[e], n, expiresAt);
  }

  lemma GuardOpens(w: World, e: nat, expiresAt: int)
    requires e in w.execs && w.execs[e].pc.Guarding? && Unlocks(w, w.execs[e]) && w.c.now < expiresAt
    ensures Enabled(w, e, Guard(expiresAt))
  {
  }

  lemma PassedOnce(w: World, x: Exec, n: nat, expiresAt: int)
    requires x.pc == Guarding(5) && n < 5
    ensures Moved(w.log, w.c.now, Passed(w, x, n, expiresAt), Guard(expiresAt)) == Passed(w, x, n + 1, expiresAt)
  {
  }

  /** Passing the guards takes five checks of the same unlocked grant and a live identity. */
  lemma {:induction false} GuardsPass(w: World, e: nat, n: nat, expiresAt: int)
    requires AtGuards(w, e) && n <= 5 && w.c.now < expiresAt
    ensures Guarded(w, e, n, expiresAt) == PassedWorld(w, e, n, expiresAt)
  {
    if n > 0 {
      GuardsPass(w, e, n - 1, expiresAt);
      GuardPasses(w, e, n - 1, expiresAt);
    } else {
      assert w.execs[e := w.execs[e]] == w.execs;
    }
  }

  /** The call, checked and guarded. */
  function Unlocking(
    w: World, e: nat, gateway: Gateway, grant: Contract, actual: Actual, snapshot: string, expiresAt: int): World
  {
    var called := Next(w, Execute(e, gateway, grant, actual));
    Guarded(Moves(Moves(called, e, Check), e, Move.Policy(snapshot)), e, 5, expiresAt)
  }

  /** The call as it stands before the redemption. */
  ghost predicate ReadyToRedeem(
    w: World, x: Exec, gateway: Gateway, grant: Contract, actual: Actual, intent: Intent, expiresAt: int)
  {
    x == NewExec(gateway, grant, actual).(intent := Some(intent), pc := Redeeming,
      deadline := Capped(grant, expiresAt, w.c.now), unlocked := Some(Moment(w.log, w.c.now)))
  }

  lemma MoveTaken(w: World, e: nat, x: Exec, m: Move)
    requires Enabled(Put(w, e, x), e, m)
    ensures Moves(Put(w, e, x), e, m) == Put(w, e, Moved(w.log, w.c.now, x, m))
  {
  }

  lemma RedeemTaken(w: World, e: nat, x: Exec, eventId: string)
    requires x.pc.Redeeming? && x.intent.Some? && HasStatus(w.log, x.grant.body.proposalId, RESERVED)
    requires Accepts(w.log, StartedInput(x, x.intent.value, w.c.now, eventId))
    ensures var input := StartedInput(x, x.intent.value, w.c.now, eventId);
      Next(Put(w, e, x), Acts(e, Redeem(eventId)))
        == Put(Logging(w, input), e, x.(pc := Redeemed, redeemedAt := Some(|w.log|)))
  {
  }

  lemma CheckEnabled(w: World, e: nat, x: Exec, intent: Intent)
    requires x.pc.Called? && GrantMatches(w.log, x.gateway, x.grant, x.actual, intent)
    ensures FirstIntent(w.log, x.grant.body.proposalId) == Some(intent) && Enabled(Put(w, e, x), e, Check)
  {
  }

  /** The call after its first checks. */
  lemma ChecksPass(w: World, e: nat, x: Exec, intent: Intent, snapshot: string)
    requires e !in w.execs && x.pc.Called? && Names(w, x, snapshot)
    requires GrantMatches(w.log, x.gateway, x.grant, x.actual, intent)
    ensures Moves(Moves(Put(w, e, x), e, Check), e, Move.Policy(snapshot))
      == Put(w, e, x.(intent := Some(intent), pc := Guarding(5)))
  {
    CheckEnabled(w, e, x, intent);
    MoveTaken(w, e, x, Check);
    MoveTaken(w, e, x.(intent := Some(intent), pc := Checked), Move.Policy(snapshot));
  }

  /** A call with the recorded grant of an admitted proposal, which unlocks and names the policy
      in force, comes as far as the redemption, and nothing else changes. */
  lemma GrantInOrderUnlocks(
    w: World, e: nat, gateway: Gateway, grant: Contract, actual: Actual, intent: Intent, snapshot: string,
    expiresAt: int)
    requires w.c.now < expiresAt && e !in w.execs && Names(w, NewExec(gateway, grant, actual), snapshot)
    requires GrantMatches(w.log, gateway, grant, actual, intent)
    requires CanUnlock(grant, intent, w.log, gateway.options, w.c.now)
    ensures var w' := Unlocking(w, e, gateway, grant, actual, snapshot, expiresAt);
      w' == w.(execs := w'.execs) && w'.execs.Keys == w.execs.Keys + {e}
      && ReadyToRedeem(w, w'.execs[e], gateway, grant, actual, intent, expiresAt)
  {
    var x := NewExec(gateway, grant, actual);
    ChecksPass(w, e, x, intent, snapshot);
    GuardsFrom(Put(w, e, x.(intent := Some(intent), pc := Guarding(5))), e, expiresAt);
  }

  lemma GuardsFrom(w: World, e: nat, expiresAt: int)
    requires AtGuards(w, e) && w.c.now < expiresAt
    ensures Guarded(w, e, 5, expiresAt) == Put(w, e, w.execs[e].(unlocked := Some(Moment(w.log, w.c.now)),
      deadline := Capped(w.execs[e].grant, expiresAt, w.c.now), pc := Redeeming))
  {
    GuardsPass(w, e, 5, expiresAt);
  }

  // ---- Fresh names ----

  function Dashes(n: nat): (s: string)
    ensures |s| == n
  {
    seq(n, i => '-')
  }

  /** There is always a new identifier. */
  lemma FreshId(ids: set<string>) returns (id: string)
    ensures id !in ids
  {
    var todo, longest: nat := ids, 0;
    while todo != {}
      invariant todo <= ids && forall s :: s in ids && s !in todo ==> |s| <= longest
    {
      var s :| s in todo;
      if |s| > longest { longest := |s|; }
      todo := todo - {s};
    }
    id := Dashes(longest + 1);
  }

  lemma FreshHandler(used: set<nat>) returns (h: nat)
    ensures h !in used
  {
    var todo := used;
    h := 0;
    while todo != {}
      invariant todo <= used && forall n :: n in used && n !in todo ==> n < h
    {
      var n :| n in todo;
      if n >= h { h := n + 1; }
      todo := todo - {n};
    }
  }

  // ---- Runs ----

  lemma RunOne(w: World, s: Step)
    ensures Run(w, [s]) == Next(w, s)
  {
    assert Run(w, [s][..0]) == w;
  }

  lemma {:induction false} RunConcat(w: World, a: seq<Step>, b: seq<Step>)
    ensures Run(w, a + b) == Run(Run(w, a), b)
  {
    if b == [] {
      assert a + b == a;
    } else {
      assert (a + b)[..|a + b| - 1] == a + b[..|b| - 1];
      RunConcat(w, a, b[..|b| - 1]);
    }
  }

  /** The adapter has been called, once and with the operation of this call, and under a permit
      exactly when the gateway has an authority. */
  predicate Dispatched(w: World, w': World, e: nat)
    requires e in w.execs
  {
    var x := w.execs[e];
    && |w'.calls| == |w.calls| + 1 && w.calls <= w'.calls
    && var call := w'.calls[|w.calls|];
       && call.exec == e && call.proposalId == x.grant.body.proposalId && call.actual == x.actual
       && (call.permit.Some? <==> x.gateway.authority)
  }

  /** One step first, and then a run that dispatches the call. */
  lemma StepThen(w: World, s: Step, rest: seq<Step>, e: nat)
    requires e in w.execs && e in Next(w, s).execs && Next(w, s).calls == w.calls
    requires var x, y := w.execs[e], Next(w, s).execs[e];
      y.grant == x.grant && y.actual == x.actual && y.gateway == x.gateway
    requires Dispatched(Next(w, s), Run(Next(w, s), rest), e)
    ensures Dispatched(w, Run(w, [s] + rest), e)
  {
    RunOne(w, s);
    RunConcat(w, [s], rest);
  }

  lemma Invokes(w: World, e: nat, permit: Option<string>)
    requires e in w.execs && MayInvoke(w, e, permit) && (permit.Some? <==> w.execs[e].gateway.authority)
    ensures Dispatched(w, Run(w, [Acts(e, Invoke(permit))]), e)
  {
    RunOne(w, Acts(e, Invoke(permit)));
  }

  // ---- From each state of the work ----

  lemma FromGate(w: World, e: nat) returns (steps: seq<Step>)
    requires Gated(w, e) && w.gates[e].handler in w.c.gatedPermits && w.execs[e].pc.Waiting?
    requires w.execs[e].gateway.authority && Permitted(w.c, w.execs[e], w.c.now)
    ensures Dispatched(w, Run(w, steps), e)
  {
    var id := FreshId(w.c.t.permits.Keys);
    var s := PermitArrives(e, id);
    var w' := Next(w, s);
    assert id in w'.c.t.permits && w'.c.now < w'.c.t.permits[id].expiresAt;
    Invokes(w', e, Some(id));
    steps := [s] + [Acts(e, Invoke(Some(id)))];
    StepThen(w, s, [Acts(e, Invoke(Some(id)))], e);
  }

  lemma FromOpenGate(w: World, e: nat) returns (steps: seq<Step>)
    requires Asker(w, e) && e !in w.gates && w.execs[e].pc.Waiting? && w.execs[e].gateway.authority
    requires !w.c.t.updatePending && MayAsk(w.c, w.execs[e], w.c.now)
    ensures Dispatched(w, Run(w, steps), e)
  {
    var h := FreshHandler(w.c.gatedPermits);
    var rest := FromGate(Next(w, PermitGated(h, e)), e);
    StepThen(w, PermitGated(h, e), rest, e);
    steps := [PermitGated(h, e)] + rest;
  }

  /** Where an update is pending it may fail first. */
  lemma FromRequest(w: World, e: nat) returns (steps: seq<Step>)
    requires Asker(w, e) && e !in w.gates && w.execs[e].pc.Waiting? && w.execs[e].gateway.authority
    requires PendingOk(w.c) && MayAsk(w.c, w.execs[e], w.c.now)
    ensures Dispatched(w, Run(w, steps), e)
  {
    if w.c.t.updatePending {
      var h :| h in w.c.draining;
      var s := Controls(Abandon(h));
      assert Outside(w, s.action);
      var rest := FromOpenGate(Next(w, s), e);
      StepThen(w, s, rest, e);
      steps := [s] + rest;
    } else {
      steps := FromOpenGate(w, e);
    }
  }

  lemma FromWaiting(w: World, e: nat) returns (steps: seq<Step>)
    requires PendingOk(w.c)
    requires e in w.execs && w.execs[e].pc.Waiting? && AskOk(w.execs[e]) && MayBePermitted(w, e)
    requires e in w.gates ==> GateOk(w, e)
    ensures Dispatched(w, Run(w, steps), e)
  {
    if e !in w.gates {
      steps := FromRequest(w, e);
    } else if w.gates[e].AtGate? {
      steps := FromGate(w, e);
    } else {
      Invokes(w, e, Some(w.gates[e].permitId));
      steps := [Acts(e, Invoke(Some(w.gates[e].permitId)))];
    }
  }

  lemma FromAsking(w: World, e: nat) returns (steps: seq<Step>)
    requires PendingOk(w.c)
    requires e in w.execs && w.execs[e].pc.Asking? && e !in w.gates && MayAsk(w.c, w.execs[e], w.c.now)
    ensures Dispatched(w, Run(w, steps), e)
  {
    if w.execs[e].gateway.authority {
      var rest := FromRequest(Next(w, Acts(e, Local(Ask))), e);
      StepThen(w, Acts(e, Local(Ask)), rest, e);
      steps := [Acts(e, Local(Ask))] + rest;
    } else {
      Invokes(w, e, None);
      steps := [Acts(e, Invoke(None))];
    }
  }

  lemma FromReviewing(w: World, e: nat) returns (steps: seq<Step>)
    requires PendingOk(w.c)
    requires e in w.execs && w.execs[e].pc.Reviewing? && e !in w.gates && CanStillCall(w, e)
    ensures Dispatched(w, Run(w, steps), e)
  {
    var s := Acts(e, Local(RecheckTrace));
    var rest := FromAsking(Next(w, s), e);
    StepThen(w, s, rest, e);
    steps := [s] + rest;
  }

  lemma FromRechecking(w: World, e: nat) returns (steps: seq<Step>)
    requires PendingOk(w.c)
    requires e in w.execs && w.execs[e].pc.Rechecking? && e !in w.gates && CanStillCall(w, e)
    requires w.execs[e].grant.body.policyVersion.Some?
    ensures Dispatched(w, Run(w, steps), e)
  {
    var s := Acts(e, Local(RecheckPolicy(w.execs[e].grant.body.policyVersion.value)));
    var rest := FromReviewing(Next(w, s), e);
    StepThen(w, s, rest, e);
    steps := [s] + rest;
  }

  lemma FromRedeemed(w: World, e: nat) returns (steps: seq<Step>)
    requires PendingOk(w.c)
    requires e in w.execs && w.execs[e].pc.Redeemed? && e !in w.gates && CanStillCall(w, e)
    requires w.execs[e].grant.body.policyVersion.Some?
    ensures Dispatched(w, Run(w, steps), e)
  {
    var s := Acts(e, Local(Resume));
    var rest := FromRechecking(Next(w, s), e);
    StepThen(w, s, rest, e);
    steps := [s] + rest;
  }

  /** The store accepts the redemption of a reservation that has come due. */
  lemma RedemptionAccepted(log: Events, x: Exec, now: int, id: string)
    requires Legal(log) && x.intent.Some? && ReservedFor(log, x) && id !in EventIds(log)
    requires Latest(log)[x.grant.body.proposalId].timestamp <= now
    ensures var input := StartedInput(x, x.intent.value, now, id);
      Accepts(log, input) && HasStatus(log + [NextEvent(log, input)], x.grant.body.proposalId, RUNNING)
  {
    LegalAppend(log, StartedInput(x, x.intent.value, now, id));
  }

  lemma Redemption(w: World, e: nat) returns (s: Step)
    requires Legal(w.log) && e in w.execs && w.execs[e].pc.Redeeming? && CanStillCall(w, e) && e !in w.gates
    requires RedeemableAt(w, w.execs[e]) == w.c.now && w.execs[e].intent.Some?
    ensures e in Next(w, s).execs && Next(w, s).c == w.c
    ensures Next(w, s).gates == w.gates && Next(w, s).calls == w.calls
    ensures Next(w, s).execs[e] == w.execs[e].(pc := Redeemed, redeemedAt := Some(|w.log|))
    ensures CanStillCall(Next(w, s), e)
  {
    var x := w.execs[e];
    var id := FreshId(EventIds(w.log));
    s := Acts(e, Redeem(id));
    RedemptionAccepted(w.log, x, w.c.now, id);
    assert w == Put(w, e, x);
    RedeemTaken(w, e, x, id);
  }

  lemma FromDue(w: World, e: nat) returns (steps: seq<Step>)
    requires PendingOk(w.c)
    requires Legal(w.log) && e in w.execs && w.execs[e].pc.Redeeming? && CanStillCall(w, e) && e !in w.gates
    requires RedeemableAt(w, w.execs[e]) == w.c.now && w.execs[e].intent.Some?
    requires w.execs[e].grant.body.policyVersion.Some?
    ensures Dispatched(w, Run(w, steps), e)
  {
    var s := Redemption(w, e);
    var rest := FromRedeemed(Next(w, s), e);
    StepThen(w, s, rest, e);
    steps := [s] + rest;
  }

  lemma FromRedeeming(w: World, e: nat) returns (steps: seq<Step>)
    requires PendingOk(w.c)
    requires Legal(w.log) && e in w.execs && w.execs[e].pc.Redeeming? && CanStillCall(w, e) && e !in w.gates
    requires w.execs[e].intent.Some? && w.execs[e].grant.body.policyVersion.Some?
    ensures Dispatched(w, Run(w, steps), e)
  {
    var s := Controls(Tick(RedeemableAt(w, w.execs[e]) - w.c.now));
    assert Outside(w, s.action);
    var rest := FromDue(Next(w, s), e);
    StepThen(w, s, rest, e);
    steps := [s] + rest;
  }

  /** A call that can still reach the adapter has a run that reaches it. */
  lemma CanStillCallDispatches(w: World, e: nat) returns (steps: seq<Step>)
    requires PendingOk(w.c)
    requires Legal(w.log) && e in w.execs && CanStillCall(w, e)
    requires FlowOk(w.execs[e]) && AskOk(w.execs[e]) && (e in w.gates ==> GateOk(w, e))
    ensures Dispatched(w, Run(w, steps), e)
  {
    match w.execs[e].pc
    case Redeeming => steps := FromRedeeming(w, e);
    case Redeemed => steps := FromRedeemed(w, e);
    case Rechecking => steps := FromRechecking(w, e);
    case Reviewing => steps := FromReviewing(w, e);
    case Asking => steps := FromAsking(w, e);
    case Waiting => steps := FromWaiting(w, e);
  }
}
