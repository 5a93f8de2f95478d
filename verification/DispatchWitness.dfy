/** Runs from the start in which the adapter is called after the caller has been told that its
    call was rejected, or that it failed: with a dispatch authority and without one. */
module DispatchWitness {
  import opened Json
  import opened Evidence
  import opened Log
  import opened Store
  import opened Crypto
  import opened Governance
  import opened Stability
  import opened Controller
  import opened ControllerRun
  import opened Dispatch
  import opened DispatchSafety
  import opened DispatchFinality
  import opened DispatchProgress
  import opened DispatchAnswers

  // ---- One admitted and reserved proposal ----

  const INSTANCE := "i-0123456789abcdef0"
  const KEY := "0123456789abcdef0123456789abcdef"
  const POLICY := Controller.Policy("v1", {INSTANCE}, {}, false)
  const FIRST := Bundle("bundle", 1, POLICY)
  const OPTIONS := Options(KEY, map[], [], 5000, 5000)
  const WINDOW := Bounds(0, 5000, 5000)

  function GatewayWith(authority: bool): Gateway { Gateway("agent", None, "gateway", OPTIONS, authority, authority) }

  function TheIntent(): Intent {
    Intent("proposal", OPERATION, "agent", None, Some("gateway"), 0, Some(MUTATION),
      Obj(map["instanceIds" := Arr([Str(INSTANCE)]), "skipOsShutdown" := Bool(false)]),
      [], [], Requested(None, None, None))
  }

  function TheBody(): ContractBody {
    ContractBody("contract", "proposal", "agent", OPERATION, Some(PolicyRevision(FIRST)), HashOf(TheIntent()), 0,
      WINDOW, 0, 5000, [], [], [])
  }

  function TheGrant(): Contract { Contract(TheBody(), Hmac(KEY, ContractMessage(TheBody()))) }

  function TheActual(): Actual { Actual(INSTANCE, false) }

  function ReceivedInput(): EventInput {
    EventInput("received", IntentReceived, 0, "proposal", Payload(TheIntent(), None, None, Null))
  }

  function ReservedInput(): EventInput {
    EventInput("reserved", ExecutionReserved, 0, "proposal", Payload(TheIntent(), None, Some(TheGrant()), Null))
  }

  function TheLog(): Events {
    [NextEvent([], ReceivedInput())] + [NextEvent([NextEvent([], ReceivedInput())], ReservedInput())]
  }

  function AdmittedWorld(): World { Begin(POLICY, "bundle", 0).(log := TheLog()) }

  lemma ReachableNext(w: World, s: Step)
    requires Reachable(w)
    ensures Reachable(Next(w, s))
  {
    var policy, bundleId, now, steps :| w == Run(Begin(policy, bundleId, now), steps);
    RunConcat(Begin(policy, bundleId, now), steps, [s]);
    RunOne(w, s);
    assert Next(w, s) == Run(Begin(policy, bundleId, now), steps + [s]);
  }

  lemma LogShows()
    ensures var log := TheLog();
      && Legal(log) && EventsOf(log, "proposal") == log && Reserved(log) == Some(TheGrant())
      && HasStatus(log, "proposal", RESERVED) && Latest(log)["proposal"].intent == TheIntent()
      && Latest(log)["proposal"].timestamp == 0
    ensures Accepts([], ReceivedInput()) && Accepts([NextEvent([], ReceivedInput())], ReservedInput())
  {
    var first := [NextEvent([], ReceivedInput())];
    LegalAppend([], ReceivedInput());
    assert [] + first == first;
    assert first[0].body.input.id == "received" && EventIds(first) == {"received"};
    assert Latest(first) == map[] && EventsOf(first, "proposal") == first by { assert Front(first) == []; }
    LegalAppend(first, ReservedInput());
    assert Front(TheLog()) == first && TheLog()[1..] == [NextEvent(first, ReservedInput())];
  }

  lemma GrantVerifies()
    ensures ContractVerifies(TheGrant(), TheIntent(), TheLog(), KEY, 0)
  {
    assert TokenIds([]) == [];
  }

  lemma GrantUnlocks(authority: bool)
    ensures GrantMatches(TheLog(), GatewayWith(authority), TheGrant(), TheActual(), TheIntent())
    ensures CanUnlock(TheGrant(), TheIntent(), TheLog(), OPTIONS, 0)
  {
    LogShows();
    GrantVerifies();
    NoCapabilities(Latest(TheLog()));
  }

  lemma NoCapabilities(trace: Trace)
    ensures CapabilitiesAccepted(TheIntent(), trace, OPTIONS, 0)
  {
    assert TokenIds([]) == [];
  }

  lemma AdmittedReachable()
    ensures Reachable(AdmittedWorld())
  {
    var start, first := Begin(POLICY, "bundle", 0), [NextEvent([], ReceivedInput())];
    LogShows();
    assert start == Run(start, []);
    assert [] + first == first;
    ReachableNext(start, Append(ReceivedInput()));
    assert Next(start, Append(ReceivedInput())) == start.(log := first);
    ReachableNext(start.(log := first), Append(ReservedInput()));
    assert Next(start.(log := first), Append(ReservedInput())) == AdmittedWorld();
  }

  lemma {:induction false} GuardedReachable(w: World, e: nat, n: nat, expiresAt: int)
    requires Reachable(w)
    ensures Reachable(Guarded(w, e, n, expiresAt))
  {
    if n > 0 {
      GuardedReachable(w, e, n - 1, expiresAt);
      ReachableNext(Guarded(w, e, n - 1, expiresAt), Acts(e, Local(Guard(expiresAt))));
    }
  }

  /** The call with that grant and an identity that ends after a millisecond, at the redemption. */
  function RedeemingWorld(authority: bool): World {
    Unlocking(AdmittedWorld(), 0, GatewayWith(authority), TheGrant(), TheActual(), PolicyRevision(FIRST), 1)
  }

  lemma RedeemingReachable(authority: bool)
    ensures Reachable(RedeemingWorld(authority))
  {
    var called := Next(AdmittedWorld(), Execute(0, GatewayWith(authority), TheGrant(), TheActual()));
    AdmittedReachable();
    ReachableNext(AdmittedWorld(), Execute(0, GatewayWith(authority), TheGrant(), TheActual()));
    ReachableNext(called, Acts(0, Local(Check)));
    ReachableNext(Moves(called, 0, Check), Acts(0, Local(Move.Policy(PolicyRevision(FIRST)))));
    GuardedReachable(Moves(Moves(called, 0, Check), 0, Move.Policy(PolicyRevision(FIRST))), 0, 5, 1);
  }

  /** What that state is. */
  ghost predicate AtRedemption(w: World, authority: bool) {
    && w == AdmittedWorld().(execs := w.execs) && w.execs.Keys == {0}
    && ReadyToRedeem(AdmittedWorld(), w.execs[0], GatewayWith(authority), TheGrant(), TheActual(), TheIntent(), 1)
  }

  lemma RedeemingReached(authority: bool)
    ensures AtRedemption(RedeemingWorld(authority), authority)
  {
    GrantUnlocks(authority);
    GrantInOrderUnlocks(AdmittedWorld(), 0, GatewayWith(authority), TheGrant(), TheActual(), TheIntent(),
      PolicyRevision(FIRST), 1);
  }

  /** A millisecond later, when the timer is due. */
  function Later(w: World): World { Next(w, Controls(Tick(1))) }

  lemma LaterTaken(w: World)
    ensures Later(w) == w.(c := w.c.(now := w.c.now + 1))
  {
    assert Outside(w, Tick(1));
  }

  // ---- Told that it was rejected ----

  lemma RejectedReachable(w: World, e: nat)
    requires Reachable(w)
    ensures Reachable(RejectedFrom(w, e))
  {
    ReachableNext(w, Acts(e, Settle(Reject)));
    ReachableNext(Turns(w, e, Reject), Acts(e, Settle(Decide)));
    ReachableNext(Turns(Turns(w, e, Reject), e, Decide), Acts(e, Settle(Give(false))));
  }

  lemma RedemptionOpen(w: World, e: nat)
    requires e in w.execs && w.execs[e].pc.Redeeming? && ReservedFor(w.log, w.execs[e])
    requires PolicyStands(w, w.execs[e]) && MayAsk(w.c, w.execs[e], w.c.now)
    requires Latest(w.log)[w.execs[e].grant.body.proposalId].timestamp <= w.c.now
    ensures CanStillCall(w, e)
  {
  }

  lemma RedemptionDue(w: World, authority: bool, caller: Caller)
    requires AtRedemption(w, authority)
    ensures CanStillCall(Put(Later(w), 0, w.execs[0].(caller := caller)), 0)
  {
    var x := w.execs[0].(caller := caller);
    LogShows();
    LaterTaken(w);
    PermitAvailable(x);
    LaterTaken(AdmittedWorld());
    RedemptionOpen(Put(Later(w), 0, x), 0);
  }

  /** A caller told that its call was rejected, and the adapter called afterwards. */
  lemma RejectedThenCalled(authority: bool) returns (w: World)
    ensures Reachable(w) && ToldOff(w, 0) && w.execs[0].caller == Settled(RejectedRun)
    ensures w.execs[0].gateway.authority == authority && LaterCalled(w, 0)
  {
    var before := RedeemingWorld(authority);
    w := RejectedFrom(Later(before), 0);
    RedeemingReachable(authority);
    ReachableNext(before, Controls(Tick(1)));
    RejectedReachable(Later(before), 0);
    RedeemingReached(authority);
    LaterTaken(before);
    assert Later(before) == Put(Later(before), 0, before.execs[0]);
    RejectsEarly(Later(before), 0, before.execs[0]);
    RedemptionDue(before, authority, Settled(RejectedRun));
    AnswerIsFinalUnless(w, 0);
  }

  // ---- Told that it failed ----

  /** Redeemed and rechecked. */
  function AskingFrom(w: World): World {
    Moves(Moves(Moves(Next(w, Acts(0, Redeem("started"))), 0, Resume), 0, RecheckPolicy(PolicyRevision(FIRST))),
      0, RecheckTrace)
  }

  lemma AskingReachable(w: World)
    requires Reachable(w)
    ensures Reachable(AskingFrom(w))
  {
    var redeemed := Next(w, Acts(0, Redeem("started")));
    ReachableNext(w, Acts(0, Redeem("started")));
    ReachableNext(redeemed, Acts(0, Local(Resume)));
    ReachableNext(Moves(redeemed, 0, Resume), Acts(0, Local(RecheckPolicy(PolicyRevision(FIRST)))));
    ReachableNext(Moves(Moves(redeemed, 0, Resume), 0, RecheckPolicy(PolicyRevision(FIRST))),
      Acts(0, Local(RecheckTrace)));
  }

  /** The redemption, its resumption and the recheck, in a state where the store and the policy agree. */
  lemma AskingTaken(w: World, x: Exec)
    requires Legal(w.log) && x.pc.Redeeming? && x.intent.Some? && ReservedFor(w.log, x)
    requires "started" !in EventIds(w.log) && Latest(w.log)[x.grant.body.proposalId].timestamp <= w.c.now
    requires Names(w, x, PolicyRevision(FIRST))
    ensures var input := StartedInput(x, x.intent.value, w.c.now, "started");
      AskingFrom(Put(w, 0, x))
        == Put(Logging(w, input), 0, x.(redeemedAt := Some(|w.log|), started := true, pc := Asking))
  {
    var input := StartedInput(x, x.intent.value, w.c.now, "started");
    var w', y := Logging(w, input), x.(pc := Redeemed, redeemedAt := Some(|w.log|));
    RedemptionAccepted(w.log, x, w.c.now, "started");
    RedeemTaken(w, 0, x, "started");
    MoveTaken(w', 0, y, Resume);
    MoveTaken(w', 0, y.(started := true, pc := Rechecking), RecheckPolicy(PolicyRevision(FIRST)));
    MoveTaken(w', 0, y.(started := true, pc := Reviewing), RecheckTrace);
  }

  lemma TheIds()
    ensures EventIds(TheLog()) == {"received", "reserved"}
  {
    var log := TheLog();
    assert forall e :: e in log <==> e == log[0] || e == log[1];
    assert log[0].body.input.id == "received" && log[1].body.input.id == "reserved";
  }

  /** A running proposal can be recorded as failed under a new id. */
  lemma FailureAccepted(log: Events, x: Exec, now: int, eventId: string)
    requires Legal(log) && x.intent.Some? && x.intent.value.id == x.grant.body.proposalId && eventId !in EventIds(log)
    requires HasStatus(log, x.intent.value.id, RUNNING) && Latest(log)[x.intent.value.id].intent == x.intent.value
    requires Latest(log)[x.intent.value.id].timestamp <= now
    ensures Accepts(log, CompletedInput(x, x.intent.value, false, now, eventId))
  {
  }

  /** The log after the redemption. */
  lemma StartedLog(log: Events, x: Exec, now: int)
    requires Legal(log) && x.intent.Some? && ReservedFor(log, x) && x.intent.value.id == x.grant.body.proposalId
    requires "started" !in EventIds(log) && "failed" !in EventIds(log)
    requires Latest(log)[x.grant.body.proposalId].timestamp <= now
    ensures var log' := log + [NextEvent(log, StartedInput(x, x.intent.value, now, "started"))];
      Accepts(log', CompletedInput(x, x.intent.value, false, now + 1, "failed"))
  {
    var input := StartedInput(x, x.intent.value, now, "started");
    var e := NextEvent(log, input);
    RedemptionAccepted(log, x, now, "started");
    LegalAppend(log, input);
    EventIdsOfConcat(log, [e]);
    assert EventIds([e]) == {"started"} by { assert [e][0].body.input.id == "started"; }
    FailureAccepted(log + [e], x, now + 1, "failed");
  }

  /** The store and the policy let a call at the redemption pass. */
  ghost predicate Due(w: World, x: Exec) {
    && Legal(w.log) && x.pc.Redeeming? && x.intent.Some? && ReservedFor(w.log, x)
    && x.intent.value.id == x.grant.body.proposalId && Names(w, x, PolicyRevision(FIRST))
    && "started" !in EventIds(w.log) && "failed" !in EventIds(w.log)
    && Latest(w.log)[x.grant.body.proposalId].timestamp <= w.c.now
  }

  /** Nobody has answered and nothing has been called. */
  predicate Quiet(x: Exec) {
    x.caller.Pending? && !x.succeeded && !x.invoked && x.permit.None? && x.deadline <= 1
  }

  lemma GrantIsDue(w: World, x: Exec)
    requires w.log == TheLog() && w.c == AdmittedWorld().c
    requires x.pc.Redeeming? && x.grant == TheGrant() && x.intent == Some(TheIntent())
    ensures Due(w, x)
  {
    LogShows();
    TheIds();
  }

  lemma RedeemingIsDue(w: World, authority: bool)
    requires AtRedemption(w, authority)
    ensures Due(w, w.execs[0]) && Quiet(w.execs[0])
  {
    GrantIsDue(w, w.execs[0]);
  }

  /** The call about to ask for a permit or to call. */
  function AboutTo(w: World, x: Exec): Exec {
    x.(redeemedAt := Some(|w.log|), started := true, pc := Asking)
  }

  /** That state a millisecond later. */
  function AskingLater(w: World, x: Exec): World
    requires x.intent.Some?
  {
    Logging(w, StartedInput(x, x.intent.value, 0, "started")).(c := Later(w).c)
  }

  lemma AskingLaterReached(w: World, x: Exec)
    requires Due(w, x) && w.c.now == 0
    ensures Later(AskingFrom(Put(w, 0, x))) == Put(AskingLater(w, x), 0, AboutTo(w, x))
  {
    AskingTaken(w, x);
    LaterTaken(w);
    LaterTaken(Put(Logging(w, StartedInput(x, x.intent.value, 0, "started")), 0, AboutTo(w, x)));
  }

  /** From the redemption to the answer. */
  lemma FailedState(w: World, x: Exec)
    requires Due(w, x) && Quiet(x) && w.c.now == 0
    ensures var w' := FailedFrom(Later(AskingFrom(Put(w, 0, x))), 0, "failed");
      w'.c == Later(w).c && w'.gates == w.gates
      && w'.execs == w.execs[0 := AboutTo(w, x).(caller := Settled(FailedRun))]
  {
    AskingLaterReached(w, x);
    StartedLog(w.log, x, 0);
    LaterTaken(w);
    SameCompletion(x, AboutTo(w, x), 1);
    FailsEarly(AskingLater(w, x), 0, AboutTo(w, x), "failed");
  }

  lemma SameCompletion(x: Exec, y: Exec, now: int)
    requires x.intent.Some? && y.grant == x.grant
    ensures CompletedInput(y, x.intent.value, false, now, "failed")
      == CompletedInput(x, x.intent.value, false, now, "failed")
  {
  }

  lemma PermitAvailable(x: Exec)
    requires x.grant == TheGrant() && x.actual == TheActual()
    ensures MayAsk(Later(AdmittedWorld()).c, x, 1)
  {
    LaterTaken(AdmittedWorld());
  }

  lemma FailedReachable(w: World, e: nat, eventId: string)
    requires Reachable(w)
    ensures Reachable(FailedFrom(w, e, eventId))
  {
    var deciding := Turns(Turns(w, e, Reject), e, Decide);
    var logged := Next(deciding, Acts(e, LogFailure(eventId)));
    ReachableNext(w, Acts(e, Settle(Reject)));
    ReachableNext(Turns(w, e, Reject), Acts(e, Settle(Decide)));
    ReachableNext(deciding, Acts(e, LogFailure(eventId)));
    ReachableNext(logged, Acts(e, ReportFailure(false)));
    ReachableNext(Next(logged, Acts(e, ReportFailure(false))), Acts(e, Settle(Give(false))));
  }

  predicate FailedCall(x: Exec, authority: bool) {
    && x.caller == Settled(FailedRun) && x.pc.Asking? && !x.invoked
    && x.gateway.authority == authority && x.gateway.controlled == authority
    && x.grant == TheGrant() && x.actual == TheActual()
  }

  lemma FailedWorld(authority: bool)
    ensures var w := FailedFrom(Later(AskingFrom(RedeemingWorld(authority))), 0, "failed");
      w.c == Later(AdmittedWorld()).c && 0 in w.execs && FailedCall(w.execs[0], authority)
  {
    var before := RedeemingWorld(authority);
    RedeemingReached(authority);
    RedeemingIsDue(before, authority);
    assert before == Put(before, 0, before.execs[0]);
    FailedState(before, before.execs[0]);
    LaterTaken(before);
    LaterTaken(AdmittedWorld());
  }

  /** A caller told that its call failed, with the failure logged, and the adapter called afterwards. */
  lemma FailedThenCalled(authority: bool) returns (w: World)
    ensures Reachable(w) && ToldOff(w, 0) && w.execs[0].caller == Settled(FailedRun)
    ensures w.execs[0].gateway.authority == authority && LaterCalled(w, 0)
  {
    var before := RedeemingWorld(authority);
    w := FailedFrom(Later(AskingFrom(before)), 0, "failed");
    RedeemingReachable(authority);
    AskingReachable(before);
    ReachableNext(AskingFrom(before), Controls(Tick(1)));
    FailedReachable(Later(AskingFrom(before)), 0, "failed");
    FailedWorld(authority);
    LaterTaken(AdmittedWorld());
    PermitAvailable(w.execs[0]);
    AnswerIsFinalUnless(w, 0);
  }
}
