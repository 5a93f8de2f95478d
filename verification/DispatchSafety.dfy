/** Safety of every run of the gateways and the controller: one adapter call per proposal, the
    admitted parameters, the epoch fence, and outcomes that agree with the evidence. */
module DispatchSafety {
  import opened Json
  import opened Evidence
  import opened Log
  import opened Store
  import opened Stability
  import opened Controller
  import opened ControllerRun
  import opened Dispatch

  // ---- The invariant ----

  predicate Completion(log: Events, id: string, success: bool, h: Hash) {
    && Event(h.body, h) in log && h.body.input.kind.ExecutionCompleted? && h.body.input.intentId == id
    && h.body.input.payload.execution.Some? && h.body.input.payload.execution.value.success == success
  }

  predicate RedemptionAt(log: Events, k: nat, grant: Contract, intent: Option<Intent>) {
    && k < |log| && log[k].body.input.kind.ExecutionStarted? && log[k].body.input.intentId == grant.body.proposalId
    && log[k].body.input.payload.contract == Some(grant) && Some(log[k].body.input.payload.intent) == intent
  }

  /** The caller's answer tells the truth about what has happened. */
  predicate AnswerOk(x: Exec) {
    match x.caller
    case Settled(answer) =>
      (answer.Executed? || answer.Validated? ==> x.pc.Returned?) && (answer.Uncertain? ==> x.invoked)
    case _ => true
  }

  function Rank(pc: Pc): nat {
    match pc
    case Called => 0 case Checked => 1 case Guarding(_) => 2 case Redeeming => 3 case Redeemed => 4
    case Rechecking => 5 case Reviewing => 5 case Asking => 6 case Waiting => 7 case Running => 8
    case Succeeded => 9 case Logged => 10 case Reported => 11 case Returned => 12 case Threw => 13
  }

  /** The order in which a call sets its variables. */
  predicate FlowOk(x: Exec) {
    && (0 < Rank(x.pc) < 13 ==> x.intent.Some?) && (x.pc.Called? ==> x.intent.None?)
    && (Rank(x.pc) < 4 ==> x.redeemedAt.None?)
    && (4 <= Rank(x.pc) < 13 || x.started || x.asked || x.invoked ==> x.redeemedAt.Some?)
    && (Rank(x.pc) < 8 ==> !x.invoked && x.permit.None?)
    && (8 <= Rank(x.pc) < 13 ==> x.invoked)
    && (Rank(x.pc) < 9 ==> !x.succeeded)
    && (9 <= Rank(x.pc) < 13 ==> x.succeeded)
    && (10 <= Rank(x.pc) < 13 ==> x.completed.Some?)
    && (x.completed.Some? ==> x.succeeded)
    && (x.succeeded ==> x.invoked)
    && (x.redeemedAt.Some? ==> x.intent.Some?)
    && (2 <= Rank(x.pc) < 13 ==> x.grant.body.policyVersion.Some?)
    && (!x.caller.Pending? ==> UnderTimer(x.pc))
    && (x.redeemedAt.Some? || x.pc.Redeeming? || (x.pc.Guarding? && x.pc.left < 5) ==>
         x.intent.Some? && x.intent.value.id == x.grant.body.proposalId && x.unlocked.Some?)
    && (x.unlocked.Some? ==> x.intent.Some?)
    && (x.caller.Failing? || x.caller.FailureLogged? ==> x.started)
    && AnswerOk(x)
  }

  /** Some earlier state of the log and the clock unlocked the grant for the intent. */
  predicate UnlockedAt(log: Events, now: int, m: Moment, gateway: Gateway, grant: Contract, intent: Intent) {
    m.log <= log && m.now <= now && CanUnlock(grant, intent, m.log, gateway.options, m.now)
  }

  /** The unlocking came before the redemption, in the log and on the clock. */
  predicate UnlockedBefore(log: Events, m: Moment, k: nat) {
    k < |log| && |m.log| <= k && m.now <= log[k].body.input.timestamp
  }

  predicate UnlockOk(log: Events, now: int, x: Exec) {
    x.intent.Some? && x.unlocked.Some? ==>
      && UnlockedAt(log, now, x.unlocked.value, x.gateway, x.grant, x.intent.value)
      && (x.redeemedAt.Some? ==> UnlockedBefore(log, x.unlocked.value, x.redeemedAt.value))
  }

  predicate UnlocksOk(w: World) { forall e :: e in w.execs ==> UnlockOk(w.log, w.c.now, w.execs[e]) }

  /** What the log shows of a call. */
  predicate FactsOk(log: Events, x: Exec) {
    && (x.intent.Some? ==> GrantMatches(log, x.gateway, x.grant, x.actual, x.intent.value))
    && (x.redeemedAt.Some? ==> RedemptionAt(log, x.redeemedAt.value, x.grant, x.intent))
    && (x.completed.Some? ==> Completion(log, x.grant.body.proposalId, true, x.completed.value))
    && (x.caller.FailureLogged? ==> Completion(log, x.grant.body.proposalId, false, x.caller.evidence))
  }

  predicate ExecOk(w: World, e: nat)
    requires e in w.execs
  {
    var x := w.execs[e];
    FlowOk(x) && FactsOk(w.log, x) && (x.permit.Some? ==> x.permit.value in w.issued && w.issued[x.permit.value] == e)
  }

  /** A permit belongs to the call that asked for it; while its epoch lasts, the policy in force
      is the one the grant names, and it permits the operation. */
  predicate IssuedOk(w: World, id: string)
    requires id in w.issued
  {
    && w.issued[id] in w.execs && id in w.c.t.permits
    && var x, row := w.execs[w.issued[id]], w.c.t.permits[id];
       && x.asked && Request(x).Some? && PermitFor(row, x)
       && (row.epoch == w.c.t.bundle.epoch ==> Permits(w.c.t.bundle, x))
  }

  predicate PermitFor(row: Permit, x: Exec) {
    && row.gatewayId == x.gateway.gatewayId && row.proposalId == x.grant.body.proposalId
    && row.contractId == x.grant.body.contractId && row.expiresAt <= x.grant.body.bounds.notAfter
  }

  predicate Permits(b: Bundle, x: Exec) {
    && x.grant.body.policyVersion == Some(PolicyRevision(b))
    && x.actual.instanceId in b.policy.allowedInstanceIds && x.actual.instanceId !in b.policy.protectedInstanceIds
    && (x.actual.skipOsShutdown ==> b.policy.allowSkipOsShutdown)
  }

  predicate Good(status: string) { status == "executed" || status == "validated" }

  /** An outcome of a permit comes from the call that holds it, and cites its evidence. */
  predicate OutcomeOk(w: World, id: string, o: Outcome) {
    && id in w.issued && w.issued[id] in w.execs
    && var x := w.execs[w.issued[id]];
       && x.permit == Some(id) && o.evidenceHash.Some?
       && Completion(w.log, x.grant.body.proposalId, Good(o.status), o.evidenceHash.value)
  }

  predicate CallOk(w: World, i: nat)
    requires i < |w.calls|
  {
    var call := w.calls[i];
    && call.exec in w.execs
    && var x := w.execs[call.exec];
       x.invoked && call.proposalId == x.grant.body.proposalId && call.actual == x.actual && call.permit == x.permit
  }

  predicate CallsOk(w: World) {
    && (forall i :: 0 <= i < |w.calls| ==> CallOk(w, i))
    && (forall i, j :: 0 <= i < j < |w.calls| ==> w.calls[i].exec != w.calls[j].exec)
  }

  /** Every redemption is an event of its own. */
  predicate OwnRedemptions(w: World) {
    forall e, f :: e in w.execs && f in w.execs && e != f && w.execs[e].redeemedAt.Some? ==>
      w.execs[e].redeemedAt != w.execs[f].redeemedAt
  }

  predicate OutcomesOk(w: World) {
    && (forall r :: r in w.reports ==> OutcomeOk(w, r.permitId, r.outcome))
    && (forall id :: id in w.c.t.outcomes ==> OutcomeOk(w, id, w.c.t.outcomes[id].outcome))
  }

  predicate ExecsOk(w: World) { forall e :: e in w.execs ==> ExecOk(w, e) }

  predicate IssuesOk(w: World) { forall id :: id in w.issued ==> IssuedOk(w, id) }

  ghost predicate Inv(w: World) {
    && Legal(w.log) && ControllerRun.Inv(w.c)
    && ExecsOk(w) && UnlocksOk(w) && IssuesOk(w) && w.issued.Keys == w.c.t.permits.Keys
    && OutcomesOk(w) && CallsOk(w) && OwnRedemptions(w)
  }

  // ---- What every step keeps ----

  /** The call has gone past the step that sends a report of this kind. */
  predicate Past(x: Exec, good: bool) {
    if good then x.pc.Reported? || x.pc.Returned? || x.pc.Threw?
    else x.caller.Answering? || x.caller.Unavailable? || x.caller.Settled?
  }

  ghost predicate Kept(x: Exec, y: Exec) {
    && y.gateway == x.gateway && y.grant == x.grant && y.actual == x.actual
    && (Past(x, true) ==> Past(y, true)) && (Past(x, false) ==> Past(y, false))
    && (x.intent.Some? ==> y.intent == x.intent)
    && (x.asked ==> y.asked) && (x.invoked ==> y.invoked) && (x.permit.Some? || x.invoked ==> y.permit == x.permit)
  }

  ghost predicate Grows(w: World, w': World) {
    && w.log <= w'.log && w.c.now <= w'.c.now
    && LedgerGrows(w.c.t, w'.c.t)
    && (forall e :: e in w.execs ==> e in w'.execs && Kept(w.execs[e], w'.execs[e]))
    && (forall id :: id in w.issued ==> id in w'.issued && w'.issued[id] == w.issued[id])
  }

  lemma {:induction false} ReservedStays(events: Events, more: Events)
    requires Reserved(events).Some?
    ensures Reserved(events + more) == Reserved(events)
  {
    if !events[0].body.input.kind.ExecutionReserved? {
      assert (events + more)[1..] == events[1..] + more;
      ReservedStays(events[1..], more);
    }
  }

  lemma GrantMatchesStays(log: Events, log': Events, x: Exec, intent: Intent)
    requires log <= log' && GrantMatches(log, x.gateway, x.grant, x.actual, intent)
    ensures GrantMatches(log', x.gateway, x.grant, x.actual, intent)
  {
    var id, more := x.grant.body.proposalId, log'[|log|..];
    assert log + more == log';
    EventsOfConcat(log, more, id);
    ReservedStays(EventsOf(log, id), EventsOf(more, id));
  }

  lemma FactsStay(log: Events, log': Events, x: Exec)
    requires log <= log' && FactsOk(log, x)
    ensures FactsOk(log', x)
  {
    if x.intent.Some? { GrantMatchesStays(log, log', x, x.intent.value); }
  }

  lemma IssuedStays(w: World, w': World, id: string)
    requires ControllerRun.Inv(w.c) && Grows(w, w') && id in w.issued && IssuedOk(w, id)
    ensures IssuedOk(w', id)
  {
    assert RowOk(w.c, id);
  }

  lemma IssuesStay(w: World, w': World)
    requires ControllerRun.Inv(w.c) && Grows(w, w') && IssuesOk(w)
    requires forall id :: id in w'.issued && id !in w.issued ==> IssuedOk(w', id)
    ensures IssuesOk(w')
  {
    forall id | id in w'.issued ensures IssuedOk(w', id) { if id in w.issued { IssuedStays(w, w', id); } }
  }

  lemma OutcomeStays(w: World, w': World, id: string, o: Outcome)
    requires Grows(w, w') && OutcomeOk(w, id, o)
    ensures OutcomeOk(w', id, o)
  {
  }

  lemma CallStays(w: World, w': World, i: nat)
    requires Grows(w, w') && w.calls <= w'.calls && i < |w.calls| && CallOk(w, i)
    ensures CallOk(w', i)
  {
  }

  // ---- One step ----

  /** What no step of a single call touches. */
  ghost predicate SameFacts(x: Exec, y: Exec) {
    && y.gateway == x.gateway && y.grant == x.grant && y.actual == x.actual
    && y.redeemedAt == x.redeemedAt && y.completed == x.completed
    && (y.caller == x.caller || !y.caller.FailureLogged?)
  }

  lemma GuardFlow(w: World, e: nat, expiresAt: int)
    requires e in w.execs && FlowOk(w.execs[e]) && Enabled(w, e, Guard(expiresAt))
    ensures FlowOk(Moved(w.log, w.c.now, w.execs[e], Guard(expiresAt)))
  {
  }

  lemma MoveFlow(w: World, e: nat, m: Move)
    requires e in w.execs && FlowOk(w.execs[e]) && Enabled(w, e, m)
    ensures FlowOk(Moved(w.log, w.c.now, w.execs[e], m))
  {
    if m.Guard? { GuardFlow(w, e, m.expiresAt); } else { FlowOnward(w, e, m); }
  }

  lemma FlowOnward(w: World, e: nat, m: Move)
    requires e in w.execs && FlowOk(w.execs[e]) && Enabled(w, e, m) && !m.Guard?
    ensures FlowOk(Moved(w.log, w.c.now, w.execs[e], m))
  {
  }

  lemma MoveFrame(log: Events, now: int, x: Exec, m: Move)
    requires m.Check? ==> x.intent.None?
    requires m.Expire? ==> x.permit.None? && !x.invoked
    requires Past(x, true) ==> m.Finish? || m.Throw?
    ensures SameFacts(x, Moved(log, now, x, m)) && Kept(x, Moved(log, now, x, m))
    ensures !m.Check? ==> Moved(log, now, x, m).intent == x.intent
    ensures !m.Expire? ==> Moved(log, now, x, m).permit == x.permit
    ensures Moved(log, now, x, m).unlocked == if m.Guard? then Some(Moment(log, now)) else x.unlocked
  {
  }

  /** After the report there is nothing left but to finish. */
  lemma MovesPast(w: World, e: nat, m: Move)
    requires e in w.execs && Enabled(w, e, m) && Past(w.execs[e], true)
    ensures m.Finish? || m.Throw?
  {
  }

  lemma MoveFramed(w: World, e: nat, m: Move)
    requires e in w.execs && FlowOk(w.execs[e]) && Enabled(w, e, m)
    ensures var x, y := w.execs[e], Moved(w.log, w.c.now, w.execs[e], m);
      SameFacts(x, y) && Kept(x, y) && (!m.Check? ==> y.intent == x.intent) && (!m.Expire? ==> y.permit == x.permit)
  {
    if Past(w.execs[e], true) { MovesPast(w, e, m); }
    MoveFrame(w.log, w.c.now, w.execs[e], m);
  }

  lemma MoveFacts(w: World, e: nat, m: Move)
    requires e in w.execs && FlowOk(w.execs[e]) && FactsOk(w.log, w.execs[e]) && Enabled(w, e, m)
    ensures FactsOk(w.log, Moved(w.log, w.c.now, w.execs[e], m))
  {
    MoveFramed(w, e, m);
  }

  lemma TurnKeeps(log: Events, now: int, x: Exec, t: Turn)
    requires FlowOk(x) && FactsOk(log, x)
    ensures var y := x.(caller := Turned(x, now, t)); FlowOk(y) && FactsOk(log, y) && Kept(x, y)
  {
  }

  lemma LoggingLegal(w: World, input: EventInput)
    requires Legal(w.log) && Accepts(w.log, input)
    ensures Legal(Logging(w, input).log) && w.log <= Logging(w, input).log
  {
    LegalAppend(w.log, input);
  }

  // ---- Steps of one call ----

  predicate UnlockSame(x: Exec, y: Exec) {
    y.unlocked == x.unlocked && y.redeemedAt == x.redeemedAt && (y.unlocked.Some? ==> y.intent == x.intent)
  }

  /** Only the call `e` moves. */
  ghost predicate CallFrame(w: World, w': World, e: nat) {
    && e in w.execs && e in w'.execs && w'.execs == w.execs[e := w'.execs[e]]
    && w'.c == w.c && w'.issued == w.issued && w'.gates == w.gates
    && Legal(w'.log) && w.log <= w'.log && Kept(w.execs[e], w'.execs[e])
  }

  /** A permit the call takes is the one its request was answered with. */
  predicate PermitStep(w: World, e: nat, x: Exec, y: Exec) {
    y.permit == x.permit || (y.permit.Some? && y.permit.value in w.issued && w.issued[y.permit.value] == e)
  }

  /** A redemption is the event appended with it. */
  predicate RedeemStep(log: Events, x: Exec, y: Exec) {
    y.redeemedAt == x.redeemedAt || y.redeemedAt == Some(|log|)
  }

  /** A call of the adapter is the first of this `execute`. */
  predicate AdapterStep(w: World, w': World, e: nat)
    requires e in w.execs
  {
    w'.calls == w.calls || (!w.execs[e].invoked && |w'.calls| == |w.calls| + 1 && w.calls <= w'.calls
      && w'.calls[|w.calls|].exec == e && CallOk(w', |w.calls|))
  }

  predicate ReportStep(w: World, w': World) {
    forall r :: r in w'.reports ==> r in w.reports || OutcomeOk(w', r.permitId, r.outcome)
  }

  predicate UnlockStep(w: World, w': World, x: Exec, y: Exec) {
    UnlockSame(x, y) || UnlockOk(w'.log, w'.c.now, y)
  }

  /** Only the call `e` moves; what it appends to the log, the calls and the reports is its own. */
  ghost predicate CallMoves(w: World, w': World, e: nat) {
    && CallFrame(w, w', e)
    && FlowOk(w'.execs[e]) && FactsOk(w'.log, w'.execs[e])
    && UnlockStep(w, w', w.execs[e], w'.execs[e]) && PermitStep(w, e, w.execs[e], w'.execs[e])
    && RedeemStep(w.log, w.execs[e], w'.execs[e]) && AdapterStep(w, w', e) && ReportStep(w, w')
  }

  lemma CallMovesGrows(w: World, w': World, e: nat)
    requires CallFrame(w, w', e)
    ensures Grows(w, w')
  {
    LedgerKeeps(w.c.t);
    forall f | f in w.execs ensures f in w'.execs && Kept(w.execs[f], w'.execs[f]) {}
  }

  lemma LedgerKeeps(t: Tables)
    ensures LedgerGrows(t, t)
  {
  }

  lemma CallMovesExec(w: World, w': World, e: nat, f: nat)
    requires CallFrame(w, w', e) && FlowOk(w'.execs[e]) && FactsOk(w'.log, w'.execs[e])
    requires PermitStep(w, e, w.execs[e], w'.execs[e])
    requires f in w'.execs && ExecOk(w, e) && (f in w.execs ==> ExecOk(w, f))
    ensures ExecOk(w', f)
  {
    if f != e { FactsStay(w.log, w'.log, w.execs[f]); }
  }

  lemma CallMovesCalls(w: World, w': World, e: nat)
    requires CallsOk(w) && e in w.execs && AdapterStep(w, w', e) && Grows(w, w')
    ensures CallsOk(w')
  {
    forall i | 0 <= i < |w'.calls| ensures CallOk(w', i) {
      if i < |w.calls| { CallStays(w, w', i); }
    }
    forall i, j | 0 <= i < j < |w'.calls| ensures w'.calls[i].exec != w'.calls[j].exec {
      assert i < |w.calls| && CallOk(w, i);
    }
  }

  lemma CallMovesRedemptions(w: World, w': World, e: nat)
    requires ExecsOk(w) && OwnRedemptions(w) && CallFrame(w, w', e) && RedeemStep(w.log, w.execs[e], w'.execs[e])
    ensures OwnRedemptions(w')
  {
    forall f | f in w.execs && w.execs[f].redeemedAt.Some? ensures w.execs[f].redeemedAt.value < |w.log| {
      assert ExecOk(w, f);
    }
  }

  lemma OutcomesStay(w: World, w': World)
    requires OutcomesOk(w) && Grows(w, w') && ReportStep(w, w')
    requires forall id :: id in w'.c.t.outcomes ==>
      id in w.c.t.outcomes || OutcomeOk(w', id, w'.c.t.outcomes[id].outcome)
    ensures OutcomesOk(w')
  {
    forall r | r in w'.reports ensures OutcomeOk(w', r.permitId, r.outcome) {
      if r in w.reports { OutcomeStays(w, w', r.permitId, r.outcome); }
    }
    forall id | id in w'.c.t.outcomes ensures OutcomeOk(w', id, w'.c.t.outcomes[id].outcome) {
      if id in w.c.t.outcomes { OutcomeStays(w, w', id, w.c.t.outcomes[id].outcome); }
    }
  }

  /** An unlocking stays one while the log and the clock go on. */
  lemma UnlockStays(log: Events, now: int, log': Events, now': int, x: Exec, y: Exec)
    requires UnlockOk(log, now, x) && log <= log' && now <= now' && UnlockSame(x, y)
    requires y.grant == x.grant && y.gateway == x.gateway
    ensures UnlockOk(log', now', y)
  {
  }

  lemma CallMovesUnlocks(w: World, w': World, e: nat)
    requires UnlocksOk(w) && CallFrame(w, w', e) && UnlockStep(w, w', w.execs[e], w'.execs[e])
    ensures UnlocksOk(w')
  {
    forall f | f in w'.execs ensures UnlockOk(w'.log, w'.c.now, w'.execs[f]) {
      if f != e || UnlockSame(w.execs[e], w'.execs[e]) {
        UnlockStays(w.log, w.c.now, w'.log, w'.c.now, w.execs[f], w'.execs[f]);
      }
    }
  }

  lemma CallMovesInv(w: World, w': World, e: nat)
    requires Inv(w) && CallMoves(w, w', e)
    ensures Inv(w')
  {
    CallMovesGrows(w, w', e);
    CallMovesCalls(w, w', e);
    CallMovesRedemptions(w, w', e);
    CallMovesUnlocks(w, w', e);
    OutcomesStay(w, w');
    IssuesStay(w, w');
    forall f | f in w'.execs ensures ExecOk(w', f) { CallMovesExec(w, w', e, f); }
  }

  // What each step of a call does, given what holds of that call.

  lemma MovedUnlocks(w: World, e: nat, m: Move)
    requires e in w.execs && FlowOk(w.execs[e]) && Enabled(w, e, m)
    ensures var x, y := w.execs[e], Moved(w.log, w.c.now, w.execs[e], m);
      UnlockSame(x, y) || UnlockOk(w.log, w.c.now, y)
  {
  }

  lemma MovedMoves(w: World, e: nat, m: Move)
    requires Legal(w.log) && e in w.execs && ExecOk(w, e) && Enabled(w, e, m)
    ensures CallMoves(w, Acted(w, e, Local(m)), e)
  {
    MoveFlow(w, e, m);
    MoveFacts(w, e, m);
    MovedUnlocks(w, e, m);
    MoveFramed(w, e, m);
  }

  lemma TurnedMoves(w: World, e: nat, t: Turn)
    requires Legal(w.log) && e in w.execs && ExecOk(w, e)
    ensures CallMoves(w, Acted(w, e, Settle(t)), e)
  {
    TurnKeeps(w.log, w.c.now, w.execs[e], t);
  }

  lemma StartedFacts(log: Events, x: Exec, intent: Intent, now: int, eventId: string)
    requires Legal(log) && FactsOk(log, x) && x.intent == Some(intent)
    requires Accepts(log, StartedInput(x, intent, now, eventId))
    ensures var log' := log + [NextEvent(log, StartedInput(x, intent, now, eventId))];
      Legal(log') && FactsOk(log', x) && RedemptionAt(log', |log|, x.grant, x.intent)
  {
    LegalAppend(log, StartedInput(x, intent, now, eventId));
    FactsStay(log, log + [NextEvent(log, StartedInput(x, intent, now, eventId))], x);
  }

  lemma CompletedFacts(log: Events, x: Exec, intent: Intent, success: bool, now: int, eventId: string)
    requires Legal(log) && FactsOk(log, x) && Accepts(log, CompletedInput(x, intent, success, now, eventId))
    ensures var e := NextEvent(log, CompletedInput(x, intent, success, now, eventId));
      Legal(log + [e]) && FactsOk(log + [e], x) && Completion(log + [e], intent.id, success, e.currentHash)
  {
    LegalAppend(log, CompletedInput(x, intent, success, now, eventId));
    var e := NextEvent(log, CompletedInput(x, intent, success, now, eventId));
    FactsStay(log, log + [e], x);
    assert Event(e.currentHash.body, e.currentHash) == e;
  }

  /** An append of the call's own, and nothing but its variables besides. */
  lemma AppendMoves(w: World, e: nat, input: EventInput, y: Exec)
    requires e in w.execs && Legal(w.log + [NextEvent(w.log, input)]) && Kept(w.execs[e], y)
    requires y.permit == w.execs[e].permit && RedeemStep(w.log, w.execs[e], y)
    requires FlowOk(y) && FactsOk(w.log + [NextEvent(w.log, input)], y)
    requires UnlockSame(w.execs[e], y) || UnlockOk(w.log + [NextEvent(w.log, input)], w.c.now, y)
    ensures CallMoves(w, Put(Logging(w, input), e, y), e)
  {
  }

  /** The grant was unlocked before it is redeemed. */
  lemma RedeemedUnlock(w: World, x: Exec, input: EventInput, y: Exec)
    requires UnlockOk(w.log, w.c.now, x) && input.timestamp == w.c.now && y.redeemedAt == Some(|w.log|)
    requires y.unlocked == x.unlocked && y.intent == x.intent && y.grant == x.grant && y.gateway == x.gateway
    ensures UnlockOk(w.log + [NextEvent(w.log, input)], w.c.now, y)
  {
  }

  lemma RedeemedCall(log: Events, x: Exec, k: nat)
    requires FlowOk(x) && x.pc.Redeeming? && FactsOk(log, x) && RedemptionAt(log, k, x.grant, x.intent)
    ensures var y := x.(pc := Redeemed, redeemedAt := Some(k)); FlowOk(y) && FactsOk(log, y) && Kept(x, y)
  {
  }

  lemma ConsumedMoves(w: World, e: nat, eventId: string)
    requires Legal(w.log) && e in w.execs && ExecOk(w, e) && UnlockOk(w.log, w.c.now, w.execs[e])
    ensures Consumed(w, e, eventId) == w || CallMoves(w, Consumed(w, e, eventId), e)
  {
    var w', x := Consumed(w, e, eventId), w.execs[e];
    if w'.log != w.log {
      var input := StartedInput(x, x.intent.value, w.c.now, eventId);
      StartedFacts(w.log, x, x.intent.value, w.c.now, eventId);
      RedeemedCall(w'.log, x, |w.log|);
      RedeemedUnlock(w, x, input, w'.execs[e]);
      AppendMoves(w, e, input, w'.execs[e]);
    }
  }

  lemma CompletedCall(log: Events, x: Exec, h: Hash)
    requires FlowOk(x) && x.pc.Succeeded? && FactsOk(log, x) && Completion(log, x.grant.body.proposalId, true, h)
    ensures var y := x.(pc := Logged, completed := Some(h)); FlowOk(y) && FactsOk(log, y) && Kept(x, y)
  {
  }

  lemma CompletedMoves(w: World, e: nat, eventId: string)
    requires Legal(w.log) && e in w.execs && ExecOk(w, e)
    ensures Completed(w, e, eventId) == w || CallMoves(w, Completed(w, e, eventId), e)
  {
    var w', x := Completed(w, e, eventId), w.execs[e];
    if w'.log != w.log {
      var input := CompletedInput(x, x.intent.value, true, w.c.now, eventId);
      CompletedFacts(w.log, x, x.intent.value, true, w.c.now, eventId);
      CompletedCall(w'.log, x, NextEvent(w.log, input).currentHash);
      AppendMoves(w, e, input, w'.execs[e]);
    }
  }

  lemma FailedCall(log: Events, x: Exec, h: Hash)
    requires FlowOk(x) && x.caller.Failing? && FactsOk(log, x) && Completion(log, x.grant.body.proposalId, false, h)
    ensures var y := x.(caller := FailureLogged(h)); FlowOk(y) && FactsOk(log, y) && Kept(x, y)
  {
  }

  /** What holds of a call after a step that leaves the log alone. */
  lemma QuietCall(log: Events, x: Exec, y: Exec)
    requires FactsOk(log, x) && SameFacts(x, y) && y.intent == x.intent
    ensures FactsOk(log, y)
  {
  }

  lemma LostCall(x: Exec)
    requires FlowOk(x) && x.caller.Failing?
    ensures var y := x.(caller := Unavailable); FlowOk(y) && SameFacts(x, y) && Kept(x, y) && UnlockSame(x, y)
  {
  }

  /** A step that changes only the call's own variables. */
  lemma QuietMoves(w: World, e: nat, y: Exec)
    requires Legal(w.log) && e in w.execs && ExecOk(w, e) && FlowOk(y) && Kept(w.execs[e], y)
    requires SameFacts(w.execs[e], y) && UnlockSame(w.execs[e], y) && y.permit == w.execs[e].permit
    requires y.intent == w.execs[e].intent
    ensures CallMoves(w, Put(w, e, y), e)
  {
    QuietCall(w.log, w.execs[e], y);
  }

  lemma FailureRecordedMoves(w: World, e: nat, eventId: string)
    requires Legal(w.log) && e in w.execs && ExecOk(w, e)
    ensures FailureRecorded(w, e, eventId) == w || CallMoves(w, FailureRecorded(w, e, eventId), e)
  {
    var x := w.execs[e];
    if x.caller.Failing? && x.intent.Some? {
      var input := CompletedInput(x, x.intent.value, false, w.c.now, eventId);
      if Accepts(w.log, input) {
        var h := NextEvent(w.log, input).currentHash;
        CompletedFacts(w.log, x, x.intent.value, false, w.c.now, eventId);
        FailedCall(w.log + [NextEvent(w.log, input)], x, h);
        AppendMoves(w, e, input, x.(caller := FailureLogged(h)));
      } else {
        LostCall(x);
        QuietMoves(w, e, x.(caller := Unavailable));
      }
    }
  }

  lemma InvokedCall(x: Exec, permit: Option<string>)
    requires FlowOk(x) && (if permit.None? then x.pc.Asking? else x.pc.Waiting?)
    ensures var y := x.(permit := permit, invoked := true, pc := Running);
      FlowOk(y) && SameFacts(x, y) && Kept(x, y) && UnlockSame(x, y)
  {
  }

  lemma InvokedMoves(w: World, e: nat, permit: Option<string>)
    requires Legal(w.log) && e in w.execs && ExecOk(w, e) && MayInvoke(w, e, permit)
    ensures CallMoves(w, Invoked(w, e, permit), e)
  {
    InvokedCall(w.execs[e], permit);
    QuietCall(w.log, w.execs[e], Invoked(w, e, permit).execs[e]);
  }

  /** A step that also sends a report about the call's own permit. */
  lemma ReportMoves(w: World, e: nat, y: Exec, r: OutcomeRequest)
    requires CallMoves(w, Put(w, e, y), e) && OutcomeOk(Put(w, e, y), r.permitId, r.outcome)
    ensures CallMoves(w, Put(w, e, y).(reports := w.reports + {r}), e)
  {
  }

  lemma ReportedCall(x: Exec)
    requires FlowOk(x) && x.pc.Logged?
    ensures var y := x.(pc := Reported); FlowOk(y) && SameFacts(x, y) && Kept(x, y) && UnlockSame(x, y)
  {
  }

  lemma SuccessReportedMoves(w: World, e: nat)
    requires Legal(w.log) && e in w.execs && ExecOk(w, e)
    ensures SuccessReported(w, e) == w || CallMoves(w, SuccessReported(w, e), e)
  {
    var x := w.execs[e];
    if x.pc.Logged? && x.permit.Some? {
      ReportedCall(x);
      QuietMoves(w, e, x.(pc := Reported));
      ReportMoves(w, e, x.(pc := Reported),
        OutcomeOf(x, x.permit.value, SuccessStatus(x), x.completed.value, w.c.now));
    }
  }

  lemma FailureAnswered(x: Exec, finished: bool)
    requires FlowOk(x) && x.caller.FailureLogged?
    ensures var y := x.(caller := Answering, finished := finished);
      FlowOk(y) && SameFacts(x, y) && Kept(x, y) && UnlockSame(x, y)
  {
  }

  lemma FailureReportedMoves(w: World, e: nat, definitive: bool)
    requires Legal(w.log) && e in w.execs && ExecOk(w, e)
    ensures FailureReported(w, e, definitive) == w || CallMoves(w, FailureReported(w, e, definitive), e)
  {
    var x := w.execs[e];
    if x.caller.FailureLogged? {
      if x.permit.None? || x.finished {
        FailureAnswered(x, x.finished);
        QuietMoves(w, e, x.(caller := Answering));
      } else {
        var y := x.(caller := Answering, finished := true);
        FailureAnswered(x, true);
        QuietMoves(w, e, y);
        ReportMoves(w, e, y, OutcomeOf(x, x.permit.value, FailureStatus(x, definitive), x.caller.evidence, w.c.now));
      }
    }
  }

  lemma ActedMoves(w: World, e: nat, act: Act)
    requires Legal(w.log) && e in w.execs && ExecOk(w, e) && UnlockOk(w.log, w.c.now, w.execs[e])
    ensures Acted(w, e, act) == w || CallMoves(w, Acted(w, e, act), e)
  {
    match act
    case Local(m) => if Enabled(w, e, m) { MovedMoves(w, e, m); }
    case Settle(t) => TurnedMoves(w, e, t);
    case Redeem(eventId) => ConsumedMoves(w, e, eventId);
    case Invoke(permit) => if MayInvoke(w, e, permit) { InvokedMoves(w, e, permit); }
    case Complete(eventId) => CompletedMoves(w, e, eventId);
    case Report => SuccessReportedMoves(w, e);
    case LogFailure(eventId) => FailureRecordedMoves(w, e, eventId);
    case ReportFailure(definitive) => FailureReportedMoves(w, e, definitive);
  }

  /** What a step of one call leaves alone. */
  ghost predicate Aside(w: World, w': World) {
    && Grows(w, w') && w'.c == w.c && w'.issued == w.issued && w'.gates == w.gates && w'.execs.Keys == w.execs.Keys
  }

  lemma AsideSame(w: World)
    ensures Aside(w, w)
  {
    LedgerKeeps(w.c.t);
  }

  lemma AsideFrame(w: World, w': World, e: nat)
    requires CallFrame(w, w', e)
    ensures Aside(w, w')
  {
    CallMovesGrows(w, w', e);
  }

  lemma ActedKeeps(w: World, e: nat, act: Act)
    requires Legal(w.log) && e in w.execs && ExecOk(w, e) && UnlockOk(w.log, w.c.now, w.execs[e])
    ensures Aside(w, Acted(w, e, act))
  {
    var w' := Acted(w, e, act);
    ActedMoves(w, e, act);
    if w' == w { AsideSame(w); } else { AsideFrame(w, w', e); }
  }

  // ---- Every step keeps the invariant ----

  /** The calls stay as they were, up to new ones, while the log or the controller moves. */
  ghost predicate OthersMove(w: World, w': World) {
    && Legal(w'.log) && w.log <= w'.log && w'.reports == w.reports && w'.calls == w.calls
    && (forall e :: e in w.execs ==> e in w'.execs && w'.execs[e] == w.execs[e])
    && (forall e :: e in w'.execs && e !in w.execs ==> Fresh(w'.execs[e]))
    && ControllerRun.Inv(w'.c) && LedgerGrows(w.c.t, w'.c.t)
    && w'.issued.Keys == w'.c.t.permits.Keys
    && (forall id :: id in w.issued ==> id in w'.issued && w'.issued[id] == w.issued[id])
    && (forall id :: id in w'.issued && id !in w.issued ==> IssuedOk(w', id))
    && (forall id :: id in w'.c.t.outcomes ==>
         id in w.c.t.outcomes || OutcomeOk(w, id, w'.c.t.outcomes[id].outcome))
    && w.c.now <= w'.c.now
  }

  predicate Fresh(x: Exec) { FlowOk(x) && x.pc.Called? && x.caller.Pending? && x.completed.None? && x.unlocked.None? }

  lemma OthersMoveCalls(w: World, w': World)
    requires Grows(w, w') && w'.calls == w.calls && CallsOk(w)
    ensures CallsOk(w')
  {
    forall i | 0 <= i < |w'.calls| ensures CallOk(w', i) { CallStays(w, w', i); }
  }

  lemma OthersMoveExecs(w: World, w': World)
    requires OthersMove(w, w') && ExecsOk(w)
    ensures ExecsOk(w')
  {
    forall e | e in w'.execs ensures ExecOk(w', e) {
      if e in w.execs {
        assert ExecOk(w, e);
        FactsStay(w.log, w'.log, w.execs[e]);
      }
    }
  }

  lemma OthersMoveUnlocks(w: World, w': World)
    requires OthersMove(w, w') && UnlocksOk(w)
    ensures UnlocksOk(w')
  {
    forall e | e in w'.execs ensures UnlockOk(w'.log, w'.c.now, w'.execs[e]) {
      if e in w.execs { UnlockStays(w.log, w.c.now, w'.log, w'.c.now, w.execs[e], w'.execs[e]); }
    }
  }

  lemma OthersMoveOutcomes(w: World, w': World)
    requires OthersMove(w, w') && Grows(w, w') && OutcomesOk(w)
    ensures OutcomesOk(w')
  {
    forall id | id in w'.c.t.outcomes && id !in w.c.t.outcomes
      ensures OutcomeOk(w', id, w'.c.t.outcomes[id].outcome)
    {
      OutcomeStays(w, w', id, w'.c.t.outcomes[id].outcome);
    }
    OutcomesStay(w, w');
  }

  lemma OthersMoveGrows(w: World, w': World)
    requires OthersMove(w, w')
    ensures Grows(w, w')
  {
  }

  lemma OthersMoveInv(w: World, w': World)
    requires Inv(w) && OthersMove(w, w')
    ensures Inv(w')
  {
    OthersMoveGrows(w, w');
    IssuesStay(w, w');
    OthersMoveCalls(w, w');
    OthersMoveExecs(w, w');
    OthersMoveUnlocks(w, w');
    OthersMoveOutcomes(w, w');
    OthersMoveRedemptions(w, w');
  }

  lemma OthersMoveRedemptions(w: World, w': World)
    requires OthersMove(w, w') && OwnRedemptions(w)
    ensures OwnRedemptions(w')
  {
  }

  lemma AppendMovesLog(w: World, input: EventInput)
    requires Legal(w.log) && Accepts(w.log, input) && ControllerRun.Inv(w.c) && w.issued.Keys == w.c.t.permits.Keys
    ensures OthersMove(w, Logging(w, input))
  {
    LoggingLegal(w, input);
    LedgerKeeps(w.c.t);
  }

  lemma ExecAdded(w: World, e: nat, x: Exec)
    requires Legal(w.log) && ControllerRun.Inv(w.c) && w.issued.Keys == w.c.t.permits.Keys
    requires e !in w.execs && Fresh(x)
    ensures OthersMove(w, Put(w, e, x))
  {
    LedgerKeeps(w.c.t);
  }

  lemma NewExecFresh(gateway: Gateway, grant: Contract, actual: Actual)
    ensures Fresh(NewExec(gateway, grant, actual))
  {
  }

  lemma EnteredMoves(w: World, e: nat, gateway: Gateway, grant: Contract, actual: Actual)
    requires Legal(w.log) && ControllerRun.Inv(w.c) && w.issued.Keys == w.c.t.permits.Keys
    ensures Entered(w, e, gateway, grant, actual) == w || OthersMove(w, Entered(w, e, gateway, grant, actual))
  {
    if e !in w.execs {
      NewExecFresh(gateway, grant, actual);
      ExecAdded(w, e, NewExec(gateway, grant, actual));
    }
  }

  lemma ControlsMove(w: World, a: Action)
    requires Legal(w.log) && ControllerRun.Inv(w.c) && OutcomesOk(w) && w.issued.Keys == w.c.t.permits.Keys
    requires Outside(w, a)
    ensures OthersMove(w, Next(w, Controls(a)))
  {
    DoKeepsInv(w.c, a);
    LedgerStep(w.c, a);
    NewRows(w.c, a);
  }

  /** Permits are inserted only by permit requests, and outcomes only by the reports received. */
  lemma NewRows(c: Control, a: Action)
    ensures !a.PermitBody? ==> Do(c, a).t.permits.Keys == c.t.permits.Keys
    ensures c.now <= Do(c, a).now
    ensures forall id :: id in Do(c, a).t.outcomes && id !in c.t.outcomes ==>
      a.OutcomeBody? && a.report.permitId == id && Do(c, a).t.outcomes[id].outcome == a.report.outcome
  {
  }

  /** A newly inserted permit fits the call that asked for it. */
  lemma InsertedFits(c: Control, h: nat, x: Exec, permitId: string)
    requires Request(x).Some? && permitId !in c.t.permits
    ensures var c' := Do(c, PermitBody(h, x.gateway.gatewayId, Request(x).value, permitId));
      c'.t.permits.Keys <= c.t.permits.Keys + {permitId} && (permitId in c'.t.permits ==>
        PermitFor(c'.t.permits[permitId], x) && Permits(c'.t.bundle, x))
  {
  }

  /** A permit inserted for a call. */
  lemma IssuedTo(w: World, c': Control, e: nat, permitId: string, gates': map<nat, Gate>)
    requires Legal(w.log) && w.issued.Keys == w.c.t.permits.Keys && permitId !in w.c.t.permits
    requires Asker(w, e)
    requires ControllerRun.Inv(c') && LedgerGrows(w.c.t, c'.t) && c'.t.outcomes.Keys <= w.c.t.outcomes.Keys
    requires permitId in c'.t.permits && c'.t.permits.Keys <= w.c.t.permits.Keys + {permitId} && w.c.now <= c'.now
    requires PermitFor(c'.t.permits[permitId], w.execs[e]) && Permits(c'.t.bundle, w.execs[e])
    ensures OthersMove(w, w.(c := c', gates := gates', issued := w.issued[permitId := e]))
  {
    assert w.c.t.permits.Keys <= c'.t.permits.Keys;
  }

  /** A controller step that inserts nothing. */
  lemma NotIssued(w: World, c': Control, gates': map<nat, Gate>)
    requires Legal(w.log) && w.issued.Keys == w.c.t.permits.Keys == c'.t.permits.Keys && w.c.now <= c'.now
    requires ControllerRun.Inv(c') && LedgerGrows(w.c.t, c'.t) && c'.t.outcomes.Keys <= w.c.t.outcomes.Keys
    ensures OthersMove(w, w.(c := c', gates := gates'))
  {
  }

  /** The controller's side of the steps that handle permit requests. */
  lemma Handled(c: Control, a: Action)
    requires ControllerRun.Inv(c) && !a.OutcomeBody?
    ensures ControllerRun.Inv(Do(c, a)) && LedgerGrows(c.t, Do(c, a).t) && c.now <= Do(c, a).now
    ensures Do(c, a).t.outcomes.Keys <= c.t.outcomes.Keys
  {
    DoKeepsInv(c, a);
    LedgerStep(c, a);
    NewRows(c, a);
  }

  lemma PermitMove(w: World, e: nat, permitId: string)
    requires Legal(w.log) && ControllerRun.Inv(w.c) && w.issued.Keys == w.c.t.permits.Keys
    requires Gated(w, e) && permitId !in w.c.t.permits
    ensures OthersMove(w, PermitAnswered(w, e, permitId))
  {
    var c' := Do(w.c, PermitBodyOf(w, e, permitId));
    Handled(w.c, PermitBodyOf(w, e, permitId));
    InsertedFits(w.c, w.gates[e].handler, w.execs[e], permitId);
    if permitId in c'.t.permits {
      IssuedTo(w, c', e, permitId, w.gates[e := Answered(permitId)]);
    } else {
      NotIssued(w, c', w.gates[e := TurnedAway]);
    }
  }

  lemma GateMove(w: World, h: nat, e: nat)
    requires Legal(w.log) && ControllerRun.Inv(w.c) && w.issued.Keys == w.c.t.permits.Keys
    ensures OthersMove(w, PermitGate(w, h, e))
  {
    LedgerKeeps(w.c.t);
    Handled(w.c, GatePermit(h));
    NewRows(w.c, GatePermit(h));
    NotIssued(w, w.c, w.gates);
    NotIssued(w, w.c, w.gates[e := TurnedAway]);
    NotIssued(w, Do(w.c, GatePermit(h)), w.gates[e := AtGate(h)]);
  }

  lemma DropMove(w: World, e: nat)
    requires Legal(w.log) && ControllerRun.Inv(w.c) && w.issued.Keys == w.c.t.permits.Keys && Gated(w, e)
    ensures OthersMove(w, PermitDropped(w, e))
  {
    Handled(w.c, Drop(w.gates[e].handler));
    NewRows(w.c, Drop(w.gates[e].handler));
    NotIssued(w, Do(w.c, Drop(w.gates[e].handler)), w.gates[e := TurnedAway]);
  }

  lemma RestartMove(w: World)
    requires Legal(w.log) && ControllerRun.Inv(w.c) && w.issued.Keys == w.c.t.permits.Keys
    ensures OthersMove(w, Restarted(w))
  {
    Handled(w.c, Restart);
    NewRows(w.c, Restart);
    NotIssued(w, Do(w.c, Restart), Restarted(w).gates);
  }

  /** The steps that are not a call's own. */
  lemma OtherStep(w: World, s: Step)
    requires Legal(w.log) && ControllerRun.Inv(w.c) && OutcomesOk(w) && w.issued.Keys == w.c.t.permits.Keys
    requires !s.Acts?
    ensures Next(w, s) == w || OthersMove(w, Next(w, s))
  {
    match s
    case Controls(a) => if Outside(w, a) { ControlsMove(w, a); }
    case PermitGated(h, e) => GateMove(w, h, e);
    case PermitArrives(e, permitId) => if Gated(w, e) && permitId !in w.c.t.permits { PermitMove(w, e, permitId); }
    case PermitLost(e) => if Gated(w, e) { DropMove(w, e); }
    case ControllerRestarts => RestartMove(w);
    case Append(input) => if Accepts(w.log, input) { AppendMovesLog(w, input); }
    case Execute(e, gateway, grant, actual) => EnteredMoves(w, e, gateway, grant, actual);
  }

  lemma NextKeepsInv(w: World, s: Step)
    requires Inv(w)
    ensures Inv(Next(w, s))
  {
    if s.Acts? {
      if s.exec in w.execs {
        assert ExecOk(w, s.exec) && UnlockOk(w.log, w.c.now, w.execs[s.exec]);
        ActedMoves(w, s.exec, s.act);
        if CallMoves(w, Acted(w, s.exec, s.act), s.exec) { CallMovesInv(w, Acted(w, s.exec, s.act), s.exec); }
      }
    } else {
      OtherStep(w, s);
      if OthersMove(w, Next(w, s)) { OthersMoveInv(w, Next(w, s)); }
    }
  }

  lemma {:induction false} RunKeepsInv(policy: Controller.Policy, bundleId: string, now: int, steps: seq<Step>)
    ensures Inv(Run(Begin(policy, bundleId, now), steps))
  {
    if steps != [] {
      RunKeepsInv(policy, bundleId, now, steps[..|steps| - 1]);
      NextKeepsInv(Run(Begin(policy, bundleId, now), steps[..|steps| - 1]), steps[|steps| - 1]);
    }
  }

  /** The states of all runs, from an empty log and a first bundle. */
  ghost predicate Reachable(w: World) {
    exists policy, bundleId, now, steps :: w == Run(Begin(policy, bundleId, now), steps)
  }

  lemma ReachableInv(w: World)
    requires Reachable(w)
    ensures Inv(w)
  {
    var policy, bundleId, now, steps :| w == Run(Begin(policy, bundleId, now), steps);
    RunKeepsInv(policy, bundleId, now, steps);
  }
}
