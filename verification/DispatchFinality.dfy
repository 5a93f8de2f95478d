/** When an answer without an adapter call is final: exactly which unfinished calls can still
    reach the adapter after their caller has been told that they were rejected or failed. */
module DispatchFinality {
  import opened Json
  import opened Evidence
  import opened Log
  import opened Store
  import opened Controller
  import opened ControllerRun
  import opened Dispatch
  import opened DispatchSafety
  import opened DispatchGates

  // ---- The condition ----

  /** A controlled gateway finds the grant's policy in force. */
  predicate PolicyStands(w: World, x: Exec) {
    x.gateway.controlled ==> x.grant.body.policyVersion == Some(PolicyRevision(w.c.t.bundle))
  }

  /** The controller would grant the permit at `now` to a request past the gate. */
  predicate Permitted(c: Control, x: Exec, now: int) { Request(x).Some? && PermitAllowed(c.t, Request(x).value, now) }

  /** A permit can still be asked for, or none is needed; an update that is pending may yet fail. */
  predicate MayAsk(c: Control, x: Exec, now: int) { x.gateway.authority ==> Permitted(c, x, now) }

  /** The request sent has a live permit, or can still get one. */
  predicate MayBePermitted(w: World, e: nat)
    requires e in w.execs
  {
    if e !in w.gates then MayAsk(w.c, w.execs[e], w.c.now)
    else match w.gates[e]
      case AtGate(_) => Permitted(w.c, w.execs[e], w.c.now)
      case Answered(id) => id in w.c.t.permits && w.c.now < w.c.t.permits[id].expiresAt
      case TurnedAway => false
  }

  /** The proposal is reserved, with the intent the call read. */
  predicate ReservedFor(log: Events, x: Exec) {
    var id := x.grant.body.proposalId;
    HasStatus(log, id, RESERVED) && Some(Latest(log)[id].intent) == x.intent
  }

  /** The earliest time at which the reservation can be redeemed. */
  function RedeemableAt(w: World, x: Exec): int
    requires ReservedFor(w.log, x)
  {
    var reserved := Latest(w.log)[x.grant.body.proposalId].timestamp;
    if w.c.now < reserved then reserved else w.c.now
  }

  /** The work of the call can still reach the adapter. */
  predicate CanStillCall(w: World, e: nat)
    requires e in w.execs
  {
    var x := w.execs[e];
    match x.pc
    case Redeeming => ReservedFor(w.log, x) && PolicyStands(w, x) && MayAsk(w.c, x, RedeemableAt(w, x))
    case Redeemed =>
      HasStatus(w.log, x.grant.body.proposalId, RUNNING) && PolicyStands(w, x) && MayAsk(w.c, x, w.c.now)
    case Rechecking =>
      HasStatus(w.log, x.grant.body.proposalId, RUNNING) && PolicyStands(w, x) && MayAsk(w.c, x, w.c.now)
    case Reviewing => HasStatus(w.log, x.grant.body.proposalId, RUNNING) && MayAsk(w.c, x, w.c.now)
    case Asking => MayAsk(w.c, x, w.c.now)
    case Waiting => MayBePermitted(w, e)
    case _ => false
  }

  // ---- What is lost stays lost ----

  /** How the controller goes on: bundles only advance, and permits keep their ends. */
  predicate Onward(c: Control, c': Control) {
    && c.now <= c'.now && c.t.bundle.epoch <= c'.t.bundle.epoch
    && (c.t.bundle.epoch == c'.t.bundle.epoch ==> c'.t.bundle == c.t.bundle)
    && (forall id :: id in c.t.permits ==>
         id in c'.t.permits && c'.t.permits[id].expiresAt == c.t.permits[id].expiresAt)
  }

  lemma DoOnward(c: Control, a: Action)
    requires ControllerRun.Inv(c)
    ensures Onward(c, Do(c, a))
  {
    LedgerStep(c, a);
    ClockOnward(c, a);
  }

  lemma ClockOnward(c: Control, a: Action)
    ensures c.now <= Do(c, a).now
  {
  }

  /** A policy once superseded never comes back. */
  lemma PolicyGone(b: Bundle, b': Bundle, x: Exec)
    requires NamesPast(b, x.grant) && b.epoch <= b'.epoch && (b.epoch == b'.epoch ==> b' == b)
    requires x.grant.body.policyVersion == Some(PolicyRevision(b'))
    ensures b' == b
  {
    var a: Bundle :| a.epoch <= b.epoch && x.grant.body.policyVersion == Some(PolicyRevision(a));
    RevisionFixesEpoch(a, b');
  }

  /** A gateway has a dispatch authority exactly when its policies come from that controller. */
  predicate Wired(x: Exec) { x.gateway.authority <==> x.gateway.controlled }

  lemma PermittedBefore(c: Control, c': Control, x: Exec, now: int, now': int)
    requires Onward(c, c') && Permitted(c', x, now') && now <= now' && NamesPast(c.t.bundle, x.grant)
    ensures Permitted(c, x, now) && c'.t.bundle == c.t.bundle
  {
    PolicyGone(c.t.bundle, c'.t.bundle, x);
  }

  lemma AskedBefore(c: Control, c': Control, x: Exec, now: int, now': int)
    requires Onward(c, c') && MayAsk(c', x, now') && now <= now'
    requires x.gateway.authority ==> NamesPast(c.t.bundle, x.grant)
    ensures MayAsk(c, x, now)
  {
    if x.gateway.authority { PermittedBefore(c, c', x, now, now'); }
  }

  /** The variables the condition looks at. */
  ghost predicate SameCall(x: Exec, y: Exec) {
    y.pc == x.pc && y.gateway == x.gateway && y.grant == x.grant && y.actual == x.actual && y.intent == x.intent
  }

  /** How the request of a call goes on while its work waits. */
  predicate GateOnward(w: World, w': World, e: nat)
    requires e in w.execs
  {
    if e !in w.gates then
      e !in w'.gates || w'.gates[e].TurnedAway?
      || (w'.gates[e].AtGate? && w'.c.t == w.c.t && w'.c.now == w.c.now)
    else if w.gates[e].AtGate? then
      e in w'.gates && (w'.gates[e] == w.gates[e] || w'.gates[e].TurnedAway?
        || (w'.gates[e].Answered? && Permitted(w.c, w.execs[e], w.c.now)))
    else e in w'.gates && w'.gates[e] == w.gates[e]
  }

  /** Anything but the work of the call itself. */
  ghost predicate Meanwhile(w: World, w': World, e: nat) {
    && e in w.execs && e in w'.execs && SameCall(w.execs[e], w'.execs[e])
    && Onward(w.c, w'.c) && Legal(w'.log) && w.log <= w'.log && GateOnward(w, w', e)
  }

  /** What the invariants say of an unfinished call. */
  ghost predicate Known(w: World, e: nat) {
    && e in w.execs && Wired(w.execs[e]) && AskOk(w.execs[e]) && NamedOk(w.c.t.bundle, w.execs[e])
    && (3 <= Rank(w.execs[e].pc) < 6 ==>
         w.execs[e].grant.body.proposalId in Latest(w.log))
    && (4 <= Rank(w.execs[e].pc) < 6 ==>
         !HasStatus(w.log, w.execs[e].grant.body.proposalId, RESERVED))
    && (e in w.gates && w.gates[e].Answered? ==> w.gates[e].permitId in w.c.t.permits)
  }

  /** A status that has passed does not come back. */
  lemma StatusBefore(log: Events, log': Events, id: string, status: Status)
    requires Legal(log') && log <= log' && id in Latest(log) && HasStatus(log', id, status)
    requires status.RESERVED? || (status.RUNNING? && !HasStatus(log, id, RESERVED))
    ensures HasStatus(log, id, status) && (status.RESERVED? ==> Latest(log')[id] == Latest(log)[id])
  {
    assert log'[..|log|] == log;
    TraceExtends(log', |log|, id);
  }

  /** Whatever else happens, a call that was out of reach stays out of reach. */
  lemma RecordBefore(w: World, w': World, e: nat)
    requires Known(w, e) && Meanwhile(w, w', e) && CanStillCall(w', e) && Rank(w.execs[e].pc) < 6
    ensures CanStillCall(w, e)
  {
    var x, y := w.execs[e], w'.execs[e];
    var id := x.grant.body.proposalId;
    if x.gateway.controlled && !x.pc.Reviewing? { PolicyGone(w.c.t.bundle, w'.c.t.bundle, x); }
    if x.pc.Redeeming? {
      StatusBefore(w.log, w'.log, id, RESERVED);
      assert SameCall(x, y) && ReservedFor(w.log, x);
      AskedBefore(w.c, w'.c, x, RedeemableAt(w, x), RedeemableAt(w', y));
    } else {
      StatusBefore(w.log, w'.log, id, RUNNING);
      AskedBefore(w.c, w'.c, x, w.c.now, w'.c.now);
    }
  }

  lemma PermitBefore(w: World, w': World, e: nat)
    requires Known(w, e) && Meanwhile(w, w', e) && CanStillCall(w', e) && Rank(w.execs[e].pc) >= 6
    ensures CanStillCall(w, e)
  {
    var x := w.execs[e];
    if x.pc.Asking? || (e !in w.gates && e !in w'.gates) {
      AskedBefore(w.c, w'.c, x, w.c.now, w'.c.now);
    } else if e in w.gates && w.gates[e] == w'.gates[e] && w.gates[e].AtGate? {
      PermittedBefore(w.c, w'.c, x, w.c.now, w'.c.now);
    }
  }

  lemma MeanwhileLost(w: World, w': World, e: nat)
    requires Known(w, e) && Meanwhile(w, w', e) && CanStillCall(w', e)
    ensures CanStillCall(w, e)
  {
    if Rank(w.execs[e].pc) < 6 { RecordBefore(w, w', e); } else { PermitBefore(w, w', e); }
  }

  // ---- The work of the call itself ----

  lemma MoveLost(w: World, e: nat, m: Move)
    requires Known(w, e) && Enabled(w, e, m) && (w.execs[e].pc.Asking? ==> e !in w.gates)
    requires CanStillCall(Acted(w, e, Local(m)), e)
    ensures CanStillCall(w, e) || w.execs[e].pc.Guarding?
  {
  }

  /** A redemption needs the reservation, with this intent and no later stamp. */
  lemma ConsumedLost(w: World, e: nat, eventId: string)
    requires Known(w, e) && Legal(w.log)
    requires Consumed(w, e, eventId).log != w.log && CanStillCall(Consumed(w, e, eventId), e)
    ensures CanStillCall(w, e)
  {
    var x := w.execs[e];
    var input := StartedInput(x, x.intent.value, w.c.now, eventId);
    assert ProjectTrace(NextEvent(w.log, input)).Some?;
    assert ReservedFor(w.log, x) && RedeemableAt(w, x) == w.c.now;
  }

  lemma InvokeLost(w: World, e: nat, permit: Option<string>)
    requires e in w.execs && GatesOk(w) && MayInvoke(w, e, permit)
    requires w.execs[e].pc.Waiting? ==> w.execs[e].gateway.authority
    ensures CanStillCall(w, e)
  {
    if permit.Some? { assert IssueOk(w, permit.value); }
  }

  // ---- Steps ----

  /** An unfinished call that has not reached the adapter. */
  predicate InPlay(w: World, e: nat) {
    e in w.execs && UnderTimer(w.execs[e].pc) && !w.execs[e].invoked && Wired(w.execs[e])
  }

  lemma UnlockedRecord(w: World, e: nat)
    requires Legal(w.log) && e in w.execs && ExecOk(w, e) && UnlockOk(w.log, w.c.now, w.execs[e])
    requires w.execs[e].pc.Redeeming?
    ensures w.execs[e].grant.body.proposalId in Latest(w.log)
  {
    var m := w.execs[e].unlocked.value;
    assert w.log[..|m.log|] == m.log;
    TraceExtends(w.log, |m.log|, w.execs[e].grant.body.proposalId);
  }

  lemma RedeemedRecord(w: World, e: nat)
    requires Legal(w.log) && e in w.execs && ExecOk(w, e) && w.execs[e].redeemedAt.Some?
    ensures w.execs[e].grant.body.proposalId in Latest(w.log)
    ensures !HasStatus(w.log, w.execs[e].grant.body.proposalId, RESERVED)
  {
    RecordExtends(w.log, w.execs[e].redeemedAt.value);
  }

  /** What the invariants add about a call that waits. */
  predicate Waits(w: World, e: nat)
    requires e in w.execs
  {
    && (w.execs[e].pc.Asking? ==> e !in w.gates) && (w.execs[e].pc.Waiting? ==> w.execs[e].gateway.authority)
    && (Rank(w.execs[e].pc) < 9 || w.execs[e].pc.Threw?)
  }

  lemma NotYetInvoked(x: Exec)
    requires FlowOk(x) && !x.invoked
    ensures Rank(x.pc) < 9 || x.pc.Threw?
  {
  }

  lemma InPlayKnown(w: World, e: nat)
    requires Legal(w.log) && InPlay(w, e) && ExecOk(w, e) && UnlockOk(w.log, w.c.now, w.execs[e])
    requires AskOk(w.execs[e]) && NamedOk(w.c.t.bundle, w.execs[e]) && (e in w.gates ==> GateOk(w, e))
    requires w.issued.Keys == w.c.t.permits.Keys
    ensures Known(w, e) && Waits(w, e)
  {
    NotYetInvoked(w.execs[e]);
    if w.execs[e].pc.Redeeming? { UnlockedRecord(w, e); }
    if w.execs[e].redeemedAt.Some? { RedeemedRecord(w, e); }
  }

  lemma OnwardSame(c: Control)
    ensures Onward(c, c)
  {
  }

  /** The controller's part of the steps that are not a call's own. */
  lemma OtherOnward(w: World, s: Step)
    requires ControllerRun.Inv(w.c) && !s.Acts?
    ensures Onward(w.c, Next(w, s).c)
  {
    OnwardSame(w.c);
    match s
    case Controls(a) => DoOnward(w.c, a);
    case PermitGated(h, e) => DoOnward(w.c, GatePermit(h));
    case PermitArrives(e, permitId) => if Gated(w, e) { DoOnward(w.c, PermitBodyOf(w, e, permitId)); }
    case PermitLost(e) => if Gated(w, e) { DoOnward(w.c, Drop(w.gates[e].handler)); }
    case ControllerRestarts => DoOnward(w.c, Restart);
    case _ =>
  }

  lemma OtherGate(w: World, s: Step, e: nat)
    requires e in w.execs && !s.Acts?
    ensures GateOnward(w, Next(w, s), e)
  {
  }

  lemma OtherMeanwhile(w: World, s: Step, e: nat)
    requires Legal(w.log) && ControllerRun.Inv(w.c) && OutcomesOk(w) && w.issued.Keys == w.c.t.permits.Keys
    requires e in w.execs && !s.Acts?
    ensures Next(w, s) == w || Meanwhile(w, Next(w, s), e)
  {
    OtherStep(w, s);
    OtherOnward(w, s);
    OtherGate(w, s, e);
  }

  lemma AsideMeanwhile(w: World, w': World, e: nat)
    requires Aside(w, w') && Legal(w'.log) && e in w.execs && SameCall(w.execs[e], w'.execs[e])
    ensures Meanwhile(w, w', e)
  {
    OnwardSame(w.c);
  }

  // The steps of the call itself: none of them brings the adapter back into reach.

  predicate OutOfReach(w: World, e: nat) { InPlay(w, e) && !CanStillCall(w, e) }

  lemma OwnMove(w: World, e: nat, m: Move)
    requires OutOfReach(w, e) && Known(w, e) && Enabled(w, e, m) && (w.execs[e].pc.Asking? ==> e !in w.gates)
    ensures OutOfReach(Acted(w, e, Local(m)), e)
  {
    MoveStays(w, e, m);
    if CanStillCall(Acted(w, e, Local(m)), e) { MoveLost(w, e, m); }
  }

  lemma MoveStays(w: World, e: nat, m: Move)
    requires InPlay(w, e) && Enabled(w, e, m)
    ensures InPlay(Acted(w, e, Local(m)), e)
  {
  }

  lemma OwnRedeem(w: World, e: nat, eventId: string)
    requires OutOfReach(w, e) && Known(w, e) && Legal(w.log)
    ensures OutOfReach(Consumed(w, e, eventId), e)
  {
    var w' := Consumed(w, e, eventId);
    ConsumedRedeems(w, e, eventId);
    if w'.log != w.log && CanStillCall(w', e) { ConsumedLost(w, e, eventId); }
  }

  /** A step that only appends to the log or settles the caller. */
  lemma OwnShift(w: World, w': World, e: nat)
    requires OutOfReach(w, e) && Known(w, e) && Shifts(w, w', e) && Aside(w, w') && Legal(w'.log)
    requires Rank(w.execs[e].pc) < 9 || w.execs[e].pc.Threw?
    ensures OutOfReach(w', e)
  {
    if CanStillCall(w', e) {
      AsideMeanwhile(w, w', e);
      MeanwhileLost(w, w', e);
    }
  }

  lemma OwnInvoke(w: World, e: nat, permit: Option<string>)
    requires OutOfReach(w, e) && GatesOk(w) && Waits(w, e)
    ensures !MayInvoke(w, e, permit)
  {
    if MayInvoke(w, e, permit) { InvokeLost(w, e, permit); }
  }

  lemma OwnTurn(w: World, e: nat, t: Turn)
    requires OutOfReach(w, e)
    ensures OutOfReach(Acted(w, e, Settle(t)), e)
  {
    CallerApart(w, e, Turned(w.execs[e], w.c.now, t));
  }

  /** What the caller has been told does not matter. */
  lemma CallerApart(w: World, e: nat, caller: Caller)
    requires OutOfReach(w, e)
    ensures OutOfReach(Put(w, e, w.execs[e].(caller := caller)), e)
  {
  }

  lemma OwnOther(w: World, e: nat, act: Act)
    requires OutOfReach(w, e) && Known(w, e) && Waits(w, e)
    requires !act.Local? && !act.Invoke? && !act.Redeem? && !act.Settle?
    requires Legal(Acted(w, e, act).log) && Aside(w, Acted(w, e, act))
    ensures OutOfReach(Acted(w, e, act), e)
  {
    ActShifts(w, e, act);
    OwnShift(w, Acted(w, e, act), e);
  }

  lemma OwnStep(w: World, e: nat, act: Act)
    requires OutOfReach(w, e) && Known(w, e) && GatesOk(w) && Legal(w.log) && Waits(w, e)
    requires Legal(Acted(w, e, act).log) && Aside(w, Acted(w, e, act))
    ensures OutOfReach(Acted(w, e, act), e)
  {
    if act.Local? {
      if Enabled(w, e, act.move) { OwnMove(w, e, act.move); }
    } else if act.Invoke? {
      OwnInvoke(w, e, act.permit);
    } else if act.Redeem? {
      OwnRedeem(w, e, act.eventId);
    } else if act.Settle? {
      OwnTurn(w, e, act.turn);
    } else {
      OwnOther(w, e, act);
    }
  }

  /** Once out of reach, the adapter stays out of reach, whatever step is taken. */
  lemma StepStaysLost(w: World, s: Step, e: nat)
    requires DispatchSafety.Inv(w) && GatesInv(w) && OutOfReach(w, e)
    ensures OutOfReach(Next(w, s), e)
  {
    if s.Acts? {
      if s.exec in w.execs { CallStaysLost(w, s.exec, s.act, e); }
    } else {
      OthersStayLost(w, s, e);
    }
  }

  lemma OthersStayLost(w: World, s: Step, e: nat)
    requires DispatchSafety.Inv(w) && GatesInv(w) && OutOfReach(w, e) && !s.Acts?
    ensures OutOfReach(Next(w, s), e)
  {
    LostKnown(w, e);
    OtherMeanwhile(w, s, e);
    OtherStays(w, s, e);
  }

  lemma LostKnown(w: World, e: nat)
    requires DispatchSafety.Inv(w) && GatesInv(w) && InPlay(w, e)
    ensures Known(w, e) && Waits(w, e)
  {
    assert ExecOk(w, e) && UnlockOk(w.log, w.c.now, w.execs[e]) && CallerOk(w, e);
    assert e in w.gates ==> GateOk(w, e);
    InPlayKnown(w, e);
  }

  lemma CallStaysLost(w: World, f: nat, act: Act, e: nat)
    requires DispatchSafety.Inv(w) && GatesInv(w) && OutOfReach(w, e) && f in w.execs
    ensures OutOfReach(Acted(w, f, act), e)
  {
    LostKnown(w, e);
    assert ExecOk(w, f) && UnlockOk(w.log, w.c.now, w.execs[f]);
    ActedKeeps(w, f, act);
    ActedLegal(w, f, act);
    ActStaysLost(w, f, act, e);
  }

  lemma ActedLegal(w: World, f: nat, act: Act)
    requires Legal(w.log) && f in w.execs && ExecOk(w, f) && UnlockOk(w.log, w.c.now, w.execs[f])
    ensures Legal(Acted(w, f, act).log)
  {
    ActedMoves(w, f, act);
  }

  lemma ActStaysLost(w: World, f: nat, act: Act, e: nat)
    requires OutOfReach(w, e) && Known(w, e) && GatesOk(w) && Legal(w.log) && Waits(w, e) && f in w.execs
    requires Legal(Acted(w, f, act).log) && Aside(w, Acted(w, f, act))
    ensures OutOfReach(Acted(w, f, act), e)
  {
    if f == e { OwnStep(w, e, act); } else { FarStep(w, f, act, e); }
  }

  lemma FarStep(w: World, f: nat, act: Act, e: nat)
    requires OutOfReach(w, e) && Known(w, e) && f in w.execs && f != e
    requires Legal(Acted(w, f, act).log) && Aside(w, Acted(w, f, act))
    ensures OutOfReach(Acted(w, f, act), e)
  {
    ActOthers(w, f, act, e);
    AsideMeanwhile(w, Acted(w, f, act), e);
    if CanStillCall(Acted(w, f, act), e) { MeanwhileLost(w, Acted(w, f, act), e); }
  }

  lemma OtherStays(w: World, s: Step, e: nat)
    requires OutOfReach(w, e) && Known(w, e) && !s.Acts?
    requires Next(w, s) == w || Meanwhile(w, Next(w, s), e)
    ensures OutOfReach(Next(w, s), e)
  {
    OtherExec(w, s, e);
    if Next(w, s) != w && CanStillCall(Next(w, s), e) { MeanwhileLost(w, Next(w, s), e); }
  }

  lemma OtherExec(w: World, s: Step, e: nat)
    requires e in w.execs && !s.Acts?
    ensures e in Next(w, s).execs && Next(w, s).execs[e] == w.execs[e]
  {
  }

  lemma {:induction false} RunStaysLost(w: World, steps: seq<Step>, e: nat)
    requires DispatchSafety.Inv(w) && GatesInv(w) && OutOfReach(w, e)
    ensures DispatchSafety.Inv(Run(w, steps)) && GatesInv(Run(w, steps)) && OutOfReach(Run(w, steps), e)
  {
    if steps != [] {
      var before, s := Run(w, steps[..|steps| - 1]), steps[|steps| - 1];
      RunStaysLost(w, steps[..|steps| - 1], e);
      NextKeepsInv(before, s);
      NextKeepsGates(before, s);
      StepStaysLost(before, s, e);
    }
  }
}
