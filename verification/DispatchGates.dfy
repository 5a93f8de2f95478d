/** Permit requests of the calls: each is handled once and answered at most once, a controlled
    gateway's grant names a policy of the past or present, and the adapter calls are the calls
    that say so. */
module DispatchGates {
  import opened Json
  import opened Evidence
  import opened Log
  import opened Controller
  import opened ControllerRun
  import opened Dispatch
  import opened DispatchSafety

  // ---- The invariant ----

  predicate GateOk(w: World, e: nat)
    requires e in w.gates
  {
    Asker(w, e) && match w.gates[e]
      case AtGate(h) => h in w.c.gatedPermits
      case Answered(id) => id in w.issued && w.issued[id] == e
      case TurnedAway => true
  }

  /** No two calls share a handler. */
  predicate OwnHandlers(w: World) {
    forall e, f :: e in w.gates && f in w.gates && e != f && w.gates[e].AtGate? ==> w.gates[e] != w.gates[f]
  }

  predicate IssueOk(w: World, id: string)
    requires id in w.issued
  {
    w.issued[id] in w.gates && w.gates[w.issued[id]] == Answered(id)
  }

  predicate GatesOk(w: World) {
    (forall e :: e in w.gates ==> GateOk(w, e)) && OwnHandlers(w) && forall id :: id in w.issued ==> IssueOk(w, id)
  }

  /** The grant names a policy that is or was in force. */
  ghost predicate NamesPast(b: Bundle, grant: Contract) {
    exists a: Bundle :: a.epoch <= b.epoch && grant.body.policyVersion == Some(PolicyRevision(a))
  }

  ghost predicate NamedOk(b: Bundle, x: Exec) {
    x.gateway.controlled && 2 <= Rank(x.pc) < 13 ==> NamesPast(b, x.grant)
  }

  predicate AskOk(x: Exec) {
    (Rank(x.pc) < 7 ==> !x.asked) && (x.pc.Waiting? ==> x.asked && x.gateway.authority && Request(x).Some?)
  }

  /** The caller of unfinished work has been rejected by the timer only. */
  predicate TimerOk(x: Exec, now: int) {
    !x.caller.Pending? ==> x.pc.Threw? || x.pc.Returned? || (UnderTimer(x.pc) && x.deadline <= now)
  }

  predicate WasCalled(w: World, e: nat) { exists i :: 0 <= i < |w.calls| && w.calls[i].exec == e }

  ghost predicate CallerOk(w: World, e: nat)
    requires e in w.execs
  {
    && AskOk(w.execs[e]) && NamedOk(w.c.t.bundle, w.execs[e]) && TimerOk(w.execs[e], w.c.now)
    && (w.execs[e].invoked ==> WasCalled(w, e))
  }

  ghost predicate CallersOk(w: World) { forall e :: e in w.execs ==> CallerOk(w, e) }

  ghost predicate GatesInv(w: World) { GatesOk(w) && CallersOk(w) }

  // ---- Steps of a call ----

  lemma NamesStay(b: Bundle, b': Bundle, grant: Contract)
    requires NamesPast(b, grant) && b.epoch <= b'.epoch
    ensures NamesPast(b', grant)
  {
    var a: Bundle :| a.epoch <= b.epoch && grant.body.policyVersion == Some(PolicyRevision(a));
    assert a.epoch <= b'.epoch;
  }

  lemma MoveCaller(w: World, e: nat, m: Move)
    requires e in w.execs && Enabled(w, e, m) && AskOk(w.execs[e]) && NamedOk(w.c.t.bundle, w.execs[e])
    requires TimerOk(w.execs[e], w.c.now)
    ensures var y := Moved(w.log, w.c.now, w.execs[e], m);
      AskOk(y) && NamedOk(w.c.t.bundle, y) && TimerOk(y, w.c.now)
  {
  }

  /** What only moves and the checks before them set. */
  ghost predicate SameAim(x: Exec, y: Exec) {
    && y.gateway == x.gateway && y.grant == x.grant && y.actual == x.actual && y.intent == x.intent
    && y.asked == x.asked && y.invoked == x.invoked && y.deadline == x.deadline
    && (!y.caller.Pending? ==> !x.caller.Pending?)
  }

  ghost predicate Aims(w: World, w': World, e: nat) {
    && e in w.execs && w'.execs.Keys == w.execs.Keys && w'.calls == w.calls && SameAim(w.execs[e], w'.execs[e])
  }

  /** Steps that are neither moves, nor the redemption, nor the adapter call. */
  ghost predicate Shifts(w: World, w': World, e: nat) {
    Aims(w, w', e) && (w'.execs[e].pc == w.execs[e].pc
      || (9 <= Rank(w.execs[e].pc) < 12 && 9 <= Rank(w'.execs[e].pc) < 13))
  }

  /** The redemption. */
  ghost predicate RedeemsAtMost(w: World, w': World, e: nat) {
    Aims(w, w', e) && (w'.execs[e].pc == w.execs[e].pc || (w.execs[e].pc.Redeeming? && w'.execs[e].pc.Redeemed?))
  }

  /** The caller's side moves, and nothing else of the call. */
  lemma TurnCaller(w: World, e: nat, t: Turn)
    requires e in w.execs && CallerOk(w, e)
    ensures CallerOk(Acted(w, e, Settle(t)), e)
  {
    TurnTimer(w.execs[e], w.c.now, t);
  }

  lemma TurnTimer(x: Exec, now: int, t: Turn)
    requires TimerOk(x, now)
    ensures TimerOk(x.(caller := Turned(x, now, t)), now)
  {
  }

  lemma ConsumedRedeems(w: World, e: nat, eventId: string)
    requires e in w.execs
    ensures RedeemsAtMost(w, Consumed(w, e, eventId), e)
  {
  }

  lemma CompletedShifts(w: World, e: nat, eventId: string)
    requires e in w.execs
    ensures Shifts(w, Completed(w, e, eventId), e)
  {
  }

  lemma ReportedShifts(w: World, e: nat)
    requires e in w.execs
    ensures Shifts(w, SuccessReported(w, e), e)
  {
  }

  /** A step that changes only the caller's side of one call. */
  lemma AnswerShifts(w: World, e: nat, caller: Caller)
    requires e in w.execs && !w.execs[e].caller.Pending?
    ensures Shifts(w, Put(w, e, w.execs[e].(caller := caller)), e)
  {
  }

  lemma AppendedShifts(w: World, e: nat, input: EventInput)
    requires e in w.execs && !w.execs[e].caller.Pending?
    ensures Shifts(w, FailureAppended(w, e, input), e)
  {
    if Accepts(w.log, input) {
      AnswerShifts(Logging(w, input), e, FailureLogged(NextEvent(w.log, input).currentHash));
    } else {
      AnswerShifts(w, e, Unavailable);
    }
  }

  lemma FailureShifts(w: World, e: nat, eventId: string)
    requires e in w.execs
    ensures Shifts(w, FailureRecorded(w, e, eventId), e)
  {
    var x := w.execs[e];
    if x.caller.Failing? && x.intent.Some? {
      AppendedShifts(w, e, CompletedInput(x, x.intent.value, false, w.c.now, eventId));
    }
  }

  lemma AnsweredShifts(w: World, e: nat, definitive: bool)
    requires e in w.execs
    ensures Shifts(w, FailureReported(w, e, definitive), e)
  {
    var x := w.execs[e];
    if x.caller.FailureLogged? {
      if x.permit.None? || x.finished { AnswerShifts(w, e, Answering); } else { FinishShifts(w, e); }
    }
  }

  lemma FinishShifts(w: World, e: nat)
    requires e in w.execs && !w.execs[e].caller.Pending?
    ensures Shifts(w, Put(w, e, w.execs[e].(caller := Answering, finished := true)), e)
  {
  }

  lemma ActShifts(w: World, e: nat, act: Act)
    requires e in w.execs && !act.Local? && !act.Invoke? && !act.Redeem? && !act.Settle?
    ensures Shifts(w, Acted(w, e, act), e)
  {
    match act
    case Complete(eventId) => CompletedShifts(w, e, eventId);
    case Report => ReportedShifts(w, e);
    case LogFailure(eventId) => FailureShifts(w, e, eventId);
    case ReportFailure(definitive) => AnsweredShifts(w, e, definitive);
  }

  /** No step of a call but a move sends a request or goes back to the checks, and the adapter
      is called by the one step that says so. */
  lemma ActCaller(w: World, e: nat, act: Act)
    requires e in w.execs && CallerOk(w, e) && Acted(w, e, act).c == w.c
    ensures w.calls <= Acted(w, e, act).calls
    ensures e in Acted(w, e, act).execs && CallerOk(Acted(w, e, act), e)
  {
    if act.Local? {
      if Enabled(w, e, act.move) {
        MoveCaller(w, e, act.move);
        MoveCalls(w, e, act.move);
      }
    } else if act.Invoke? {
      InvokeCaller(w, e, act.permit);
    } else if act.Settle? {
      TurnCaller(w, e, act.turn);
    } else if act.Redeem? {
      ConsumedRedeems(w, e, act.eventId);
      ShiftedCaller(w, Acted(w, e, act), e);
    } else {
      ActShifts(w, e, act);
      ShiftedCaller(w, Acted(w, e, act), e);
    }
  }

  lemma MoveCalls(w: World, e: nat, m: Move)
    requires e in w.execs && (w.execs[e].invoked ==> WasCalled(w, e))
    ensures var y := Moved(w.log, w.c.now, w.execs[e], m);
      y.invoked ==> WasCalled(Put(w, e, y), e)
  {
  }

  lemma InvokeCaller(w: World, e: nat, permit: Option<string>)
    requires e in w.execs && CallerOk(w, e)
    ensures w.calls <= Invoked(w, e, permit).calls && e in Invoked(w, e, permit).execs
    ensures CallerOk(Invoked(w, e, permit), e)
  {
    if MayInvoke(w, e, permit) { assert Invoked(w, e, permit).calls[|w.calls|].exec == e; }
  }

  lemma ShiftedCaller(w: World, w': World, e: nat)
    requires (Shifts(w, w', e) || RedeemsAtMost(w, w', e)) && CallerOk(w, e) && w'.c == w.c
    ensures CallerOk(w', e)
  {
  }

  // ---- Every step keeps the invariant ----

  /** The other calls, while one call moves. */
  lemma ActKeepsCallers(w: World, e: nat, act: Act)
    requires e in w.execs && CallersOk(w) && Aside(w, Acted(w, e, act))
    ensures CallersOk(Acted(w, e, act))
  {
    var w' := Acted(w, e, act);
    assert CallerOk(w, e);
    ActCaller(w, e, act);
    forall f | f in w'.execs ensures CallerOk(w', f) {
      if f != e {
        ActOthers(w, e, act, f);
        CallerStays(w, w', f);
      }
    }
  }

  lemma ActOthers(w: World, e: nat, act: Act, f: nat)
    requires e in w.execs && f in w.execs && f != e
    ensures f in Acted(w, e, act).execs && Acted(w, e, act).execs[f] == w.execs[f]
  {
  }

  lemma CallerStays(w: World, w': World, f: nat)
    requires f in w.execs && CallerOk(w, f) && f in w'.execs && w'.execs[f] == w.execs[f]
    requires w.calls <= w'.calls && w.c.t.bundle.epoch <= w'.c.t.bundle.epoch && w.c.now <= w'.c.now
    ensures CallerOk(w', f)
  {
    if w.execs[f].gateway.controlled && 2 <= Rank(w.execs[f].pc) < 13 {
      NamesStay(w.c.t.bundle, w'.c.t.bundle, w.execs[f].grant);
    }
    if w.execs[f].invoked {
      var i :| 0 <= i < |w.calls| && w.calls[i].exec == f;
      assert w'.calls[i].exec == f;
    }
  }

  /** Steps that leave the requests alone. */
  lemma GatesKept(w: World, w': World)
    requires GatesOk(w) && w'.gates == w.gates && w'.issued == w.issued && w'.c.gatedPermits == w.c.gatedPermits
    requires forall e :: Asker(w, e) ==> Asker(w', e)
    ensures GatesOk(w')
  {
    forall e | e in w'.gates ensures GateOk(w', e) { assert GateOk(w, e); }
    forall id | id in w'.issued ensures IssueOk(w', id) { assert IssueOk(w, id); }
  }

  lemma ActKeepsGates(w: World, w': World)
    requires GatesOk(w) && Aside(w, w')
    ensures GatesOk(w')
  {
    forall e | Asker(w, e) ensures Asker(w', e) { assert Kept(w.execs[e], w'.execs[e]); }
    GatesKept(w, w');
  }

  lemma FreshCaller(w: World, e: nat)
    requires e in w.execs && Fresh(w.execs[e])
    ensures CallerOk(w, e)
  {
  }

  lemma OthersKeepCallers(w: World, w': World)
    requires CallersOk(w) && OthersMove(w, w')
    ensures CallersOk(w')
  {
    forall f | f in w'.execs ensures CallerOk(w', f) {
      if f in w.execs { CallerStays(w, w', f); } else { FreshCaller(w', f); }
    }
  }

  /** A controller step from outside leaves the handlers of the calls alone. */
  lemma OutsideKeepsGates(w: World, a: Action)
    requires Outside(w, a)
    ensures Do(w.c, a).gatedPermits == w.c.gatedPermits
  {
  }

  /** A request passes the gate with a fresh handler, or is refused there. */
  lemma GateAdded(w: World, c': Control, e: nat, gate: Gate)
    requires GatesOk(w) && Asker(w, e) && e !in w.gates && w.c.gatedPermits <= c'.gatedPermits && !gate.Answered?
    requires gate.AtGate? ==> gate.handler !in w.c.gatedPermits && gate.handler in c'.gatedPermits
    ensures GatesOk(w.(c := c', gates := w.gates[e := gate]))
  {
    var w' := w.(c := c', gates := w.gates[e := gate]);
    forall f | f in w.gates ensures w.gates[f] != gate || !gate.AtGate? { assert GateOk(w, f); }
    forall f | f in w'.gates ensures GateOk(w', f) { if f in w.gates { assert GateOk(w, f); } }
    forall id | id in w'.issued ensures IssueOk(w', id) { assert IssueOk(w, id); }
  }

  lemma GateKeepsGates(w: World, h: nat, e: nat)
    requires GatesOk(w)
    ensures GatesOk(PermitGate(w, h, e))
  {
    if Asker(w, e) && e !in w.gates && h !in w.c.gatedPermits {
      GateAdded(w, w.c, e, TurnedAway);
      if !w.c.t.updatePending { GateAdded(w, Do(w.c, GatePermit(h)), e, AtGate(h)); }
    }
  }

  /** The request of `e` is answered: its handler is gone, and those of the others stay. */
  lemma AnswerKeepsGates(w: World, c': Control, e: nat, gate: Gate, issued': map<string, nat>)
    requires GatesOk(w) && Gated(w, e) && !gate.AtGate? && c'.gatedPermits == w.c.gatedPermits - {w.gates[e].handler}
    requires if gate.Answered? then gate.permitId !in w.issued && issued' == w.issued[gate.permitId := e]
             else issued' == w.issued
    ensures GatesOk(w.(c := c', gates := w.gates[e := gate], issued := issued'))
  {
    var w' := w.(c := c', gates := w.gates[e := gate], issued := issued');
    forall f | f in w'.gates ensures GateOk(w', f) { assert GateOk(w, f); }
    forall id | id in w'.issued ensures IssueOk(w', id) { if id in w.issued { assert IssueOk(w, id); } }
  }

  lemma ArrivesKeepsGates(w: World, e: nat, permitId: string)
    requires GatesOk(w) && w.issued.Keys == w.c.t.permits.Keys
    ensures GatesOk(PermitAnswered(w, e, permitId))
  {
    if Gated(w, e) && permitId !in w.c.t.permits {
      var c' := Do(w.c, PermitBodyOf(w, e, permitId));
      assert GateOk(w, e) && c'.gatedPermits == w.c.gatedPermits - {w.gates[e].handler};
      if permitId in c'.t.permits {
        AnswerKeepsGates(w, c', e, Answered(permitId), w.issued[permitId := e]);
      } else {
        AnswerKeepsGates(w, c', e, TurnedAway, w.issued);
      }
    }
  }

  lemma CallKeepsGates(w: World, e: nat, act: Act)
    requires GatesInv(w) && Legal(w.log) && e in w.execs && ExecOk(w, e) && UnlockOk(w.log, w.c.now, w.execs[e])
    ensures GatesInv(Acted(w, e, act))
  {
    ActedKeeps(w, e, act);
    ActKeepsCallers(w, e, act);
    ActKeepsGates(w, Acted(w, e, act));
  }

  lemma NextKeepsGates(w: World, s: Step)
    requires DispatchSafety.Inv(w) && GatesInv(w)
    ensures GatesInv(Next(w, s))
  {
    if s.Acts? {
      if s.exec in w.execs {
        assert ExecOk(w, s.exec) && UnlockOk(w.log, w.c.now, w.execs[s.exec]);
        CallKeepsGates(w, s.exec, s.act);
      }
    } else {
      OtherStep(w, s);
      if Next(w, s) != w { OthersKeepCallers(w, Next(w, s)); }
      OthersKeepGates(w, s);
    }
  }

  lemma ControlsKeepGates(w: World, a: Action)
    requires GatesOk(w) && Outside(w, a)
    ensures GatesOk(w.(c := Do(w.c, a)))
  {
    OutsideKeepsGates(w, a);
    GatesKept(w, w.(c := Do(w.c, a)));
  }

  lemma DropKeepsGates(w: World, e: nat)
    requires GatesOk(w)
    ensures GatesOk(PermitDropped(w, e))
  {
    if Gated(w, e) { AnswerKeepsGates(w, Do(w.c, Drop(w.gates[e].handler)), e, TurnedAway, w.issued); }
  }

  lemma RestartKeepsGates(w: World)
    requires GatesOk(w)
    ensures GatesOk(Restarted(w))
  {
    var w' := Restarted(w);
    forall e | e in w'.gates ensures GateOk(w', e) { assert GateOk(w, e); }
    forall id | id in w'.issued ensures IssueOk(w', id) { assert IssueOk(w, id); }
  }

  /** Appends of others and new calls leave the requests alone. */
  lemma QuietKeepsGates(w: World, s: Step)
    requires GatesOk(w) && (s.Append? || s.Execute?)
    ensures GatesOk(Next(w, s))
  {
    GatesKept(w, Next(w, s));
  }

  lemma OthersKeepGates(w: World, s: Step)
    requires GatesOk(w) && w.issued.Keys == w.c.t.permits.Keys && !s.Acts?
    ensures GatesOk(Next(w, s))
  {
    match s
    case Controls(a) => if Outside(w, a) { ControlsKeepGates(w, a); }
    case PermitGated(h, e) => GateKeepsGates(w, h, e);
    case PermitArrives(e, permitId) => ArrivesKeepsGates(w, e, permitId);
    case PermitLost(e) => DropKeepsGates(w, e);
    case ControllerRestarts => RestartKeepsGates(w);
    case Append(input) => QuietKeepsGates(w, s);
    case Execute(e, gateway, grant, actual) => QuietKeepsGates(w, s);
  }

  lemma {:induction false} RunKeepsGates(policy: Controller.Policy, bundleId: string, now: int, steps: seq<Step>)
    ensures GatesInv(Run(Begin(policy, bundleId, now), steps))
  {
    if steps != [] {
      RunKeepsGates(policy, bundleId, now, steps[..|steps| - 1]);
      RunKeepsInv(policy, bundleId, now, steps[..|steps| - 1]);
      NextKeepsGates(Run(Begin(policy, bundleId, now), steps[..|steps| - 1]), steps[|steps| - 1]);
    }
  }

  lemma ReachableGates(w: World)
    requires Reachable(w)
    ensures GatesInv(w)
  {
    var policy, bundleId, now, steps :| w == Run(Begin(policy, bundleId, now), steps);
    RunKeepsGates(policy, bundleId, now, steps);
  }
}
