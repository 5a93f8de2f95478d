/** What an answer without an adapter call is worth: exactly when the adapter can still be called
    after the caller has been told that the call was rejected or failed. */
module DispatchAnswers {
  import opened Json
  import opened Evidence
  import opened Log
  import opened Store
  import opened Controller
  import opened ControllerRun
  import opened Dispatch
  import opened DispatchSafety
  import opened DispatchGates
  import opened DispatchFinality
  import opened DispatchProgress

  // ---- Exactly when the adapter can still be called ----

  /** A later state in which the adapter has been called by this call. */
  ghost predicate LaterCalled(w: World, e: nat) { exists steps :: WasCalled(Run(w, steps), e) }

  /** An unfinished call can still reach the adapter if and only if the condition holds. */
  lemma StillReachable(w: World, e: nat)
    requires Reachable(w) && InPlay(w, e)
    ensures LaterCalled(w, e) <==> CanStillCall(w, e)
  {
    ReachableInv(w);
    ReachableGates(w);
    assert ExecOk(w, e) && CallerOk(w, e) && (e in w.gates ==> GateOk(w, e));
    if CanStillCall(w, e) {
      var steps := CanStillCallDispatches(w, e);
      assert Run(w, steps).calls[|w.calls|].exec == e;
      assert WasCalled(Run(w, steps), e);
    } else if LaterCalled(w, e) {
      var steps :| WasCalled(Run(w, steps), e);
      RunStaysLost(w, steps, e);
      CalledIsInvoked(Run(w, steps), e);
    }
  }

  lemma CalledIsInvoked(w: World, e: nat)
    requires CallsOk(w) && e in w.execs && WasCalled(w, e)
    ensures w.execs[e].invoked
  {
    var i :| 0 <= i < |w.calls| && w.calls[i].exec == e;
    assert CallOk(w, i);
  }

  /** The caller has been told that its call was rejected or failed, and the adapter was not called. */
  predicate ToldOff(w: World, e: nat) {
    && e in w.execs && !w.execs[e].invoked
    && (w.execs[e].caller == Settled(RejectedRun) || w.execs[e].caller == Settled(FailedRun))
  }

  /** Such an answer is final unless the condition holds. */
  lemma AnswerIsFinalUnless(w: World, e: nat)
    requires Reachable(w) && ToldOff(w, e) && Wired(w.execs[e])
    ensures LaterCalled(w, e) <==> CanStillCall(w, e)
  {
    ReachableInv(w);
    assert ExecOk(w, e);
    StillReachable(w, e);
  }

  /** In particular it is final for a gateway with a dispatch authority whose identity lasts as long
      as the grant: when the timer fires the grant is over, and so is every permit under it. */
  lemma AuthorityAnswerIsFinal(w: World, e: nat)
    requires Reachable(w) && ToldOff(w, e) && w.execs[e].gateway.authority && w.execs[e].gateway.controlled
    requires w.execs[e].grant.body.bounds.notAfter <= w.execs[e].deadline
    ensures !LaterCalled(w, e)
  {
    ReachableInv(w);
    ReachableGates(w);
    assert ExecOk(w, e) && CallerOk(w, e);
    if e in w.gates && w.gates[e].Answered? { assert GateOk(w, e) && IssuedOk(w, w.gates[e].permitId); }
    GrantIsOver(w, e);
    AnswerIsFinalUnless(w, e);
  }

  lemma GrantIsOver(w: World, e: nat)
    requires e in w.execs && TimerOk(w.execs[e], w.c.now) && !w.execs[e].caller.Pending?
    requires w.execs[e].gateway.authority && w.execs[e].grant.body.bounds.notAfter <= w.execs[e].deadline
    requires e in w.gates && w.gates[e].Answered? && w.gates[e].permitId in w.c.t.permits ==>
      w.c.t.permits[w.gates[e].permitId].expiresAt <= w.execs[e].grant.body.bounds.notAfter
    ensures !CanStillCall(w, e)
  {
  }

  /** And for any gateway once the work has thrown. */
  lemma EndedWorkNeverDispatches(w: World, e: nat)
    requires Reachable(w) && InPlay(w, e) && w.execs[e].pc.Threw?
    ensures !LaterCalled(w, e)
  {
    StillReachable(w, e);
  }

  // ---- Answers given while the work goes on ----

  function Turns(w: World, e: nat, t: Turn): World { Next(w, Acts(e, Settle(t))) }

  lemma TurnTaken(w: World, e: nat, x: Exec, t: Turn)
    ensures Turns(Put(w, e, x), e, t) == Put(w, e, x.(caller := Turned(x, w.c.now, t)))
  {
  }

  /** The timer fires while the redemption is awaited. */
  function RejectedFrom(w: World, e: nat): World {
    Turns(Turns(Turns(w, e, Reject), e, Decide), e, Give(false))
  }

  lemma RejectsEarly(w: World, e: nat, x: Exec)
    requires x.pc.Redeeming? && x.caller.Pending? && !x.started && !x.invoked && x.deadline <= w.c.now
    ensures RejectedFrom(Put(w, e, x), e) == Put(w, e, x.(caller := Settled(RejectedRun)))
  {
    TurnTaken(w, e, x, Reject);
    TurnTaken(w, e, x.(caller := Deciding), Decide);
    TurnTaken(w, e, x.(caller := Answering), Give(false));
  }

  /** The timer fires before the adapter call, and the catch block records the failure. */
  function FailedFrom(w: World, e: nat, eventId: string): World {
    Turns(Next(Next(Turns(Turns(w, e, Reject), e, Decide), Acts(e, LogFailure(eventId))),
      Acts(e, ReportFailure(false))), e, Give(false))
  }

  lemma FailureTaken(w: World, e: nat, x: Exec, eventId: string)
    requires x.caller.Failing? && x.intent.Some?
    requires Accepts(w.log, CompletedInput(x, x.intent.value, false, w.c.now, eventId))
    ensures var input := CompletedInput(x, x.intent.value, false, w.c.now, eventId);
      Next(Put(w, e, x), Acts(e, LogFailure(eventId)))
        == Put(Logging(w, input), e, x.(caller := FailureLogged(NextEvent(w.log, input).currentHash)))
  {
    var input := CompletedInput(x, x.intent.value, false, w.c.now, eventId);
    assert FailureAppended(Put(w, e, x), e, input)
      == Put(Logging(w, input), e, x.(caller := FailureLogged(NextEvent(w.log, input).currentHash)));
  }

  lemma AnswerTaken(w: World, e: nat, x: Exec)
    requires x.caller.FailureLogged? && x.permit.None?
    ensures Next(Put(w, e, x), Acts(e, ReportFailure(false))) == Put(w, e, x.(caller := Answering))
  {
  }

  lemma FailsEarly(w: World, e: nat, x: Exec, eventId: string)
    requires x.pc.Asking? && x.caller.Pending? && x.started && !x.succeeded && !x.invoked && x.permit.None?
    requires x.deadline <= w.c.now
    requires x.intent.Some? && Accepts(w.log, CompletedInput(x, x.intent.value, false, w.c.now, eventId))
    ensures var input := CompletedInput(x, x.intent.value, false, w.c.now, eventId);
      FailedFrom(Put(w, e, x), e, eventId) == Put(Logging(w, input), e, x.(caller := Settled(FailedRun)))
  {
    var input := CompletedInput(x, x.intent.value, false, w.c.now, eventId);
    var h := NextEvent(w.log, input).currentHash;
    TurnTaken(w, e, x, Reject);
    TurnTaken(w, e, x.(caller := Deciding), Decide);
    FailureTaken(w, e, x.(caller := Failing), eventId);
    AnswerTaken(Logging(w, input), e, x.(caller := FailureLogged(h)));
    TurnTaken(Logging(w, input), e, x.(caller := Answering), Give(false));
  }
}
