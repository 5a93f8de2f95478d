/** Reports of outcomes: each permit gets at most one, so the controller never sees a conflict. */
module DispatchReports {
  import opened Json
  import opened Evidence
  import opened Log
  import opened Controller
  import opened ControllerRun
  import opened Dispatch
  import opened DispatchSafety

  /** A proposal completes once. */
  lemma SoleCompletion(log: Events, id: string, a: bool, g: Hash, b: bool, h: Hash)
    requires Legal(log) && Completion(log, id, a, g) && Completion(log, id, b, h)
    ensures a == b && g == h
  {
    var i :| 0 <= i < |log| && log[i] == Event(g.body, g);
    var j :| 0 <= j < |log| && log[j] == Event(h.body, h);
    if i < j { EachStageOnce(log, i, j); } else if j < i { EachStageOnce(log, j, i); }
  }

  // ---- The invariant ----

  predicate ReportOk(w: World, r: OutcomeRequest) {
    && r.permitId in w.issued && w.issued[r.permitId] in w.execs
    && Past(w.execs[w.issued[r.permitId]], Good(r.outcome.status))
  }

  predicate Sent(w: World, id: string, row: OutcomeRow) {
    exists r :: r in w.reports && r.permitId == id && r.outcome == row.outcome
  }

  predicate StagesOk(w: World) { forall r :: r in w.reports ==> ReportOk(w, r) }

  predicate OnceOk(w: World) {
    forall r, s :: r in w.reports && s in w.reports && r.permitId == s.permitId ==> r == s
  }

  predicate OriginsOk(w: World) { forall id :: id in w.c.t.outcomes ==> Sent(w, id, w.c.t.outcomes[id]) }

  predicate ReportsInv(w: World) { StagesOk(w) && OnceOk(w) && OriginsOk(w) }

  // ---- Steps ----

  /** A report of this kind that the call may send now, citing the completion it has logged. */
  predicate MaySend(x: Exec, good: bool, r: OutcomeRequest) {
    && x.permit == Some(r.permitId) && Good(r.outcome.status) == good && !Past(x, good)
    && r.outcome.evidenceHash.Some?
    && r.outcome.evidenceHash ==
         (if good then x.completed else if x.caller.FailureLogged? then Some(x.caller.evidence) else None)
  }

  /** Only the two reporting steps send anything: one report, with the call past it for good. */
  predicate Sends(w: World, w': World, e: nat, good: bool, r: OutcomeRequest)
    requires e in w.execs
  {
    w'.reports == w.reports + {r} && MaySend(w.execs[e], good, r) && e in w'.execs && Past(w'.execs[e], good)
  }

  lemma SuccessSends(w: World, e: nat)
    requires e in w.execs
    ensures var w' := SuccessReported(w, e);
      w'.reports == w.reports || exists r :: Sends(w, w', e, true, r)
  {
    var x, w' := w.execs[e], SuccessReported(w, e);
    if x.pc.Logged? && x.permit.Some? && x.completed.Some? {
      assert Sends(w, w', e, true, OutcomeOf(x, x.permit.value, SuccessStatus(x), x.completed.value, w.c.now));
    }
  }

  lemma FailureSends(w: World, e: nat, definitive: bool)
    requires e in w.execs
    ensures var w' := FailureReported(w, e, definitive);
      w'.reports == w.reports || exists r :: Sends(w, w', e, false, r)
  {
    var x, w' := w.execs[e], FailureReported(w, e, definitive);
    if x.caller.FailureLogged? && x.permit.Some? && !x.finished {
      assert Sends(w, w', e, false,
        OutcomeOf(x, x.permit.value, FailureStatus(x, definitive), x.caller.evidence, w.c.now));
    }
  }

  /** A call about to report has sent no report about its permit: its two completions would clash. */
  lemma NothingSentYet(w: World, e: nat, good: bool, r: OutcomeRequest, s: OutcomeRequest)
    requires Legal(w.log) && e in w.execs && ExecOk(w, e) && MaySend(w.execs[e], good, r)
    requires ReportOk(w, s) && OutcomeOk(w, s.permitId, s.outcome)
    ensures s.permitId != r.permitId
  {
    var x := w.execs[e];
    if s.permitId == r.permitId {
      SoleCompletion(w.log, x.grant.body.proposalId, good, r.outcome.evidenceHash.value,
        Good(s.outcome.status), s.outcome.evidenceHash.value);
    }
  }

  lemma SendOnce(w: World, w': World, e: nat, good: bool, r: OutcomeRequest)
    requires Legal(w.log) && OutcomesOk(w) && StagesOk(w) && OnceOk(w)
    requires e in w.execs && ExecOk(w, e) && Sends(w, w', e, good, r)
    ensures OnceOk(w')
  {
    forall s | s in w.reports ensures s.permitId != r.permitId {
      assert ReportOk(w, s) && OutcomeOk(w, s.permitId, s.outcome);
      NothingSentYet(w, e, good, r, s);
    }
  }

  lemma SendStages(w: World, w': World, e: nat, good: bool, r: OutcomeRequest)
    requires StagesOk(w) && Grows(w, w') && w'.issued == w.issued
    requires e in w.execs && ExecOk(w, e) && Sends(w, w', e, good, r)
    ensures StagesOk(w')
  {
    forall s | s in w'.reports ensures ReportOk(w', s) { if s in w.reports { ReportStays(w, w', s); } }
  }

  lemma ReportStays(w: World, w': World, s: OutcomeRequest)
    requires Grows(w, w') && ReportOk(w, s)
    ensures ReportOk(w', s)
  {
  }

  lemma StagesStay(w: World, w': World)
    requires StagesOk(w) && Grows(w, w') && w'.reports == w.reports
    ensures StagesOk(w')
  {
    forall s | s in w'.reports ensures ReportOk(w', s) { ReportStays(w, w', s); }
  }

  lemma OriginsStay(w: World, w': World)
    requires OriginsOk(w) && w'.c == w.c && w.reports <= w'.reports
    ensures OriginsOk(w')
  {
    forall id | id in w'.c.t.outcomes ensures Sent(w', id, w'.c.t.outcomes[id]) {
      assert Sent(w, id, w.c.t.outcomes[id]);
    }
  }

  /** What a step of a call does to the reports. */
  lemma ActSends(w: World, e: nat, act: Act)
    requires e in w.execs
    ensures Acted(w, e, act).reports == w.reports || exists r :: Sends(w, Acted(w, e, act), e, act.Report?, r)
  {
    match act
    case Report => SuccessSends(w, e);
    case ReportFailure(definitive) => FailureSends(w, e, definitive);
    case _ =>
  }

  lemma ActKeeps(w: World, e: nat, act: Act)
    requires Legal(w.log) && OutcomesOk(w) && ReportsInv(w) && e in w.execs && ExecOk(w, e)
    requires Aside(w, Acted(w, e, act))
    ensures ReportsInv(Acted(w, e, act))
  {
    var w' := Acted(w, e, act);
    ActSends(w, e, act);
    if w'.reports == w.reports {
      StagesStay(w, w');
    } else {
      var r :| Sends(w, w', e, act.Report?, r);
      SendOnce(w, w', e, act.Report?, r);
      SendStages(w, w', e, act.Report?, r);
    }
    OriginsStay(w, w');
  }

  /** The controller learns an outcome only from a report that was sent. */
  lemma OutcomeOrigin(w: World, s: Step, id: string)
    requires !s.Acts? && id in Next(w, s).c.t.outcomes && id !in w.c.t.outcomes
    ensures Sent(w, id, Next(w, s).c.t.outcomes[id])
  {
    match s
    case Controls(a) => NewRows(w.c, a);
    case PermitGated(h, e) => NewRows(w.c, GatePermit(h));
    case PermitArrives(e, permitId) => if Gated(w, e) { NewRows(w.c, PermitBodyOf(w, e, permitId)); }
    case PermitLost(e) => if Gated(w, e) { NewRows(w.c, Drop(w.gates[e].handler)); }
    case ControllerRestarts => NewRows(w.c, Restart);
    case _ =>
  }

  lemma OthersKeep(w: World, s: Step)
    requires DispatchSafety.Inv(w) && ReportsInv(w) && !s.Acts?
    ensures ReportsInv(Next(w, s))
  {
    var w' := Next(w, s);
    OtherStep(w, s);
    if OthersMove(w, w') {
      OthersMoveGrows(w, w');
      StagesStay(w, w');
      OriginsKept(w, w', s);
    }
  }

  lemma OriginsKept(w: World, w': World, s: Step)
    requires OriginsOk(w) && LedgerGrows(w.c.t, w'.c.t) && !s.Acts? && w' == Next(w, s) && w'.reports == w.reports
    ensures OriginsOk(w')
  {
    forall id | id in w'.c.t.outcomes ensures Sent(w', id, w'.c.t.outcomes[id]) {
      if id in w.c.t.outcomes { assert Sent(w, id, w.c.t.outcomes[id]); } else { OutcomeOrigin(w, s, id); }
    }
  }

  lemma CallKeepsReports(w: World, e: nat, act: Act)
    requires ReportsInv(w) && OutcomesOk(w) && Legal(w.log)
    requires e in w.execs && ExecOk(w, e) && UnlockOk(w.log, w.c.now, w.execs[e])
    ensures ReportsInv(Acted(w, e, act))
  {
    ActedKeeps(w, e, act);
    ActKeeps(w, e, act);
  }

  lemma NextKeepsReports(w: World, s: Step)
    requires DispatchSafety.Inv(w) && ReportsInv(w)
    ensures ReportsInv(Next(w, s))
  {
    if !s.Acts? {
      OthersKeep(w, s);
    } else if s.exec in w.execs {
      assert ExecOk(w, s.exec) && UnlockOk(w.log, w.c.now, w.execs[s.exec]);
      CallKeepsReports(w, s.exec, s.act);
    }
  }

  lemma {:induction false} RunReports(policy: Controller.Policy, bundleId: string, now: int, steps: seq<Step>)
    ensures ReportsInv(Run(Begin(policy, bundleId, now), steps))
  {
    if steps != [] {
      RunReports(policy, bundleId, now, steps[..|steps| - 1]);
      RunKeepsInv(policy, bundleId, now, steps[..|steps| - 1]);
      NextKeepsReports(Run(Begin(policy, bundleId, now), steps[..|steps| - 1]), steps[|steps| - 1]);
    }
  }

  lemma ReachableReports(w: World)
    requires Reachable(w)
    ensures ReportsInv(w)
  {
    var policy, bundleId, now, steps :| w == Run(Begin(policy, bundleId, now), steps);
    RunReports(policy, bundleId, now, steps);
  }

  // ---- Main results ----

  /** Each permit gets at most one report over a whole run. */
  lemma OneReportPerPermit(w: World, r: OutcomeRequest, s: OutcomeRequest)
    requires Reachable(w) && r in w.reports && s in w.reports && r.permitId == s.permitId
    ensures r == s
  {
    ReachableReports(w);
  }

  /** So no report of a call is ever answered with a conflict, however often it arrives. */
  lemma NeverConflicts(w: World, gatewayId: string, r: OutcomeRequest)
    requires Reachable(w) && r in w.reports
    ensures OutcomeReplyTo(w.c.t, gatewayId, r) != CONFLICT
  {
    ReachableReports(w);
    if r.permitId in w.c.t.outcomes { assert Sent(w, r.permitId, w.c.t.outcomes[r.permitId]); }
  }
}
