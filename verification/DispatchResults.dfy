/** What holds in every run of the gateways and the controller. */
module DispatchResults {
  import opened Json
  import opened Evidence
  import opened Log
  import opened Store
  import opened Controller
  import opened ControllerRun
  import opened Dispatch
  import opened DispatchSafety

  // ---- Dispatch ----

  lemma OwnRedemption(w: World, e: nat, f: nat)
    requires Legal(w.log) && e in w.execs && f in w.execs && ExecOk(w, e) && ExecOk(w, f)
    requires w.execs[e].redeemedAt.Some? && w.execs[f].redeemedAt.Some?
    requires w.execs[e].redeemedAt.value < w.execs[f].redeemedAt.value
    ensures w.execs[e].grant.body.proposalId != w.execs[f].grant.body.proposalId
  {
    if w.execs[e].grant.body.proposalId == w.execs[f].grant.body.proposalId {
      EachStageOnce(w.log, w.execs[e].redeemedAt.value, w.execs[f].redeemedAt.value);
    }
  }

  /** Every proposal gets at most one adapter call, whatever the interleaving. */
  lemma AtMostOnceDispatch(w: World, i: nat, j: nat)
    requires Reachable(w) && i < j < |w.calls|
    ensures w.calls[i].proposalId != w.calls[j].proposalId
  {
    ReachableInv(w);
    assert CallOk(w, i) && CallOk(w, j);
    var e, f := w.calls[i].exec, w.calls[j].exec;
    assert ExecOk(w, e) && ExecOk(w, f);
    assert w.execs[e].redeemedAt != w.execs[f].redeemedAt;
    if w.execs[e].redeemedAt.value < w.execs[f].redeemedAt.value { OwnRedemption(w, e, f); }
    else { OwnRedemption(w, f, e); }
  }

  predicate Redeems(e: Event, id: string, grant: Contract) {
    e.body.input.kind.ExecutionStarted? && e.body.input.intentId == id && e.body.input.payload.contract == Some(grant)
  }

  /** The grant's redemption is logged, after the moment at which the grant unlocked. */
  predicate RedeemedAfter(log: Events, id: string, grant: Contract, m: Moment) {
    exists k :: 0 <= k < |log| && Redeems(log[k], id, grant) && UnlockedBefore(log, m, k)
  }

  /** Behind an adapter call stand the first event of the proposal, whose intent was admitted by
      this gateway for this caller and asks for just this operation; the grant recorded with its
      reservation; a past moment at which that grant unlocked for that intent, reserved and
      inside its window; and, no earlier in the log or on the clock, the grant's redemption. */
  predicate Backed(w: World, call: Call, x: Exec) {
    && x.intent.Some? && x.unlocked.Some? && x.gateway.gatewayId == OwnerOf(x.intent.value)
    && FirstIntent(w.log, call.proposalId) == x.intent && Admitted(x.intent.value) == Some(call.actual)
    && x.intent.value.actor == x.gateway.callerId && x.intent.value.delegatedBy == x.gateway.delegatedBy
    && Reserved(EventsOf(w.log, call.proposalId)) == Some(x.grant)
    && UnlockedAt(w.log, w.c.now, x.unlocked.value, x.gateway, x.grant, x.intent.value)
    && RedeemedAfter(w.log, call.proposalId, x.grant, x.unlocked.value)
  }

  function OwnerOf(intent: Intent): string { if intent.gatewayId.Some? then intent.gatewayId.value else "" }

  lemma CallsAreBacked(w: World, i: nat)
    requires Reachable(w) && i < |w.calls|
    ensures w.calls[i].exec in w.execs && Backed(w, w.calls[i], w.execs[w.calls[i].exec])
  {
    ReachableInv(w);
    assert CallOk(w, i) && ExecOk(w, w.calls[i].exec);
    var x := w.execs[w.calls[i].exec];
    assert UnlockOk(w.log, w.c.now, x);
    assert Redeems(w.log[x.redeemedAt.value], x.grant.body.proposalId, x.grant);
  }

  // ---- The epoch fence ----

  lemma LivePermit(w: World, e: nat, id: string)
    requires ControllerRun.Inv(w.c) && e in w.execs && ExecOk(w, e) && MayInvoke(w, e, Some(id))
    requires id in w.c.t.outcomes ==> OutcomeOk(w, id, w.c.t.outcomes[id].outcome)
    ensures w.c.t.permits[id].state.Active? && w.c.t.permits[id].epoch == w.c.t.bundle.epoch
  {
    assert RowOk(w.c, id);
  }

  /** The epoch fence: when an adapter call with a permit starts, the permit is active and carries
      the controller's current epoch, the only one the grant can name; the policy in force
      permits this very operation; and the grant has not run out. */
  lemma EpochFence(w: World, e: nat, id: string, b: Bundle)
    requires Reachable(w) && e in w.execs && MayInvoke(w, e, Some(id))
    ensures w.c.t.permits[id].state.Active? && w.c.t.permits[id].epoch == w.c.t.bundle.epoch
    ensures Permits(w.c.t.bundle, w.execs[e]) && w.c.now < w.execs[e].grant.body.bounds.notAfter
    ensures w.execs[e].grant.body.policyVersion == Some(PolicyRevision(b)) ==> b.epoch == w.c.t.bundle.epoch
  {
    ReachableInv(w);
    assert ExecOk(w, e) && IssuedOk(w, id);
    LivePermit(w, e, id);
    if w.execs[e].grant.body.policyVersion == Some(PolicyRevision(b)) { RevisionFixesEpoch(b, w.c.t.bundle); }
  }

  // ---- Outcomes ----

  /** Every outcome the controller holds cites a logged completion of that permit's proposal,
      successful exactly when the outcome says the operation was executed or validated. */
  lemma OutcomesMatchEvidence(w: World, id: string)
    requires Reachable(w) && id in w.c.t.outcomes
    ensures var outcome := w.c.t.outcomes[id].outcome;
      id in w.c.t.permits && outcome.evidenceHash.Some?
      && Completion(w.log, w.c.t.permits[id].proposalId, Good(outcome.status), outcome.evidenceHash.value)
  {
    ReachableInv(w);
    assert OutcomeOk(w, id, w.c.t.outcomes[id].outcome) && IssuedOk(w, id);
  }

  /** What a call's answer says is so. */
  predicate AnswerTrue(log: Events, x: Exec) {
    match x.caller
    case Settled(answer) =>
      && (answer.Executed? || answer.Validated? ==>
           x.invoked && x.completed.Some? && Completion(log, x.grant.body.proposalId, true, x.completed.value))
      && (answer.Uncertain? ==> x.invoked)
    case _ => true
  }

  /** A caller told that its call was executed or validated can rely on it: the adapter was
      called and returned, and its success is logged. One told `Uncertain` knows it was called. */
  lemma AnswersAreTrue(w: World, e: nat)
    requires Reachable(w) && e in w.execs
    ensures AnswerTrue(w.log, w.execs[e])
  {
    ReachableInv(w);
    assert ExecOk(w, e);
    AnswerFollows(w.log, w.execs[e]);
  }

  lemma AnswerFollows(log: Events, x: Exec)
    requires FlowOk(x) && FactsOk(log, x)
    ensures AnswerTrue(log, x)
  {
  }
}
