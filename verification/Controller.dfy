/** The controller: permits, outcomes and policy epochs. Each synchronous block of a request
    handler is one function on the tables; `await`s separate them. */
module Controller {
  import opened Json
  import opened Canonical
  import Evidence

  datatype Policy = Policy(
    revision: string, allowedInstanceIds: set<string>, protectedInstanceIds: set<string>, allowSkipOsShutdown: bool)
  datatype Bundle = Bundle(bundleId: string, epoch: nat, policy: Policy)

  /** `policyRevision`. */
  function PolicyRevision(b: Bundle): string { Digits(b.epoch) + ":" + b.policy.revision }

  /** The revision text fixes the epoch and the revision of the policy. */
  lemma RevisionFixesEpoch(a: Bundle, b: Bundle)
    requires PolicyRevision(a) == PolicyRevision(b)
    ensures a.epoch == b.epoch && a.policy.revision == b.policy.revision
  {
    var x, y := ":" + a.policy.revision, ":" + b.policy.revision;
    assert PolicyRevision(a) == Digits(a.epoch) + x && PolicyRevision(b) == Digits(b.epoch) + y;
    DigitsPrefixFree(a.epoch, b.epoch, x, y);
    Cancel(":", a.policy.revision, b.policy.revision);
  }

  datatype PermitState = Active | Expired | Done
  datatype Permit = Permit(
    gatewayId: string, proposalId: string, contractId: string, epoch: nat, expiresAt: int, state: PermitState)
  datatype Outcome = Outcome(status: string, evidenceHash: Option<Evidence.Hash>)
  datatype OutcomeRow = OutcomeRow(
    gatewayId: string, proposalId: string, contractId: string, outcome: Outcome, observedAt: int)
  datatype AckRow = AckRow(epoch: nat, bundleId: string)

  datatype PermitRequest = PermitRequest(
    proposalId: string, contractId: string, policyVersion: string, instanceId: string,
    skipOsShutdown: bool, grantNotAfter: int)
  datatype OutcomeRequest = OutcomeRequest(
    permitId: string, proposalId: string, contractId: string, outcome: Outcome, observedAt: int)

  const PERMIT_TTL_MS := 5000

  datatype Tables = Tables(
    bundle: Bundle, acks: map<string, AckRow>, permits: map<string, Permit>,
    outcomes: map<string, OutcomeRow>, updatePending: bool)

  // ---- The synchronous blocks ----

  function PruneRow(p: Permit, now: int): Permit {
    if p.state.Active? && p.expiresAt <= now then p.(state := Expired) else p
  }

  function Prune(t: Tables, now: int): Tables {
    t.(permits := map id | id in t.permits :: PruneRow(t.permits[id], now))
  }

  predicate NoneActive(t: Tables) {
    forall id :: id in t.permits ==> !t.permits[id].state.Active?
  }

  /** The rows `SELECT count(*) ... WHERE state='active'` counts. */
  function ActiveIds(t: Tables): set<string> { set id | id in t.permits && t.permits[id].state.Active? }

  lemma ActiveIdsEmpty(t: Tables)
    ensures |ActiveIds(t)| == 0 <==> NoneActive(t)
  {
    assert forall id :: id in ActiveIds(t) <==> id in t.permits && t.permits[id].state.Active?;
  }

  /** The acknowledgement names the bundle in force. */
  predicate NamesCurrent(t: Tables, bundleId: string, epoch: nat, policyVersion: string) {
    bundleId == t.bundle.bundleId && epoch == t.bundle.epoch && policyVersion == PolicyRevision(t.bundle)
  }

  /** `POST /v1/ack`, after the body has arrived. */
  function Ack(t: Tables, gatewayId: string, bundleId: string, epoch: nat, policyVersion: string): Tables {
    if !NamesCurrent(t, bundleId, epoch, policyVersion) then t
    else t.(acks := t.acks[gatewayId := AckRow(t.bundle.epoch, t.bundle.bundleId)])
  }

  predicate PermitAllowed(t: Tables, r: PermitRequest, now: int) {
    && r.policyVersion == PolicyRevision(t.bundle) && r.grantNotAfter > now
    && r.instanceId in t.bundle.policy.allowedInstanceIds && r.instanceId !in t.bundle.policy.protectedInstanceIds
    && (r.skipOsShutdown ==> t.bundle.policy.allowSkipOsShutdown)
  }

  function PermitExpiry(r: PermitRequest, now: int): int {
    if r.grantNotAfter < now + PERMIT_TTL_MS then r.grantNotAfter else now + PERMIT_TTL_MS
  }

  /** `POST /v1/permit`, after the body has arrived; `permitId` is a fresh UUID. */
  function InsertPermit(t: Tables, gatewayId: string, r: PermitRequest, now: int, permitId: string): Tables {
    if !PermitAllowed(t, r, now) then t
    else t.(permits := t.permits[permitId :=
      Permit(gatewayId, r.proposalId, r.contractId, t.bundle.epoch, PermitExpiry(r, now), Active)])
  }

  predicate OutcomeMatches(t: Tables, gatewayId: string, r: OutcomeRequest) {
    r.permitId in t.permits && var row := t.permits[r.permitId];
      row.gatewayId == gatewayId && row.proposalId == r.proposalId && row.contractId == r.contractId
      && r.outcome.status in {"executed", "validated", "failed", "uncertain"}
  }

  datatype OutcomeReply = MISMATCH | CONFLICT | DUPLICATE | ACCEPTED

  function OutcomeReplyTo(t: Tables, gatewayId: string, r: OutcomeRequest): OutcomeReply {
    if !OutcomeMatches(t, gatewayId, r) then MISMATCH
    else if r.permitId in t.outcomes then
      if t.outcomes[r.permitId].outcome != r.outcome then CONFLICT else DUPLICATE
    else ACCEPTED
  }

  /** `POST /v1/outcome`, after the body has arrived. */
  function RecordOutcome(t: Tables, gatewayId: string, r: OutcomeRequest): Tables {
    if OutcomeReplyTo(t, gatewayId, r) != ACCEPTED then t
    else
      var row := t.permits[r.permitId];
      t.(permits := t.permits[r.permitId := if row.state.Active? then row.(state := Done) else row],
         outcomes := t.outcomes[r.permitId :=
           OutcomeRow(gatewayId, row.proposalId, row.contractId, r.outcome, r.observedAt)])
  }

  /** `POST /v1/policy`, after the body has been validated. */
  function BeginUpdate(t: Tables): Tables { t.(updatePending := true) }

  /** The `finally` of `POST /v1/policy` after an exception, and a controller that starts again. */
  function EndUpdate(t: Tables): Tables { t.(updatePending := false) }

  /** One evaluation of `while (active() > 0)`, and the activation when it exits. */
  function PollUpdate(t: Tables, policy: Policy, now: int, bundleId: string): Tables {
    var pruned := Prune(t, now);
    if !NoneActive(pruned) then pruned
    else pruned.(bundle := Bundle(bundleId, t.bundle.epoch + 1, policy), updatePending := false)
  }

  // ---- The handlers over the tables ----

  class PolicyController {
    var bundle: Bundle
    var acks: map<string, AckRow>
    var permits: map<string, Permit>
    var outcomes: map<string, OutcomeRow>
    var updatePending: bool

    function State(): Tables reads this { Tables(bundle, acks, permits, outcomes, updatePending) }

    constructor (initial: Policy, bundleId: string)
      ensures State() == Tables(Bundle(bundleId, 1, initial), map[], map[], map[], false)
    {
      bundle := Bundle(bundleId, 1, initial);
      acks, permits, outcomes, updatePending := map[], map[], map[], false;
    }

    method PruneExpired(now: int)
      modifies this`permits
      ensures State() == Prune(old(State()), now)
    {
      var todo, rows := permits.Keys, permits;
      while todo != {}
        invariant todo <= rows.Keys && permits.Keys == rows.Keys
        invariant forall id :: id in rows ==> permits[id] == if id in todo then rows[id] else PruneRow(rows[id], now)
      {
        var id :| id in todo;
        if permits[id].state.Active? && permits[id].expiresAt <= now {
          permits := permits[id := permits[id].(state := Expired)];
        }
        todo := todo - {id};
      }
    }

    method CountActive(now: int) returns (n: nat)
      modifies this`permits
      ensures State() == Prune(old(State()), now)
      ensures n == |ActiveIds(State())|
      ensures n == 0 <==> NoneActive(State())
    {
      PruneExpired(now);
      n := |ActiveIds(State())|;
      ActiveIdsEmpty(State());
    }

    method HandleAck(gatewayId: string, bundleId: string, epoch: nat, policyVersion: string) returns (accepted: bool)
      modifies this`acks
      ensures State() == Ack(old(State()), gatewayId, bundleId, epoch, policyVersion)
      ensures accepted <==> NamesCurrent(old(State()), bundleId, epoch, policyVersion)
      ensures accepted ==> gatewayId in acks && acks[gatewayId] == AckRow(bundle.epoch, bundle.bundleId)
      ensures !accepted ==> acks == old(acks)
    {
      if bundleId != bundle.bundleId || epoch != bundle.epoch || policyVersion != PolicyRevision(bundle) {
        return false;
      }
      acks := acks[gatewayId := AckRow(bundle.epoch, bundle.bundleId)];
      return true;
    }

    method HandlePermit(gatewayId: string, r: PermitRequest, now: int, permitId: string)
      returns (expiresAt: Option<int>)
      requires permitId !in permits
      modifies this`permits
      ensures State() == InsertPermit(old(State()), gatewayId, r, now, permitId)
      ensures expiresAt.Some? <==> permitId in permits
      ensures expiresAt.Some? ==>
        permits[permitId].expiresAt == expiresAt.value && now < expiresAt.value <= now + PERMIT_TTL_MS
        && expiresAt.value <= r.grantNotAfter
    {
      if !PermitAllowed(State(), r, now) { return None; }
      var expiry := if r.grantNotAfter < now + PERMIT_TTL_MS then r.grantNotAfter else now + PERMIT_TTL_MS;
      permits := permits[permitId := Permit(gatewayId, r.proposalId, r.contractId, bundle.epoch, expiry, Active)];
      return Some(expiry);
    }

    method HandleOutcome(gatewayId: string, r: OutcomeRequest) returns (reply: OutcomeReply)
      modifies this`permits, this`outcomes
      ensures State() == RecordOutcome(old(State()), gatewayId, r)
      ensures reply == OutcomeReplyTo(old(State()), gatewayId, r)
      ensures reply in {DUPLICATE, ACCEPTED} ==> r.permitId in outcomes && outcomes[r.permitId].outcome == r.outcome
    {
      if !OutcomeMatches(State(), gatewayId, r) { return MISMATCH; }
      if r.permitId in outcomes {
        return if outcomes[r.permitId].outcome != r.outcome then CONFLICT else DUPLICATE;
      }
      var row := permits[r.permitId];
      if row.state.Active? { permits := permits[r.permitId := row.(state := Done)]; }
      assert !row.state.Active? ==> permits == permits[r.permitId := row];
      outcomes := outcomes[r.permitId :=
        OutcomeRow(gatewayId, row.proposalId, row.contractId, r.outcome, r.observedAt)];
      return ACCEPTED;
    }

    method BeginPolicyUpdate()
      modifies this`updatePending
      ensures State() == BeginUpdate(old(State()))
    {
      updatePending := true;
    }

    /** The exception of a poll or of the signing: the flag falls, and the policy stays. */
    method FailPolicyUpdate()
      modifies this`updatePending
      ensures State() == EndUpdate(old(State())) && bundle == old(bundle)
    {
      updatePending := false;
    }

    method PollPolicyUpdate(policy: Policy, now: int, bundleId: string) returns (activated: bool)
      modifies this`permits, this`bundle, this`updatePending
      ensures State() == PollUpdate(old(State()), policy, now, bundleId)
      ensures activated <==> bundle.epoch == old(bundle.epoch) + 1
      ensures activated ==> NoneActive(State()) && bundle.policy == policy && !updatePending
      ensures !activated ==> bundle == old(bundle) && updatePending == old(updatePending)
    {
      var n := CountActive(now);
      if n > 0 { return false; }
      bundle := Bundle(bundleId, bundle.epoch + 1, policy);
      updatePending := false;
      return true;
    }
  }
}
