/** Every interleaving of the controller's handlers: which permits are active, which policy
    is in force, and when a drain ends. */
module ControllerRun {
  import opened Json
  import opened Controller

  /** `gatedPermits` and `gatedUpdates` passed the pending check and wait for their body;
      `draining` updates poll. `lastInsert` and `activated` record the past. */
  datatype Control = Control(
    t: Tables, now: int, gatedPermits: set<nat>, gatedUpdates: set<nat>, draining: map<nat, Policy>,
    lastInsert: int, activated: seq<Policy>)

  datatype Action =
    | Tick(ms: nat)
    | ReadStatus
    | AckBody(gatewayId: string, bundleId: string, epoch: nat, policyVersion: string)
    | GatePermit(h: nat)
    | PermitBody(h: nat, gatewayId: string, request: PermitRequest, permitId: string)
    | OutcomeBody(gatewayId: string, report: OutcomeRequest)
    | GateUpdate(h: nat)
    | UpdateBody(h: nat, policy: Policy)
    | Poll(h: nat, bundleId: string)
    | Abandon(h: nat)
    | Restart
    | Drop(h: nat)

  function Start(policy: Policy, bundleId: string, now: int): Control {
    Control(Tables(Bundle(bundleId, 1, policy), map[], map[], map[], false), now, {}, {}, map[], now, [policy])
  }

  predicate Activates(c: Control) { NoneActive(Prune(c.t, c.now)) }

  /** One step; an action that is not enabled changes nothing. `Drop` is a body that never parses,
      `Abandon` an update that throws while it drains or signs, and `Restart` a controller that
      starts again from its tables. */
  function Do(c: Control, a: Action): Control {
    match a
    case Tick(ms) => c.(now := c.now + ms)
    case ReadStatus => c.(t := Prune(c.t, c.now))
    case AckBody(g, b, e, v) => c.(t := Ack(c.t, g, b, e, v))
    case GatePermit(h) => if c.t.updatePending then c else c.(gatedPermits := c.gatedPermits + {h})
    case PermitBody(h, g, r, id) =>
      if h !in c.gatedPermits || id in c.t.permits then c
      else c.(t := InsertPermit(c.t, g, r, c.now, id), gatedPermits := c.gatedPermits - {h},
              lastInsert := if PermitAllowed(c.t, r, c.now) then c.now else c.lastInsert)
    case OutcomeBody(g, r) => c.(t := RecordOutcome(c.t, g, r))
    case GateUpdate(h) => if c.t.updatePending then c else c.(gatedUpdates := c.gatedUpdates + {h})
    case UpdateBody(h, policy) =>
      if h !in c.gatedUpdates || h in c.draining then c
      else c.(t := BeginUpdate(c.t), gatedUpdates := c.gatedUpdates - {h}, draining := c.draining[h := policy])
    case Poll(h, bundleId) =>
      if h !in c.draining then c
      else
        var t' := PollUpdate(c.t, c.draining[h], c.now, bundleId);
        if Activates(c) then c.(t := t', activated := c.activated + [c.draining[h]], draining := c.draining - {h})
        else c.(t := t')
    case Abandon(h) => if h in c.draining then c.(t := EndUpdate(c.t), draining := c.draining - {h}) else c
    case Restart => c.(t := EndUpdate(c.t), gatedPermits := {}, gatedUpdates := {}, draining := map[])
    case Drop(h) => c.(gatedPermits := c.gatedPermits - {h}, gatedUpdates := c.gatedUpdates - {h})
  }

  function DoAll(c: Control, actions: seq<Action>): Control {
    if actions == [] then c else Do(DoAll(c, actions[..|actions| - 1]), actions[|actions| - 1])
  }

  // ---- The invariant ----

  predicate RowOk(c: Control, id: string)
    requires id in c.t.permits
  {
    var p := c.t.permits[id];
    && p.epoch <= c.t.bundle.epoch
    && (p.state.Active? ==>
         p.epoch == c.t.bundle.epoch && p.expiresAt <= c.lastInsert + PERMIT_TTL_MS && id !in c.t.outcomes)
    && (p.state.Expired? ==> p.expiresAt <= c.now)
    && (p.state.Done? ==> id in c.t.outcomes)
  }

  /** The pending flag stands for an update that is still draining. */
  predicate PendingOk(c: Control) { c.t.updatePending ==> c.draining != map[] }

  predicate Inv(c: Control) {
    && (forall id :: id in c.t.permits ==> RowOk(c, id))
    && c.t.outcomes.Keys <= c.t.permits.Keys
    && c.lastInsert <= c.now && PendingOk(c)
    && c.activated != [] && c.t.bundle.epoch == |c.activated| && c.t.bundle.policy == c.activated[|c.activated| - 1]
    && (forall g :: g in c.t.acks ==> c.t.acks[g].epoch <= c.t.bundle.epoch)
  }

  lemma DoKeepsInv(c: Control, a: Action)
    requires Inv(c)
    ensures Inv(Do(c, a))
  {
    forall id | id in Do(c, a).t.permits ensures RowOk(Do(c, a), id) { RowStep(c, a, id); }
    PendingStep(c, a);
  }

  lemma PendingStep(c: Control, a: Action)
    requires PendingOk(c)
    ensures PendingOk(Do(c, a))
  {
    if a.UpdateBody? && Do(c, a) != c { assert a.h in Do(c, a).draining; }
  }

  /** In every reachable state every active permit carries the current bundle's epoch, and the
      epoch counts the activations, the last of which is in force. */
  lemma {:induction false} ActivePermitsAreCurrent(policy: Policy, bundleId: string, now: int, actions: seq<Action>)
    ensures Inv(DoAll(Start(policy, bundleId, now), actions))
  {
    if actions != [] {
      ActivePermitsAreCurrent(policy, bundleId, now, actions[..|actions| - 1]);
      DoKeepsInv(DoAll(Start(policy, bundleId, now), actions[..|actions| - 1]), actions[|actions| - 1]);
    }
  }

  // ---- What one step may change ----

  /** The update `h` is given up without an activation. */
  predicate GivesUp(a: Action, h: nat) { a == Abandon(h) || a.Restart? }

  /** The bundle changes only by an activation: one epoch up, to the policy of a drained update.
      An update stops draining by its activation, or because it is given up and changes nothing. */
  lemma EpochStep(c: Control, a: Action)
    ensures var c' := Do(c, a);
      || (c'.t.bundle == c.t.bundle && c'.activated == c.activated
          && (forall h :: h in c.draining && !GivesUp(a, h) ==> h in c'.draining && c'.draining[h] == c.draining[h])
          && (c.t.updatePending && !c'.t.updatePending ==> a.Abandon? || a.Restart?))
      || (a.Poll? && a.h in c.draining && Activates(c)
          && c'.t.bundle == Bundle(a.bundleId, c.t.bundle.epoch + 1, c.draining[a.h])
          && c'.activated == c.activated + [c.draining[a.h]] && c'.draining == c.draining - {a.h})
  {
  }

  /** A permit keeps its identity, and never becomes active again. */
  predicate RowKept(p: Permit, p': Permit) {
    p'.(state := p.state) == p && (!p.state.Active? ==> p' == p)
  }

  /** Permits are kept, outcomes never change, and one epoch never names two bundles. */
  predicate LedgerGrows(t: Tables, t': Tables) {
    && (forall id :: id in t.permits ==> id in t'.permits && RowKept(t.permits[id], t'.permits[id]))
    && (forall id :: id in t.outcomes ==> id in t'.outcomes && t'.outcomes[id] == t.outcomes[id])
    && t.bundle.epoch <= t'.bundle.epoch
    && (t.bundle.epoch == t'.bundle.epoch ==> t.bundle == t'.bundle)
  }

  predicate RowStepOk(c: Control, c': Control, id: string) {
    && (id in c.t.permits ==> id in c'.t.permits && RowKept(c.t.permits[id], c'.t.permits[id]))
    && (id in c'.t.permits ==> RowOk(c', id))
  }

  lemma PollRow(c: Control, h: nat, bundleId: string, id: string)
    requires Inv(c)
    ensures RowStepOk(c, Do(c, Poll(h, bundleId)), id)
  {
    if id in c.t.permits { assert RowOk(c, id); }
    if h in c.draining && Activates(c) && id in c.t.permits { assert id in Prune(c.t, c.now).permits; }
  }

  lemma OutcomeRowStep(c: Control, gatewayId: string, report: OutcomeRequest, id: string)
    requires Inv(c)
    ensures RowStepOk(c, Do(c, OutcomeBody(gatewayId, report)), id)
  {
    if id in c.t.permits { assert RowOk(c, id); }
  }

  lemma PermitRowStep(c: Control, h: nat, gatewayId: string, request: PermitRequest, permitId: string, id: string)
    requires Inv(c)
    ensures RowStepOk(c, Do(c, PermitBody(h, gatewayId, request, permitId)), id)
  {
    if id in c.t.permits { assert RowOk(c, id); }
  }

  /** What one step makes of one permit. */
  lemma RowStep(c: Control, a: Action, id: string)
    requires Inv(c)
    ensures RowStepOk(c, Do(c, a), id)
  {
    if id in c.t.permits { assert RowOk(c, id); }
    match a
    case Poll(h, bundleId) => PollRow(c, h, bundleId, id);
    case OutcomeBody(g, r) => OutcomeRowStep(c, g, r, id);
    case PermitBody(h, g, r, permitId) => PermitRowStep(c, h, g, r, permitId, id);
    case _ =>
  }

  lemma OutcomeRows(c: Control, a: Action)
    ensures forall id :: id in c.t.outcomes ==> id in Do(c, a).t.outcomes && Do(c, a).t.outcomes[id] == c.t.outcomes[id]
  {
  }

  lemma LedgerStep(c: Control, a: Action)
    requires Inv(c)
    ensures LedgerGrows(c.t, Do(c, a).t)
  {
    OutcomeRows(c, a);
    EpochStep(c, a);
    forall id | id in c.t.permits ensures id in Do(c, a).t.permits && RowKept(c.t.permits[id], Do(c, a).t.permits[id]) {
      RowStep(c, a, id);
    }
  }

  /** The ledger over a whole run: one outcome per permit for good, and a permit with an
      outcome is never active again. */
  lemma {:induction false} OutcomesAreFinal(c: Control, actions: seq<Action>)
    requires Inv(c)
    ensures Inv(DoAll(c, actions)) && LedgerGrows(c.t, DoAll(c, actions).t)
    ensures forall id :: id in c.t.outcomes ==> !DoAll(c, actions).t.permits[id].state.Active?
  {
    if actions != [] {
      var before := DoAll(c, actions[..|actions| - 1]);
      OutcomesAreFinal(c, actions[..|actions| - 1]);
      DoKeepsInv(before, actions[|actions| - 1]);
      LedgerStep(before, actions[|actions| - 1]);
    }
    forall id | id in c.t.outcomes ensures !DoAll(c, actions).t.permits[id].state.Active? {
      assert RowOk(c, id) && RowOk(DoAll(c, actions), id);
    }
  }

  // ---- Draining ----

  /** Exactly the update `h` is in progress. */
  predicate OnlyUpdate(c: Control, h: nat) {
    c.t.updatePending && c.draining.Keys == {h} && c.gatedUpdates == {}
  }

  /** Once the last permit inserted has run out, the next poll of an update activates it. */
  lemma DrainEnds(c: Control, h: nat, bundleId: string)
    requires Inv(c) && h in c.draining && c.now >= c.lastInsert + PERMIT_TTL_MS
    ensures Do(c, Poll(h, bundleId)).t.bundle == Bundle(bundleId, c.t.bundle.epoch + 1, c.draining[h])
  {
    assert forall id :: id in c.t.permits ==> RowOk(c, id);
  }

  /** The policy drained next after `c` was `policy`. */
  predicate NextActivation(c: Control, c': Control, policy: Policy) {
    |c.activated| < |c'.activated| && c'.activated[|c.activated|] == policy
  }

  /** No further request has passed the gate, and each insertion has used one up. */
  predicate StillDraining(c: Control, c': Control, h: nat) {
    && OnlyUpdate(c', h) && c'.draining == c.draining && c'.activated == c.activated
    && c'.gatedPermits <= c.gatedPermits
    && (c'.lastInsert == c.lastInsert || c'.gatedPermits < c.gatedPermits)
  }

  lemma DrainStep(c: Control, h: nat, a: Action)
    requires OnlyUpdate(c, h)
    ensures NextActivation(c, Do(c, a), c.draining[h]) || StillDraining(c, Do(c, a), h) || GivesUp(a, h)
  {
  }

  /** Somewhere in the run the update is given up. */
  predicate GivenUp(actions: seq<Action>, h: nat) { exists i :: 0 <= i < |actions| && GivesUp(actions[i], h) }

  /** Over any run of a single pending update: it is the next policy activated, or it has been given
      up, or only requests gated before it inserted permits; and then a poll activates it as soon
      as `PERMIT_TTL_MS` have passed since the last of those insertions. */
  lemma {:induction false} DrainRun(c: Control, h: nat, actions: seq<Action>, bundleId: string)
    requires Inv(c) && OnlyUpdate(c, h)
    ensures var c' := DoAll(c, actions);
      || NextActivation(c, c', c.draining[h]) || GivenUp(actions, h)
      || (StillDraining(c, c', h)
          && (c'.now >= c'.lastInsert + PERMIT_TTL_MS ==>
               Do(c', Poll(h, bundleId)).t.bundle == Bundle(bundleId, c'.t.bundle.epoch + 1, c.draining[h])))
  {
    var c' := DoAll(c, actions);
    if actions != [] {
      var before, front, a := DoAll(c, actions[..|actions| - 1]), actions[..|actions| - 1], actions[|actions| - 1];
      DrainRun(c, h, front, bundleId);
      EpochStep(before, a);
      if StillDraining(c, before, h) { DrainStep(before, h, a); }
      if GivenUp(front, h) {
        var i :| 0 <= i < |front| && GivesUp(front[i], h);
        assert GivesUp(actions[i], h);
      }
    }
    OutcomesAreFinal(c, actions);
    if StillDraining(c, c', h) && c'.now >= c'.lastInsert + PERMIT_TTL_MS { DrainEnds(c', h, bundleId); }
  }
}
