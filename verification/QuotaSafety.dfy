/** Sliding-window safety over every run: no window ever holds more than its limit,
    however reservations, starts, completions and cancellations interleave. */
module QuotaSafety {
  import opened Json
  import opened Evidence
  import opened Log
  import opened Index
  import opened Temporal

  /** The shared log and the trusted clock. */
  datatype World = World(log: Events, now: int)

  /** A reservation committed by `reserve`: admissible, stamped with the clock, for a fresh proposal. */
  ghost predicate Reserves(rules: seq<Rule>, log: Events, input: EventInput, now: int) {
    && Accepts(log, input) && input.kind.ExecutionReserved? && input.timestamp == now
    && input.intentId == input.payload.intent.id && input.intentId !in Latest(log)
    && Admissible(rules, input.payload.intent, Latest(log), now)
  }

  /** Any other accepted event, stamped at some moment that is not in the future; execution
      events only for proposals that have a trace. */
  predicate Records(log: Events, input: EventInput, now: int) {
    && Accepts(log, input) && !input.kind.ExecutionReserved? && input.timestamp <= now
    && (ProjectTrace(NextEvent(log, input)).Some? ==> input.intentId in Latest(log))
  }

  ghost predicate Next(rules: seq<Rule>, w: World, w': World) {
    || (w'.log == w.log && w.now <= w'.now)
    || (w'.now == w.now && exists input :: Appends(rules, w, w', input))
  }

  ghost predicate Appends(rules: seq<Rule>, w: World, w': World, input: EventInput) {
    && w'.log == w.log + [NextEvent(w.log, input)]
    && (Reserves(rules, w.log, input, w.now) || Records(w.log, input, w.now))
  }

  ghost predicate Run(rules: seq<Rule>, run: seq<World>) {
    && run != [] && run[0].log == []
    && forall i :: 0 < i < |run| ==> Next(rules, run[i - 1], run[i])
  }

  /** The groups a rule distinguishes. */
  predicate GroupKind(rule: Rule, g: Group) {
    match rule.scope
    case ACTOR => g.ActorGroup?
    case GLOBAL => g.Everyone?
    case RESOURCE => g.ResourceGroup?
  }

  /** A configured quota or rate rule. */
  predicate Budgeted(rules: seq<Rule>, k: int) { 0 <= k < |rules| && ValidRule(rules[k]) && !rules[k].Preceding? }

  predicate Stamped(trace: Trace, now: int) {
    forall p :: p in trace ==> trace[p].timestamp <= now
  }

  /** Every record a quota weighs has a metric of its own intent. */
  predicate Measured(rule: Rule, trace: Trace) {
    rule.Quota? ==>
      forall p :: p in trace && trace[p].action == rule.target ==> RequestedAmount(rule, trace[p].intent).Some?
  }

  ghost predicate Bounded(rule: Rule, trace: Trace)
    requires !rule.Preceding?
  {
    forall g, t :: GroupKind(rule, g) ==> Used(rule, g, t, trace) <= rule.limit
  }

  ghost predicate Safe(rules: seq<Rule>, w: World) {
    && Legal(w.log) && Stamped(Latest(w.log), w.now)
    && forall k :: Budgeted(rules, k) ==> Measured(rules[k], Latest(w.log)) && Bounded(rules[k], Latest(w.log))
  }

  /** A metric readable on the proposal is the same on every record of that intent. */
  lemma AmountOfIntent(rule: Rule, r: Record)
    requires rule.Quota? && ValidPath(rule.metricPath) && RequestedAmount(rule, r.intent).Some?
    ensures RecordAmount(rule, r) == RequestedAmount(rule, r.intent)
  {
    var path, bare := rule.metricPath, Obj(map["intent" := IntentJson(r.intent)]);
    LookupUndefined(path[1..]);
    assert Member(bare, path[0]).Some? && path[0] == "intent";
    assert "result"[0] == 'r' && "intent"[0] == 'i';
    assert Member(RecordJson(r), "intent") == Some(IntentJson(r.intent)) == Member(bare, "intent");
  }

  lemma {:induction false} UsedMonotone(rule: Rule, g: Group, t: int, u: int, trace: Trace)
    requires !rule.Preceding?
    requires forall p :: p in trace ==> Weight(rule, g, t, trace[p]) <= Weight(rule, g, u, trace[p])
    ensures Used(rule, g, t, trace) <= Used(rule, g, u, trace)
    decreases |trace|
  {
    if trace != map[] { UsedMonotone(rule, g, t, u, trace - {Pick(trace)}); }
  }

  lemma UsedUpdate(rule: Rule, g: Group, t: int, trace: Trace, r: Record)
    requires !rule.Preceding?
    ensures Used(rule, g, t, trace[r.proposalId := r]) ==
      Weight(rule, g, t, r) + Used(rule, g, t, trace)
      - if r.proposalId in trace then Weight(rule, g, t, trace[r.proposalId]) else 0
  {
    var trace' := trace[r.proposalId := r];
    UsedSplit(rule, g, t, trace', r.proposalId);
    assert trace' - {r.proposalId} == trace - {r.proposalId};
    if r.proposalId in trace {
      UsedSplit(rule, g, t, trace, r.proposalId);
    } else {
      assert trace - {r.proposalId} == trace;
    }
  }

  /** Starting or finishing never adds weight to any window: the intent is the same and
      the new stamp is not before the old one. */
  lemma TransitionNeverAdds(rule: Rule, g: Group, t: int, before: Record, after: Record)
    requires !rule.Preceding? && ValidRule(rule) && GroupKind(rule, g)
    requires TransitionAllowed(Some(before), after) && !after.status.RESERVED?
    requires before.action == after.action && before.actorId == after.actorId
    requires rule.Quota? && before.action == rule.target ==> RequestedAmount(rule, before.intent).Some?
    ensures Weight(rule, g, t, after) <= Weight(rule, g, t, before)
  {
    if rule.Quota? && before.action == rule.target {
      AmountOfIntent(rule, before);
      AmountOfIntent(rule, after);
    }
  }

  /** An admitted reservation fits into every window, past, present and future. */
  lemma ReservationFits(rule: Rule, g: Group, t: int, trace: Trace, now: int, r: Record)
    requires ValidRule(rule) && !rule.Preceding? && GroupKind(rule, g)
    requires Stamped(trace, now) && Bounded(rule, trace)
    requires r.proposalId !in trace && r.proposalId == r.intent.id && r.timestamp == now && r.status.RESERVED?
    requires r.action == r.intent.action && r.actorId == r.intent.actor
    requires r.action == rule.target ==> RuleHolds(rule, r.intent, trace, now)
    ensures Used(rule, g, t, trace[r.proposalId := r]) <= rule.limit
  {
    UsedUpdate(rule, g, t, trace, r);
    if Weight(rule, g, t, r) > 0 {
      assert g == GroupOf(rule, r.intent) && t >= now;
      assert trace - {r.intent.id} == trace;
      UsedMonotone(rule, g, t, now, trace);
      if rule.Quota? { AmountOfIntent(rule, r); }
    }
  }

  lemma ReservationKeepsSafe(rules: seq<Rule>, log: Events, input: EventInput, now: int)
    requires Safe(rules, World(log, now)) && Reserves(rules, log, input, now)
    ensures Safe(rules, World(log + [NextEvent(log, input)], now))
  {
    LegalAppend(log, input);
    var trace, r := Latest(log), ProjectTrace(NextEvent(log, input)).value;
    var trace' := trace[r.proposalId := r];
    forall i | Budgeted(rules, i) ensures Measured(rules[i], trace') && Bounded(rules[i], trace') {
      var rule := rules[i];
      assert RuleAgrees(rule, r.intent, trace, now);
      forall g, t | GroupKind(rule, g) ensures Used(rule, g, t, trace') <= rule.limit {
        ReservationFits(rule, g, t, trace, now, r);
      }
    }
  }

  lemma RecordKeepsSafe(rules: seq<Rule>, log: Events, input: EventInput, now: int)
    requires Safe(rules, World(log, now)) && Records(log, input, now)
    ensures Safe(rules, World(log + [NextEvent(log, input)], now))
  {
    LegalAppend(log, input);
    LatestKeyed(log);
    var trace, projected := Latest(log), ProjectTrace(NextEvent(log, input));
    if projected.Some? {
      var r := projected.value;
      var trace' := trace[r.proposalId := r];
      forall i | Budgeted(rules, i) ensures Measured(rules[i], trace') && Bounded(rules[i], trace') {
        var rule := rules[i];
        forall g, t | GroupKind(rule, g) ensures Used(rule, g, t, trace') <= rule.limit {
          UsedUpdate(rule, g, t, trace, r);
          TransitionNeverAdds(rule, g, t, trace[r.proposalId], r);
        }
      }
    }
  }

  lemma EmptyIsSafe(rules: seq<Rule>, w: World)
    requires w.log == []
    ensures Safe(rules, w)
  {
    forall k | Budgeted(rules, k) ensures Bounded(rules[k], map[]) {
      var rule := rules[k];
      forall g, t | GroupKind(rule, g) ensures Used(rule, g, t, map[]) <= rule.limit {
        UsedNothing(rule, g, t, map[]);
      }
    }
  }

  lemma StepKeepsSafe(rules: seq<Rule>, w: World, w': World)
    requires Safe(rules, w) && Next(rules, w, w')
    ensures Safe(rules, w')
  {
    if !(w'.log == w.log && w.now <= w'.now) {
      var input :| Appends(rules, w, w', input);
      if Reserves(rules, w.log, input, w.now) {
        ReservationKeepsSafe(rules, w.log, input, w.now);
      } else {
        RecordKeepsSafe(rules, w.log, input, w.now);
      }
    }
  }

  lemma {:induction false} EveryWorldIsSafe(rules: seq<Rule>, run: seq<World>, i: nat)
    requires Run(rules, run) && i < |run|
    ensures Safe(rules, run[i])
  {
    if i == 0 {
      EmptyIsSafe(rules, run[0]);
    } else {
      EveryWorldIsSafe(rules, run, i - 1);
      StepKeepsSafe(rules, run[i - 1], run[i]);
    }
  }

  /** In every state of every run, for every quota or rate rule, every group and every window
      end, past or future, the budget is kept; and no quota record is counted without its metric. */
  lemma NoWindowExceedsItsLimit(rules: seq<Rule>, run: seq<World>, i: nat, k: nat, g: Group, t: int)
    requires Run(rules, run) && i < |run| && Budgeted(rules, k) && GroupKind(rules[k], g)
    ensures Used(rules[k], g, t, Latest(run[i].log)) <= rules[k].limit
    ensures var trace := Latest(run[i].log);
      rules[k].Quota? ==>
        forall p :: p in trace && trace[p].action == rules[k].target ==> RecordAmount(rules[k], trace[p]).Some?
  {
    EveryWorldIsSafe(rules, run, i);
    var rule, trace := rules[k], Latest(run[i].log);
    if rule.Quota? {
      forall p | p in trace && trace[p].action == rule.target ensures RecordAmount(rule, trace[p]).Some? {
        AmountOfIntent(rule, trace[p]);
      }
    }
  }
}
