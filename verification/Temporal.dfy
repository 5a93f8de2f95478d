/** `evaluateTemporalRules`: sliding-window quotas, rate limits and preceding-event rules. */
module Temporal {
  import opened Json
  import opened Evidence
  import opened Log
  import opened Index
  import opened Store

  const MAX_SAFE_INTEGER := 9007199254740991

  predicate SafeInteger(n: int) { -MAX_SAFE_INTEGER <= n <= MAX_SAFE_INTEGER }

  datatype Scope = ACTOR | GLOBAL | RESOURCE
  datatype Match = Match(currentPath: Path, historicalPath: Path)

  /** An absent resource path is the empty one; an absent predicate is constantly true. */
  datatype Rule =
    | Quota(target: string, windowMs: int, scope: Scope, resourcePath: Path, metricPath: Path, limit: int)
    | Rate(target: string, windowMs: int, scope: Scope, resourcePath: Path, limit: int)
    | Preceding(target: string, windowMs: int, scope: Scope, resourcePath: Path,
                required: string, matches: seq<Match>, matchPredicate: (Intent, Record) -> bool)

  /** `validateTemporalRule` does not throw. */
  predicate ValidRule(rule: Rule) {
    && rule.target != "" && SafeInteger(rule.windowMs) && rule.windowMs > 0
    && (rule.scope.RESOURCE? ==> ValidPath(rule.resourcePath))
    && match rule
       case Quota(_, _, _, _, metricPath, limit) => limit >= 0 && ValidPath(metricPath)
       case Rate(_, _, _, _, limit) => SafeInteger(limit) && limit >= 0
       case Preceding(_, _, _, _, required, matches, _) =>
         required != "" && forall m :: m in matches ==> ValidPath(m.currentPath) && ValidPath(m.historicalPath)
  }

  /** `metric`: a non-negative number, or an exception. */
  function Amount(v: Option<Json>): Option<nat> {
    if v.Some? && v.value.Num? && v.value.n >= 0 then Some(v.value.n) else None
  }

  function RecordAmount(rule: Rule, r: Record): Option<nat>
    requires rule.Quota?
  {
    Amount(Lookup(Some(RecordJson(r)), rule.metricPath))
  }

  function RequestedAmount(rule: Rule, i: Intent): Option<nat>
    requires rule.Quota?
  {
    Amount(Lookup(Some(Obj(map["intent" := IntentJson(i)])), rule.metricPath))
  }

  function QueryOf(rule: Rule, proposal: Intent, now: int): TraceQuery {
    TraceQuery(if rule.Preceding? then rule.required else rule.target,
      if rule.scope.ACTOR? then Some(proposal.actor) else None,
      now - rule.windowMs, now, !rule.Preceding?)
  }

  function Resource(rule: Rule, i: Intent): Option<Json> { Lookup(Some(i.payload), rule.resourcePath) }

  /** The records a rule looks at before its resource filter. */
  predicate Candidate(rule: Rule, proposal: Intent, trace: Trace, now: int, r: Record) {
    Current(trace, r) && MatchesQuery(r, QueryOf(rule, proposal, now)) && r.proposalId != proposal.id
  }

  predicate InScope(rule: Rule, proposal: Intent, r: Record) {
    rule.scope.RESOURCE? ==> Resource(rule, r.intent) == Resource(rule, proposal)
  }

  /** A source that satisfies a preceding-event rule at `now`. */
  predicate Sources(rule: Rule, proposal: Intent, trace: Trace, now: int, r: Record)
    requires rule.Preceding?
  {
    && Candidate(rule, proposal, trace, now, r) && InScope(rule, proposal, r) && r.status.SUCCESS?
    && (forall m :: m in rule.matches ==>
         var current := Lookup(Some(IntentJson(proposal)), m.currentPath);
         current.Some? && current == Lookup(Some(RecordJson(r)), m.historicalPath))
    && rule.matchPredicate(proposal, r)
  }

  // ---- Usage of a budget ----

  datatype Group = ActorGroup(actorId: string) | Everyone | ResourceGroup(resource: Option<Json>)

  function GroupOf(rule: Rule, i: Intent): Group {
    match rule.scope
    case ACTOR => ActorGroup(i.actor)
    case GLOBAL => Everyone
    case RESOURCE => ResourceGroup(Resource(rule, i))
  }

  predicate InGroup(rule: Rule, g: Group, r: Record) {
    match g
    case ActorGroup(a) => r.actorId == a
    case Everyone => true
    case ResourceGroup(v) => Resource(rule, r.intent) == v
  }

  /** What a record spends of the budget of a group in the window ending at `t`. */
  function Weight(rule: Rule, g: Group, t: int, r: Record): nat
    requires !rule.Preceding?
  {
    if r.action == rule.target && InGroup(rule, g, r) && r.timestamp <= t
      && ((r.status.SUCCESS? && r.timestamp > t - rule.windowMs) || Open(r))
    then Cost(rule, r)
    else 0
  }

  ghost function Pick(trace: Trace): (p: string)
    requires trace != map[]
    ensures p in trace
  {
    var p :| p in trace; p
  }

  /** Successes completed in (t - windowMs, t] plus open reservations stamped at or before t. */
  ghost function Used(rule: Rule, g: Group, t: int, trace: Trace): nat
    requires !rule.Preceding?
    decreases |trace|
  {
    if trace == map[] then 0
    else var p := Pick(trace); Weight(rule, g, t, trace[p]) + Used(rule, g, t, trace - {p})
  }

  lemma {:induction false} UsedSplit(rule: Rule, g: Group, t: int, trace: Trace, p: string)
    requires !rule.Preceding? && p in trace
    ensures Used(rule, g, t, trace) == Weight(rule, g, t, trace[p]) + Used(rule, g, t, trace - {p})
    decreases |trace|
  {
    var q := Pick(trace);
    if p != q {
      UsedSplit(rule, g, t, trace - {q}, p);
      UsedSplit(rule, g, t, trace - {p}, q);
      assert trace - {p} - {q} == trace - {q} - {p};
    }
  }

  lemma {:induction false} UsedNothing(rule: Rule, g: Group, t: int, trace: Trace)
    requires !rule.Preceding?
    requires forall p :: p in trace ==> Weight(rule, g, t, trace[p]) == 0
    ensures Used(rule, g, t, trace) == 0
    decreases |trace|
  {
    if trace != map[] {
      UsedNothing(rule, g, t, trace - {Pick(trace)});
    }
  }

  /** Adding up the weights of a duplicate-free list that holds every record with weight. */
  function Total(rule: Rule, g: Group, t: int, records: seq<Record>): nat
    requires !rule.Preceding?
  {
    if records == [] then 0
    else Total(rule, g, t, records[..|records| - 1]) + Weight(rule, g, t, records[|records| - 1])
  }

  lemma TotalStep(rule: Rule, g: Group, t: int, records: seq<Record>, i: nat)
    requires !rule.Preceding? && i < |records|
    ensures Total(rule, g, t, records[..i + 1]) == Total(rule, g, t, records[..i]) + Weight(rule, g, t, records[i])
  {
    assert records[..i + 1][..i] == records[..i];
  }

  lemma {:induction false} TotalIsUsed(rule: Rule, g: Group, t: int, records: seq<Record>, trace: Trace)
    requires !rule.Preceding? && Keyed(trace) && NoDuplicates(records)
    requires forall r :: r in records ==> Current(trace, r)
    requires forall p :: p in trace && trace[p] !in records ==> Weight(rule, g, t, trace[p]) == 0
    ensures Total(rule, g, t, records) == Used(rule, g, t, trace)
    decreases |records|
  {
    if records == [] {
      UsedNothing(rule, g, t, trace);
    } else {
      var front, last := records[..|records| - 1], records[|records| - 1];
      assert records == front + [last] && last in records;
      UsedSplit(rule, g, t, trace, last.proposalId);
      forall r | r in front ensures Current(trace - {last.proposalId}, r) {
        var i :| 0 <= i < |front| && front[i] == r;
        assert records[i] == r && r in records;
      }
      TotalIsUsed(rule, g, t, front, trace - {last.proposalId});
    }
  }

  // ---- Decisions ----

  /** The resource scope is readable on the proposal and on every candidate. */
  ghost predicate ScopeReadable(rule: Rule, proposal: Intent, trace: Trace, now: int) {
    rule.scope.RESOURCE? ==>
      && Resource(rule, proposal).Some?
      && forall r :: Candidate(rule, proposal, trace, now, r) ==> Resource(rule, r.intent).Some?
  }

  ghost function Spent(rule: Rule, proposal: Intent, trace: Trace, now: int): nat
    requires !rule.Preceding?
  {
    Used(rule, GroupOf(rule, proposal), now, trace - {proposal.id})
  }

  /** One rule neither throws nor gives a reason to reject. */
  ghost predicate RuleHolds(rule: Rule, proposal: Intent, trace: Trace, now: int) {
    && ScopeReadable(rule, proposal, trace, now)
    && match rule
       case Preceding(_, _, _, _, _, _, _) => exists r :: Sources(rule, proposal, trace, now, r)
       case Rate(_, _, _, _, limit) => Spent(rule, proposal, trace, now) + 1 <= limit
       case Quota(_, _, _, _, _, limit) =>
         && RequestedAmount(rule, proposal).Some?
         && (forall r :: Candidate(rule, proposal, trace, now, r) && InScope(rule, proposal, r) ==>
              RecordAmount(rule, r).Some?)
         && Spent(rule, proposal, trace, now) + RequestedAmount(rule, proposal).value <= limit
  }

  predicate Targets(rule: Rule, proposal: Intent) { rule.target == proposal.action }

  /** `evaluateTemporalRules(...).allowed`. */
  ghost predicate Admissible(rules: seq<Rule>, proposal: Intent, trace: Trace, now: int) {
    && SafeInteger(now)
    && AllAgree(rules, proposal, trace, now)
  }

  ghost predicate RuleAgrees(rule: Rule, proposal: Intent, trace: Trace, now: int) {
    ValidRule(rule) && (Targets(rule, proposal) ==> RuleHolds(rule, proposal, trace, now))
  }

  /** What a record spends that passed the query and the resource filter. */
  function Cost(rule: Rule, r: Record): nat
    requires !rule.Preceding?
  {
    if rule.Rate? then 1 else if RecordAmount(rule, r).Some? then RecordAmount(rule, r).value else 0
  }

  /** A source no other source is newer than. */
  ghost predicate LatestSourceIs(rule: Rule, proposal: Intent, trace: Trace, now: int, r: Record)
    requires rule.Preceding?
  {
    && Sources(rule, proposal, trace, now, r)
    && forall s :: Sources(rule, proposal, trace, now, s) ==> s.timestamp <= r.timestamp
  }

  datatype Verdict =
    | Throws
    | Exceeded
    | Within(used: nat, requested: nat)
    | NoSource
    | Source(record: Record)

  predicate Passes(v: Verdict) { v.Within? || v.Source? }

  lemma WeightOfCandidate(rule: Rule, proposal: Intent, trace: Trace, now: int, r: Record)
    requires !rule.Preceding? && Keyed(trace) && Current(trace, r)
    ensures !(Candidate(rule, proposal, trace, now, r) && InScope(rule, proposal, r)) && r.proposalId != proposal.id ==>
      Weight(rule, GroupOf(rule, proposal), now, r) == 0
    ensures Candidate(rule, proposal, trace, now, r) && InScope(rule, proposal, r) ==>
      Weight(rule, GroupOf(rule, proposal), now, r) == Cost(rule, r)
  {
  }

  /** What the records a query answers with, filtered as the rule asks, add up to. */
  lemma TotalIsSpent(rule: Rule, proposal: Intent, trace: Trace, now: int, records: seq<Record>)
    requires !rule.Preceding? && Keyed(trace) && NoDuplicates(records)
    requires forall r :: r in records <==> Candidate(rule, proposal, trace, now, r) && InScope(rule, proposal, r)
    ensures Total(rule, GroupOf(rule, proposal), now, records) == Spent(rule, proposal, trace, now)
  {
    var others := trace - {proposal.id};
    forall p | p in others && others[p] !in records ensures Weight(rule, GroupOf(rule, proposal), now, others[p]) == 0 {
      WeightOfCandidate(rule, proposal, trace, now, others[p]);
    }
    TotalIsUsed(rule, GroupOf(rule, proposal), now, records, others);
  }

  /** The query, the removal of the proposal's own record and the resource filter;
      `None` when a resource cannot be read. */
  method RecordsInScope(rule: Rule, proposal: Intent, tx: Transaction, now: int) returns (r: Option<seq<Record>>)
    requires tx.Valid() && tx.active
    ensures r.Some? <==> ScopeReadable(rule, proposal, Latest(tx.View()), now)
    ensures r.Some? ==> NoDuplicates(r.value) && forall x ::
      x in r.value <==> Candidate(rule, proposal, Latest(tx.View()), now, x) && InScope(rule, proposal, x)
  {
    ghost var trace := Latest(tx.View());
    var answer := tx.QueryTrace(QueryOf(rule, proposal, now));
    var answered := answer.value;
    if rule.scope.RESOURCE? && Resource(rule, proposal).None? { return None; }
    var records := [];
    for i := 0 to |answered|
      invariant NoDuplicates(records)
      invariant forall x ::
        x in records <==> x in answered[..i] && x.proposalId != proposal.id && InScope(rule, proposal, x)
      invariant rule.scope.RESOURCE? ==>
        forall x :: x in answered[..i] && x.proposalId != proposal.id ==> Resource(rule, x.intent).Some?
    {
      var record := answered[i];
      assert answered[..i + 1] == answered[..i] + [record];
      if record.proposalId != proposal.id {
        if rule.scope.RESOURCE? && Resource(rule, record.intent).None? {
          assert Candidate(rule, proposal, trace, now, record);
          return None;
        }
        if InScope(rule, proposal, record) { records := records + [record]; }
      }
    }
    assert answered[..|answered|] == answered;
    return Some(records);
  }

  /** The sum of the metric over the records; `None` when it is not a non-negative number somewhere. */
  method SumOf(rule: Rule, g: Group, now: int, records: seq<Record>) returns (used: Option<nat>)
    requires !rule.Preceding?
    requires forall r :: r in records ==> Weight(rule, g, now, r) == Cost(rule, r)
    ensures used.Some? <==> rule.Quota? ==> forall r :: r in records ==> RecordAmount(rule, r).Some?
    ensures used.Some? ==> used.value == Total(rule, g, now, records)
  {
    var sum := 0;
    for i := 0 to |records|
      invariant sum == Total(rule, g, now, records[..i])
      invariant rule.Quota? ==> forall r :: r in records[..i] ==> RecordAmount(rule, r).Some?
    {
      TotalStep(rule, g, now, records, i);
      var record := records[i];
      assert record in records && records[..i + 1] == records[..i] + [record];
      if rule.Quota? && RecordAmount(rule, record).None? { return None; }
      sum := sum + if rule.Rate? then 1 else RecordAmount(rule, record).value;
    }
    assert records[..|records|] == records;
    return Some(sum);
  }

  /** The latest source; which of several with the same timestamp does not matter here. */
  method LatestSource(rule: Rule, proposal: Intent, ghost trace: Trace, now: int, records: seq<Record>)
    returns (source: Option<Record>)
    requires rule.Preceding?
    requires forall r :: r in records <==> Candidate(rule, proposal, trace, now, r) && InScope(rule, proposal, r)
    ensures source.Some? <==> exists r :: Sources(rule, proposal, trace, now, r)
    ensures source.Some? ==> LatestSourceIs(rule, proposal, trace, now, source.value)
  {
    source := None;
    for i := 0 to |records|
      invariant source.Some? ==> Sources(rule, proposal, trace, now, source.value)
      invariant forall r :: r in records[..i] && Sources(rule, proposal, trace, now, r) ==>
        source.Some? && r.timestamp <= source.value.timestamp
    {
      var record := records[i];
      assert records[..i + 1] == records[..i] + [record] && record in records;
      var fits := record.status.SUCCESS? && rule.matchPredicate(proposal, record)
        && forall m :: m in rule.matches ==>
          var current := Lookup(Some(IntentJson(proposal)), m.currentPath);
          current.Some? && current == Lookup(Some(RecordJson(record)), m.historicalPath);
      if fits && (source.None? || record.timestamp > source.value.timestamp) { source := Some(record); }
    }
    assert records[..|records|] == records;
  }

  /** One round of the loop over the rules, for a rule that targets the proposal. */
  method EvaluateRule(rule: Rule, proposal: Intent, tx: Transaction, now: int) returns (v: Verdict)
    requires tx.Valid() && tx.active && ValidRule(rule) && Targets(rule, proposal)
    ensures Passes(v) <==> RuleHolds(rule, proposal, Latest(tx.View()), now)
    ensures v.Source? ==> rule.Preceding? && LatestSourceIs(rule, proposal, Latest(tx.View()), now, v.record)
    ensures v.Within? ==> !rule.Preceding? && v.used == Spent(rule, proposal, Latest(tx.View()), now)
    ensures v.Within? ==> Some(v.requested) == if rule.Rate? then Some(1) else RequestedAmount(rule, proposal)
  {
    ghost var trace := Latest(tx.View());
    LatestKeyed(tx.View());
    var scoped := RecordsInScope(rule, proposal, tx, now);
    if scoped.None? { return Throws; }
    var records := scoped.value;
    if rule.Preceding? {
      var source := LatestSource(rule, proposal, trace, now, records);
      return if source.Some? then Source(source.value) else NoSource;
    }
    var g := GroupOf(rule, proposal);
    forall r | r in records ensures Weight(rule, g, now, r) == Cost(rule, r) {
      WeightOfCandidate(rule, proposal, trace, now, r);
    }
    var used := SumOf(rule, g, now, records);
    TotalIsSpent(rule, proposal, trace, now, records);
    if used.None? || (rule.Quota? && RequestedAmount(rule, proposal).None?) { return Throws; }
    var requested: nat := if rule.Rate? then 1 else RequestedAmount(rule, proposal).value;
    return if used.value + requested > rule.limit then Exceeded else Within(used.value, requested);
  }

  /** `TemporalEvaluationResult`, reasons counted instead of spelled out. */
  datatype Evaluation = Evaluation(
    allowed: bool, reasons: nat, preconditionHashes: seq<Hash>, validBefore: Option<int>)

  /** The evidence an allowed evaluation hands to the contract for one preceding-event rule:
      the hash of a latest source, and a validity that ends before that source leaves the window. */
  ghost predicate Evidenced(rule: Rule, proposal: Intent, trace: Trace, now: int, e: Evaluation)
    requires rule.Preceding?
  {
    exists r :: LatestSourceIs(rule, proposal, trace, now, r) && r.hash in e.preconditionHashes
      && e.validBefore.Some? && e.validBefore.value <= r.timestamp + rule.windowMs
  }

  /** The evaluation's validity ends just when a latest source of this rule leaves the window. */
  ghost predicate EndsWith(rule: Rule, proposal: Intent, trace: Trace, now: int, validBefore: int) {
    rule.Preceding? && Targets(rule, proposal)
    && exists r :: LatestSourceIs(rule, proposal, trace, now, r) && validBefore == r.timestamp + rule.windowMs
  }

  /** `validBefore` is the bound of one of the rules; where all are evidenced it is their least. */
  ghost predicate Attained(rules: seq<Rule>, proposal: Intent, trace: Trace, now: int, e: Evaluation) {
    e.validBefore.Some? ==>
      exists i :: 0 <= i < |rules| && EndsWith(rules[i], proposal, trace, now, e.validBefore.value)
  }

  /** What `evaluateTemporalRules` answers. */
  ghost predicate EvaluationOf(rules: seq<Rule>, proposal: Intent, trace: Trace, now: int, e: Evaluation) {
    && (e.allowed <==> Admissible(rules, proposal, trace, now))
    && HashesNameSources(proposal, trace, now, e.preconditionHashes)
    && (e.allowed ==> AllEvidenced(rules, proposal, trace, now, e))
    && Attained(rules, proposal, trace, now, e)
  }

  /** Every listed hash names a successful record of another proposal, not from the future. */
  ghost predicate HashesNameSources(proposal: Intent, trace: Trace, now: int, hashes: seq<Hash>) {
    && NoDuplicates(hashes)
    && forall h :: h in hashes ==> exists r: Record :: r.hash == h && PastSuccess(proposal, trace, now, r)
  }

  predicate PastSuccess(proposal: Intent, trace: Trace, now: int, r: Record) {
    Current(trace, r) && r.status.SUCCESS? && r.proposalId != proposal.id && r.timestamp <= now
  }

  /** Every preceding-event rule among these that targets the proposal is evidenced. */
  ghost predicate AllEvidenced(rules: seq<Rule>, proposal: Intent, trace: Trace, now: int, e: Evaluation) {
    forall i :: 0 <= i < |rules| && rules[i].Preceding? && Targets(rules[i], proposal) ==>
      Evidenced(rules[i], proposal, trace, now, e)
  }

  /** The effect of one verdict that is not an exception. */
  function Recorded(e: Evaluation, rule: Rule, v: Verdict): Evaluation {
    match v
    case Source(r) =>
      var limit := r.timestamp + rule.windowMs;
      e.(preconditionHashes :=
           if r.hash in e.preconditionHashes then e.preconditionHashes else e.preconditionHashes + [r.hash],
         validBefore := Some(if e.validBefore.Some? && e.validBefore.value < limit then e.validBefore.value else limit))
    case Within(_, _) => e
    case _ => e.(reasons := e.reasons + 1)
  }

  method EvaluateTemporalRules(proposal: Intent, tx: Transaction, rules: seq<Rule>, now: int) returns (e: Evaluation)
    requires tx.Valid() && tx.active
    ensures EvaluationOf(rules, proposal, Latest(tx.View()), now, e)
  {
    ghost var trace := Latest(tx.View());
    e := Evaluation(true, 0, [], None);
    if !SafeInteger(now) { return e.(allowed := false, reasons := 1); }
    for i := 0 to |rules|
      invariant Progress(rules[..i], proposal, trace, now, e)
    {
      var rule := rules[i];
      assert rules[..i + 1] == rules[..i] + [rule];
      AttainedOverall(rules, i, proposal, trace, now, e);
      if !ValidRule(rule) {
        assert !RuleAgrees(rules[i], proposal, trace, now);
        return e.(allowed := false, reasons := e.reasons + 1);
      }
      if Targets(rule, proposal) {
        var v := EvaluateRule(rule, proposal, tx, now);
        if v.Throws? {
          assert !RuleAgrees(rules[i], proposal, trace, now);
          return e.(allowed := false, reasons := e.reasons + 1);
        }
        RuleRecorded(rules[..i], rule, proposal, trace, now, e, v);
        e := Recorded(e, rule, v);
      } else {
        AllAgreeOneMore(rules[..i], rule, proposal, trace, now);
        AttainedMore(rules[..i], rule, proposal, trace, now, e);
      }
    }
    assert rules[..|rules|] == rules;
    e := e.(allowed := e.reasons == 0);
  }

  ghost predicate AllAgree(rules: seq<Rule>, proposal: Intent, trace: Trace, now: int) {
    forall i :: 0 <= i < |rules| ==> RuleAgrees(rules[i], proposal, trace, now)
  }

  /** The evaluation so far: no reason iff every rule so far agrees. */
  ghost predicate Progress(rules: seq<Rule>, proposal: Intent, trace: Trace, now: int, e: Evaluation) {
    && (e.reasons == 0 <==> AllAgree(rules, proposal, trace, now))
    && HashesNameSources(proposal, trace, now, e.preconditionHashes)
    && (e.reasons == 0 ==> AllEvidenced(rules, proposal, trace, now, e))
    && Attained(rules, proposal, trace, now, e)
  }

  lemma AttainedMore(rules: seq<Rule>, rule: Rule, proposal: Intent, trace: Trace, now: int, e: Evaluation)
    requires Attained(rules, proposal, trace, now, e)
    ensures Attained(rules + [rule], proposal, trace, now, e)
  {
    if e.validBefore.Some? {
      var i :| 0 <= i < |rules| && EndsWith(rules[i], proposal, trace, now, e.validBefore.value);
      assert (rules + [rule])[i] == rules[i];
    }
  }

  lemma AttainedOverall(rules: seq<Rule>, k: nat, proposal: Intent, trace: Trace, now: int, e: Evaluation)
    requires k <= |rules| && Attained(rules[..k], proposal, trace, now, e)
    ensures Attained(rules, proposal, trace, now, e)
    ensures forall allowed, reasons :: Attained(rules, proposal, trace, now, e.(allowed := allowed, reasons := reasons))
  {
    if e.validBefore.Some? {
      var i :| 0 <= i < k && EndsWith(rules[..k][i], proposal, trace, now, e.validBefore.value);
      assert rules[..k][i] == rules[i];
    }
  }

  lemma AllAgreeOneMore(rules: seq<Rule>, rule: Rule, proposal: Intent, trace: Trace, now: int)
    ensures AllAgree(rules + [rule], proposal, trace, now) <==>
      AllAgree(rules, proposal, trace, now) && RuleAgrees(rule, proposal, trace, now)
  {
    var all := rules + [rule];
    assert all[|rules|] == rule && forall i :: 0 <= i < |rules| ==> all[i] == rules[i];
    if AllAgree(all, proposal, trace, now) {
      forall i | 0 <= i < |rules| ensures RuleAgrees(rules[i], proposal, trace, now) {
        assert RuleAgrees(all[i], proposal, trace, now);
      }
    }
  }

  lemma RuleRecorded(
    rules: seq<Rule>, rule: Rule, proposal: Intent, trace: Trace, now: int, e: Evaluation, v: Verdict)
    requires Progress(rules, proposal, trace, now, e) && ValidRule(rule) && Targets(rule, proposal)
    requires Passes(v) <==> RuleHolds(rule, proposal, trace, now)
    requires v.Source? ==> rule.Preceding? && LatestSourceIs(rule, proposal, trace, now, v.record)
    requires v.Within? ==> !rule.Preceding?
    requires !v.Throws?
    ensures Progress(rules + [rule], proposal, trace, now, Recorded(e, rule, v))
  {
    AllAgreeOneMore(rules, rule, proposal, trace, now);
    AttainedMore(rules, rule, proposal, trace, now, e);
    if v.Source? {
      SourceRecorded(rules, rule, proposal, trace, now, e, v.record);
      SourceAttained(rules, rule, proposal, trace, now, e, v.record);
    }
  }

  lemma SourceAttained(
    rules: seq<Rule>, rule: Rule, proposal: Intent, trace: Trace, now: int, e: Evaluation, r: Record)
    requires rule.Preceding? && Targets(rule, proposal) && LatestSourceIs(rule, proposal, trace, now, r)
    requires Attained(rules + [rule], proposal, trace, now, e)
    ensures Attained(rules + [rule], proposal, trace, now, Recorded(e, rule, Source(r)))
  {
    assert EndsWith((rules + [rule])[|rules|], proposal, trace, now, r.timestamp + rule.windowMs);
  }

  lemma SourceRecorded(
    rules: seq<Rule>, rule: Rule, proposal: Intent, trace: Trace, now: int, e: Evaluation, r: Record)
    requires rule.Preceding? && Targets(rule, proposal) && LatestSourceIs(rule, proposal, trace, now, r)
    requires HashesNameSources(proposal, trace, now, e.preconditionHashes)
    ensures var e' := Recorded(e, rule, Source(r));
      && HashesNameSources(proposal, trace, now, e'.preconditionHashes)
      && (AllEvidenced(rules, proposal, trace, now, e) ==> AllEvidenced(rules + [rule], proposal, trace, now, e'))
  {
    var e' := Recorded(e, rule, Source(r));
    assert PastSuccess(proposal, trace, now, r);
    if AllEvidenced(rules, proposal, trace, now, e) {
      assert Evidenced(rule, proposal, trace, now, e');
      forall j | 0 <= j < |rules| && rules[j].Preceding? && Targets(rules[j], proposal)
        ensures Evidenced(rules[j], proposal, trace, now, e')
      {
        var s :| LatestSourceIs(rules[j], proposal, trace, now, s) && s.hash in e.preconditionHashes
          && e.validBefore.Some? && e.validBefore.value <= s.timestamp + rules[j].windowMs;
        assert s.hash in e'.preconditionHashes;
      }
    }
  }

  /** An evaluation that allows is evidenced, and so gives the least bound of all its preceding-event rules: it is one
      of their bounds, and none is smaller. */
  lemma ValidBeforeIsLeast(
    rules: seq<Rule>, proposal: Intent, trace: Trace, now: int, e: Evaluation, i: nat, bound: int)
    requires AllEvidenced(rules, proposal, trace, now, e) && Attained(rules, proposal, trace, now, e)
    requires i < |rules| && EndsWith(rules[i], proposal, trace, now, bound)
    ensures e.validBefore.Some? && e.validBefore.value <= bound
    ensures exists j :: 0 <= j < |rules| && EndsWith(rules[j], proposal, trace, now, e.validBefore.value)
  {
    assert Evidenced(rules[i], proposal, trace, now, e);
  }
}
