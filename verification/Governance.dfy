/** `TemporalGovernance`: capability checks, atomic admission, and what a contract guarantees later. */
module Governance {
  import opened Json
  import opened Evidence
  import opened Log
  import opened Index
  import Store
  import opened Temporal
  import opened Crypto
  import opened QuotaSafety

  /** Trusted configuration of an action, with the default time to live filled in. */
  datatype GovernedAction = GovernedAction(
    kind: Kind, requiredCapabilities: seq<string>, capabilityBindings: map<Path, Path>, capabilityTtlMs: int)

  datatype Options = Options(
    secretKey: string, actions: map<string, GovernedAction>, rules: seq<Rule>, contractTtlMs: int, maxDurationMs: int)

  predicate PositiveSafe(n: int) { SafeInteger(n) && n > 0 }

  /** One configured action: a READ or PROBE has bindings, all paths are well formed, and every
      required source is itself a configured READ or PROBE. */
  predicate ValidAction(opts: Options, action: GovernedAction) {
    && (!action.kind.MUTATION? ==> action.capabilityBindings != map[])
    && PositiveSafe(action.capabilityTtlMs)
    && (forall target :: target in action.capabilityBindings ==>
         ValidPath(target) && ValidPath(action.capabilityBindings[target]))
    && (forall source :: source in action.requiredCapabilities ==> ReadOrProbe(opts, source))
  }

  predicate ReadOrProbe(opts: Options, source: string) {
    source in opts.actions && !opts.actions[source].kind.MUTATION?
  }

  /** How many bytes UTF-8 takes, as `Buffer.byteLength` counts them. */
  function ByteLength(s: string): nat {
    if s == "" then 0
    else
      var n := s[0] as int;
      (if n < 0x80 then 1 else if n < 0x800 then 2 else if n < 0x1_0000 then 3 else 4) + ByteLength(s[1..])
  }

  /** A configuration the governance can work with. */
  predicate ValidOptions(opts: Options) {
    && ByteLength(opts.secretKey) >= 32 && PositiveSafe(opts.contractTtlMs) && PositiveSafe(opts.maxDurationMs)
    && (forall i :: 0 <= i < |opts.rules| ==> ValidRule(opts.rules[i]))
    && (forall name :: name in opts.actions ==> ValidAction(opts, opts.actions[name]))
  }

  function BindingsOf(opts: Options, action: string): map<Path, Path> {
    if action in opts.actions then opts.actions[action].capabilityBindings else map[]
  }

  function RequiredBy(opts: Options, action: string): seq<string> {
    if action in opts.actions then opts.actions[action].requiredCapabilities else []
  }

  /** In a valid configuration every source an action requires can mint: it is a READ or PROBE with
      bindings between well-formed paths and a positive time to live. */
  lemma RequiredSourcesCanMint(opts: Options, action: string, source: string)
    requires ValidOptions(opts) && source in RequiredBy(opts, action)
    ensures ReadOrProbe(opts, source) && PositiveSafe(opts.actions[source].capabilityTtlMs)
    ensures BindingsOf(opts, source) != map[]
    ensures forall target :: target in BindingsOf(opts, source) ==>
      ValidPath(target) && ValidPath(BindingsOf(opts, source)[target])
  {
    assert ValidAction(opts, opts.actions[action]);
    assert ValidAction(opts, opts.actions[source]);
  }

  // ---- Capabilities ----

  /** One configured binding: the token carries exactly the value the source recorded. */
  predicate BindingMatches(token: Token, source: Record, target: Path, from: Path) {
    && ValidPath(from) && target in token.body.boundAttributes
    && Lookup(source.result, from) == Some(token.body.boundAttributes[target])
  }

  /** One round of the loop over the tokens of an intent, given the source's latest record. */
  predicate TokenFits(token: Token, intent: Intent, source: Record, opts: Options, now: int) {
    var t := token.body;
    && TokenVerifies(token, intent.payload, opts.secretKey, now)
    && t.actorId == intent.actor
    && source.actorId == t.actorId && source.status.SUCCESS? && source.hash == t.sourceHash
    && source.timestamp <= t.issuedAt && source.proposalId != intent.id && !source.kind.MUTATION?
    && BindingsOf(opts, source.action) != map[]
    && forall target :: target in BindingsOf(opts, source.action) ==>
         BindingMatches(token, source, target, BindingsOf(opts, source.action)[target])
  }

  predicate TokenAccepted(token: Token, intent: Intent, trace: Trace, opts: Options, now: int) {
    var p := token.body.sourceProposalId;
    p in trace && TokenFits(token, intent, trace[p], opts, now)
  }

  predicate SourceActionPresent(tokens: seq<Token>, trace: Trace, action: string) {
    exists i :: 0 <= i < |tokens| && tokens[i].body.sourceProposalId in trace
      && trace[tokens[i].body.sourceProposalId].action == action
  }

  /** `verifyCapabilities` does not throw. */
  predicate CapabilitiesAccepted(intent: Intent, trace: Trace, opts: Options, now: int) {
    TokensAccepted(intent, trace, opts, now) && RequirementsMet(intent, trace, opts)
  }

  predicate TokensAccepted(intent: Intent, trace: Trace, opts: Options, now: int) {
    && (forall token :: token in intent.capabilities ==> TokenAccepted(token, intent, trace, opts, now))
    && NoDuplicates(TokenIds(intent.capabilities))
  }

  /** The caller's required token ids and the action's required source actions are covered. */
  predicate RequirementsMet(intent: Intent, trace: Trace, opts: Options) {
    && (forall id :: id in intent.requiredCapabilities ==> id in TokenIds(intent.capabilities))
    && (forall action :: action in RequiredBy(opts, intent.action) ==>
         SourceActionPresent(intent.capabilities, trace, action))
  }

  /** An accepted token forces every configured payload path to equal the source's recorded result. */
  lemma AcceptedTokenAttenuates(intent: Intent, trace: Trace, opts: Options, now: int, i: nat, target: Path)
    requires CapabilitiesAccepted(intent, trace, opts, now) && i < |intent.capabilities|
    requires var p := intent.capabilities[i].body.sourceProposalId;
      p in trace && target in BindingsOf(opts, trace[p].action)
    ensures var source := trace[intent.capabilities[i].body.sourceProposalId];
      && source.status.SUCCESS? && source.actorId == intent.actor
      && Lookup(Some(intent.payload), target).Some?
      && Lookup(Some(intent.payload), target) == Lookup(source.result, BindingsOf(opts, source.action)[target])
  {
    var token, source := intent.capabilities[i], trace[intent.capabilities[i].body.sourceProposalId];
    assert TokenAccepted(token, intent, trace, opts, now);
    assert BindingMatches(token, source, target, BindingsOf(opts, source.action)[target]);
  }

  /** The records the tokens of an intent name. */
  predicate SourcesOf(sources: seq<Record>, tokens: seq<Token>, trace: Trace) {
    |sources| == |tokens| && forall i :: 0 <= i < |sources| ==> SourceOf(sources[i], tokens[i], trace)
  }

  predicate SourceOf(source: Record, token: Token, trace: Trace) {
    Get(trace, token.body.sourceProposalId) == Some(source)
  }

  /** The duplicate check of the loop over the tokens. */
  method CheckDistinct(names: seq<string>) returns (distinct: bool)
    ensures distinct <==> NoDuplicates(names)
  {
    var ids: set<string> := {};
    for i := 0 to |names|
      invariant forall id :: id in ids <==> id in names[..i]
      invariant NoDuplicates(names[..i])
    {
      assert names[..i + 1] == names[..i] + [names[i]];
      if names[i] in ids { return false; }
      ids := ids + {names[i]};
    }
    assert names[..|names|] == names;
    return true;
  }

  /** The reads of the loop over the tokens. */
  method ReadSources(tokens: seq<Token>, tx: Store.Transaction) returns (found: seq<Option<Record>>)
    requires tx.Valid() && tx.active
    ensures |found| == |tokens|
    ensures forall i :: 0 <= i < |tokens| ==> found[i] == Get(Latest(tx.View()), tokens[i].body.sourceProposalId)
  {
    found := [];
    for i := 0 to |tokens|
      invariant |found| == i
      invariant forall j :: 0 <= j < i ==> found[j] == Get(Latest(tx.View()), tokens[j].body.sourceProposalId)
    {
      var source := tx.GetTrace(tokens[i].body.sourceProposalId);
      found := found + [source.value];
    }
  }

  /** The checks of the loop over the tokens. */
  method CheckSources(intent: Intent, found: seq<Option<Record>>, ghost trace: Trace, opts: Options, now: int)
    returns (r: Option<seq<Record>>)
    requires |found| == |intent.capabilities|
    requires forall i :: 0 <= i < |found| ==> found[i] == Get(trace, intent.capabilities[i].body.sourceProposalId)
    ensures r.Some? <==> forall token :: token in intent.capabilities ==> TokenAccepted(token, intent, trace, opts, now)
    ensures r.Some? ==> SourcesOf(r.value, intent.capabilities, trace)
  {
    var tokens, sources := intent.capabilities, [];
    for i := 0 to |tokens|
      invariant forall j :: 0 <= j < i ==> TokenAccepted(tokens[j], intent, trace, opts, now)
      invariant |sources| == i && forall j :: 0 <= j < i ==> SourceOf(sources[j], tokens[j], trace)
    {
      if found[i].None? || !TokenFits(tokens[i], intent, found[i].value, opts, now) {
        assert !TokenAccepted(tokens[i], intent, trace, opts, now);
        return None;
      }
      sources := sources + [found[i].value];
    }
    return Some(sources);
  }

  method CheckRequirements(intent: Intent, sources: seq<Record>, ghost trace: Trace, opts: Options) returns (met: bool)
    requires SourcesOf(sources, intent.capabilities, trace)
    ensures met <==> RequirementsMet(intent, trace, opts)
  {
    var ids := TokenIds(intent.capabilities);
    for i := 0 to |intent.requiredCapabilities|
      invariant forall j :: 0 <= j < i ==> intent.requiredCapabilities[j] in ids
    {
      if intent.requiredCapabilities[i] !in ids { return false; }
    }
    var required := RequiredBy(opts, intent.action);
    for i := 0 to |required|
      invariant forall j :: 0 <= j < i ==> SourceActionPresent(intent.capabilities, trace, required[j])
    {
      SourceActions(sources, intent.capabilities, trace, required[i]);
      if !exists j :: 0 <= j < |sources| && sources[j].action == required[i] { return false; }
    }
    return true;
  }

  method VerifyCapabilities(intent: Intent, tx: Store.Transaction, opts: Options, now: int)
    returns (r: Option<seq<Record>>)
    requires tx.Valid() && tx.active
    ensures r.Some? <==> CapabilitiesAccepted(intent, Latest(tx.View()), opts, now)
    ensures r.Some? ==> SourcesOf(r.value, intent.capabilities, Latest(tx.View()))
  {
    var found := ReadSources(intent.capabilities, tx);
    r := CheckSources(intent, found, Latest(tx.View()), opts, now);
    var distinct := CheckDistinct(TokenIds(intent.capabilities));
    if !distinct { return None; }
    if r.Some? {
      var met := CheckRequirements(intent, r.value, Latest(tx.View()), opts);
      if !met { r := None; }
    }
  }

  lemma SourceActions(sources: seq<Record>, tokens: seq<Token>, trace: Trace, action: string)
    requires SourcesOf(sources, tokens, trace)
    ensures SourceActionPresent(tokens, trace, action) <==>
      exists j :: 0 <= j < |sources| && sources[j].action == action
  {
    if SourceActionPresent(tokens, trace, action) {
      var i :| 0 <= i < |tokens| && tokens[i].body.sourceProposalId in trace
        && trace[tokens[i].body.sourceProposalId].action == action;
      assert sources[i].action == action;
    }
  }

  // ---- The contract window ----

  function Least(a: int, b: Option<int>): int { if b.Some? && b.value < a then b.value else a }

  /** The least of `a` and the expiries of the tokens. */
  function EarliestExpiry(a: int, tokens: seq<Token>): (r: int)
    decreases |tokens|
    ensures r <= a && forall token :: token in tokens ==> r <= token.body.expiresAt
    ensures r == a || exists token :: token in tokens && r == token.body.expiresAt
  {
    if tokens == [] then a
    else EarliestExpiry(Least(a, Some(tokens[0].body.expiresAt)), tokens[1..])
  }

  predicate RequestWellFormed(r: Requested) {
    forall v :: v in {r.notBefore, r.notAfter, r.maxDurationMs} && v.Some? ==> SafeInteger(v.value) && v.value >= 0
  }

  /** The bounds `reserve` computes; `None` is its exception. */
  function ContractWindow(intent: Intent, validBefore: Option<int>, opts: Options, now: int): Option<Bounds> {
    var r := intent.temporalBounds;
    if !RequestWellFormed(r) then None
    else
      var notBefore := if r.notBefore.Some? && r.notBefore.value > now then r.notBefore.value else now;
      var notAfter :=
        EarliestExpiry(Least(Least(now + opts.contractTtlMs, r.notAfter), validBefore), intent.capabilities);
      var maxDurationMs := Least(Least(opts.maxDurationMs, r.maxDurationMs), Some(notAfter - notBefore));
      if notBefore > now || notAfter <= now || maxDurationMs <= 0 || !SafeInteger(notAfter) then None
      else Some(Bounds(notBefore, notAfter, maxDurationMs))
  }

  /** The window opens now and closes no later than the server's limit, the request, the
      preceding evidence and every capability; so minting after this guard never throws. */
  lemma WindowSound(intent: Intent, validBefore: Option<int>, opts: Options, now: int)
    requires SafeInteger(now) && ValidOptions(opts) && ContractWindow(intent, validBefore, opts, now).Some?
    ensures var b := ContractWindow(intent, validBefore, opts, now).value;
      && BoundsOrdered(b) && b.notBefore == now
      && b.notAfter <= now + opts.contractTtlMs && b.maxDurationMs <= opts.maxDurationMs
      && (intent.temporalBounds.notAfter.Some? ==> b.notAfter <= intent.temporalBounds.notAfter.value)
      && (intent.temporalBounds.maxDurationMs.Some? ==> b.maxDurationMs <= intent.temporalBounds.maxDurationMs.value)
      && (validBefore.Some? ==> b.notAfter <= validBefore.value)
      && forall token :: token in intent.capabilities ==> b.notAfter <= token.body.expiresAt
  {
  }

  // ---- Admission ----

  function SourceHashes(tokens: seq<Token>): (hashes: seq<Hash>)
    ensures |hashes| == |tokens| && forall i :: 0 <= i < |tokens| ==> hashes[i] == tokens[i].body.sourceHash
  {
    seq(|tokens|, i requires 0 <= i < |tokens| => tokens[i].body.sourceHash)
  }

  function MintedContract(
    intent: Intent, temporal: Evaluation, window: Bounds, opts: Options, now: int,
    policyVersion: Option<string>, contractId: string): Option<Contract>
  {
    MintExecutionContract(intent, temporal.preconditionHashes + SourceHashes(intent.capabilities), window,
      opts.secretKey, now, policyVersion, contractId)
  }

  /** What `reserve` has established when it returns a contract. */
  ghost predicate Admits(
    log: Events, intent: Intent, opts: Options, now: int, temporal: Evaluation,
    policyVersion: Option<string>, contract: Contract)
  {
    && intent.id !in Latest(log)
    && CapabilitiesAccepted(intent, Latest(log), opts, now)
    && Admissible(opts.rules, intent, Latest(log), now)
    && HashesNameSources(intent, Latest(log), now, temporal.preconditionHashes)
    && AllEvidenced(opts.rules, intent, Latest(log), now, temporal)
    && Attained(opts.rules, intent, Latest(log), now, temporal)
    && var window := ContractWindow(intent, temporal.validBefore, opts, now);
       && window.Some?
       && MintedContract(intent, temporal, window.value, opts, now, policyVersion, contract.body.contractId)
            == Some(contract)
  }

  lemma MintingSucceeds(
    intent: Intent, trace: Trace, opts: Options, now: int, temporal: Evaluation, policyVersion: Option<string>,
    contractId: string)
    requires SafeInteger(now) && ValidOptions(opts) && CapabilitiesAccepted(intent, trace, opts, now)
    requires ContractWindow(intent, temporal.validBefore, opts, now).Some?
    ensures var window := ContractWindow(intent, temporal.validBefore, opts, now).value;
      var contract := MintedContract(intent, temporal, window, opts, now, policyVersion, contractId);
      contract.Some? && contract.value.body.contractId == contractId
  {
    WindowSound(intent, temporal.validBefore, opts, now);
    var ids := TokenIds(intent.capabilities);
    forall i | 0 <= i < |ids| ensures ids[i] != "" {
      assert TokenAccepted(intent.capabilities[i], intent, trace, opts, now);
    }
  }

  datatype Refusal =
    | DUPLICATE_PROPOSAL | CAPABILITY | TEMPORAL_CONSTRAINT | CONTRACT_TEMPORAL_BOUNDS | DUPLICATE_EVENT
  datatype Admission =
    | Admitted(contract: Contract, temporal: Evaluation)
    | Refused(code: Refusal, evaluated: Option<Evaluation>)

  function ReservationInput(intent: Intent, contract: Contract, now: int, eventId: string): EventInput {
    EventInput(eventId, ExecutionReserved, now, intent.id, Payload(intent, None, Some(contract), Null))
  }

  /** Why a proposal is refused, with the evaluation of the rules where there was one. */
  ghost predicate RefusedFor(r: Admission, log: Events, intent: Intent, opts: Options, now: int)
    requires r.Refused?
  {
    match r.code
    case DUPLICATE_PROPOSAL => intent.id in Latest(log)
    case CAPABILITY => !CapabilitiesAccepted(intent, Latest(log), opts, now)
    case TEMPORAL_CONSTRAINT =>
      r.evaluated.Some? && !r.evaluated.value.allowed
      && EvaluationOf(opts.rules, intent, Latest(log), now, r.evaluated.value)
    case CONTRACT_TEMPORAL_BOUNDS =>
      r.evaluated.Some? && r.evaluated.value.allowed
      && EvaluationOf(opts.rules, intent, Latest(log), now, r.evaluated.value)
      && ContractWindow(intent, r.evaluated.value.validBefore, opts, now).None?
    case DUPLICATE_EVENT => true
  }

  /** The reservation of an admitted proposal is refused only for a used event id. */
  lemma AdmittedReserves(
    log: Events, intent: Intent, opts: Options, now: int, temporal: Evaluation, policyVersion: Option<string>,
    contract: Contract, eventId: string)
    requires Admits(log, intent, opts, now, temporal, policyVersion, contract)
    ensures var input := ReservationInput(intent, contract, now, eventId);
      (Accepts(log, input) <==> eventId !in EventIds(log))
      && (Accepts(log, input) ==> Reserves(opts.rules, log, input, now))
  {
  }

  class TemporalGovernance {
    const history: Store.InMemoryIEECStore
    const options: Options

    constructor (history: Store.InMemoryIEECStore, options: Options)
      ensures this.history == history && this.options == options
    {
      this.history, this.options := history, options;
    }

    /** The source's constructor: `null` is its exception. */
    static method Configure(history: Store.InMemoryIEECStore, options: Options) returns (g: TemporalGovernance?)
      ensures g != null <==> ValidOptions(options)
      ensures g != null ==> g.history == history && g.options == options
    {
      if ByteLength(options.secretKey) < 32 { return null; }
      for i := 0 to |options.rules|
        invariant forall j :: 0 <= j < i ==> ValidRule(options.rules[j])
      {
        if !ValidRule(options.rules[i]) { return null; }
      }
      if !PositiveSafe(options.contractTtlMs) || !PositiveSafe(options.maxDurationMs) { return null; }
      var todo := options.actions.Keys;
      while todo != {}
        invariant todo <= options.actions.Keys
        invariant forall name :: name in options.actions && name !in todo ==>
          ValidAction(options, options.actions[name])
      {
        var name :| name in todo;
        var valid := CheckAction(options, options.actions[name]);
        if !valid { return null; }
        todo := todo - {name};
      }
      g := new TemporalGovernance(history, options);
    }

    /** One round of the constructor's loop over the actions. */
    static method CheckAction(options: Options, action: GovernedAction) returns (valid: bool)
      ensures valid <==> ValidAction(options, action)
    {
      var bindings, sources := action.capabilityBindings, action.requiredCapabilities;
      if (!action.kind.MUTATION? && bindings == map[]) || !PositiveSafe(action.capabilityTtlMs) { return false; }
      var todo := bindings.Keys;
      while todo != {}
        invariant todo <= bindings.Keys
        invariant forall target :: target in bindings && target !in todo ==>
          ValidPath(target) && ValidPath(bindings[target])
      {
        var target :| target in todo;
        var read := ReadPath(Some(Obj(map[])), target);
        var from := ReadPath(Some(Obj(map[])), bindings[target]);
        if read.Malformed? || from.Malformed? { return false; }
        todo := todo - {target};
      }
      for i := 0 to |sources|
        invariant forall j :: 0 <= j < i ==> ReadOrProbe(options, sources[j])
      {
        if !ReadOrProbe(options, sources[i]) { return false; }
      }
      return true;
    }

    /** The checks of `reserve` on what the transaction sees, and the contract they lead to. */
    method Judge(
      intent: Intent, tx: Store.Transaction, policyVersion: Option<string>, now: int, contractId: string)
      returns (r: Admission)
      requires tx.Valid() && tx.active && ValidOptions(options) && intent.id !in Latest(tx.View())
      ensures r.Admitted? ==> Admits(tx.View(), intent, options, now, r.temporal, policyVersion, r.contract)
      ensures r.Refused? ==> !r.code.DUPLICATE_PROPOSAL? && !r.code.DUPLICATE_EVENT?
      ensures r.Refused? ==> RefusedFor(r, tx.View(), intent, options, now)
    {
      ghost var trace := Latest(tx.View());
      var sources := VerifyCapabilities(intent, tx, options, now);
      if sources.None? { return Refused(CAPABILITY, None); }
      var temporal := EvaluateTemporalRules(intent, tx, options.rules, now);
      if !temporal.allowed { return Refused(TEMPORAL_CONSTRAINT, Some(temporal)); }
      var window := ContractWindow(intent, temporal.validBefore, options, now);
      if window.None? { return Refused(CONTRACT_TEMPORAL_BOUNDS, Some(temporal)); }
      MintingSucceeds(intent, trace, options, now, temporal, policyVersion, contractId);
      var contract := MintedContract(intent, temporal, window.value, options, now, policyVersion, contractId).value;
      return Admitted(contract, temporal);
    }

    /** One transaction: check, then append the reservation. The clock is read inside it. */
    method Reserve(intent: Intent, policyVersion: Option<string>, now: int, contractId: string, eventId: string)
      returns (r: Admission)
      requires history.Valid() && ValidOptions(options)
      modifies history
      ensures history.Valid()
      ensures r.Refused? ==> history.log == old(history.log)
      ensures r.Admitted? ==>
        && Admits(old(history.log), intent, options, now, r.temporal, policyVersion, r.contract)
        && Reserves(options.rules, old(history.log), ReservationInput(intent, r.contract, now, eventId), now)
        && history.log == old(history.log)
             + [NextEvent(old(history.log), ReservationInput(intent, r.contract, now, eventId))]
      ensures r.Refused? ==>
        if r.code.DUPLICATE_EVENT? then eventId in EventIds(history.log)
        else RefusedFor(r, history.log, intent, options, now)
    {
      var tx := new Store.Transaction(history);
      var existing := tx.GetTrace(intent.id);
      if existing.value.Some? { tx.Abort(); return Refused(DUPLICATE_PROPOSAL, None); }
      r := Judge(intent, tx, policyVersion, now, contractId);
      if r.Refused? { tx.Abort(); return; }
      AdmittedReserves(tx.View(), intent, options, now, r.temporal, policyVersion, r.contract, eventId);
      var appended := tx.Append(ReservationInput(intent, r.contract, now, eventId));
      if appended.Err? { tx.Abort(); return Refused(DUPLICATE_EVENT, Some(r.temporal)); }
      tx.Commit();
    }
  }
}
