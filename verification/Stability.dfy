/** What an admission guarantees afterwards, whatever else is appended to the log. */
module Stability {
  import opened Json
  import opened Evidence
  import opened Log
  import opened Index
  import opened Store
  import opened Temporal
  import opened Crypto
  import opened Governance

  /** `assertCanUnlock` does not throw. */
  predicate CanUnlock(contract: Contract, intent: Intent, log: Events, opts: Options, now: int) {
    && ContractVerifies(contract, intent, log, opts.secretKey, now)
    && CapabilitiesAccepted(intent, Latest(log), opts, now)
    && HasStatus(log, intent.id, RESERVED)
  }

  // ---- Successful records stay, and stay findable ----

  lemma SuccessStays(log: Events, k: nat, r: Record)
    requires Legal(log) && k <= |log| && Current(Latest(log[..k]), r) && r.status.SUCCESS?
    ensures Current(Latest(log), r)
  {
    TraceExtends(log, k, r.proposalId);
  }

  lemma {:induction false} ByHashFinds(log: Events, hash: Hash)
    requires exists e :: e in log && e.currentHash == hash
    ensures ByHash(log, hash).Some? && ByHash(log, hash).value in log && ByHash(log, hash).value.currentHash == hash
  {
    var e :| e in log && e.currentHash == hash;
    if Last(log).currentHash != hash {
      assert e in Front(log);
      ByHashFinds(Front(log), hash);
    }
  }

  /** A record that was once the latest of its proposal is found by its hash for good. */
  lemma RecordStaysFindable(log: Events, k: nat, r: Record)
    requires Legal(log) && k <= |log| && Current(Latest(log[..k]), r)
    ensures TraceByHash(log, r.hash) == Some(r)
  {
    LegalPrefix(log, k);
    var e := LatestIsLogged(log[..k], r.proposalId);
    assert e in log;
    ByHashFinds(log, r.hash);
    HashesDetermineEvents(log, e, ByHash(log, r.hash).value);
  }

  // ---- Reserve/unlock stability ----

  lemma TokenStaysAccepted(log: Events, k: nat, token: Token, intent: Intent, opts: Options, issued: int, now: int)
    requires Legal(log) && k <= |log| && TokenAccepted(token, intent, Latest(log[..k]), opts, issued)
    requires issued <= now < token.body.expiresAt && SafeInteger(now)
    ensures TokenAccepted(token, intent, Latest(log), opts, now)
  {
    LegalPrefix(log, k);
    LatestKeyed(log[..k]);
    SuccessStays(log, k, Latest(log[..k])[token.body.sourceProposalId]);
  }

  lemma CapabilitiesStayAccepted(log: Events, k: nat, intent: Intent, opts: Options, issued: int, now: int)
    requires Legal(log) && k <= |log| && CapabilitiesAccepted(intent, Latest(log[..k]), opts, issued)
    requires issued <= now && SafeInteger(now)
    requires forall token :: token in intent.capabilities ==> now < token.body.expiresAt
    ensures CapabilitiesAccepted(intent, Latest(log), opts, now)
  {
    forall token | token in intent.capabilities ensures TokenAccepted(token, intent, Latest(log), opts, now) {
      TokenStaysAccepted(log, k, token, intent, opts, issued, now);
    }
    RequirementsStayMet(log, k, intent, opts);
  }

  lemma RequirementsStayMet(log: Events, k: nat, intent: Intent, opts: Options)
    requires Legal(log) && k <= |log| && RequirementsMet(intent, Latest(log[..k]), opts)
    ensures RequirementsMet(intent, Latest(log), opts)
  {
    forall action | action in RequiredBy(opts, intent.action)
      ensures SourceActionPresent(intent.capabilities, Latest(log), action)
    {
      var i :| 0 <= i < |intent.capabilities| && intent.capabilities[i].body.sourceProposalId in Latest(log[..k])
        && Latest(log[..k])[intent.capabilities[i].body.sourceProposalId].action == action;
      TraceExtends(log, k, intent.capabilities[i].body.sourceProposalId);
    }
  }

  lemma PreconditionStays(log: Events, k: nat, contract: Contract, intent: Intent, r: Record)
    requires Legal(log) && k <= |log| && PastSuccess(intent, Latest(log[..k]), contract.body.issuedAt, r)
    ensures PreconditionHolds(contract, intent, log, r.hash)
  {
    RecordStaysFindable(log, k, r);
  }

  lemma PreconditionsStay(
    log: Events, k: nat, intent: Intent, opts: Options, temporal: Evaluation,
    policyVersion: Option<string>, contract: Contract, hash: Hash)
    requires Legal(log) && k <= |log|
    requires Admits(log[..k], intent, opts, contract.body.issuedAt, temporal, policyVersion, contract)
    requires hash in temporal.preconditionHashes + SourceHashes(intent.capabilities)
    ensures PreconditionHolds(contract, intent, log, hash)
  {
    var issued := contract.body.issuedAt;
    if hash in temporal.preconditionHashes {
      var r: Record :| r.hash == hash && PastSuccess(intent, Latest(log[..k]), issued, r);
      PreconditionStays(log, k, contract, intent, r);
    } else {
      var i :| 0 <= i < |intent.capabilities| && SourceHashes(intent.capabilities)[i] == hash;
      LegalPrefix(log, k);
      LatestKeyed(log[..k]);
      var r := TokenSource(Latest(log[..k]), intent, opts, issued, intent.capabilities[i]);
      PreconditionStays(log, k, contract, intent, r);
    }
  }

  /** The source of an accepted token is past evidence. */
  lemma TokenSource(trace: Trace, intent: Intent, opts: Options, issued: int, token: Token) returns (r: Record)
    requires Keyed(trace) && CapabilitiesAccepted(intent, trace, opts, issued) && token in intent.capabilities
    ensures r.hash == token.body.sourceHash && PastSuccess(intent, trace, issued, r)
  {
    assert TokenAccepted(token, intent, trace, opts, issued);
    r := trace[token.body.sourceProposalId];
  }

  lemma OpenWindowUnlocks(
    log: Events, k: nat, intent: Intent, opts: Options, temporal: Evaluation,
    policyVersion: Option<string>, contract: Contract, now: int)
    requires Legal(log) && k <= |log| && ValidOptions(opts)
    requires Admits(log[..k], intent, opts, contract.body.issuedAt, temporal, policyVersion, contract)
    requires contract.body.issuedAt <= now < contract.body.bounds.notAfter
    ensures CanUnlock(contract, intent, log, opts, now) <==> HasStatus(log, intent.id, RESERVED)
  {
    var issued := contract.body.issuedAt;
    var window := ContractWindow(intent, temporal.validBefore, opts, issued).value;
    var hashes := temporal.preconditionHashes + SourceHashes(intent.capabilities);
    WindowSound(intent, temporal.validBefore, opts, issued);
    forall h | h in hashes ensures PreconditionHolds(contract, intent, log, h) {
      PreconditionsStay(log, k, intent, opts, temporal, policyVersion, contract, h);
    }
    MintedContractVerifies(
      intent, hashes, window, opts.secretKey, issued, policyVersion, contract.body.contractId, log, now);
    CapabilitiesStayAccepted(log, k, intent, opts, issued, now);
  }

  lemma WindowOpensAtIssue(
    log: Events, intent: Intent, opts: Options, temporal: Evaluation, policyVersion: Option<string>, contract: Contract)
    requires ValidOptions(opts)
    requires Admits(log, intent, opts, contract.body.issuedAt, temporal, policyVersion, contract)
    ensures contract.body.bounds.notBefore == contract.body.issuedAt
  {
    WindowSound(intent, temporal.validBefore, opts, contract.body.issuedAt);
  }

  /** A contract returned by `reserve` unlocks in every later state of the log exactly from its
      issue to its end, and only until its reservation is consumed. */
  lemma ReservedContractUnlocks(
    log: Events, k: nat, intent: Intent, opts: Options, temporal: Evaluation,
    policyVersion: Option<string>, contract: Contract, now: int)
    requires Legal(log) && k <= |log| && ValidOptions(opts)
    requires Admits(log[..k], intent, opts, contract.body.issuedAt, temporal, policyVersion, contract)
    ensures CanUnlock(contract, intent, log, opts, now) <==>
      contract.body.issuedAt <= now < contract.body.bounds.notAfter && HasStatus(log, intent.id, RESERVED)
  {
    WindowOpensAtIssue(log[..k], intent, opts, temporal, policyVersion, contract);
    if contract.body.issuedAt <= now < contract.body.bounds.notAfter {
      OpenWindowUnlocks(log, k, intent, opts, temporal, policyVersion, contract, now);
    }
  }

  lemma EvidenceOf(rule: Rule, intent: Intent, trace: Trace, issued: int, temporal: Evaluation) returns (r: Record)
    requires rule.Preceding? && Evidenced(rule, intent, trace, issued, temporal)
    ensures Sources(rule, intent, trace, issued, r) && r.hash in temporal.preconditionHashes
    ensures temporal.validBefore.Some? && temporal.validBefore.value <= r.timestamp + rule.windowMs
  {
    r :| LatestSourceIs(rule, intent, trace, issued, r) && r.hash in temporal.preconditionHashes
      && temporal.validBefore.Some? && temporal.validBefore.value <= r.timestamp + rule.windowMs;
  }

  /** As long as the contract is valid, the evidence of every preceding-event rule is: the
      bound source is still successful and still inside the rule's window. */
  lemma PrecedingEvidenceOutlivesContract(
    log: Events, k: nat, intent: Intent, opts: Options, temporal: Evaluation,
    policyVersion: Option<string>, contract: Contract, now: int, i: nat) returns (r: Record)
    requires Legal(log) && k <= |log| && ValidOptions(opts)
    requires Admits(log[..k], intent, opts, contract.body.issuedAt, temporal, policyVersion, contract)
    requires contract.body.issuedAt <= now < contract.body.bounds.notAfter
    requires i < |opts.rules| && opts.rules[i].Preceding? && Targets(opts.rules[i], intent)
    ensures r.hash in contract.body.preconditionHashes
    ensures Sources(opts.rules[i], intent, Latest(log), now, r)
    ensures now - opts.rules[i].windowMs < r.timestamp <= now && r.status.SUCCESS?
  {
    var rule, issued, trace := opts.rules[i], contract.body.issuedAt, Latest(log[..k]);
    WindowSound(intent, temporal.validBefore, opts, issued);
    assert Evidenced(rule, intent, trace, issued, temporal);
    r := EvidenceOf(rule, intent, trace, issued, temporal);
    assert r.hash in temporal.preconditionHashes + SourceHashes(intent.capabilities);
    SuccessStays(log, k, r);
  }

  // ---- Capabilities: minted tokens verify ----

  /** The values `mintResultCapabilities` binds; `None` when a binding is missing. */
  function BoundValues(result: Option<Json>, bindings: map<Path, Path>): Option<map<Path, Json>> {
    if forall target :: target in bindings ==> Lookup(result, bindings[target]).Some?
    then Some(map target | target in bindings :: Lookup(result, bindings[target]).value)
    else None
  }

  datatype Minting = Tokens(tokens: seq<Token>) | Failed

  /** `mintResultCapabilities`. */
  function MintResultCapabilities(intent: Intent, trace: Trace, opts: Options, now: int, tokenId: string): Minting {
    if intent.action !in opts.actions || opts.actions[intent.action].kind.MUTATION? then Tokens([])
    else if intent.id !in trace || !trace[intent.id].status.SUCCESS? then Failed
    else
      var config, source := opts.actions[intent.action], trace[intent.id];
      var bound := BoundValues(source.result, config.capabilityBindings);
      if bound.None? then Failed
      else
        var token := MintCapabilityToken(source, bound.value, opts.secretKey, config.capabilityTtlMs, now, tokenId);
        if token.Some? then Tokens([token.value]) else Failed
  }

  /** The payload agrees with the source's recorded result on every bound path. */
  predicate Agrees(payload: Json, r: Record, bindings: map<Path, Path>) {
    forall target :: target in bindings ==> Lookup(Some(payload), target) == Lookup(r.result, bindings[target])
  }

  /** On the source's record: a minted token fits exactly the proposals whose payload agrees. */
  lemma MintedTokenFits(r: Record, opts: Options, minted: int, token: Token, other: Intent, now: int)
    requires ValidOptions(opts) && r.action in opts.actions
    requires var bound := BoundValues(r.result, BindingsOf(opts, r.action));
      bound.Some? && MintCapabilityToken(r, bound.value, opts.secretKey, opts.actions[r.action].capabilityTtlMs,
        minted, token.body.tokenId) == Some(token)
    requires token.body.tokenId != "" && r.proposalId != "" && r.actorId != ""
    requires minted <= now < token.body.expiresAt && SafeInteger(now)
    requires other.actor == r.actorId && other.id != r.proposalId
    ensures TokenFits(token, other, r, opts, now) <==> Agrees(other.payload, r, BindingsOf(opts, r.action))
  {
    var bindings, bound := BindingsOf(opts, r.action), token.body.boundAttributes;
    assert bound.Keys == bindings.Keys;
    forall target | target in bindings ensures BindingMatches(token, r, target, bindings[target]) {
      assert bound[target] == Lookup(r.result, bindings[target]).value;
    }
    if Agrees(other.payload, r, bindings) {
      assert TokenVerifies(token, other.payload, opts.secretKey, now);
    } else {
      var target :| target in bindings && Lookup(Some(other.payload), target) != Lookup(r.result, bindings[target]);
      assert Lookup(Some(other.payload), target) != Some(bound[target]);
    }
  }

  /** What the two theorems below assume of the minting. */
  predicate MintedFrom(trace: Trace, source: Intent, opts: Options, minted: int, token: Token) {
    && MintResultCapabilities(source, trace, opts, minted, token.body.tokenId) == Tokens([token])
    && trace[source.id].intent == source
    && token.body.tokenId != "" && source.id != "" && source.actor != ""
  }

  /** A token minted at `minted` is accepted for another proposal of the same actor, in every
      later log until it expires, exactly when the payload agrees with the recorded result. */
  lemma MintedTokenVerifies(
    log: Events, k: nat, source: Intent, opts: Options, minted: int, token: Token, other: Intent, now: int)
    requires Legal(log) && k <= |log| && ValidOptions(opts) && MintedFrom(Latest(log[..k]), source, opts, minted, token)
    requires minted <= now < token.body.expiresAt && SafeInteger(now)
    requires other.actor == source.actor && other.id != source.id
    ensures TokenAccepted(token, other, Latest(log), opts, now) <==>
      Agrees(other.payload, Latest(log[..k])[source.id], BindingsOf(opts, source.action))
  {
    LegalPrefix(log, k);
    LatestKeyed(log[..k]);
    var r := Latest(log[..k])[source.id];
    SuccessStays(log, k, r);
    MintedTokenFits(r, opts, minted, token, other, now);
  }

  /** A proposal that carries just that token is accepted iff its payload agrees and it asks
      for nothing the token does not cover. */
  lemma MintedCapabilityRoundTrip(
    log: Events, k: nat, source: Intent, opts: Options, minted: int, token: Token, other: Intent, now: int)
    requires Legal(log) && k <= |log| && ValidOptions(opts) && MintedFrom(Latest(log[..k]), source, opts, minted, token)
    requires minted <= now < token.body.expiresAt && SafeInteger(now)
    requires other.actor == source.actor && other.id != source.id && other.capabilities == [token]
    ensures CapabilitiesAccepted(other, Latest(log), opts, now) <==>
      && Agrees(other.payload, Latest(log[..k])[source.id], BindingsOf(opts, source.action))
      && (forall id :: id in other.requiredCapabilities ==> id == token.body.tokenId)
      && (forall action :: action in RequiredBy(opts, other.action) ==> action == source.action)
  {
    MintedTokenVerifies(log, k, source, opts, minted, token, other, now);
    LegalPrefix(log, k);
    LatestKeyed(log[..k]);
    TokenNamesSource(Latest(log[..k]), source, opts, minted, token);
    SoleSource(log, k, source, token);
    SoleToken(token, other, Latest(log), opts, now, source.action);
  }

  lemma TokenNamesSource(trace: Trace, source: Intent, opts: Options, minted: int, token: Token)
    requires Keyed(trace) && MintResultCapabilities(source, trace, opts, minted, token.body.tokenId) == Tokens([token])
    ensures source.id in trace && token.body.sourceProposalId == source.id
  {
    var minting := MintResultCapabilities(source, trace, opts, minted, token.body.tokenId);
    assert minting.tokens[0] == token;
  }

  lemma SoleToken(token: Token, other: Intent, trace: Trace, opts: Options, now: int, action: string)
    requires other.capabilities == [token]
    requires forall a :: SourceActionPresent([token], trace, a) <==> a == action
    ensures CapabilitiesAccepted(other, trace, opts, now) <==>
      && TokenAccepted(token, other, trace, opts, now)
      && (forall id :: id in other.requiredCapabilities ==> id == token.body.tokenId)
      && (forall a :: a in RequiredBy(opts, other.action) ==> a == action)
  {
    assert TokenIds([token]) == [token.body.tokenId];
    assert token in other.capabilities;
  }

  lemma SoleSource(log: Events, k: nat, source: Intent, token: Token)
    requires Legal(log) && k <= |log| && source.id in Latest(log[..k]) && Latest(log[..k])[source.id].intent == source
    requires token.body.sourceProposalId == source.id
    ensures forall action :: SourceActionPresent([token], Latest(log), action) <==> action == source.action
  {
    LegalPrefix(log, k);
    LatestKeyed(log[..k]);
    TraceExtends(log, k, source.id);
    assert [token][0].body.sourceProposalId in Latest(log);
  }
}
