/** Capability tokens and execution contracts: minting, bounds and verification. */
module Crypto {
  import opened Json
  import opened Evidence
  import opened Log
  import opened Index
  import opened Store
  import opened Temporal

  function TokenIds(tokens: seq<Token>): (ids: seq<string>)
    ensures |ids| == |tokens| && forall i :: 0 <= i < |tokens| ==> ids[i] == tokens[i].body.tokenId
  {
    seq(|tokens|, i requires 0 <= i < |tokens| => tokens[i].body.tokenId)
  }

  // ---- Capability tokens ----

  /** `mintCapabilityToken`; `None` is an exception. */
  function MintCapabilityToken(
    source: Record, bound: map<Path, Json>, key: string, ttlMs: int, now: int, tokenId: string): Option<Token>
  {
    if !source.status.SUCCESS? || source.kind.MUTATION? || source.timestamp > now then None
    else if !SafeInteger(ttlMs) || ttlMs <= 0 || !SafeInteger(now) || !SafeInteger(now + ttlMs) then None
    else if bound == map[] || exists path :: path in bound && !ValidPath(path) then None
    else
      var body := TokenBody(tokenId, source.proposalId, source.hash, now, now + ttlMs, source.actorId, bound);
      Some(Token(body, Hmac(key, CapabilityMessage(body))))
  }

  /** `verifyCapabilityToken(...).valid`. */
  predicate TokenVerifies(token: Token, payload: Json, key: string, now: int) {
    var t := token.body;
    && t.boundAttributes != map[] && t.tokenId != "" && t.sourceProposalId != "" && t.actorId != ""
    && SafeInteger(t.issuedAt) && SafeInteger(t.expiresAt) && t.expiresAt > t.issuedAt
    && token.signature == Hmac(key, CapabilityMessage(t))
    && SafeInteger(now) && t.issuedAt <= now < t.expiresAt
    && forall path :: path in t.boundAttributes ==>
         ValidPath(path) && Lookup(Some(payload), path) == Some(t.boundAttributes[path])
  }

  // ---- Execution contracts ----

  predicate BoundsOrdered(b: Bounds) {
    && SafeInteger(b.notBefore) && SafeInteger(b.notAfter) && SafeInteger(b.maxDurationMs)
    && b.notBefore < b.notAfter && 0 < b.maxDurationMs <= b.notAfter - b.notBefore
  }

  /** `[...new Set(hashes)]`. */
  function Dedupe(hashes: seq<Hash>): (r: seq<Hash>)
    ensures NoDuplicates(r) && forall h :: h in r <==> h in hashes
  {
    if hashes == [] then []
    else
      var front, last := Dedupe(hashes[..|hashes| - 1]), hashes[|hashes| - 1];
      assert hashes == hashes[..|hashes| - 1] + [last];
      if last in front then front else front + [last]
  }

  /** Where a value occurs first. */
  predicate FirstAt(s: seq<Hash>, k: nat, x: Hash) { k < |s| && s[k] == x && forall j :: 0 <= j < k ==> s[j] != x }

  /** What is kept comes in the order of first occurrence. */
  lemma {:induction false} DedupeKeepsOrder(hashes: seq<Hash>, i: nat, j: nat, k: nat, l: nat)
    requires i < j < |Dedupe(hashes)| && FirstAt(hashes, k, Dedupe(hashes)[i]) && FirstAt(hashes, l, Dedupe(hashes)[j])
    ensures k < l
  {
    var n := |hashes| - 1;
    var front, kept := hashes[..n], Dedupe(hashes[..n]);
    FirstInFront(hashes, kept[i], k);
    if j < |kept| {
      FirstInFront(hashes, kept[j], l);
      DedupeKeepsOrder(front, i, j, k, l);
    }
  }

  lemma FirstInFront(hashes: seq<Hash>, x: Hash, k: nat)
    requires hashes != [] && x in hashes[..|hashes| - 1] && FirstAt(hashes, k, x)
    ensures FirstAt(hashes[..|hashes| - 1], k, x)
  {
    var m :| 0 <= m < |hashes| - 1 && hashes[..|hashes| - 1][m] == x;
    assert hashes[m] == x;
  }

  /** `mintExecutionContract`; `None` is an exception. */
  function MintExecutionContract(
    intent: Intent, preconditionHashes: seq<Hash>, bounds: Bounds, key: string, now: int,
    policyVersion: Option<string>, contractId: string): Option<Contract>
  {
    var tokens := intent.capabilities;
    if !SafeInteger(now) || !BoundsOrdered(bounds) || "" in TokenIds(tokens) || !NoDuplicates(TokenIds(tokens))
    then None
    else
      var body := ContractBody(contractId, intent.id, intent.actor, intent.action,
        if policyVersion == Some("") then None else policyVersion, HashOf(intent), now, bounds,
        bounds.notBefore, bounds.notAfter, TokenIds(tokens), tokens, Dedupe(preconditionHashes));
      Some(Contract(body, Hmac(key, ContractMessage(body))))
  }

  /** `assertContractBounds` does not throw. */
  predicate WithinBounds(contract: Contract, intent: Intent, now: int) {
    var c := contract.body;
    && c.proposalId == intent.id && c.actorId == intent.actor && c.action == intent.action
    && c.intentHash == HashOf(intent)
    && SafeInteger(now) && BoundsOrdered(c.bounds)
    && c.validAfter == c.bounds.notBefore && c.validBefore == c.bounds.notAfter
    && c.bounds.notBefore <= now < c.bounds.notAfter
  }

  predicate PreconditionHolds(contract: Contract, intent: Intent, log: Events, hash: Hash) {
    var r := TraceByHash(log, hash);
    r.Some? && r.value.status.SUCCESS? && r.value.proposalId != intent.id && r.value.timestamp <= contract.body.issuedAt
  }

  /** `verifyExecutionContract` does not throw. */
  predicate ContractVerifies(contract: Contract, intent: Intent, log: Events, key: string, now: int) {
    var c := contract.body;
    && contract.signature == Hmac(key, ContractMessage(c))
    && c.capabilities == intent.capabilities && c.linkedCapabilities == TokenIds(c.capabilities)
    && NoDuplicates(c.preconditionHashes)
    && WithinBounds(contract, intent, now)
    && forall h :: h in c.preconditionHashes ==> PreconditionHolds(contract, intent, log, h)
  }

  /** A minted contract verifies for its intent throughout its window, wherever its preconditions are logged. */
  lemma MintedContractVerifies(
    intent: Intent, hashes: seq<Hash>, bounds: Bounds, key: string, issuedAt: int,
    policyVersion: Option<string>, contractId: string, log: Events, now: int)
    requires MintExecutionContract(intent, hashes, bounds, key, issuedAt, policyVersion, contractId).Some?
    ensures var contract :=
        MintExecutionContract(intent, hashes, bounds, key, issuedAt, policyVersion, contractId).value;
      ContractVerifies(contract, intent, log, key, now) <==>
        && SafeInteger(now) && bounds.notBefore <= now < bounds.notAfter
        && forall h :: h in hashes ==> PreconditionHolds(contract, intent, log, h)
  {
    assert forall h :: h in Dedupe(hashes) <==> h in hashes;
  }
}
