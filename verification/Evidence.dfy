/** The records of the evidence log: intents, capability tokens, execution contracts, events
    and their trace projection. Hashes and signatures are free constructors, so equal hashes
    mean equal content and a signature names the key and the message it was made from. */
module Evidence {
  import opened Json

  datatype Kind = READ | PROBE | MUTATION

  datatype EventType =
    | IntentReceived | ContextResolved | BlastRadiusEvaluated | EvaluationCompleted
    | CapabilityVerified | CapabilityIssued | TemporalEvaluated
    | ExecutionReserved | ExecutionStarted | ExecutionRejected | ExecutionCancelled
    | IdentityIssued | IdentityUsed | IdentityRevoked
    | ExecutionCompleted | ExecutionSkipped | ProcessingFailed

  datatype Status = RESERVED | RUNNING | SUCCESS | FAILED

  datatype TokenBody = TokenBody(
    tokenId: string, sourceProposalId: string, sourceHash: Hash, issuedAt: int, expiresAt: int,
    actorId: string, boundAttributes: map<Path, Json>)
  datatype Token = Token(body: TokenBody, signature: Signature)

  datatype Requested = Requested(notBefore: Option<int>, notAfter: Option<int>, maxDurationMs: Option<int>)
  datatype Bounds = Bounds(notBefore: int, notAfter: int, maxDurationMs: int)

  datatype Intent = Intent(
    id: string, action: string, actor: string, delegatedBy: Option<string>, gatewayId: Option<string>,
    stamp: int, kind: Option<Kind>, payload: Json,
    capabilities: seq<Token>, requiredCapabilities: seq<string>, temporalBounds: Requested)

  datatype ContractBody = ContractBody(
    contractId: string, proposalId: string, actorId: string, action: string,
    policyVersion: Option<string>, intentHash: IntentHash, issuedAt: int, bounds: Bounds,
    validAfter: int, validBefore: int, linkedCapabilities: seq<string>,
    capabilities: seq<Token>, preconditionHashes: seq<Hash>)
  datatype Contract = Contract(body: ContractBody, signature: Signature)
  datatype IntentHash = HashOf(intent: Intent)

  /** HMAC under separate domains for tokens and contracts; anything else is `Garbage`. */
  datatype Message = CapabilityMessage(token: TokenBody) | ContractMessage(contract: ContractBody)
  datatype Signature = Hmac(key: string, message: Message) | Garbage(text: string)

  datatype ExecutionResult = ExecutionResult(success: bool, result: Option<Json>)
  datatype Payload = Payload(
    intent: Intent, execution: Option<ExecutionResult>, contract: Option<Contract>, details: Json)

  datatype EventInput = EventInput(id: string, kind: EventType, timestamp: int, intentId: string, payload: Payload)
  datatype EventBody = EventBody(input: EventInput, sequence: nat, previousEventHash: Option<Hash>)
  datatype Hash = Sha256(body: EventBody)
  datatype Event = Event(body: EventBody, currentHash: Hash)

  datatype Record = Record(
    proposalId: string, actorId: string, action: string, kind: Kind, timestamp: int,
    status: Status, intent: Intent, result: Option<Json>, hash: Hash)

  datatype TraceQuery = TraceQuery(
    action: string, actorId: Option<string>, fromExclusive: int, toInclusive: int, includeReservations: bool)

  predicate Open(r: Record) { r.status.RESERVED? || r.status.RUNNING? }

  /** `projectTrace`: the execution events among the evidence. */
  function ProjectTrace(e: Event): Option<Record> {
    var input := e.body.input;
    var status :=
      match input.kind
      case ExecutionReserved => Some(RESERVED)
      case ExecutionStarted => Some(RUNNING)
      case ExecutionCancelled => Some(FAILED)
      case ExecutionCompleted =>
        Some(if input.payload.execution.Some? && input.payload.execution.value.success then SUCCESS else FAILED)
      case _ => None;
    if status.None? then None
    else
      var intent := input.payload.intent;
      Some(Record(input.intentId, intent.actor, intent.action,
        if intent.kind.Some? then intent.kind.value else MUTATION,
        input.timestamp, status.value, intent,
        if input.payload.execution.Some? then input.payload.execution.value.result else None,
        e.currentHash))
  }

  /** `matchesQuery`. */
  predicate MatchesQuery(r: Record, q: TraceQuery) {
    && r.action == q.action && (q.actorId.None? || r.actorId == q.actorId.value)
    && r.timestamp <= q.toInclusive
    && ((r.status.SUCCESS? && r.timestamp > q.fromExclusive) || (Open(r) && q.includeReservations))
  }

  /** `assertTraceTransition` does not throw. Comparing intent hashes is comparing intents. */
  predicate TransitionAllowed(previous: Option<Record>, next: Record) {
    previous.None? || (
      var p := previous.value;
      && ((p.status.RESERVED? && !next.status.RESERVED?)
          || (p.status.RUNNING? && (next.status.SUCCESS? || next.status.FAILED?)))
      && HashOf(p.intent) == HashOf(next.intent)
      && p.timestamp <= next.timestamp)
  }

  // ---- Intents and records as JSON, for attribute paths ----

  function KindText(k: Kind): string {
    match k case READ => "READ" case PROBE => "PROBE" case MUTATION => "MUTATION"
  }

  function StatusText(s: Status): string {
    match s case RESERVED => "RESERVED" case RUNNING => "RUNNING" case SUCCESS => "SUCCESS" case FAILED => "FAILED"
  }

  function OptionalField(name: string, text: Option<string>): map<string, Json> {
    if text.Some? then map[name := Str(text.value)] else map[]
  }

  function IntentJson(i: Intent): Json {
    Obj(map["id" := Str(i.id), "type" := Str(i.action), "payload" := i.payload,
            "metadata" := Obj(map["actor" := Str(i.actor), "timestamp" := Num(i.stamp)]
              + OptionalField("delegatedBy", i.delegatedBy) + OptionalField("gatewayId", i.gatewayId))]
        + if i.kind.Some? then map["kind" := Str(KindText(i.kind.value))] else map[])
  }

  function RecordJson(r: Record): Json {
    Obj(map["proposalId" := Str(r.proposalId), "actorId" := Str(r.actorId), "action" := Str(r.action),
            "kind" := Str(KindText(r.kind)), "timestamp" := Num(r.timestamp),
            "status" := Str(StatusText(r.status)), "intent" := IntentJson(r.intent)]
        + if r.result.Some? then map["result" := r.result.value] else map[])
  }
}
