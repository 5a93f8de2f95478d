/** `ExecutionGateway.execute` on any number of gateways that share the evidence store and one
    controller. Each call is a program counter for the work passed to `withIdentity` and one
    for the caller, who may be rejected by the contract timer while that work goes on. */
module Dispatch {
  import opened Json
  import opened Evidence
  import opened Log
  import opened Store
  import opened Governance
  import opened Stability
  import opened Controller
  import opened ControllerRun

  const OPERATION := "ec2:TerminateInstances"

  /** `authority` is a dispatch authority; `controlled` says that policies come from the controller. */
  datatype Gateway = Gateway(
    callerId: string, delegatedBy: Option<string>, gatewayId: string, options: Options, authority: bool,
    controlled: bool)
  datatype Actual = Actual(instanceId: string, skipOsShutdown: bool)

  /** Where the work of one call stands. The work runs under the timer from `Redeeming` on. */
  datatype Pc =
    | Called | Checked | Guarding(left: nat)
    | Redeeming | Redeemed | Rechecking | Reviewing | Asking | Waiting
    | Running | Succeeded | Logged | Reported | Returned | Threw

  datatype Answer = Executed | Validated | FailedRun | Uncertain | RejectedRun
  datatype Caller =
    | Pending | Deciding | Failing | FailureLogged(evidence: Hash) | Answering | Unavailable | Settled(answer: Answer)

  /** `intent` and the flags are `execute`'s local variables, `deadline` is when the contract timer
      is due; `unlocked` records the last guard
      passed, `redeemedAt` and `completed` the events the call has appended. */
  datatype Exec = Exec(
    gateway: Gateway, grant: Contract, actual: Actual, intent: Option<Intent>, pc: Pc, caller: Caller,
    asked: bool, started: bool, invoked: bool, succeeded: bool, dryRun: bool, permit: Option<string>,
    finished: bool, deadline: int, unlocked: Option<Moment>, redeemedAt: Option<nat>, completed: Option<Hash>)

  /** What a passed guard saw: the log and the clock. */
  datatype Moment = Moment(log: Events, now: int)

  datatype Call = Call(exec: nat, proposalId: string, actual: Actual, permit: Option<string>)

  /** The permit request of a call: past the gate and waiting for its body, or answered. */
  datatype Gate = AtGate(handler: nat) | Answered(permitId: string) | TurnedAway

  /** `gates` holds the requests the controller has begun to handle, one a call; `issued` names
      the call whose request a permit answers; `reports` are the outcome requests sent so far;
      `calls` are the adapter invocations. */
  datatype World = World(
    c: Control, log: Events, execs: map<nat, Exec>, gates: map<nat, Gate>, issued: map<string, nat>,
    reports: set<OutcomeRequest>, calls: seq<Call>)

  datatype Move =
    | Check | Policy(snapshot: string) | Guard(expiresAt: int)
    | Resume | RecheckPolicy(snapshot: string) | RecheckTrace | Ask
    | Expire(permitId: string) | AdapterReturns(dryRun: bool) | Finish | Throw
  datatype Turn = Resolve | Reject | Decide | Lose | Give(definitive: bool)

  datatype Step =
    | Controls(action: Action)
    | PermitGated(h: nat, exec: nat)
    | PermitArrives(exec: nat, permitId: string)
    | PermitLost(exec: nat)
    | ControllerRestarts
    | Append(input: EventInput)
    | Execute(exec: nat, gateway: Gateway, grant: Contract, actual: Actual)
    | Acts(exec: nat, act: Act)
  datatype Act =
    | Local(move: Move) | Settle(turn: Turn)
    | Redeem(eventId: string) | Invoke(permit: Option<string>) | Complete(eventId: string) | Report
    | LogFailure(eventId: string) | ReportFailure(definitive: bool)

  // ---- What `execute` checks ----

  /** The operation an admitted proposal asks for. */
  function Admitted(intent: Intent): Option<Actual> {
    match intent.payload
    case Obj(m) =>
      if "instanceIds" in m && m["instanceIds"].Arr? && |m["instanceIds"].items| > 0 && m["instanceIds"].items[0].Str?
        && "skipOsShutdown" in m && m["skipOsShutdown"].Bool?
      then Some(Actual(m["instanceIds"].items[0].s, m["skipOsShutdown"].b))
      else None
    case _ => None
  }

  /** The contract of the first reservation among the events. */
  function Reserved(events: Events): Option<Contract> {
    if events == [] then None
    else if events[0].body.input.kind.ExecutionReserved? then events[0].body.input.payload.contract
    else Reserved(events[1..])
  }

  /** The checks made on the events read first. */
  predicate GrantMatches(log: Events, gateway: Gateway, grant: Contract, actual: Actual, intent: Intent) {
    var events := EventsOf(log, grant.body.proposalId);
    && events != [] && intent == events[0].body.input.payload.intent
    && grant.body.proposalId != ""
    && intent.actor == gateway.callerId && grant.body.actorId == gateway.callerId
    && intent.delegatedBy == gateway.delegatedBy && intent.gatewayId == Some(gateway.gatewayId)
    && grant.body.action == OPERATION && Admitted(intent) == Some(actual)
    && Reserved(events) == Some(grant)
  }

  function StartedInput(x: Exec, intent: Intent, now: int, eventId: string): EventInput {
    EventInput(eventId, ExecutionStarted, now, x.grant.body.proposalId, Payload(intent, None, Some(x.grant), Null))
  }

  function CompletedInput(x: Exec, intent: Intent, success: bool, now: int, eventId: string): EventInput {
    EventInput(eventId, ExecutionCompleted, now, intent.id,
      Payload(intent, Some(ExecutionResult(success, None)), Some(x.grant), Null))
  }

  /** `None` is a request that `validatePermitRequest` refuses. */
  function Request(x: Exec): Option<PermitRequest> {
    var g := x.grant.body;
    if g.policyVersion.None? then None
    else Some(PermitRequest(g.proposalId, g.contractId, g.policyVersion.value, x.actual.instanceId,
      x.actual.skipOsShutdown, g.bounds.notAfter))
  }

  function OutcomeOf(x: Exec, permitId: string, status: string, evidence: Hash, now: int): OutcomeRequest {
    OutcomeRequest(permitId, x.grant.body.proposalId, x.grant.body.contractId, Outcome(status, Some(evidence)), now)
  }

  // ---- Steps of one call that change only its own variables ----

  predicate UnderTimer(pc: Pc) { !pc.Called? && !pc.Checked? && !pc.Guarding? }

  function FirstIntent(log: Events, id: string): Option<Intent> {
    if EventsOf(log, id) == [] then None else Some(EventsOf(log, id)[0].body.input.payload.intent)
  }

  /** What `source.current()` answers: a controlled gateway asks the controller each time. */
  predicate Names(w: World, x: Exec, snapshot: string) {
    && x.grant.body.policyVersion == Some(snapshot)
    && (x.gateway.controlled ==> snapshot == PolicyRevision(w.c.t.bundle))
  }

  /** The condition of a move: what the call waits for or checks before it. */
  predicate Enabled(w: World, e: nat, m: Move)
    requires e in w.execs
  {
    var x, id := w.execs[e], w.execs[e].grant.body.proposalId;
    match m
    case Check =>
      x.pc.Called? && FirstIntent(w.log, id).Some?
      && GrantMatches(w.log, x.gateway, x.grant, x.actual, FirstIntent(w.log, id).value)
    case Policy(snapshot) => x.pc.Checked? && Names(w, x, snapshot)
    case Guard(expiresAt) =>
      && x.pc.Guarding? && x.intent.Some? && w.c.now < expiresAt
      && CanUnlock(x.grant, x.intent.value, w.log, x.gateway.options, w.c.now)
    case Resume => x.pc.Redeemed?
    case RecheckPolicy(snapshot) => x.pc.Rechecking? && Names(w, x, snapshot)
    case RecheckTrace => x.pc.Reviewing? && HasStatus(w.log, id, RUNNING)
    case Ask => x.pc.Asking? && x.gateway.authority && Request(x).Some?
    case Expire(permitId) =>
      && x.pc.Waiting? && permitId in w.issued && w.issued[permitId] == e
      && permitId in w.c.t.permits && w.c.t.permits[permitId].expiresAt <= w.c.now
    case AdapterReturns(_) => x.pc.Running?
    case Finish => x.pc.Reported? || (x.pc.Logged? && x.permit.None?)
    case Throw => !x.pc.Returned?
  }

  const MAX_TIMER_MS := 2147483647

  /** When the timer set now is due: the identity ends no later than the contract and lasts no
      longer than it allows, and no timer is longer than `MAX_TIMER_MS`. */
  function Capped(grant: Contract, expiresAt: int, now: int): int {
    var end := Least(Least(expiresAt, Some(grant.body.bounds.notAfter)), Some(now + grant.body.bounds.maxDurationMs));
    Least(end, Some(now + MAX_TIMER_MS))
  }

  function Moved(log: Events, now: int, x: Exec, m: Move): Exec {
    match m
    case Check => x.(intent := FirstIntent(log, x.grant.body.proposalId), pc := Checked)
    case Policy(_) => x.(pc := Guarding(5))
    case Guard(expiresAt) =>
      x.(unlocked := Some(Moment(log, now)), deadline := Capped(x.grant, expiresAt, now),
         pc := if x.pc.Guarding? && x.pc.left > 1 then Guarding(x.pc.left - 1) else Redeeming)
    case Resume => x.(started := true, pc := Rechecking)
    case RecheckPolicy(_) => x.(pc := Reviewing)
    case RecheckTrace => x.(pc := Asking)
    case Ask => x.(asked := true, pc := Waiting)
    case Expire(permitId) => x.(permit := Some(permitId), pc := Threw)
    case AdapterReturns(dryRun) => x.(succeeded := true, dryRun := dryRun, pc := Succeeded)
    case Finish => x.(finished := x.permit.Some?, pc := Returned)
    case Throw => x.(pc := Threw)
  }

  /** `withIdentity` rejects: the work has thrown, its cleanup fails, or the timer is due. */
  predicate Rejects(x: Exec, now: int) {
    x.pc.Threw? || x.pc.Returned? || (UnderTimer(x.pc) && x.deadline <= now)
  }

  /** Steps of the caller's side: the race with the timer, and the `catch` block. */
  function Turned(x: Exec, now: int, t: Turn): Caller {
    match t
    case Resolve =>
      if x.pc.Returned? && x.caller.Pending? then Settled(if x.dryRun then Validated else Executed) else x.caller
    case Reject => if x.caller.Pending? && Rejects(x, now) then Deciding else x.caller
    case Decide =>
      if x.caller.Deciding? then (if x.started && !x.succeeded then Failing else Answering) else x.caller
    case Lose => if x.caller.Answering? || x.caller.Failing? then Unavailable else x.caller
    case Give(definitive) =>
      if x.caller.Unavailable? then Settled(if x.invoked then Uncertain else RejectedRun)
      else if x.caller.Answering? then
        Settled(
          if x.invoked then (if definitive then FailedRun else Uncertain)
          else if x.started then FailedRun else RejectedRun)
      else x.caller
  }

  // ---- Steps of the whole system ----

  function Put(w: World, e: nat, x: Exec): World { w.(execs := w.execs[e := x]) }

  function Logging(w: World, input: EventInput): World { w.(log := w.log + [NextEvent(w.log, input)]) }

  /** With an authority a live permit is needed; without one the call goes ahead alone. */
  predicate MayInvoke(w: World, e: nat, permit: Option<string>)
    requires e in w.execs
  {
    match permit
    case None => w.execs[e].pc.Asking? && !w.execs[e].gateway.authority
    case Some(id) =>
      && w.execs[e].pc.Waiting? && id in w.issued && w.issued[id] == e
      && id in w.c.t.permits && w.c.now < w.c.t.permits[id].expiresAt
  }

  /** A call that has sent a well-formed permit request; it may have given up waiting since. */
  predicate Asker(w: World, e: nat) { e in w.execs && w.execs[e].asked && Request(w.execs[e]).Some? }

  /** The pending check, before the body is read; `h` is a fresh handler. */
  function PermitGate(w: World, h: nat, e: nat): World {
    if !Asker(w, e) || e in w.gates || h in w.c.gatedPermits then w
    else if w.c.t.updatePending then w.(gates := w.gates[e := TurnedAway])
    else w.(c := Do(w.c, GatePermit(h)), gates := w.gates[e := AtGate(h)])
  }

  predicate Gated(w: World, e: nat) { Asker(w, e) && e in w.gates && w.gates[e].AtGate? }

  function PermitBodyOf(w: World, e: nat, permitId: string): Action
    requires Gated(w, e)
  {
    PermitBody(w.gates[e].handler, w.execs[e].gateway.gatewayId, Request(w.execs[e]).value, permitId)
  }

  /** The body has arrived: the controller inserts a permit or refuses. */
  function PermitAnswered(w: World, e: nat, permitId: string): World {
    if !Gated(w, e) || permitId in w.c.t.permits then w
    else
      var c' := Do(w.c, PermitBodyOf(w, e, permitId));
      if permitId in c'.t.permits
      then w.(c := c', gates := w.gates[e := Answered(permitId)], issued := w.issued[permitId := e])
      else w.(c := c', gates := w.gates[e := TurnedAway])
  }

  /** The body never parses. */
  function PermitDropped(w: World, e: nat): World {
    if !Gated(w, e) then w
    else w.(c := Do(w.c, Drop(w.gates[e].handler)), gates := w.gates[e := TurnedAway])
  }

  /** The controller starts again: the requests it was handling are lost. */
  function Restarted(w: World): World {
    w.(c := Do(w.c, Restart),
       gates := map e | e in w.gates :: if w.gates[e].AtGate? then TurnedAway else w.gates[e])
  }

  /** The transaction that consumes the grant. */
  function Consumed(w: World, e: nat, eventId: string): World
    requires e in w.execs
  {
    if !w.execs[e].pc.Redeeming? || w.execs[e].intent.None? then w
    else
      var x := w.execs[e];
      var input := StartedInput(x, x.intent.value, w.c.now, eventId);
      if !HasStatus(w.log, x.grant.body.proposalId, RESERVED) || !Accepts(w.log, input) then w
      else Put(Logging(w, input), e, x.(pc := Redeemed, redeemedAt := Some(|w.log|)))
  }

  /** The last check of the permit and the adapter call, in one synchronous block. */
  function Invoked(w: World, e: nat, permit: Option<string>): World
    requires e in w.execs
  {
    if !MayInvoke(w, e, permit) then w
    else
      var x := w.execs[e];
      Put(w, e, x.(permit := permit, invoked := true, pc := Running))
        .(calls := w.calls + [Call(e, x.grant.body.proposalId, x.actual, permit)])
  }

  function Completed(w: World, e: nat, eventId: string): World
    requires e in w.execs
  {
    if !w.execs[e].pc.Succeeded? || w.execs[e].intent.None? then w
    else
      var x := w.execs[e];
      var input := CompletedInput(x, x.intent.value, true, w.c.now, eventId);
      if !Accepts(w.log, input) then w
      else Put(Logging(w, input), e, x.(pc := Logged, completed := Some(NextEvent(w.log, input).currentHash)))
  }

  function SuccessStatus(x: Exec): string { if x.dryRun then "validated" else "executed" }

  function FailureStatus(x: Exec, definitive: bool): string {
    if x.invoked && !definitive then "uncertain" else "failed"
  }

  function SuccessReported(w: World, e: nat): World
    requires e in w.execs
  {
    if !w.execs[e].pc.Logged? || w.execs[e].permit.None? || w.execs[e].completed.None? then w
    else
      var x := w.execs[e];
      Put(w, e, x.(pc := Reported)).(reports := w.reports +
        {OutcomeOf(x, x.permit.value, SuccessStatus(x), x.completed.value, w.c.now)})
  }

  /** The append of the `catch` block, which the store may refuse. */
  function FailureAppended(w: World, e: nat, input: EventInput): World
    requires e in w.execs
  {
    if !Accepts(w.log, input) then Put(w, e, w.execs[e].(caller := Unavailable))
    else Put(Logging(w, input), e, w.execs[e].(caller := FailureLogged(NextEvent(w.log, input).currentHash)))
  }

  function FailureRecorded(w: World, e: nat, eventId: string): World
    requires e in w.execs
  {
    var x := w.execs[e];
    if !x.caller.Failing? || x.intent.None? then w
    else FailureAppended(w, e, CompletedInput(x, x.intent.value, false, w.c.now, eventId))
  }

  function FailureReported(w: World, e: nat, definitive: bool): World
    requires e in w.execs
  {
    if !w.execs[e].caller.FailureLogged? then w
    else
      var x := w.execs[e];
      if x.permit.None? || x.finished then Put(w, e, x.(caller := Answering))
      else
        Put(w, e, x.(caller := Answering, finished := true)).(reports := w.reports +
          {OutcomeOf(x, x.permit.value, FailureStatus(x, definitive), x.caller.evidence, w.c.now)})
  }

  function Acted(w: World, e: nat, act: Act): World
    requires e in w.execs
  {
    match act
    case Local(m) => if Enabled(w, e, m) then Put(w, e, Moved(w.log, w.c.now, w.execs[e], m)) else w
    case Settle(t) => Put(w, e, w.execs[e].(caller := Turned(w.execs[e], w.c.now, t)))
    case Redeem(eventId) => Consumed(w, e, eventId)
    case Invoke(permit) => Invoked(w, e, permit)
    case Complete(eventId) => Completed(w, e, eventId)
    case Report => SuccessReported(w, e)
    case LogFailure(eventId) => FailureRecorded(w, e, eventId)
    case ReportFailure(definitive) => FailureReported(w, e, definitive)
  }

  function Entered(w: World, e: nat, gateway: Gateway, grant: Contract, actual: Actual): World {
    if e in w.execs then w
    else Put(w, e, NewExec(gateway, grant, actual))
  }

  function NewExec(gateway: Gateway, grant: Contract, actual: Actual): Exec {
    Exec(gateway, grant, actual, None, Called, Pending, false, false, false, false, false, None,
      false, 0, None, None, None)
  }

  /** Controller steps other than the permit requests of the calls; outcomes are those reported. */
  predicate Outside(w: World, a: Action) {
    && !a.PermitBody? && !a.GatePermit? && !a.Restart? && (a.Drop? ==> a.h !in w.c.gatedPermits)
    && (a.OutcomeBody? ==> a.report in w.reports)
  }

  function Next(w: World, s: Step): World {
    match s
    case Controls(a) => if Outside(w, a) then w.(c := Do(w.c, a)) else w
    case PermitGated(h, e) => PermitGate(w, h, e)
    case PermitArrives(e, permitId) => PermitAnswered(w, e, permitId)
    case PermitLost(e) => PermitDropped(w, e)
    case ControllerRestarts => Restarted(w)
    case Append(input) => if Accepts(w.log, input) then Logging(w, input) else w
    case Execute(e, gateway, grant, actual) => Entered(w, e, gateway, grant, actual)
    case Acts(e, act) => if e in w.execs then Acted(w, e, act) else w
  }

  function Run(w: World, steps: seq<Step>): World {
    if steps == [] then w else Next(Run(w, steps[..|steps| - 1]), steps[|steps| - 1])
  }

  function Begin(policy: Controller.Policy, bundleId: string, now: int): World {
    World(Start(policy, bundleId, now), [], map[], map[], map[], {}, [])
  }
}
