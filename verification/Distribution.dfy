/** Policy distribution: `ControllerPolicyClient.currentFor` on every gateway against the
    controller, with lost replies, failures and crashes between any two awaits. */
module Distribution {
  import opened Json
  import opened Controller
  import opened ControllerRun

  /** Where the one `currentFor` call of a client stands. */
  datatype Pc =
    | Idle | Received(reply: Bundle) | Writing(reply: Bundle) | Written(reply: Bundle)
    | Acking(reply: Bundle) | AwaitingAck(reply: Bundle)

  /** `persisted` is the state file; the rest is lost in a crash. */
  datatype Client = Client(
    persisted: Option<Bundle>, cached: Option<Bundle>, initialized: bool, acknowledged: Option<nat>, pc: Pc)

  datatype Ack = Ack(gatewayId: string, bundle: Bundle)

  /** `issued` are all bundles activated so far; `acks` the acknowledgements sent so far. */
  datatype World = World(c: Control, issued: seq<Bundle>, clients: map<string, Client>, acks: set<Ack>)

  datatype Move = Initialize | Fetch | Check | Persist | Cache | SendAck | AckReply | Fail | Crash

  datatype Step =
    | Controls(action: Action) | AckArrives(ack: Ack) | Join(gatewayId: string) | Moves(gatewayId: string, move: Move)

  function Epoch(b: Option<Bundle>): nat { match b case None => 0 case Some(x) => x.epoch }

  /** `POLICY_ROLLBACK_REJECTED`. */
  predicate Rollback(cached: Option<Bundle>, b: Bundle) {
    cached.Some? && (b.epoch < cached.value.epoch || (b.epoch == cached.value.epoch && b != cached.value))
  }

  /** The step of one client; `bundle` is the controller's current one. */
  function Moved(x: Client, m: Move, bundle: Bundle): Client {
    match m
    case Initialize => if x.initialized || !x.pc.Idle? then x else x.(cached := x.persisted, initialized := true)
    case Fetch => if x.pc.Idle? && x.initialized then x.(pc := Received(bundle)) else x
    case Check =>
      if !x.pc.Received? then x
      else if Rollback(x.cached, x.pc.reply) then x.(pc := Idle)
      else if x.cached.None? || x.pc.reply.epoch > x.cached.value.epoch then x.(pc := Writing(x.pc.reply))
      else if x.acknowledged != Some(x.pc.reply.epoch) then x.(pc := Acking(x.pc.reply))
      else x.(pc := Idle)
    case Persist => if x.pc.Writing? then x.(persisted := Some(x.pc.reply), pc := Written(x.pc.reply)) else x
    case Cache =>
      if x.pc.Written? then x.(cached := Some(x.pc.reply), acknowledged := None, pc := Acking(x.pc.reply)) else x
    case SendAck => if x.pc.Acking? then x.(pc := AwaitingAck(x.pc.reply)) else x
    case AckReply => if x.pc.AwaitingAck? then x.(acknowledged := Some(x.pc.reply.epoch), pc := Idle) else x
    case Fail => x.(pc := Idle)
    case Crash => Client(x.persisted, None, false, None, Idle)
  }

  /** The controller has accepted the acknowledgement the client waits for. */
  predicate Accepted(t: Tables, g: string, x: Client) {
    x.pc.AwaitingAck? && g in t.acks && t.acks[g] == AckRow(x.pc.reply.epoch, x.pc.reply.bundleId)
  }

  function Sent(g: string, x: Client, m: Move): set<Ack> {
    if m.SendAck? && x.pc.Acking? then {Ack(g, x.pc.reply)} else {}
  }

  function Next(w: World, s: Step): World {
    match s
    case Controls(a) =>
      if a.AckBody? then w
      else
        var c' := Do(w.c, a);
        w.(c := c', issued := if c'.t.bundle == w.c.t.bundle then w.issued else w.issued + [c'.t.bundle])
    case AckArrives(m) =>
      if m !in w.acks then w
      else w.(c := Do(w.c, AckBody(m.gatewayId, m.bundle.bundleId, m.bundle.epoch, PolicyRevision(m.bundle))))
    case Join(g) => if g in w.clients then w else w.(clients := w.clients[g := Client(None, None, false, None, Idle)])
    case Moves(g, m) =>
      if g !in w.clients || (m.AckReply? && !Accepted(w.c.t, g, w.clients[g])) then w
      else
        w.(clients := w.clients[g := Moved(w.clients[g], m, w.c.t.bundle)], acks := w.acks + Sent(g, w.clients[g], m))
  }

  function Run(w: World, steps: seq<Step>): World {
    if steps == [] then w else Next(Run(w, steps[..|steps| - 1]), steps[|steps| - 1])
  }

  function Begin(policy: Policy, bundleId: string, now: int): World {
    World(Start(policy, bundleId, now), [Bundle(bundleId, 1, policy)], map[], {})
  }

  // ---- The invariant ----

  /** The bundle activated for its epoch. */
  predicate Issued(w: World, b: Bundle) { 1 <= b.epoch <= |w.issued| && w.issued[b.epoch - 1] == b }

  predicate HeldOk(w: World, b: Option<Bundle>) { b.Some? ==> Issued(w, b.value) }

  predicate ClientOk(w: World, x: Client) {
    && HeldOk(w, x.persisted) && HeldOk(w, x.cached)
    && Epoch(x.cached) <= Epoch(x.persisted)
    && (x.acknowledged.Some? ==> x.acknowledged.value <= Epoch(x.persisted))
    && (!x.pc.Idle? ==> Issued(w, x.pc.reply) && Epoch(x.persisted) <= x.pc.reply.epoch && x.initialized)
    && (x.pc.Written? || x.pc.Acking? || x.pc.AwaitingAck? ==> x.persisted == Some(x.pc.reply))
    && (x.pc.Acking? || x.pc.AwaitingAck? ==> x.cached == Some(x.pc.reply))
  }

  predicate AckOk(w: World, m: Ack) {
    Issued(w, m.bundle) && m.gatewayId in w.clients && m.bundle.epoch <= Epoch(w.clients[m.gatewayId].persisted)
  }

  predicate RowOk(w: World, g: string)
    requires g in w.c.t.acks
  {
    var row := w.c.t.acks[g];
    && g in w.clients && row.epoch <= Epoch(w.clients[g].persisted)
    && 1 <= row.epoch <= |w.issued| && w.issued[row.epoch - 1].bundleId == row.bundleId
  }

  predicate HistoryOk(w: World) {
    && |w.issued| == w.c.t.bundle.epoch && Issued(w, w.c.t.bundle)
    && forall k :: 0 <= k < |w.issued| ==> w.issued[k].epoch == k + 1
  }

  predicate ClientsOk(w: World) {
    && (forall g :: g in w.clients ==> ClientOk(w, w.clients[g]))
    && (forall m :: m in w.acks ==> AckOk(w, m))
  }

  predicate RowsOk(w: World) { forall g :: g in w.c.t.acks ==> RowOk(w, g) }

  predicate Inv(w: World) { HistoryOk(w) && ClientsOk(w) && RowsOk(w) }

  /** What a step never takes back. */
  predicate Advances(w: World, w': World) {
    && w.issued <= w'.issued
    && forall g :: g in w.clients ==> g in w'.clients && Epoch(w.clients[g].persisted) <= Epoch(w'.clients[g].persisted)
  }

  lemma MovedOk(w: World, x: Client, m: Move)
    requires HistoryOk(w) && ClientOk(w, x)
    ensures ClientOk(w, Moved(x, m, w.c.t.bundle)) && Epoch(x.persisted) <= Epoch(Moved(x, m, w.c.t.bundle).persisted)
  {
  }

  predicate RowChange(t: Tables, a: Action, t': Tables)
    requires a.AckBody?
  {
    || t'.acks == t.acks
    || (a.epoch == t.bundle.epoch && a.bundleId == t.bundle.bundleId
        && t'.acks == t.acks[a.gatewayId := AckRow(a.epoch, a.bundleId)])
  }

  /** Acknowledgements are recorded only for the current bundle, and by no other step. */
  lemma RowsOf(c: Control, a: Action)
    ensures !a.AckBody? ==> Do(c, a).t.acks == c.t.acks
    ensures a.AckBody? ==> Do(c, a).t.bundle == c.t.bundle && RowChange(c.t, a, Do(c, a).t)
  {
  }

  lemma RowsStay(w: World, w': World)
    requires RowsOk(w) && Advances(w, w') && w'.c.t.acks == w.c.t.acks
    ensures RowsOk(w')
  {
    forall g | g in w'.c.t.acks ensures RowOk(w', g) { assert RowOk(w, g); }
  }

  lemma ClientsStay(w: World, w': World)
    requires ClientsOk(w) && Advances(w, w') && w'.clients == w.clients && w'.acks == w.acks
    ensures ClientsOk(w')
  {
    forall g | g in w'.clients ensures ClientOk(w', w'.clients[g]) { assert ClientOk(w, w.clients[g]); }
    forall m | m in w'.acks ensures AckOk(w', m) { assert AckOk(w, m); }
  }

  lemma ControlsKeep(w: World, a: Action)
    requires Inv(w) && !a.AckBody?
    ensures Inv(Next(w, Controls(a))) && Advances(w, Next(w, Controls(a)))
  {
    var w' := Next(w, Controls(a));
    EpochStep(w.c, a);
    RowsOf(w.c, a);
    ClientsStay(w, w');
    RowsStay(w, w');
  }

  lemma AckKeeps(w: World, m: Ack)
    requires Inv(w) && m in w.acks
    ensures Inv(Next(w, AckArrives(m))) && Advances(w, Next(w, AckArrives(m)))
  {
    var w' := Next(w, AckArrives(m));
    var a := AckBody(m.gatewayId, m.bundle.bundleId, m.bundle.epoch, PolicyRevision(m.bundle));
    RowsOf(w.c, a);
    ClientsStay(w, w');
    AckedRows(w, m, w'.c);
  }

  lemma AckedRows(w: World, m: Ack, c': Control)
    requires RowsOk(w) && AckOk(w, m) && c'.t.bundle == w.c.t.bundle
    requires c'.t.acks == w.c.t.acks
      || c'.t.acks == w.c.t.acks[m.gatewayId := AckRow(m.bundle.epoch, m.bundle.bundleId)]
    ensures RowsOk(w.(c := c'))
  {
    forall g | g in c'.t.acks ensures RowOk(w.(c := c'), g) { if g in w.c.t.acks { assert RowOk(w, g); } }
  }

  lemma SentOk(w: World, g: string, m: Move, ack: Ack)
    requires g in w.clients && ClientOk(w, w.clients[g]) && ack in Sent(g, w.clients[g], m)
    ensures AckOk(w, ack)
  {
  }

  lemma AckStays(w: World, w': World, ack: Ack)
    requires AckOk(w, ack) && Advances(w, w')
    ensures AckOk(w', ack)
  {
  }

  lemma ClientStays(w: World, w': World, x: Client)
    requires ClientOk(w, x) && w.issued <= w'.issued
    ensures ClientOk(w', x)
  {
  }

  lemma MovesKeep(w: World, g: string, m: Move)
    requires Inv(w) && g in w.clients
    ensures Inv(Next(w, Moves(g, m))) && Advances(w, Next(w, Moves(g, m)))
  {
    var w' := Next(w, Moves(g, m));
    MovedOk(w, w.clients[g], m);
    assert Advances(w, w');
    RowsStay(w, w');
    forall h | h in w'.clients ensures ClientOk(w', w'.clients[h]) { ClientStays(w, w', w'.clients[h]); }
    forall ack | ack in w'.acks ensures AckOk(w', ack) {
      if ack !in w.acks { SentOk(w, g, m, ack); }
      AckStays(w, w', ack);
    }
  }

  lemma JoinKeeps(w: World, g: string)
    requires Inv(w)
    ensures Inv(Next(w, Join(g))) && Advances(w, Next(w, Join(g)))
  {
    var w' := Next(w, Join(g));
    RowsStay(w, w');
    forall h | h in w'.clients ensures ClientOk(w', w'.clients[h]) {
      if h in w.clients { assert ClientOk(w, w.clients[h]); }
    }
    forall ack | ack in w'.acks ensures AckOk(w', ack) { assert AckOk(w, ack); }
  }

  lemma NextKeepsInv(w: World, s: Step)
    requires Inv(w)
    ensures Inv(Next(w, s)) && Advances(w, Next(w, s))
  {
    match s
    case Controls(a) => if !a.AckBody? { ControlsKeep(w, a); }
    case AckArrives(m) => if m in w.acks { AckKeeps(w, m); }
    case Join(g) => JoinKeeps(w, g);
    case Moves(g, m) => if g in w.clients { MovesKeep(w, g, m); }
  }

  /** Over any run, with crashes anywhere: no gateway's persisted epoch ever decreases. */
  lemma {:induction false} RunKeepsInv(w: World, steps: seq<Step>)
    requires Inv(w)
    ensures Inv(Run(w, steps)) && Advances(w, Run(w, steps))
  {
    if steps != [] {
      RunKeepsInv(w, steps[..|steps| - 1]);
      NextKeepsInv(Run(w, steps[..|steps| - 1]), steps[|steps| - 1]);
    }
  }

  // ---- Main results ----

  /** Acknowledged, persisted and current epochs are ordered, for every gateway at any time. */
  lemma DistributionOrder(policy: Policy, bundleId: string, now: int, steps: seq<Step>, g: string)
    ensures var w := Run(Begin(policy, bundleId, now), steps);
      g in w.clients ==>
        && Epoch(w.clients[g].persisted) <= w.c.t.bundle.epoch
        && Epoch(w.clients[g].cached) <= Epoch(w.clients[g].persisted)
        && (g in w.c.t.acks ==> w.c.t.acks[g].epoch <= Epoch(w.clients[g].persisted))
  {
    RunKeepsInv(Begin(policy, bundleId, now), steps);
    var w := Run(Begin(policy, bundleId, now), steps);
    if g in w.clients { assert ClientOk(w, w.clients[g]); }
    if g in w.c.t.acks { assert RowOk(w, g); }
  }

  predicate Holds(x: Client, b: Bundle) { x.persisted == Some(b) || x.cached == Some(b) }

  /** One epoch never names two bundles: if a gateway holds one bundle at some moment of a run,
      and any gateway holds another later, persisted or cached, their epochs differ. */
  lemma OneBundlePerEpoch(w: World, steps: seq<Step>, g: string, h: string, a: Bundle, b: Bundle)
    requires Inv(w) && g in w.clients && Holds(w.clients[g], a)
    requires h in Run(w, steps).clients && Holds(Run(w, steps).clients[h], b)
    ensures a.epoch == b.epoch ==> a == b
  {
    RunKeepsInv(w, steps);
    HeldIsIssued(w, g, a);
    HeldIsIssued(Run(w, steps), h, b);
    IssuedOnce(w, Run(w, steps), a, b);
  }

  lemma HeldIsIssued(w: World, g: string, b: Bundle)
    requires ClientsOk(w) && g in w.clients && Holds(w.clients[g], b)
    ensures Issued(w, b)
  {
    assert ClientOk(w, w.clients[g]);
  }

  lemma IssuedOnce(w: World, w': World, a: Bundle, b: Bundle)
    requires w.issued <= w'.issued && Issued(w, a) && Issued(w', b)
    ensures a.epoch == b.epoch ==> a == b
  {
  }

  /** A gateway never refuses the controller's own current bundle as a rollback. */
  lemma CurrentIsNoRollback(w: World, g: string)
    requires Inv(w) && g in w.clients
    ensures !Rollback(w.clients[g].cached, w.c.t.bundle)
  {
    assert ClientOk(w, w.clients[g]);
  }
}
