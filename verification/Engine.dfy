/** `OpenKedgeEngine.process` with governance: any number of calls on one shared store, each
    interrupted at every `await`, with the contract timer settling a call whose executor goes on. */
module Engine {
  import opened Json
  import opened Evidence
  import opened Log
  import opened Store
  import Conservation

  /** Where one call stands. The executor's side goes on after the caller's side has failed. */
  datatype Pc =
    | Open | Reserved | Executing | Recorded(success: bool) | Stopped
  datatype Caller = Pending | Caught | Cancelled | Resolved | Threw

  datatype Proc = Proc(intent: Intent, contract: Option<Contract>, pc: Pc, caller: Caller, executorStarted: bool)

  /** `executions` are the proposals handed to the executor, in order. */
  datatype World = World(log: Events, procs: map<nat, Proc>, executions: seq<string>)

  datatype Move =
    | Reserve(contract: Contract, now: int, eventId: string)
    | StartExecutor
    | Complete(success: bool, now: int, eventId: string)
    | Stop | Catch
    | Cancel(now: int, eventId: string)
    | Settle

  datatype Step =
    | Append(input: EventInput)
    | Receive(proc: nat, intent: Intent, now: int, eventId: string)
    | Moves(proc: nat, move: Move)

  function Input(kind: EventType, x: Proc, success: Option<bool>, now: int, eventId: string): EventInput {
    EventInput(eventId, kind, now, x.intent.id,
      Payload(x.intent, if success.Some? then Some(ExecutionResult(success.value, None)) else None, x.contract, Null))
  }

  predicate Owned(w: World, id: string) { exists p :: p in w.procs && w.procs[p].intent.id == id }

  predicate IsExecutionEvent(kind: EventType) {
    kind.ExecutionReserved? || kind.ExecutionStarted? || kind.ExecutionCancelled? || kind.ExecutionCompleted?
  }

  function Logging(w: World, input: EventInput): World { w.(log := w.log + [NextEvent(w.log, input)]) }

  function Put(w: World, p: nat, x: Proc): World { w.(procs := w.procs[p := x]) }

  /** One step. A call that is refused as a duplicate leaves no trace and is not recorded. */
  function Next(w: World, s: Step): World {
    match s
    case Append(input) =>
      // Other evidence, and other writers' proposals.
      if Accepts(w.log, input) && (!IsExecutionEvent(input.kind) || !Owned(w, input.intentId))
      then Logging(w, input) else w
    case Receive(p, intent, now, eventId) =>
      var x := Proc(intent, None, Open, Pending, false);
      var input := Input(IntentReceived, x, None, now, eventId);
      if p in w.procs || EventsOf(w.log, intent.id) != [] || !Accepts(w.log, input) then w
      else Put(Logging(w, input), p, x)
    case Moves(p, m) => if p in w.procs then Moved(w, p, m) else w
  }

  /** The last event, the cancellation of a call that holds a reservation. */
  function Cancelling(w: World, p: nat, input: EventInput): World
    requires p in w.procs
  {
    if Accepts(w.log, input) then Put(Logging(w, input), p, w.procs[p].(caller := Cancelled))
    else Put(w, p, w.procs[p].(caller := Threw))
  }

  function Moved(w: World, p: nat, m: Move): World
    requires p in w.procs
  {
    var x := w.procs[p];
    match m
    case Reserve(contract, now, eventId) =>
      var y := x.(contract := Some(contract), pc := Reserved);
      var input := Input(ExecutionReserved, y, None, now, eventId);
      if !x.pc.Open? || !x.caller.Pending? || x.intent.id in Latest(w.log) || !Accepts(w.log, input) then w
      else Put(Logging(w, input), p, y)
    case StartExecutor =>
      // `withIdentity` calls the work only while the caller is still waiting for it.
      if !x.pc.Reserved? || !x.caller.Pending? then w
      else Put(w, p, x.(pc := Executing, executorStarted := true)).(executions := w.executions + [x.intent.id])
    case Complete(success, now, eventId) =>
      var input := Input(ExecutionCompleted, x, Some(success), now, eventId);
      if !x.pc.Executing? || !Accepts(w.log, input) then w
      else Put(Logging(w, input), p, x.(pc := Recorded(success)))
    case Stop => if x.pc.Executing? then Put(w, p, x.(pc := Stopped)) else w
    case Catch => if x.caller.Pending? then Put(w, p, x.(caller := Caught)) else w
    case Cancel(now, eventId) =>
      if !x.caller.Caught? then w
      else if x.contract.None? || x.executorStarted then Put(w, p, x.(caller := Cancelled))
      else Cancelling(w, p, Input(ExecutionCancelled, x, None, now, eventId))
    case Settle =>
      if x.caller.Cancelled? || (x.caller.Pending? && (x.pc.Recorded? || x.pc.Open?))
      then Put(w, p, x.(caller := Resolved)) else w
  }

  function Run(w: World, steps: seq<Step>): World {
    if steps == [] then w else Next(Run(w, steps[..|steps| - 1]), steps[|steps| - 1])
  }

  const Empty := World([], map[], [])

  // ---- The invariant ----

  /** The status the log gives to a call's reservation. */
  function Shown(x: Proc): Status {
    match x.pc
    case Recorded(success) => if success then SUCCESS else FAILED
    case Reserved => if x.caller.Cancelled? || x.caller.Resolved? then FAILED else RESERVED
    case _ => RESERVED
  }

  predicate ProcOk(log: Events, x: Proc) {
    && EventsOf(log, x.intent.id) != []
    && (x.executorStarted <==> x.pc.Executing? || x.pc.Recorded? || x.pc.Stopped?)
    && (x.contract.Some? <==> !x.pc.Open?)
    && (x.pc.Open? ==> x.intent.id !in Latest(log))
    && (!x.pc.Open? ==> ShowsStatus(log, x.intent, Shown(x)))
  }

  predicate ShowsStatus(log: Events, intent: Intent, status: Status) {
    HasStatus(log, intent.id, status) && Latest(log)[intent.id].intent == intent
  }

  /** Each entry is the proposal of a call that has started the executor. */
  predicate Started(w: World, id: string) {
    exists p :: p in w.procs && w.procs[p].executorStarted && w.procs[p].intent.id == id
  }

  predicate ProcsOk(w: World) { forall p :: p in w.procs ==> ProcOk(w.log, w.procs[p]) }

  predicate OneProcEach(w: World) {
    forall p, q :: p in w.procs && q in w.procs && w.procs[p].intent.id == w.procs[q].intent.id ==> p == q
  }

  predicate ExecutionsOk(w: World) {
    && (forall i :: 0 <= i < |w.executions| ==> Started(w, w.executions[i]))
    && (forall i, j :: 0 <= i < j < |w.executions| ==> w.executions[i] != w.executions[j])
  }

  ghost predicate Inv(w: World) { Legal(w.log) && ProcsOk(w) && OneProcEach(w) && ExecutionsOk(w) }

  // ---- What an appended event changes ----

  lemma {:induction false} NoEventsNoTrace(log: Events, id: string)
    requires EventsOf(log, id) == []
    ensures id !in Latest(log)
  {
    if log != [] { NoEventsNoTrace(Front(log), id); }
  }

  /** The effect of one accepted append on one proposal. */
  lemma AppendEffect(log: Events, input: EventInput, id: string)
    requires Legal(log) && Accepts(log, input)
    ensures var log' := log + [NextEvent(log, input)];
      && Legal(log') && (EventsOf(log, id) != [] || input.intentId == id ==> EventsOf(log', id) != [])
      && (input.intentId != id || !IsExecutionEvent(input.kind) ==> Get(Latest(log'), id) == Get(Latest(log), id))
      && (input.intentId == id && IsExecutionEvent(input.kind) ==>
           Get(Latest(log'), id) == ProjectTrace(NextEvent(log, input)) && id in Latest(log'))
  {
    LegalAppend(log, input);
    assert Front(log + [NextEvent(log, input)]) == log;
  }

  /** One call moves: its own proposal is the only one whose trace may change. */
  lemma OneMoves(w: World, w': World, p: nat)
    requires Inv(w) && Legal(w'.log) && p in w.procs && p in w'.procs && w'.procs == w.procs[p := w'.procs[p]]
    requires w'.procs[p].intent == w.procs[p].intent && ProcOk(w'.log, w'.procs[p])
    requires w.procs[p].executorStarted ==> w'.procs[p].executorStarted
    requires forall id :: id != w.procs[p].intent.id ==>
      Get(Latest(w'.log), id) == Get(Latest(w.log), id) && (EventsOf(w.log, id) != [] ==> EventsOf(w'.log, id) != [])
    requires w'.executions == w.executions || (!w.procs[p].executorStarted && w'.procs[p].executorStarted
      && w'.executions == w.executions + [w.procs[p].intent.id])
    ensures Inv(w')
  {
    forall q | q in w'.procs ensures ProcOk(w'.log, w'.procs[q]) {
      assert ProcOk(w.log, w.procs[q]);
      if q != p {
        assert w.procs[q].intent.id != w.procs[p].intent.id;
        assert Get(Latest(w'.log), w.procs[q].intent.id) == Get(Latest(w.log), w.procs[q].intent.id);
      }
    }
    forall i | 0 <= i < |w'.executions| ensures Started(w', w'.executions[i]) {
      if i < |w.executions| {
        assert Started(w, w.executions[i]);
        var q :| q in w.procs && w.procs[q].executorStarted && w.procs[q].intent.id == w.executions[i];
        assert q in w'.procs && w'.procs[q].executorStarted;
      }
    }
    forall i, j | 0 <= i < j < |w'.executions| ensures w'.executions[i] != w'.executions[j] {
      assert Started(w, w.executions[i]);
    }
  }

  /** A move that appends an execution event of its own proposal. */
  lemma LoggedMove(w: World, p: nat, input: EventInput, y: Proc)
    requires Inv(w) && p in w.procs && Accepts(w.log, input)
    requires input.intentId == w.procs[p].intent.id && IsExecutionEvent(input.kind)
    requires y.intent == w.procs[p].intent && y.executorStarted == w.procs[p].executorStarted
    requires ProcOk(w.log + [NextEvent(w.log, input)], y)
    ensures Inv(Put(Logging(w, input), p, y))
  {
    LegalAppend(w.log, input);
    forall id | id != input.intentId
      ensures Get(Latest(Logging(w, input).log), id) == Get(Latest(w.log), id)
        && (EventsOf(w.log, id) != [] ==> EventsOf(Logging(w, input).log, id) != [])
    {
      AppendEffect(w.log, input, id);
    }
    OneMoves(w, Put(Logging(w, input), p, y), p);
  }

  lemma ReserveKeeps(w: World, p: nat, contract: Contract, now: int, eventId: string)
    requires Inv(w) && p in w.procs
    ensures Inv(Moved(w, p, Reserve(contract, now, eventId)))
  {
    var w', x := Moved(w, p, Reserve(contract, now, eventId)), w.procs[p];
    assert ProcOk(w.log, x);
    if w'.log != w.log {
      var y := x.(contract := Some(contract), pc := Reserved);
      var input := Input(ExecutionReserved, y, None, now, eventId);
      AppendEffect(w.log, input, x.intent.id);
      LoggedMove(w, p, input, y);
    }
  }

  lemma RecordedProc(log: Events, x: Proc, success: bool, now: int, eventId: string)
    requires Legal(log) && ProcOk(log, x) && x.pc.Executing?
    requires Accepts(log, Input(ExecutionCompleted, x, Some(success), now, eventId))
    ensures var input := Input(ExecutionCompleted, x, Some(success), now, eventId);
      ProcOk(log + [NextEvent(log, input)], x.(pc := Recorded(success)))
  {
    AppendEffect(log, Input(ExecutionCompleted, x, Some(success), now, eventId), x.intent.id);
  }

  lemma CompleteKeeps(w: World, p: nat, success: bool, now: int, eventId: string)
    requires Inv(w) && p in w.procs
    ensures Inv(Moved(w, p, Complete(success, now, eventId)))
  {
    var w', x := Moved(w, p, Complete(success, now, eventId)), w.procs[p];
    assert ProcOk(w.log, x);
    if w'.log != w.log {
      RecordedProc(w.log, x, success, now, eventId);
      LoggedMove(w, p, Input(ExecutionCompleted, x, Some(success), now, eventId), x.(pc := Recorded(success)));
    }
  }

  lemma CancellingKeeps(w: World, p: nat, now: int, eventId: string)
    requires Inv(w) && p in w.procs && w.procs[p].pc.Reserved? && w.procs[p].caller.Caught?
    ensures Inv(Cancelling(w, p, Input(ExecutionCancelled, w.procs[p], None, now, eventId)))
  {
    var x := w.procs[p];
    var input := Input(ExecutionCancelled, x, None, now, eventId);
    assert ProcOk(w.log, x);
    if Accepts(w.log, input) {
      AppendEffect(w.log, input, x.intent.id);
      LoggedMove(w, p, input, x.(caller := Cancelled));
    } else {
      OneMoves(w, Cancelling(w, p, input), p);
    }
  }

  lemma MovedKeeps(w: World, p: nat, m: Move)
    requires Inv(w) && p in w.procs
    ensures Inv(Moved(w, p, m))
  {
    assert ProcOk(w.log, w.procs[p]);
    match m
    case Reserve(contract, now, eventId) => ReserveKeeps(w, p, contract, now, eventId);
    case Complete(success, now, eventId) => CompleteKeeps(w, p, success, now, eventId);
    case Cancel(now, eventId) =>
      if w.procs[p].pc.Reserved? && w.procs[p].caller.Caught? { CancellingKeeps(w, p, now, eventId); }
      else if w.procs[p].caller.Caught? { OneMoves(w, Moved(w, p, m), p); }
    case StartExecutor => if w.procs[p].pc.Reserved? && w.procs[p].caller.Pending? { OneMoves(w, Moved(w, p, m), p); }
    case Stop => if w.procs[p].pc.Executing? { OneMoves(w, Moved(w, p, m), p); }
    case Catch => if w.procs[p].caller.Pending? { OneMoves(w, Moved(w, p, m), p); }
    case Settle => if Moved(w, p, m) != w { OneMoves(w, Moved(w, p, m), p); }
  }

  lemma AppendKeeps(w: World, input: EventInput)
    requires Inv(w) && Accepts(w.log, input) && (!IsExecutionEvent(input.kind) || !Owned(w, input.intentId))
    ensures Inv(Logging(w, input))
  {
    LegalAppend(w.log, input);
    var w' := Logging(w, input);
    forall q | q in w'.procs ensures ProcOk(w'.log, w'.procs[q]) {
      assert ProcOk(w.log, w.procs[q]);
      AppendEffect(w.log, input, w.procs[q].intent.id);
      assert Get(Latest(w'.log), w.procs[q].intent.id) == Get(Latest(w.log), w.procs[q].intent.id);
    }
    forall i | 0 <= i < |w'.executions| ensures Started(w', w'.executions[i]) { assert Started(w, w.executions[i]); }
  }

  /** A new call for a proposal without any events. */
  lemma ProcAdded(w: World, p: nat, x: Proc)
    requires Inv(w) && p !in w.procs && ProcOk(w.log, x) && !x.executorStarted && !Owned(w, x.intent.id)
    ensures Inv(Put(w, p, x))
  {
    var w' := Put(w, p, x);
    forall i | 0 <= i < |w'.executions| ensures Started(w', w'.executions[i]) {
      assert Started(w, w.executions[i]);
      var q :| q in w.procs && w.procs[q].executorStarted && w.procs[q].intent.id == w.executions[i];
      assert q in w'.procs && w'.procs[q] == w.procs[q];
    }
  }

  lemma ReceivedProc(log: Events, intent: Intent, now: int, eventId: string)
    requires Legal(log) && EventsOf(log, intent.id) == []
    requires Accepts(log, Input(IntentReceived, Proc(intent, None, Open, Pending, false), None, now, eventId))
    ensures var x := Proc(intent, None, Open, Pending, false);
      ProcOk(log + [NextEvent(log, Input(IntentReceived, x, None, now, eventId))], x)
  {
    NoEventsNoTrace(log, intent.id);
    AppendEffect(log, Input(IntentReceived, Proc(intent, None, Open, Pending, false), None, now, eventId), intent.id);
  }

  lemma NotOwned(w: World, id: string)
    requires ProcsOk(w) && EventsOf(w.log, id) == []
    ensures !Owned(w, id)
  {
    forall q | q in w.procs ensures w.procs[q].intent.id != id { assert ProcOk(w.log, w.procs[q]); }
  }

  lemma ReceiveKeeps(w: World, p: nat, intent: Intent, now: int, eventId: string)
    requires Inv(w)
    ensures Inv(Next(w, Receive(p, intent, now, eventId)))
  {
    var x := Proc(intent, None, Open, Pending, false);
    var input := Input(IntentReceived, x, None, now, eventId);
    if p !in w.procs && EventsOf(w.log, intent.id) == [] && Accepts(w.log, input) {
      NotOwned(w, intent.id);
      AppendKeeps(w, input);
      ReceivedProc(w.log, intent, now, eventId);
      ProcAdded(Logging(w, input), p, x);
    }
  }

  lemma {:induction false} RunKeepsInv(steps: seq<Step>)
    ensures Inv(Run(Empty, steps))
  {
    if steps != [] {
      RunKeepsInv(steps[..|steps| - 1]);
      var w := Run(Empty, steps[..|steps| - 1]);
      match steps[|steps| - 1]
      case Append(input) =>
        if Accepts(w.log, input) && (!IsExecutionEvent(input.kind) || !Owned(w, input.intentId)) {
          AppendKeeps(w, input);
        }
      case Receive(p, intent, now, eventId) => ReceiveKeeps(w, p, intent, now, eventId);
      case Moves(p, m) => if p in w.procs { MovedKeeps(w, p, m); }
    }
  }

  // ---- Main results ----

  /** The states of all runs, from an empty log. */
  ghost predicate Reachable(w: World) { exists steps :: w == Run(Empty, steps) }

  lemma ReachableInv(w: World)
    requires Reachable(w)
    ensures Inv(w)
  {
    var steps :| w == Run(Empty, steps);
    RunKeepsInv(steps);
  }

  /** Over every run, the executor runs at most once for each proposal id. */
  lemma ExecutorAtMostOnce(w: World, i: nat, j: nat)
    requires Reachable(w) && i < j < |w.executions|
    ensures w.executions[i] != w.executions[j]
  {
    ReachableInv(w);
  }

  /** After `process` has resolved, a reservation whose executor never started is FAILED; at any
      time, one whose executor started is SUCCESS or FAILED as recorded, or else still RESERVED. */
  lemma Settlement(w: World, p: nat)
    requires Reachable(w) && p in w.procs && w.procs[p].contract.Some?
    ensures var x := w.procs[p];
      (!x.executorStarted && x.caller.Resolved? ==> HasStatus(w.log, x.intent.id, FAILED))
      && (x.executorStarted && !x.pc.Recorded? ==> HasStatus(w.log, x.intent.id, RESERVED))
      && (x.pc.Recorded? ==> HasStatus(w.log, x.intent.id, if x.pc.success then SUCCESS else FAILED))
  {
    ReachableInv(w);
    assert ProcOk(w.log, w.procs[p]);
  }

  /** A cancelled proposal was never handed to the executor, and never will be. */
  lemma CancelledNeverStarts(w: World, p: nat, i: nat)
    requires Reachable(w) && p in w.procs && i < |w.executions|
    requires w.procs[p].pc.Reserved? && w.procs[p].caller.Cancelled?
    ensures w.executions[i] != w.procs[p].intent.id && Moved(w, p, StartExecutor) == w
  {
    ReachableInv(w);
    assert ProcOk(w.log, w.procs[p]) && Started(w, w.executions[i]);
  }

  /** Cancelling is refused only for a used event id or a clock before the reservation. */
  lemma CancelAccepted(w: World, p: nat, now: int, eventId: string)
    requires Reachable(w) && p in w.procs && w.procs[p].pc.Reserved? && w.procs[p].caller.Caught?
    ensures w.procs[p].intent.id in Latest(w.log)
    ensures Accepts(w.log, Input(ExecutionCancelled, w.procs[p], None, now, eventId)) <==>
      eventId !in EventIds(w.log) && Latest(w.log)[w.procs[p].intent.id].timestamp <= now
  {
    ReachableInv(w);
    assert ProcOk(w.log, w.procs[p]);
  }

  // ---- Conservation ----

  /** No other writer uses the store for executions. */
  predicate EngineOnly(s: Step) { s.Append? ==> !IsExecutionEvent(s.input.kind) }

  lemma GovernedAppend(log: Events, input: EventInput)
    requires Conservation.Governed(log)
    requires IsExecutionEvent(input.kind) ==> input.kind.ExecutionReserved? || input.intentId in Latest(log)
    ensures Conservation.Governed(log + [NextEvent(log, input)])
  {
    assert Front(log + [NextEvent(log, input)]) == log;
  }

  lemma MovedGoverned(w: World, p: nat, m: Move)
    requires Inv(w) && p in w.procs && Conservation.Governed(w.log)
    ensures Conservation.Governed(Moved(w, p, m).log)
  {
    var x := w.procs[p];
    assert ProcOk(w.log, x);
    match m
    case Reserve(contract, now, eventId) =>
      GovernedAppend(w.log,
        Input(ExecutionReserved, x.(contract := Some(contract), pc := Reserved), None, now, eventId));
    case Complete(success, now, eventId) =>
      if x.pc.Executing? { GovernedAppend(w.log, Input(ExecutionCompleted, x, Some(success), now, eventId)); }
    case Cancel(now, eventId) =>
      if x.contract.Some? { GovernedAppend(w.log, Input(ExecutionCancelled, x, None, now, eventId)); }
    case _ =>
  }

  lemma {:induction false} RunGoverned(steps: seq<Step>)
    requires forall i :: 0 <= i < |steps| ==> EngineOnly(steps[i])
    ensures Conservation.Governed(Run(Empty, steps).log)
  {
    if steps != [] {
      RunGoverned(steps[..|steps| - 1]);
      RunKeepsInv(steps[..|steps| - 1]);
      var w := Run(Empty, steps[..|steps| - 1]);
      assert EngineOnly(steps[|steps| - 1]);
      match steps[|steps| - 1]
      case Append(input) => if Accepts(w.log, input) && !IsExecutionEvent(input.kind) { GovernedAppend(w.log, input); }
      case Receive(p, intent, now, eventId) =>
        GovernedAppend(w.log, Input(IntentReceived, Proc(intent, None, Open, Pending, false), None, now, eventId));
      case Moves(p, m) => if p in w.procs { MovedGoverned(w, p, m); }
    }
  }

  /** Over every run of the engine alone: reservations made = successes + failures + open ones. */
  lemma EngineConservesReservations(steps: seq<Step>)
    requires forall i :: 0 <= i < |steps| ==> EngineOnly(steps[i])
    ensures var log := Run(Empty, steps).log;
      Conservation.Count(log, RESERVED) == Conservation.Count(log, SUCCESS) + Conservation.Count(log, FAILED)
        + Conservation.OpenCount(Latest(log))
  {
    RunGoverned(steps);
    RunKeepsInv(steps);
    Conservation.ReservationsAreConserved(Run(Empty, steps).log);
  }
}
