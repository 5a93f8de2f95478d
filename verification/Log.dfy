/** The evidence log as the sequence of committed events: what any store must answer,
    and what every accepted history satisfies. */
module Log {
  import opened Json
  import opened Evidence

  type Events = seq<Event>
  type Trace = map<string, Record>

  function Front(log: Events): Events requires log != [] { log[..|log| - 1] }
  function Last(log: Events): Event requires log != [] { log[|log| - 1] }

  /** The last event of one intent. */
  function Prior(log: Events, intentId: string): Option<Event> {
    if log == [] then None
    else if Last(log).body.input.intentId == intentId then Some(Last(log))
    else Prior(Front(log), intentId)
  }

  function FinalizeEvent(input: EventInput, previous: Option<Event>): Event {
    var body := EventBody(input,
      (if previous.Some? then previous.value.body.sequence else 0) + 1,
      if previous.Some? then Some(previous.value.currentHash) else None);
    Event(body, Sha256(body))
  }

  /** The latest record of every proposal. */
  function Latest(log: Events): Trace {
    if log == [] then map[]
    else match ProjectTrace(Last(log))
      case None => Latest(Front(log))
      case Some(r) => Latest(Front(log))[r.proposalId := r]
  }

  function Get<T>(m: map<string, T>, k: string): Option<T> { if k in m then Some(m[k]) else None }

  predicate HasStatus(log: Events, id: string, status: Status) {
    id in Latest(log) && Latest(log)[id].status == status
  }

  function EventIds(log: Events): set<string> { set e | e in log :: e.body.input.id }

  function NextEvent(log: Events, input: EventInput): Event { FinalizeEvent(input, Prior(log, input.intentId)) }

  /** `append` does not throw. */
  predicate Accepts(log: Events, input: EventInput) {
    && input.id !in EventIds(log)
    && (var r := ProjectTrace(NextEvent(log, input));
        r.Some? ==> TransitionAllowed(Get(Latest(log), r.value.proposalId), r.value))
  }

  /** Histories built by accepted appends from an empty store. */
  ghost predicate Legal(log: Events) {
    log == [] || (
      && Legal(Front(log))
      && Accepts(Front(log), Last(log).body.input)
      && Last(log) == NextEvent(Front(log), Last(log).body.input))
  }

  lemma LegalAppend(log: Events, input: EventInput)
    requires Legal(log) && Accepts(log, input)
    ensures Legal(log + [NextEvent(log, input)])
    ensures var r := ProjectTrace(NextEvent(log, input));
      Latest(log + [NextEvent(log, input)])
        == if r.Some? then Latest(log)[r.value.proposalId := r.value] else Latest(log)
  {
    assert Front(log + [NextEvent(log, input)]) == log;
  }

  lemma {:induction false} LegalPrefix(log: Events, k: nat)
    requires Legal(log) && k <= |log|
    ensures Legal(log[..k])
  {
    if k < |log| {
      assert Front(log)[..k] == log[..k];
      LegalPrefix(Front(log), k);
    } else {
      assert log[..k] == log;
    }
  }

  /** Every latest record is the projection of a logged event and carries its proposal's id. */
  lemma {:induction false} LatestIsLogged(log: Events, p: string) returns (e: Event)
    requires Legal(log) && p in Latest(log)
    ensures e in log && ProjectTrace(e) == Some(Latest(log)[p]) && Latest(log)[p].proposalId == p
    ensures e.currentHash == Latest(log)[p].hash
  {
    var r := ProjectTrace(Last(log));
    if r.Some? && r.value.proposalId == p { e := Last(log); } else { e := LatestIsLogged(Front(log), p); }
  }

  /** What a proposal's latest record keeps: its intent, and a terminal record for good. */
  predicate Extends(before: Record, after: Record) {
    && after.intent == before.intent && after.proposalId == before.proposalId
    && after.action == before.action && after.actorId == before.actorId
    && before.timestamp <= after.timestamp
    && (!Open(before) ==> after == before)
    && (after.status.RESERVED? ==> after == before)
  }

  lemma {:induction false} TraceExtends(log: Events, k: nat, p: string)
    requires Legal(log) && k <= |log| && p in Latest(log[..k])
    ensures p in Latest(log) && Extends(Latest(log[..k])[p], Latest(log)[p])
  {
    if k == |log| {
      assert log[..k] == log;
      var _ := LatestIsLogged(log, p);
    } else {
      assert Front(log)[..k] == log[..k];
      TraceExtends(Front(log), k, p);
      LegalPrefix(log, k);
      var e := LatestIsLogged(log[..k], p);
      var e' := LatestIsLogged(Front(log), p);
    }
  }

  /** In a legal log events are found by their ids and, hashes being faithful, by their hashes. */
  lemma {:induction false} HashesDetermineEvents(log: Events, e: Event, f: Event)
    requires Legal(log) && e in log && f in log
    requires e.currentHash == f.currentHash || e.body.input.id == f.body.input.id
    ensures e == f
  {
    Faithful(log, e);
    Faithful(log, f);
    assert forall g :: g in Front(log) ==> g.body.input.id != Last(log).body.input.id by {
      assert forall g :: g in Front(log) ==> g.body.input.id in EventIds(Front(log));
    }
    if e != Last(log) { HashesDetermineEvents(Front(log), e, f); }
  }

  lemma {:induction false} Faithful(log: Events, e: Event)
    requires Legal(log) && e in log
    ensures e.currentHash == Sha256(e.body)
  {
    if e != Last(log) { Faithful(Front(log), e); }
  }

  lemma StagesDiffer(a: Record, prior: Record, b: Record)
    requires Extends(a, prior) && TransitionAllowed(Some(prior), b)
    ensures Open(a) && !b.status.RESERVED? && b.status != a.status && a.intent == b.intent
  {
  }

  /** What a logged record has become. */
  lemma RecordExtends(log: Events, k: nat)
    requires Legal(log) && k < |log| && ProjectTrace(log[k]).Some?
    ensures var r := ProjectTrace(log[k]).value;
      r.proposalId in Latest(log) && Extends(r, Latest(log)[r.proposalId])
  {
    LatestAt(log, k);
    TraceExtends(log, k + 1, ProjectTrace(log[k]).value.proposalId);
  }

  /** A proposal is reserved at most once, started at most once, and finished at most once. */
  lemma EachStageOnce(log: Events, i: nat, j: nat)
    requires Legal(log) && i < j < |log|
    requires ProjectTrace(log[i]).Some? && ProjectTrace(log[j]).Some?
    requires ProjectTrace(log[i]).value.proposalId == ProjectTrace(log[j]).value.proposalId
    ensures var a, b := ProjectTrace(log[i]).value, ProjectTrace(log[j]).value;
      Open(a) && !b.status.RESERVED? && b.status != a.status && a.intent == b.intent
  {
    var before := log[..j];
    LegalPrefix(log, j);
    assert before[i] == log[i];
    RecordExtends(before, i);
    LatestAt(log, j);
    StagesDiffer(ProjectTrace(log[i]).value, Latest(before)[ProjectTrace(log[j]).value.proposalId],
      ProjectTrace(log[j]).value);
  }

  /** Right after its event a record is the latest one, and the store allowed the step to it. */
  lemma LatestAt(log: Events, i: nat)
    requires Legal(log) && i < |log| && ProjectTrace(log[i]).Some?
    ensures var r := ProjectTrace(log[i]).value;
      && r.proposalId in Latest(log[..i + 1]) && Latest(log[..i + 1])[r.proposalId] == r
      && TransitionAllowed(Get(Latest(log[..i]), r.proposalId), r)
  {
    LegalPrefix(log, i + 1);
    var prefix := log[..i + 1];
    assert Front(prefix) == log[..i] && Last(prefix) == log[i];
  }

  // ---- A log followed by pending events ----

  lemma FrontOfConcat(log: Events, pending: Events)
    requires pending != []
    ensures Front(log + pending) == log + Front(pending) && Last(log + pending) == Last(pending)
  {
  }

  lemma {:induction false} PriorOfConcat(log: Events, pending: Events, id: string)
    ensures Prior(log + pending, id) == if Prior(pending, id).Some? then Prior(pending, id) else Prior(log, id)
  {
    if pending == [] {
      assert log + pending == log;
    } else {
      FrontOfConcat(log, pending);
      PriorOfConcat(log, Front(pending), id);
    }
  }

  /** The records a run of events leaves on its own: what a transaction has changed. */
  lemma {:induction false} LatestOfConcat(log: Events, pending: Events)
    ensures Latest(log + pending) == Latest(log) + Latest(pending)
  {
    if pending == [] {
      assert log + pending == log;
    } else {
      FrontOfConcat(log, pending);
      LatestOfConcat(log, Front(pending));
    }
  }

  lemma EventIdsOfConcat(log: Events, pending: Events)
    ensures EventIds(log + pending) == EventIds(log) + EventIds(pending)
  {
  }

  /** Every event of a legal log was an accepted append to the events before it. */
  lemma NthAccepted(log: Events, k: nat)
    requires Legal(log) && k < |log|
    ensures Accepts(log[..k], log[k].body.input) && log[k] == NextEvent(log[..k], log[k].body.input)
  {
    LegalPrefix(log, k + 1);
    assert Front(log[..k + 1]) == log[..k];
  }

  /** One accepted append inside a transaction. */
  lemma AppendPending(log: Events, pending: Events, input: EventInput)
    requires Legal(log + pending) && Accepts(log + pending, input)
    ensures var e := NextEvent(log + pending, input);
      && log + (pending + [e]) == log + pending + [e]
      && Legal(log + (pending + [e]))
      && Latest(pending + [e]) == if ProjectTrace(e).Some?
         then Latest(pending)[ProjectTrace(e).value.proposalId := ProjectTrace(e).value] else Latest(pending)
  {
    var e := NextEvent(log + pending, input);
    LegalAppend(log + pending, input);
    assert log + (pending + [e]) == log + pending + [e] && Front(pending + [e]) == pending;
  }

  /** The pending events of a transaction can be committed one at a time. */
  lemma CommitStep(log: Events, pending: Events, i: nat)
    requires Legal(log + pending) && i < |pending|
    ensures var done := log + pending[..i];
      && Accepts(done, pending[i].body.input) && pending[i] == NextEvent(done, pending[i].body.input)
      && done + [pending[i]] == log + pending[..i + 1]
  {
    assert (log + pending)[..|log| + i] == log + pending[..i];
    NthAccepted(log + pending, |log| + i);
  }
}
