/** `SqlEventStore`: the same log as a table of rows, queried by SELECTs. */
module Sql {
  import opened Json
  import opened Evidence
  import opened Log
  import opened Index

  datatype Row = Row(
    eventId: string, intentId: string, sequence: nat, action: string, actorId: string, ts: int,
    traceStatus: Option<Status>, hash: Hash, data: Event)

  type Table = seq<Row>

  /** The values of the INSERT. */
  function RowOf(e: Event): Row {
    var input, r := e.body.input, ProjectTrace(e);
    Row(input.id, input.intentId, e.body.sequence, input.payload.intent.action, input.payload.intent.actor,
      input.timestamp, if r.Some? then Some(r.value.status) else None, e.currentHash, e)
  }

  function Rows(log: Events): (rows: Table)
    ensures |rows| == |log|
  {
    if log == [] then [] else Rows(Front(log)) + [RowOf(Last(log))]
  }

  predicate Traced(row: Row) { row.traceStatus.Some? }

  /** `WHERE intent_id = ? [AND trace_status IS NOT NULL] ORDER BY sequence DESC LIMIT 1`. */
  function Top(rows: Table, intentId: string, traced: bool): Option<Row> {
    if rows == [] then None
    else
      var row, best := rows[|rows| - 1], Top(rows[..|rows| - 1], intentId, traced);
      if row.intentId == intentId && (traced ==> Traced(row)) && (best.Some? ==> best.value.sequence < row.sequence)
      then Some(row) else best
  }

  /** `NOT EXISTS (... newer.sequence > e.sequence)`. */
  predicate Newest(rows: Table, row: Row) {
    forall newer :: newer in rows && newer.intentId == row.intentId && Traced(newer) ==> newer.sequence <= row.sequence
  }

  /** One `clauses(status)` SELECT. */
  predicate Selected(rows: Table, row: Row, q: TraceQuery, status: Status) {
    && row.action == q.action && row.traceStatus == Some(status) && row.ts <= q.toInclusive
    && (q.actorId.Some? ==> row.actorId == q.actorId.value)
    && (status.SUCCESS? ==> row.ts > q.fromExclusive)
    && Newest(rows, row)
  }

  function Select(rows: Table, from: Table, q: TraceQuery, status: Status): seq<Record> {
    if from == [] then []
    else
      var rest, record := Select(rows, from[..|from| - 1], q, status), ProjectTrace(from[|from| - 1].data);
      if Selected(rows, from[|from| - 1], q, status) && record.Some? then rest + [record.value] else rest
  }

  function Query(rows: Table, q: TraceQuery): seq<Record> {
    Select(rows, rows, q, SUCCESS)
    + if q.includeReservations then Select(rows, rows, q, RESERVED) + Select(rows, rows, q, RUNNING) else []
  }

  function Previous(rows: Table, input: EventInput): Option<Event> {
    var top := Top(rows, input.intentId, false);
    if top.Some? then Some(top.value.data) else None
  }

  function TraceOf(rows: Table, id: string): Option<Record> {
    var top := Top(rows, id, true);
    if top.Some? then ProjectTrace(top.value.data) else None
  }

  /** The INSERT violates none of PRIMARY KEY(event_id), UNIQUE(hash), UNIQUE(intent_id, sequence). */
  predicate Insertable(rows: Table, row: Row) {
    forall r :: r in rows ==>
      r.eventId != row.eventId && r.hash != row.hash && !(r.intentId == row.intentId && r.sequence == row.sequence)
  }

  // ---- The table is the log ----

  lemma {:induction false} RowsAreEvents(log: Events)
    ensures |Rows(log)| == |log| && forall i :: 0 <= i < |log| ==> Rows(log)[i] == RowOf(log[i])
  {
    if log != [] { RowsAreEvents(Front(log)); }
  }

  lemma {:induction false} TopIsPrior(log: Events, id: string)
    requires Legal(log)
    ensures Top(Rows(log), id, false) == if Prior(log, id).Some? then Some(RowOf(Prior(log, id).value)) else None
  {
    if log != [] {
      TopIsPrior(Front(log), id);
      assert Rows(log)[..|Rows(log)| - 1] == Rows(Front(log));
    }
  }

  /** Later events of an intent carry larger sequence numbers. */
  lemma {:induction false} SequenceBelowLast(log: Events, e: Event)
    requires Legal(log) && e in log
    ensures Prior(log, e.body.input.intentId).Some?
    ensures e == Prior(log, e.body.input.intentId).value
      || e.body.sequence < Prior(log, e.body.input.intentId).value.body.sequence
  {
    if e != Last(log) {
      SequenceBelowLast(Front(log), e);
    }
  }

  /** The newest traced row of a proposal belongs to its latest record. */
  lemma {:induction false} TopIsLatest(log: Events, id: string) returns (e: Option<Event>)
    requires Legal(log)
    ensures Top(Rows(log), id, true) == if e.Some? then Some(RowOf(e.value)) else None
    ensures e.Some? ==> e.value in log && e.value.body.input.intentId == id
    ensures (if e.Some? then ProjectTrace(e.value) else None) == Get(Latest(log), id)
  {
    if log == [] { return None; }
    var last := Last(log);
    assert Rows(log)[..|Rows(log)| - 1] == Rows(Front(log));
    e := TopIsLatest(Front(log), id);
    if last.body.input.intentId == id && ProjectTrace(last).Some? {
      if e.Some? { SequenceBelowLast(Front(log), e.value); }
      e := Some(last);
    }
  }

  lemma {:induction false} TracedBelowTop(log: Events, e: Event)
    requires Legal(log) && e in log && ProjectTrace(e).Some?
    ensures var top := Top(Rows(log), e.body.input.intentId, true);
      top.Some? && (top.value.data == e || e.body.sequence < top.value.sequence)
  {
    assert Rows(log)[..|Rows(log)| - 1] == Rows(Front(log));
    if e != Last(log) {
      TracedBelowTop(Front(log), e);
      SequenceBelowLast(Front(log), e);
    } else {
      var before := TopIsLatest(Front(log), e.body.input.intentId);
      if before.Some? { SequenceBelowLast(Front(log), before.value); }
    }
  }

  lemma RowInTable(log: Events, e: Event)
    requires e in log
    ensures RowOf(e) in Rows(log)
  {
    RowsAreEvents(log);
    var i :| 0 <= i < |log| && log[i] == e;
    assert Rows(log)[i] == RowOf(e);
  }

  lemma EventOfRow(log: Events, row: Row) returns (e: Event)
    requires row in Rows(log)
    ensures e in log && row == RowOf(e)
  {
    RowsAreEvents(log);
    var i :| 0 <= i < |log| && Rows(log)[i] == row;
    e := log[i];
  }

  /** A traced row is the newest of its proposal iff its event projects to the latest record. */
  lemma NewestIffCurrent(log: Events, e: Event)
    requires Legal(log) && e in log && ProjectTrace(e).Some?
    ensures Newest(Rows(log), RowOf(e)) <==> Current(Latest(log), ProjectTrace(e).value)
  {
    var top := TopIsLatest(log, e.body.input.intentId);
    TracedBelowTop(log, e);
    RowInTable(log, top.value);
    if Current(Latest(log), ProjectTrace(e).value) {
      HashesDetermineEvents(log, e, top.value);
      forall newer | newer in Rows(log) && newer.intentId == e.body.input.intentId && Traced(newer)
        ensures newer.sequence <= e.body.sequence
      {
        var f := EventOfRow(log, newer);
        TracedBelowTop(log, f);
      }
    }
  }

  /** The SELECT takes record `r` from the row of event `i`. */
  predicate Picks(log: Events, i: nat, q: TraceQuery, status: Status, r: Record)
    requires i < |log|
  {
    ProjectTrace(log[i]) == Some(r) && Selected(Rows(log), RowOf(log[i]), q, status)
  }

  lemma SelectStep(log: Events, k: nat, q: TraceQuery, status: Status)
    requires 0 < k <= |log|
    ensures var rows, last := Rows(log), ProjectTrace(log[k - 1]);
      var before := Select(rows, rows[..k - 1], q, status);
      Select(rows, rows[..k], q, status)
        == if Selected(rows, RowOf(log[k - 1]), q, status) && last.Some? then before + [last.value] else before
  {
    RowsAreEvents(log);
    var from := Rows(log)[..k];
    assert from[..|from| - 1] == Rows(log)[..k - 1] && from[|from| - 1] == RowOf(log[k - 1]);
  }

  /** One SELECT returns the records of the rows it picks, each once. */
  lemma {:induction false} SelectAnswers(log: Events, k: nat, q: TraceQuery, status: Status)
    requires Legal(log) && k <= |log|
    ensures var result := Select(Rows(log), Rows(log)[..k], q, status);
      forall r :: r in result <==> exists i :: 0 <= i < k && Picks(log, i, q, status, r)
  {
    if k > 0 {
      SelectStep(log, k, q, status);
      SelectAnswers(log, k - 1, q, status);
      var before := Select(Rows(log), Rows(log)[..k - 1], q, status);
      var result := Select(Rows(log), Rows(log)[..k], q, status);
      forall r ensures r in result <==> exists i :: 0 <= i < k && Picks(log, i, q, status, r) {
        assert r in result <==> r in before || Picks(log, k - 1, q, status, r);
        assert r in before <==> exists i :: 0 <= i < k - 1 && Picks(log, i, q, status, r);
      }
    }
  }

  lemma {:induction false} SelectOnce(log: Events, k: nat, q: TraceQuery, status: Status)
    requires Legal(log) && k <= |log|
    ensures NoDuplicates(Select(Rows(log), Rows(log)[..k], q, status))
  {
    if k > 0 {
      SelectStep(log, k, q, status);
      SelectOnce(log, k - 1, q, status);
      var last := ProjectTrace(log[k - 1]);
      if last.Some? { NotSelectedBefore(log, k - 1, q, status, last.value); }
    }
  }

  lemma NotSelectedBefore(log: Events, k: nat, q: TraceQuery, status: Status, r: Record)
    requires Legal(log) && k < |log| && ProjectTrace(log[k]) == Some(r)
    ensures r !in Select(Rows(log), Rows(log)[..k], q, status)
  {
    SelectAnswers(log, k, q, status);
    forall i | 0 <= i < k ensures !Picks(log, i, q, status, r) {
      if ProjectTrace(log[i]) == Some(r) { EachStageOnce(log, i, k); }
    }
  }

  /** What one SELECT asks of a latest record. */
  predicate Asked(r: Record, q: TraceQuery, status: Status) {
    && r.status == status && r.action == q.action && r.timestamp <= q.toInclusive
    && (q.actorId.Some? ==> r.actorId == q.actorId.value) && (status.SUCCESS? ==> r.timestamp > q.fromExclusive)
  }

  lemma PickIsCurrent(log: Events, i: nat, q: TraceQuery, status: Status)
    requires Legal(log) && i < |log| && ProjectTrace(log[i]).Some?
    ensures var r := ProjectTrace(log[i]).value;
      Picks(log, i, q, status, r) <==> Current(Latest(log), r) && Asked(r, q, status)
  {
    NewestIffCurrent(log, log[i]);
  }

  lemma SelectedIsCurrent(log: Events, q: TraceQuery, status: Status, r: Record)
    requires Legal(log)
    ensures r in Select(Rows(log), Rows(log), q, status) <==> Current(Latest(log), r) && Asked(r, q, status)
  {
    assert Rows(log)[..|log|] == Rows(log);
    SelectAnswers(log, |log|, q, status);
    forall i | 0 <= i < |log| && Picks(log, i, q, status, r) ensures Current(Latest(log), r) && Asked(r, q, status) {
      PickIsCurrent(log, i, q, status);
    }
    if Current(Latest(log), r) {
      var e := LatestIsLogged(log, r.proposalId);
      var i :| 0 <= i < |log| && log[i] == e;
      PickIsCurrent(log, i, q, status);
    }
  }

  /** The SQL query and the indexed query have the same answers. */
  lemma QueryAnswers(log: Events, q: TraceQuery)
    requires Legal(log)
    ensures Answers(Query(Rows(log), q), Latest(log), q)
  {
    var rows := Rows(log);
    assert rows[..|log|] == rows;
    var a, b, c := Select(rows, rows, q, SUCCESS), Select(rows, rows, q, RESERVED), Select(rows, rows, q, RUNNING);
    SelectOnce(log, |log|, q, SUCCESS);
    SelectOnce(log, |log|, q, RESERVED);
    SelectOnce(log, |log|, q, RUNNING);
    forall r ensures (r in a ==> r.status.SUCCESS?) && (r in b ==> r.status.RESERVED?) && (r in c ==> r.status.RUNNING?)
      && (r in Query(rows, q) <==> Current(Latest(log), r) && MatchesQuery(r, q))
    {
      SelectedIsCurrent(log, q, SUCCESS, r);
      SelectedIsCurrent(log, q, RESERVED, r);
      SelectedIsCurrent(log, q, RUNNING, r);
    }
    Disjoint(b, c);
    if q.includeReservations { Disjoint(a, b + c); }
  }

  lemma Disjoint(a: seq<Record>, b: seq<Record>)
    requires NoDuplicates(a) && NoDuplicates(b) && forall r :: r in a ==> r !in b
    ensures NoDuplicates(a + b)
  {
    var all := a + b;
    forall i, j | 0 <= i < j < |all| ensures all[i] != all[j] {
      if i < |a| <= j {
        assert all[i] in a && all[j] in b;
      }
    }
  }

  /** Whatever the indexed store answers over the same log is the same multiset of records. */
  lemma StoresAgreeOnQuery(log: Events, q: TraceQuery, indexed: seq<Record>)
    requires Legal(log) && Answers(indexed, Latest(log), q)
    ensures multiset(indexed) == multiset(Query(Rows(log), q))
  {
    QueryAnswers(log, q);
    AnswersAgree(indexed, Query(Rows(log), q), Latest(log), q);
  }

  // ---- Appending ----

  predicate SqlAccepts(rows: Table, input: EventInput) {
    var e := FinalizeEvent(input, Previous(rows, input));
    && (ProjectTrace(e).Some? ==> TransitionAllowed(TraceOf(rows, input.intentId), ProjectTrace(e).value))
    && Insertable(rows, RowOf(e))
  }

  /** Both stores accept the same appends and finalize them to the same event. */
  lemma StoresAgreeOnAppend(log: Events, input: EventInput)
    requires Legal(log)
    ensures SqlAccepts(Rows(log), input) <==> Accepts(log, input)
    ensures FinalizeEvent(input, Previous(Rows(log), input)) == NextEvent(log, input)
    ensures Accepts(log, input) ==> Rows(log + [NextEvent(log, input)]) == Rows(log) + [RowOf(NextEvent(log, input))]
  {
    TopIsPrior(log, input.intentId);
    var top := TopIsLatest(log, input.intentId);
    FreshIsInsertable(log, input);
    assert Front(log + [NextEvent(log, input)]) == log;
  }

  lemma FreshIsInsertable(log: Events, input: EventInput)
    requires Legal(log)
    ensures Insertable(Rows(log), RowOf(NextEvent(log, input))) <==> input.id !in EventIds(log)
  {
    var e := NextEvent(log, input);
    if input.id !in EventIds(log) {
      forall r | r in Rows(log)
        ensures r.eventId != input.id && r.hash != e.currentHash
        ensures !(r.intentId == input.intentId && r.sequence == e.body.sequence)
      {
        var f := EventOfRow(log, r);
        assert f.body.input.id in EventIds(log);
        Faithful(log, f);
        SequenceBelowLast(log, f);
      }
    } else {
      var f :| f in log && f.body.input.id == input.id;
      RowInTable(log, f);
    }
  }

  class SqlTransaction {
    var rows: Table
    ghost var log: Events

    ghost predicate Valid() reads this { Legal(log) && rows == Rows(log) }

    constructor ()
      ensures Valid() && log == []
    {
      rows, log := [], [];
    }

    method Append(input: EventInput) returns (r: Option<Event>)
      requires Valid()
      modifies this
      ensures Valid()
      ensures r.Some? <==> Accepts(old(log), input)
      ensures r.Some? ==> r.value == NextEvent(old(log), input) && log == old(log) + [r.value]
      ensures r.None? ==> rows == old(rows) && log == old(log)
    {
      StoresAgreeOnAppend(log, input);
      var event := FinalizeEvent(input, Previous(rows, input));
      var trace := ProjectTrace(event);
      if trace.Some? && !TransitionAllowed(TraceOf(rows, input.intentId), trace.value) { return None; }
      if !Insertable(rows, RowOf(event)) { return None; }
      LegalAppend(log, input);
      rows := rows + [RowOf(event)];
      log := log + [event];
      return Some(event);
    }

    method QueryTrace(q: TraceQuery) returns (result: seq<Record>)
      requires Valid()
      ensures Answers(result, Latest(log), q)
    {
      QueryAnswers(log, q);
      result := Query(rows, q);
    }
  }
}
