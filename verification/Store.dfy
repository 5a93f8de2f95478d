/** `InMemoryIEECStore`: maps and sorted indexes kept by `commit`, read by `queryTrace`,
    and transactions that see their own pending events. */
module Store {
  import opened Json
  import opened Evidence
  import opened Log
  import opened Index

  /** Events of one intent, in order. */
  function EventsOf(log: Events, intentId: string): Events {
    if log == [] then []
    else if Last(log).body.input.intentId == intentId then EventsOf(Front(log), intentId) + [Last(log)]
    else EventsOf(Front(log), intentId)
  }

  /** The event with a given hash. */
  function ByHash(log: Events, hash: Hash): Option<Event> {
    if log == [] then None
    else if Last(log).currentHash == hash then Some(Last(log))
    else ByHash(Front(log), hash)
  }

  /** `getTraceByHash`. */
  function TraceByHash(log: Events, hash: Hash): Option<Record> {
    var e := ByHash(log, hash);
    if e.Some? then ProjectTrace(e.value) else None
  }

  /** The three plain lookups answer for the log. */
  ghost predicate Lookups(log: Events, events: map<string, Events>, hashes: map<Hash, Event>, eventIds: set<string>) {
    && (forall id :: (if id in events then events[id] else []) == EventsOf(log, id))
    && (forall h :: (if h in hashes then Some(hashes[h]) else None) == ByHash(log, h))
    && eventIds == EventIds(log)
  }

  lemma LookupsAppended(
    log: Events, e: Event, events: map<string, Events>, hashes: map<Hash, Event>, eventIds: set<string>)
    requires Lookups(log, events, hashes, eventIds)
    ensures var id := e.body.input.intentId; Lookups(log + [e],
      events[id := (if id in events then events[id] else []) + [e]], hashes[e.currentHash := e],
      eventIds + {e.body.input.id})
  {
    assert Front(log + [e]) == log;
    assert forall x :: x in log + [e] <==> x in log || x == e;
  }

  class InMemoryIEECStore {
    var events: map<string, Events>
    var hashes: map<Hash, Event>
    var eventIds: set<string>
    var latest: Trace
    var successes: map<IndexKey, seq<Record>>
    var reservations: map<IndexKey, Trace>
    ghost var log: Events

    /** Every field answers for the log. */
    ghost predicate Valid() reads this {
      && Legal(log)
      && Lookups(log, events, hashes, eventIds)
      && latest == Latest(log)
      && Indexed(latest, successes, reservations)
    }

    constructor ()
      ensures Valid() && log == []
    {
      events, hashes, eventIds, latest, successes, reservations, log := map[], map[], {}, map[], map[], map[], [];
    }

    method Commit(event: Event)
      requires Valid() && Accepts(log, event.body.input) && event == NextEvent(log, event.body.input)
      modifies this
      ensures Valid() && log == old(log) + [event]
    {
      var id := event.body.input.intentId;
      ghost var log' := log + [event];
      assert Legal(log') && Lookups(log',
        events[id := (if id in events then events[id] else []) + [event]],
        hashes[event.currentHash := event], eventIds + {event.body.input.id}) by {
        LegalAppend(log, event.body.input);
        LookupsAppended(log, event, events, hashes, eventIds);
      }
      events := events[id := (if id in events then events[id] else []) + [event]];
      hashes := hashes[event.currentHash := event];
      eventIds := eventIds + {event.body.input.id};
      assert Lookups(log', events, hashes, eventIds);
      var record := ProjectTrace(event);
      if record.Some? {
        AcceptedEnters(log, event.body.input);
        FileRecord(record.value);
      }
      assert latest == Latest(log') by { LegalAppend(log, event.body.input); }
      log := log + [event];
    }

    method FileRecord(record: Record)
      requires Indexed(latest, successes, reservations) && Enters(latest, record)
      modifies this`latest, this`successes, this`reservations
      ensures Indexed(latest, successes, reservations) && latest == old(latest)[record.proposalId := record]
    {
      var own, shared := IndexKey(record.action, Some(record.actorId)), IndexKey(record.action, None);
      ghost var trace, s, m := latest, successes, reservations;
      assert IndexedAt(trace, s, m, own) && IndexedAt(trace, s, m, shared);
      latest := latest[record.proposalId := record];
      FileUnder(record, own);
      FileUnder(record, shared);
      forall key ensures KeyFiled(record, key, s, m, successes, reservations) {
        assert Filed(record, key) <==> key == own || key == shared;
      }
      FiledRecordIndexed(trace, record, s, m, successes, reservations);
    }

    /** One round of the loop over `[record.actorId, null]`. */
    method FileUnder(record: Record, key: IndexKey)
      requires SortedByTime(SuccessesAt(successes, key))
      modifies this`successes, this`reservations
      ensures forall k :: k != key ==>
        && SuccessesAt(successes, k) == SuccessesAt(old(successes), k)
        && ReservationsAt(reservations, k) == ReservationsAt(old(reservations), k)
      ensures FiledInto(record, SuccessesAt(old(successes), key), ReservationsAt(old(reservations), key),
        SuccessesAt(successes, key), ReservationsAt(reservations, key))
    {
      if Open(record) {
        reservations := reservations[key := ReservationsAt(reservations, key)[record.proposalId := record]];
      } else {
        if key in reservations {
          reservations := reservations[key := reservations[key] - {record.proposalId}];
        }
        if record.status.SUCCESS? {
          var entries := SuccessesAt(successes, key);
          var index := |entries|;
          while index > 0 && entries[index - 1].timestamp > record.timestamp
            invariant 0 <= index <= |entries|
            invariant index < |entries| ==> entries[index].timestamp > record.timestamp
          {
            index := index - 1;
          }
          successes := successes[key := InsertAt(entries, index, record)];
          assert InsertedAt(entries, index, record, SuccessesAt(successes, key));
        }
      }
    }

    method QueryTrace(query: TraceQuery) returns (result: seq<Record>)
      requires Valid()
      ensures Answers(result, Latest(log), query)
    {
      var key := IndexKey(query.action, query.actorId);
      assert IndexedAt(latest, successes, reservations, key);
      result := SuccessesInWindow(SuccessesAt(successes, key), query);
      if query.includeReservations {
        LatestKeyed(log);
        var open := ReservationsUntil(ReservationsAt(reservations, key), query.toInclusive);
        result := result + open;
      }
    }

    /** The binary search for the window's start and the walk to its end. */
    method SuccessesInWindow(records: seq<Record>, query: TraceQuery) returns (result: seq<Record>)
      requires SuccessesIndexed(latest, records, IndexKey(query.action, query.actorId))
      ensures NoDuplicates(result)
      ensures forall r :: r in result <==> Current(latest, r) && r.status.SUCCESS? && MatchesQuery(r, query)
    {
      var low := 0;
      var high := |records|;
      while low < high
        invariant 0 <= low <= high <= |records|
        invariant forall i :: 0 <= i < low ==> records[i].timestamp <= query.fromExclusive
        invariant forall i :: high <= i < |records| ==> records[i].timestamp > query.fromExclusive
      {
        var middle := (low + high) / 2;
        if records[middle].timestamp <= query.fromExclusive { low := middle + 1; } else { high := middle; }
      }
      result := [];
      var i := low;
      while i < |records| && records[i].timestamp <= query.toInclusive
        invariant low <= i <= |records|
        invariant result == records[low..i]
        invariant forall j :: low <= j < i ==> records[j].timestamp <= query.toInclusive
      {
        var record := records[i];
        assert record in records;
        if record.proposalId in latest && latest[record.proposalId] == record { result := result + [record]; }
        i := i + 1;
      }
      WindowSlice(latest, records, query, low, i);
    }

    /** The walk over one reservation map, in whatever order it iterates. */
    method ReservationsUntil(entries: Trace, toInclusive: int) returns (result: seq<Record>)
      requires Keyed(entries)
      ensures NoDuplicates(result)
      ensures forall r :: r in result <==> Current(entries, r) && r.timestamp <= toInclusive
    {
      result := [];
      var todo := entries.Keys;
      while todo != {}
        invariant todo <= entries.Keys
        invariant NoDuplicates(result)
        invariant forall r :: r in result <==>
          r.proposalId !in todo && Current(entries, r) && r.timestamp <= toInclusive
      {
        var p :| p in todo;
        if entries[p].timestamp <= toInclusive { result := result + [entries[p]]; }
        todo := todo - {p};
      }
    }
  }

  lemma {:induction false} EventsOfConcat(log: Events, pending: Events, id: string)
    ensures EventsOf(log + pending, id) == EventsOf(log, id) + EventsOf(pending, id)
  {
    if pending == [] {
      assert log + pending == log;
    } else {
      FrontOfConcat(log, pending);
      EventsOfConcat(log, Front(pending), id);
    }
  }

  lemma {:induction false} ByHashOfConcat(log: Events, pending: Events, hash: Hash)
    ensures ByHash(log + pending, hash)
      == if ByHash(pending, hash).Some? then ByHash(pending, hash) else ByHash(log, hash)
  {
    if pending == [] {
      assert log + pending == log;
    } else {
      FrontOfConcat(log, pending);
      ByHashOfConcat(log, Front(pending), hash);
    }
  }

  lemma {:induction false} LastOfEvents(log: Events, id: string)
    ensures Prior(log, id) == if EventsOf(log, id) == [] then None else Some(Last(EventsOf(log, id)))
  {
    if log != [] { LastOfEvents(Front(log), id); }
  }

  datatype Result<+T> = Ok(value: T) | Err(error: Error)
  datatype Error = TransactionClosed | DuplicateEventId | IllegalTransition

  /** The `tx` object handed to the work of a transaction. While it is open the mutex keeps
      every other writer out, so the log under it stands still. */
  class Transaction {
    const store: InMemoryIEECStore
    var pending: Events
    var changed: Trace
    var active: bool

    /** The log as it would be after committing the pending events. */
    ghost function View(): Events reads this, store { store.log + pending }

    ghost predicate Valid() reads this, store {
      store.Valid() && (active ==> Legal(View()) && changed == Latest(pending))
    }

    constructor (store: InMemoryIEECStore)
      requires store.Valid()
      ensures Valid() && active && pending == [] && this.store == store && View() == store.log
    {
      this.store := store;
      pending, changed, active := [], map[], true;
      new;
      assert View() == store.log;
    }

    method Append(input: EventInput) returns (r: Result<Event>)
      requires Valid()
      modifies this
      ensures Valid() && active == old(active)
      ensures r.Ok? <==> active && Accepts(old(View()), input)
      ensures r.Ok? ==> r.value == NextEvent(old(View()), input) && pending == old(pending) + [r.value]
      ensures r.Err? ==> pending == old(pending)
    {
      if !active { return Err(TransactionClosed); }
      var taken := IsTaken(input.id);
      if taken { return Err(DuplicateEventId); }
      var previous := PreviousEvent(input.intentId);
      var event := FinalizeEvent(input, previous);
      var trace := ProjectTrace(event);
      LatestOfConcat(store.log, pending);
      if trace.Some? && !TransitionAllowed(Get(store.latest + changed, trace.value.proposalId), trace.value) {
        return Err(IllegalTransition);
      }
      AppendPending(store.log, pending, input);
      pending := pending + [event];
      if trace.Some? { changed := changed[trace.value.proposalId := trace.value]; }
      assert store.Valid() && Legal(View()) && changed == Latest(pending);
      return Ok(event);
    }

    method IsTaken(id: string) returns (taken: bool)
      requires Valid() && active
      ensures taken <==> id in EventIds(View())
    {
      EventIdsOfConcat(store.log, pending);
      taken := id in store.eventIds || exists i :: 0 <= i < |pending| && pending[i].body.input.id == id;
    }

    /** The last pending event of the intent, or else its last committed one. */
    method PreviousEvent(intentId: string) returns (previous: Option<Event>)
      requires Valid() && active
      ensures previous == Prior(View(), intentId)
    {
      PriorOfConcat(store.log, pending, intentId);
      LastOfEvents(store.log, intentId);
      previous := Prior(pending, intentId);
      if previous.None? && intentId in store.events && store.events[intentId] != [] {
        previous := Some(Last(store.events[intentId]));
      }
    }

    method GetEventsByIntent(id: string) returns (r: Result<Events>)
      requires Valid()
      ensures r == if active then Ok(EventsOf(View(), id)) else Err(TransactionClosed)
    {
      if !active { return Err(TransactionClosed); }
      EventsOfConcat(store.log, pending, id);
      return Ok((if id in store.events then store.events[id] else []) + EventsOf(pending, id));
    }

    method GetTrace(id: string) returns (r: Result<Option<Record>>)
      requires Valid()
      ensures r == if active then Ok(Get(Latest(View()), id)) else Err(TransactionClosed)
    {
      if !active { return Err(TransactionClosed); }
      LatestOfConcat(store.log, pending);
      return Ok(if id in changed then Some(changed[id]) else Get(store.latest, id));
    }

    method GetTraceByHash(hash: Hash) returns (r: Result<Option<Record>>)
      requires Valid()
      ensures r == if active then Ok(TraceByHash(View(), hash)) else Err(TransactionClosed)
    {
      if !active { return Err(TransactionClosed); }
      ByHashOfConcat(store.log, pending, hash);
      var found := ByHash(pending, hash);
      if found.None? && hash in store.hashes { found := Some(store.hashes[hash]); }
      return Ok(if found.Some? then ProjectTrace(found.value) else None);
    }

    method QueryTrace(query: TraceQuery) returns (r: Result<seq<Record>>)
      requires Valid()
      ensures r.Ok? <==> active
      ensures r.Ok? ==> Answers(r.value, Latest(View()), query)
    {
      if !active { return Err(TransactionClosed); }
      var committed := store.QueryTrace(query);
      var kept := Unchanged(committed);
      LatestOfConcat(store.log, pending);
      LatestKeyed(View());
      var overlay := MatchingChanges(query);
      OverlayAnswers(Latest(store.log), changed, kept, overlay, query);
      return Ok(kept + overlay);
    }

    method Unchanged(committed: seq<Record>) returns (kept: seq<Record>)
      requires NoDuplicates(committed)
      ensures NoDuplicates(kept)
      ensures forall x :: x in kept <==> x in committed && x.proposalId !in changed
    {
      kept := [];
      for i := 0 to |committed|
        invariant NoDuplicates(kept)
        invariant forall x :: x in kept <==> x in committed[..i] && x.proposalId !in changed
      {
        assert committed[..i + 1] == committed[..i] + [committed[i]];
        if committed[i].proposalId !in changed { kept := kept + [committed[i]]; }
      }
      assert committed[..|committed|] == committed;
    }

    /** `[...changed.values()].filter(record => matchesQuery(record, query))`. */
    method MatchingChanges(query: TraceQuery) returns (result: seq<Record>)
      requires Keyed(changed)
      ensures NoDuplicates(result)
      ensures forall x :: x in result <==> Current(changed, x) && MatchesQuery(x, query)
    {
      result := [];
      var todo := changed.Keys;
      while todo != {}
        invariant todo <= changed.Keys
        invariant NoDuplicates(result)
        invariant forall x :: x in result <==> x.proposalId !in todo && Current(changed, x) && MatchesQuery(x, query)
      {
        var p :| p in todo;
        if MatchesQuery(changed[p], query) { result := result + [changed[p]]; }
        todo := todo - {p};
      }
    }

    /** The work returned: its events are committed, in order. */
    method Commit()
      requires Valid() && active
      modifies this`active, store
      ensures Valid() && !active && store.log == old(View())
    {
      active := false;
      ghost var start := store.log;
      for i := 0 to |pending|
        invariant store.Valid()
        invariant !active && store.log == start + pending[..i]
      {
        var event := pending[i];
        CommitStep(start, pending, i);
        store.Commit(event);
      }
      assert pending[..|pending|] == pending;
    }

    /** The work threw: the store is as if the transaction had never been opened. */
    method Abort()
      requires Valid()
      modifies this`active
      ensures Valid() && !active
    {
      active := false;
    }
  }
}
