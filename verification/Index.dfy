/** The answers a trace query may give, and the sorted index that gives them. */
module Index {
  import opened Json
  import opened Evidence
  import opened Log

  predicate NoDuplicates<T(==)>(s: seq<T>) {
    forall i, j :: 0 <= i < j < |s| ==> s[i] != s[j]
  }

  /** `r` is the current record of its proposal. */
  predicate Current(trace: Trace, r: Record) {
    r.proposalId in trace && trace[r.proposalId] == r
  }

  /** The specification of `queryTrace`: each proposal's latest record, if it matches, once. */
  ghost predicate Answers(result: seq<Record>, trace: Trace, q: TraceQuery) {
    && NoDuplicates(result)
    && forall r :: r in result <==> Current(trace, r) && MatchesQuery(r, q)
  }

  /** Any two answers are the same multiset of records. */
  lemma AnswersAgree(a: seq<Record>, b: seq<Record>, trace: Trace, q: TraceQuery)
    requires Answers(a, trace, q) && Answers(b, trace, q)
    ensures multiset(a) == multiset(b)
  {
    forall r ensures multiset(a)[r] == multiset(b)[r] {
      OnceOnly(a, r);
      OnceOnly(b, r);
      assert r in a <==> r in b;
    }
  }

  lemma {:induction false} OnceOnly<T>(s: seq<T>, x: T)
    requires NoDuplicates(s)
    ensures multiset(s)[x] == if x in s then 1 else 0
  {
    if s != [] {
      assert s == [s[0]] + s[1..];
      OnceOnly(s[1..], x);
    }
  }

  // ---- The two indexes, per action and optional actor ----

  datatype IndexKey = IndexKey(action: string, actorId: Option<string>)

  predicate Filed(r: Record, key: IndexKey) {
    r.action == key.action && (key.actorId.None? || key.actorId.value == r.actorId)
  }

  predicate SortedByTime(s: seq<Record>) {
    forall i, j :: 0 <= i < j < |s| ==> s[i].timestamp <= s[j].timestamp
  }

  ghost predicate SuccessesIndexed(trace: Trace, s: seq<Record>, key: IndexKey) {
    && SortedByTime(s) && NoDuplicates(s)
    && forall r :: r in s <==> Current(trace, r) && r.status.SUCCESS? && Filed(r, key)
  }

  ghost predicate ReservationsIndexed(trace: Trace, m: Trace, key: IndexKey) {
    && (forall p :: p in m <==> p in trace && Open(trace[p]) && Filed(trace[p], key))
    && (forall p :: p in m ==> m[p] == trace[p])
  }

  /** Ids are the keys of a trace. */
  predicate Keyed(trace: Trace) {
    forall p :: p in trace ==> trace[p].proposalId == p
  }

  predicate Enters(trace: Trace, r: Record) {
    Keyed(trace) && TransitionAllowed(Get(trace, r.proposalId), r) && Accountable(trace, r)
  }

  /** A record takes action and actor from its intent, so a transition keeps both. */
  predicate Accountable(trace: Trace, r: Record) {
    r.proposalId in trace ==> trace[r.proposalId].action == r.action && trace[r.proposalId].actorId == r.actorId
  }

  /** Keys the new record is not filed under keep their indexes. */
  lemma OtherKeysKept(trace: Trace, r: Record, key: IndexKey, s: seq<Record>, m: Trace)
    requires Enters(trace, r) && !Filed(r, key)
    requires SuccessesIndexed(trace, s, key) && ReservationsIndexed(trace, m, key)
    ensures SuccessesIndexed(trace[r.proposalId := r], s, key)
    ensures ReservationsIndexed(trace[r.proposalId := r], m, key)
  {
    var trace' := trace[r.proposalId := r];
    forall x ensures x in s <==> Current(trace', x) && x.status.SUCCESS? && Filed(x, key) {
      assert x in s <==> Current(trace, x) && x.status.SUCCESS? && Filed(x, key);
    }
  }

  lemma SuccessesKept(trace: Trace, r: Record, key: IndexKey, s: seq<Record>)
    requires Enters(trace, r) && SuccessesIndexed(trace, s, key) && !r.status.SUCCESS?
    ensures SuccessesIndexed(trace[r.proposalId := r], s, key)
  {
    var trace' := trace[r.proposalId := r];
    forall x ensures x in s <==> Current(trace', x) && x.status.SUCCESS? && Filed(x, key) {
      assert x in s <==> Current(trace, x) && x.status.SUCCESS? && Filed(x, key);
    }
  }

  function InsertAt(s: seq<Record>, at: nat, r: Record): seq<Record>
    requires at <= |s|
  {
    s[..at] + [r] + s[at..]
  }

  lemma InsertSorted(s: seq<Record>, at: nat, r: Record)
    requires at <= |s| && SortedByTime(s) && NoDuplicates(s) && r !in s
    requires at > 0 ==> s[at - 1].timestamp <= r.timestamp
    requires at < |s| ==> r.timestamp < s[at].timestamp
    ensures SortedByTime(InsertAt(s, at, r)) && NoDuplicates(InsertAt(s, at, r))
  {
    var t := InsertAt(s, at, r);
    forall i, j | 0 <= i < j < |t| ensures t[i].timestamp <= t[j].timestamp && t[i] != t[j] {
      Inserted(s, at, r, i);
      Inserted(s, at, r, j);
      assert i < at ==> s[i].timestamp <= s[at - 1].timestamp;
      assert at < j ==> s[at].timestamp <= s[j - 1].timestamp;
    }
  }

  lemma InsertedMembers(s: seq<Record>, at: nat, r: Record)
    requires at <= |s|
    ensures forall x :: x in InsertAt(s, at, r) <==> x == r || x in s
  {
    assert s == s[..at] + s[at..];
  }

  lemma Inserted(s: seq<Record>, at: nat, r: Record, i: nat)
    requires at <= |s| && i <= |s|
    ensures InsertAt(s, at, r)[i] == if i < at then s[i] else if i == at then r else s[i - 1]
  {
  }

  /** Inserting a success after every record not newer than it keeps the index. */
  lemma SuccessInserted(trace: Trace, r: Record, key: IndexKey, s: seq<Record>, at: nat)
    requires Enters(trace, r) && SuccessesIndexed(trace, s, key) && r.status.SUCCESS? && Filed(r, key)
    requires at <= |s|
    requires at > 0 ==> s[at - 1].timestamp <= r.timestamp
    requires at < |s| ==> r.timestamp < s[at].timestamp
    ensures SuccessesIndexed(trace[r.proposalId := r], InsertAt(s, at, r), key)
  {
    assert r in s ==> Current(trace, r) && r.status.SUCCESS?;
    InsertSorted(s, at, r);
    InsertedMembers(s, at, r);
    var trace', t := trace[r.proposalId := r], InsertAt(s, at, r);
    forall x ensures x in t <==> Current(trace', x) && x.status.SUCCESS? && Filed(x, key) {
      assert x in t <==> x == r || x in s;
      assert x in s <==> Current(trace, x) && x.status.SUCCESS? && Filed(x, key);
    }
  }

  lemma ReservationsUpdated(trace: Trace, r: Record, key: IndexKey, m: Trace)
    requires Enters(trace, r) && ReservationsIndexed(trace, m, key) && Filed(r, key)
    ensures ReservationsIndexed(trace[r.proposalId := r],
      if Open(r) then m[r.proposalId := r] else m - {r.proposalId}, key)
  {
  }

  type Successes = map<IndexKey, seq<Record>>
  type Reservations = map<IndexKey, Trace>

  function SuccessesAt(m: Successes, key: IndexKey): seq<Record> { if key in m then m[key] else [] }
  function ReservationsAt(m: Reservations, key: IndexKey): Trace { if key in m then m[key] else map[] }

  /** Both indexes answer for the trace under every key. */
  ghost predicate Indexed(trace: Trace, successes: Successes, reservations: Reservations) {
    forall key :: IndexedAt(trace, successes, reservations, key)
  }

  ghost predicate IndexedAt(trace: Trace, successes: Successes, reservations: Reservations, key: IndexKey) {
    && SuccessesIndexed(trace, SuccessesAt(successes, key), key)
    && ReservationsIndexed(trace, ReservationsAt(reservations, key), key)
  }

  /** What filing a record under one key does to the two index entries of that key. */
  ghost predicate FiledInto(r: Record, s: seq<Record>, m: Trace, s': seq<Record>, m': Trace) {
    && m' == (if Open(r) then m[r.proposalId := r] else m - {r.proposalId})
    && if r.status.SUCCESS? then exists at: nat :: InsertedAt(s, at, r, s') else s' == s
  }

  ghost predicate InsertedAt(s: seq<Record>, at: nat, r: Record, s': seq<Record>) {
    && at <= |s| && s' == InsertAt(s, at, r)
    && (at > 0 ==> s[at - 1].timestamp <= r.timestamp)
    && (at < |s| ==> r.timestamp < s[at].timestamp)
  }

  lemma FilingKeepsIndex(trace: Trace, r: Record, key: IndexKey, s: seq<Record>, m: Trace, s': seq<Record>, m': Trace)
    requires Enters(trace, r) && Filed(r, key)
    requires SuccessesIndexed(trace, s, key) && ReservationsIndexed(trace, m, key)
    requires FiledInto(r, s, m, s', m')
    ensures SuccessesIndexed(trace[r.proposalId := r], s', key)
    ensures ReservationsIndexed(trace[r.proposalId := r], m', key)
  {
    ReservationsUpdated(trace, r, key, m);
    if r.status.SUCCESS? {
      var at: nat :| InsertedAt(s, at, r, s');
      SuccessInserted(trace, r, key, s, at);
    } else {
      SuccessesKept(trace, r, key, s);
    }
  }

  /** One key before and after a record is filed under its own keys. */
  ghost predicate KeyFiled(r: Record, key: IndexKey, s: Successes, m: Reservations, s': Successes, m': Reservations) {
    if Filed(r, key) then
      FiledInto(r, SuccessesAt(s, key), ReservationsAt(m, key), SuccessesAt(s', key), ReservationsAt(m', key))
    else SuccessesAt(s', key) == SuccessesAt(s, key) && ReservationsAt(m', key) == ReservationsAt(m, key)
  }

  lemma FiledRecordIndexed(trace: Trace, r: Record, s: Successes, m: Reservations, s': Successes, m': Reservations)
    requires Indexed(trace, s, m) && Enters(trace, r) && forall key :: KeyFiled(r, key, s, m, s', m')
    ensures Indexed(trace[r.proposalId := r], s', m')
  {
    var trace' := trace[r.proposalId := r];
    forall key ensures IndexedAt(trace', s', m', key) {
      assert IndexedAt(trace, s, m, key) && KeyFiled(r, key, s, m, s', m');
      if Filed(r, key) {
        FilingKeepsIndex(trace, r, key, SuccessesAt(s, key), ReservationsAt(m, key),
          SuccessesAt(s', key), ReservationsAt(m', key));
      } else {
        OtherKeysKept(trace, r, key, SuccessesAt(s, key), ReservationsAt(m, key));
      }
    }
  }

  /** The slice between the two ends of the window is the successful half of an answer. */
  lemma WindowSlice(trace: Trace, s: seq<Record>, q: TraceQuery, low: nat, high: nat)
    requires SuccessesIndexed(trace, s, IndexKey(q.action, q.actorId)) && low <= high <= |s|
    requires forall i :: 0 <= i < low ==> s[i].timestamp <= q.fromExclusive
    requires forall i :: low <= i < |s| ==> s[i].timestamp > q.fromExclusive
    requires forall i :: low <= i < high ==> s[i].timestamp <= q.toInclusive
    requires high < |s| ==> s[high].timestamp > q.toInclusive
    ensures NoDuplicates(s[low..high])
    ensures forall r :: r in s[low..high] <==> Current(trace, r) && r.status.SUCCESS? && MatchesQuery(r, q)
  {
    forall r ensures r in s[low..high] <==> Current(trace, r) && r.status.SUCCESS? && MatchesQuery(r, q) {
      if Current(trace, r) && r.status.SUCCESS? && MatchesQuery(r, q) {
        assert r in s;
        var i :| 0 <= i < |s| && s[i] == r;
        assert low <= i < high;
        assert s[low..high][i - low] == r;
      }
    }
  }

  /** The records a legal log leaves are keyed and take action and actor from their intent. */
  lemma LatestKeyed(log: Events)
    requires Legal(log)
    ensures Keyed(Latest(log))
    ensures forall p :: p in Latest(log) ==>
      var r := Latest(log)[p]; r.action == r.intent.action && r.actorId == r.intent.actor
  {
    forall p | p in Latest(log)
      ensures var r := Latest(log)[p]; r.proposalId == p && r.action == r.intent.action && r.actorId == r.intent.actor
    {
      var e := LatestIsLogged(log, p);
    }
  }

  lemma AcceptedEnters(log: Events, input: EventInput)
    requires Legal(log) && Accepts(log, input) && ProjectTrace(NextEvent(log, input)).Some?
    ensures Enters(Latest(log), ProjectTrace(NextEvent(log, input)).value)
  {
    LatestKeyed(log);
  }

  /** An answer over committed records, minus the changed proposals, plus the changed records that match. */
  lemma OverlayAnswers(trace: Trace, changed: Trace, kept: seq<Record>, overlay: seq<Record>, q: TraceQuery)
    requires NoDuplicates(kept) && NoDuplicates(overlay)
    requires forall r :: r in kept <==> Current(trace, r) && MatchesQuery(r, q) && r.proposalId !in changed
    requires forall r :: r in overlay <==> Current(changed, r) && MatchesQuery(r, q)
    ensures Answers(kept + overlay, trace + changed, q)
  {
    var all := kept + overlay;
    forall i, j | 0 <= i < j < |all| ensures all[i] != all[j] {
      if i < |kept| <= j {
        assert all[i] in kept && all[j] in overlay;
      }
    }
  }
}
