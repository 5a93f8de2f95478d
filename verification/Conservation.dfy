/** Bookkeeping over a whole log: every reservation is a success, a failure, or still open. */
module Conservation {
  import opened Json
  import opened Evidence
  import opened Log

  predicate Shows(e: Event, s: Status) { ProjectTrace(e).Some? && ProjectTrace(e).value.status == s }

  /** How many events of the log put a proposal into status `s`. */
  function Count(log: Events, s: Status): nat {
    if log == [] then 0 else Count(Front(log), s) + if Shows(Last(log), s) then 1 else 0
  }

  /** The proposals whose latest record has status `s`. */
  function With(t: Trace, s: Status): set<string> { set p | p in t && t[p].status == s }

  /** Every trace begins with a reservation. */
  predicate Governed(log: Events) {
    log != [] ==> Governed(Front(log)) && BeginsReserved(Latest(Front(log)), Last(log))
  }

  predicate BeginsReserved(t: Trace, e: Event) {
    ProjectTrace(e).Some? && ProjectTrace(e).value.proposalId !in t ==> Shows(e, RESERVED)
  }

  lemma WithUpdated(t: Trace, p: string, r: Record, s: Status)
    ensures With(t[p := r], s) == if r.status == s then With(t, s) + {p} else With(t, s) - {p}
  {
  }

  function OpenCount(t: Trace): nat { |With(t, RESERVED)| + |With(t, RUNNING)| }

  function One(b: bool): nat { if b then 1 else 0 }

  /** One allowed transition moves one proposal between the four sets. */
  lemma OneTransition(t: Trace, p: string, r: Record)
    requires TransitionAllowed(Get(t, p), r) && (p !in t ==> r.status.RESERVED?)
    ensures |With(t[p := r], SUCCESS)| == |With(t, SUCCESS)| + One(r.status.SUCCESS?)
    ensures |With(t[p := r], FAILED)| == |With(t, FAILED)| + One(r.status.FAILED?)
    ensures OpenCount(t[p := r]) + One(r.status.SUCCESS?) + One(r.status.FAILED?)
      == OpenCount(t) + One(r.status.RESERVED?)
  {
    WithUpdated(t, p, r, RESERVED);
    WithUpdated(t, p, r, RUNNING);
    WithUpdated(t, p, r, SUCCESS);
    WithUpdated(t, p, r, FAILED);
    assert forall s :: p in With(t, s) <==> p in t && t[p].status == s;
  }

  /** Each terminal record is reached once, so events and latest records count alike; and the
      reservations made are the successes, the failures and the proposals still open. */
  lemma {:induction false} ReservationsAreConserved(log: Events)
    requires Legal(log) && Governed(log)
    ensures Count(log, SUCCESS) == |With(Latest(log), SUCCESS)| && Count(log, FAILED) == |With(Latest(log), FAILED)|
    ensures Count(log, RESERVED) == Count(log, SUCCESS) + Count(log, FAILED) + OpenCount(Latest(log))
  {
    if log == [] {
      assert forall s :: With(Latest(log), s) == {};
    } else {
      ReservationsAreConserved(Front(log));
      var r := ProjectTrace(Last(log));
      if r.Some? { OneTransition(Latest(Front(log)), r.value.proposalId, r.value); }
    }
  }
}
