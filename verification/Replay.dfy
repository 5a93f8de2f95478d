/** `ReplayEngine.validateIntegrity`: the hash chain of one intent. */
module Replay {
  import opened Json
  import opened Evidence
  import opened Log
  import opened Store

  predicate LinkIntact(events: Events, k: nat)
    requires k < |events|
  {
    && events[k].body.previousEventHash == (if k == 0 then None else Some(events[k - 1].currentHash))
    && Sha256(events[k].body) == events[k].currentHash
  }

  predicate Intact(events: Events) {
    forall k :: 0 <= k < |events| ==> LinkIntact(events, k)
  }

  predicate FirstBroken(events: Events, k: nat)
    requires k < |events|
  {
    !LinkIntact(events, k) && forall j :: 0 <= j < k ==> LinkIntact(events, j)
  }

  datatype Integrity = Valid | BrokenAt(eventId: string)

  method ValidateIntegrity(events: Events) returns (r: Integrity)
    ensures r.Valid? <==> Intact(events)
    ensures r.BrokenAt? ==>
      exists k :: 0 <= k < |events| && FirstBroken(events, k) && r.eventId == events[k].body.input.id
  {
    var previousHash: Option<Hash> := None;
    for k := 0 to |events|
      invariant previousHash == if k == 0 then None else Some(events[k - 1].currentHash)
      invariant forall j :: 0 <= j < k ==> LinkIntact(events, j)
    {
      var event := events[k];
      if event.body.previousEventHash != previousHash || Sha256(event.body) != event.currentHash {
        assert FirstBroken(events, k);
        return BrokenAt(event.body.input.id);
      }
      previousHash := Some(event.currentHash);
    }
    return Valid;
  }

  /** Every per-intent chain built by accepted appends is intact and numbered from 1. */
  lemma {:induction false} StoredChainsAreIntact(log: Events, id: string)
    requires Legal(log)
    ensures Intact(EventsOf(log, id))
    ensures forall k :: 0 <= k < |EventsOf(log, id)| ==> EventsOf(log, id)[k].body.sequence == k + 1
  {
    if log != [] {
      var before, chain := EventsOf(Front(log), id), EventsOf(log, id);
      StoredChainsAreIntact(Front(log), id);
      LastOfEvents(Front(log), id);
      forall k | 0 <= k < |chain| ensures LinkIntact(chain, k) {
        assert k < |before| ==> LinkIntact(before, k);
      }
    }
  }

  /** Two intact chains with the same last hash are the same chain, event for event. */
  lemma {:induction false} ChainsAreUnique(a: Events, b: Events)
    requires Intact(a) && Intact(b) && a != [] && b != []
    requires Last(a).currentHash == Last(b).currentHash
    ensures a == b
    decreases |a|
  {
    assert LinkIntact(a, |a| - 1) && LinkIntact(b, |b| - 1);
    assert Last(a) == Last(b);
    if |a| > 1 {
      assert forall k :: 0 <= k < |a| - 1 ==> LinkIntact(a, k) ==> LinkIntact(Front(a), k);
      assert forall k :: 0 <= k < |b| - 1 ==> LinkIntact(b, k) ==> LinkIntact(Front(b), k);
      ChainsAreUnique(Front(a), Front(b));
      assert a == Front(a) + [Last(a)] && b == Front(b) + [Last(b)];
    }
  }

  /** Tampering with any event of a stored chain, while keeping its head hash, is detected. */
  lemma TamperingIsDetected(log: Events, id: string, forged: Events)
    requires Legal(log) && EventsOf(log, id) != [] && forged != EventsOf(log, id) && forged != []
    requires Last(forged).currentHash == Last(EventsOf(log, id)).currentHash
    ensures !Intact(forged)
  {
    StoredChainsAreIntact(log, id);
    if Intact(forged) { ChainsAreUnique(forged, EventsOf(log, id)); }
  }
}
