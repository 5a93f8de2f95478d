/** `EventHasher.hashEvent`: which parts of an event its hash fixes. */
module EventHasher {
  import opened Json
  import opened Canonical

  /** An event on the wire, its hashes as text. */
  datatype WireEvent = WireEvent(
    id: string, kind: string, timestamp: int, intentId: string, sequence: int,
    previousEventHash: Option<string>, payload: Value)

  /** The hashed fields, in the insertion order of the source. */
  function FieldName(i: nat): string
    requires i < 7
  {
    if i == 0 then "id" else if i == 1 then "type" else if i == 2 then "timestamp"
    else if i == 3 then "intentId" else if i == 4 then "sequence"
    else if i == 5 then "previousEventHash" else "payload"
  }

  function FieldValue(e: WireEvent, i: nat): Value
    requires i < 7
  {
    if i == 0 then VStr(e.id) else if i == 1 then VStr(e.kind) else if i == 2 then VNum(e.timestamp)
    else if i == 3 then VStr(e.intentId) else if i == 4 then VNum(e.sequence)
    else if i == 5 then (if e.previousEventHash.Some? then VStr(e.previousEventHash.value) else VNull)
    else e.payload
  }

  function Fields(e: WireEvent): seq<Entry> {
    seq(7, i requires 0 <= i < 7 => Entry(FieldName(i), FieldValue(e, i)))
  }

  type Digest = string -> string

  ghost predicate Injective(sha: Digest) {
    forall s, t :: sha(s) == sha(t) ==> s == t
  }

  /** `stableStringify` prints keys in the order the engine enumerates a sorted object. */
  function HashEvent(e: WireEvent, less: KeyOrder, sha: Digest): string {
    sha(Text(VObj(Fields(e)), less))
  }

  predicate DistinctKeys(entries: seq<Entry>) {
    forall i, j :: 0 <= i < j < |entries| ==> entries[i].key != entries[j].key
  }

  lemma {:induction false} FieldOf(entries: seq<Entry>, e: Entry)
    requires DistinctKeys(entries) && e in entries
    ensures e.key in AbsFields(entries) && AbsFields(entries)[e.key] == Abs(e.value)
  {
    if e != entries[0] {
      var i :| 1 <= i < |entries| && entries[i] == e;
      assert entries[0].key != e.key && entries[1..][i - 1] == e;
      FieldOf(entries[1..], e);
    }
  }

  lemma FieldNamesDistinct(i: nat, j: nat)
    requires i < j < 7
    ensures FieldName(i) != FieldName(j)
  {
    assert |FieldName(i)| == |FieldName(j)| ==> i == 3 && j == 4 && FieldName(3)[0] == 'i';
  }

  lemma FieldsWellFormed(e: WireEvent)
    requires WellFormed(e.payload)
    ensures WellFormed(VObj(Fields(e))) && DistinctKeys(Fields(e))
  {
    forall i, j | 0 <= i < j < 7 ensures Fields(e)[i].key != Fields(e)[j].key {
      FieldNamesDistinct(i, j);
    }
  }

  /** Two events that agree on every field, the payload up to key order. */
  predicate SameEvent(a: WireEvent, b: WireEvent) {
    a.(payload := VNull) == b.(payload := VNull) && Abs(a.payload) == Abs(b.payload)
  }

  lemma CoversField(a: WireEvent, b: WireEvent, i: nat)
    requires WellFormed(a.payload) && WellFormed(b.payload) && i < 7
    requires AbsFields(Fields(a)) == AbsFields(Fields(b))
    ensures Abs(FieldValue(a, i)) == Abs(FieldValue(b, i))
  {
    FieldsWellFormed(a);
    FieldsWellFormed(b);
    FieldOf(Fields(a), Fields(a)[i]);
    FieldOf(Fields(b), Fields(b)[i]);
  }

  lemma FieldsCover(a: WireEvent, b: WireEvent)
    requires WellFormed(a.payload) && WellFormed(b.payload)
    requires AbsFields(Fields(a)) == AbsFields(Fields(b))
    ensures SameEvent(a, b)
  {
    CoversField(a, b, 0);
    CoversField(a, b, 1);
    CoversField(a, b, 2);
    CoversField(a, b, 3);
    CoversField(a, b, 4);
    CoversField(a, b, 5);
    CoversField(a, b, 6);
  }

  lemma {:induction false} SameFields(us: seq<Entry>, vs: seq<Entry>)
    requires |us| == |vs|
    requires forall i :: 0 <= i < |us| ==> us[i].key == vs[i].key && Abs(us[i].value) == Abs(vs[i].value)
    ensures AbsFields(us) == AbsFields(vs)
  {
    if us != [] { SameFields(us[1..], vs[1..]); }
  }

  /** Equal hashes mean equal events: every field is covered. */
  lemma HashCoversEvent(a: WireEvent, b: WireEvent, less: KeyOrder, sha: Digest)
    requires StrictTotal(less) && Injective(sha) && WellFormed(a.payload) && WellFormed(b.payload)
    ensures HashEvent(a, less, sha) == HashEvent(b, less, sha) <==> SameEvent(a, b)
  {
    FieldsWellFormed(a);
    FieldsWellFormed(b);
    TextIffSameValue(VObj(Fields(a)), VObj(Fields(b)), less);
    if HashEvent(a, less, sha) == HashEvent(b, less, sha) {
      FieldsCover(a, b);
    } else if SameEvent(a, b) {
      SameFields(Fields(a), Fields(b));
    }
  }
}
