/** `canonicalJson`: printing JavaScript values, whose objects carry their keys in
    insertion order, and the proof that the text determines the value. */
module Canonical {
  import opened Json

  /** A JavaScript value as the printer meets it. */
  datatype Value =
    | VNull
    | VBool(b: bool)
    | VNum(n: int)
    | VStr(s: string)
    | VArr(items: seq<Value>)
    | VObj(entries: seq<Entry>)
  datatype Entry = Entry(key: string, value: Value)

  /** Keys of one object are distinct, at every level. */
  predicate WellFormed(v: Value) {
    match v
    case VArr(items) => forall i :: 0 <= i < |items| ==> WellFormed(items[i])
    case VObj(entries) =>
      && (forall i, j :: 0 <= i < j < |entries| ==> entries[i].key != entries[j].key)
      && (forall i :: 0 <= i < |entries| ==> WellFormed(entries[i].value))
    case _ => true
  }

  /** The JSON value a JavaScript value stands for: insertion order forgotten. */
  function Abs(v: Value): Json {
    match v
    case VNull => Null
    case VBool(b) => Bool(b)
    case VNum(n) => Num(n)
    case VStr(s) => Str(s)
    case VArr(items) => Arr(AbsItems(items))
    case VObj(entries) => Obj(AbsFields(entries))
  }

  function AbsItems(items: seq<Value>): (r: seq<Json>)
    ensures |r| == |items|
  {
    if items == [] then [] else [Abs(items[0])] + AbsItems(items[1..])
  }

  function AbsFields(entries: seq<Entry>): (r: map<string, Json>)
    ensures forall e :: e in entries ==> e.key in r
  {
    if entries == [] then map[] else AbsFields(entries[1..])[entries[0].key := Abs(entries[0].value)]
  }

  lemma {:induction false} EntryOf(entries: seq<Entry>, k: string) returns (e: Entry)
    requires k in AbsFields(entries)
    ensures e in entries && e.key == k
  {
    if entries[0].key == k { e := entries[0]; } else { e := EntryOf(entries[1..], k); }
  }

  // ---- Text ----

  /** The letter of a two-character escape. */
  function ShortEscape(c: char): Option<char> {
    if c == '\"' || c == '\\' then Some(c)
    else if c as int == 8 then Some('b')
    else if c as int == 9 then Some('t')
    else if c as int == 10 then Some('n')
    else if c as int == 12 then Some('f')
    else if c as int == 13 then Some('r')
    else None
  }

  function HexDigit(d: nat): (h: char)
    requires d < 16
    ensures h as int == d + if d < 10 then 48 else 87
  {
    if d < 10 then ('0' as int + d) as char else ('a' as int + d - 10) as char
  }

  /** One character inside a JSON string literal (section 7 of RFC 8259). */
  function Escape(c: char): (s: string)
    ensures |s| > 0 && s[0] != '\"'
  {
    if ShortEscape(c).Some? then ['\\', ShortEscape(c).value]
    else if c as int < 32 then ['\\', 'u', '0', '0', HexDigit(c as int / 16), HexDigit(c as int % 16)]
    else [c]
  }

  function EscapeAll(s: string): string {
    if s == "" then "" else Escape(s[0]) + EscapeAll(s[1..])
  }

  function Quote(s: string): string { ['\"'] + EscapeAll(s) + ['\"'] }

  function Number(n: int): string {
    if n < 0 then ['-'] + Digits(-n) else Digits(n)
  }

  /** Prints a value in the order its entries have. */
  function Print(v: Value): string {
    match v
    case VNull => "null"
    case VBool(b) => if b then "true" else "false"
    case VNum(n) => Number(n)
    case VStr(s) => Quote(s)
    case VArr(items) => "[" + PrintItems(items) + "]"
    case VObj(entries) => "{" + PrintEntries(entries) + "}"
  }

  function PrintItems(items: seq<Value>): string {
    if items == [] then ""
    else if |items| == 1 then Print(items[0])
    else Print(items[0]) + "," + PrintItems(items[1..])
  }

  function PrintEntries(entries: seq<Entry>): string {
    if entries == [] then ""
    else
      var first := Quote(entries[0].key) + ":" + Print(entries[0].value);
      if |entries| == 1 then first else first + "," + PrintEntries(entries[1..])
  }

  // ---- The text determines the value ----

  lemma Associate(a: string, b: string, c: string, d: string)
    ensures (a + b) + c + d == a + (b + c + d)
  {
  }

  lemma Regroup(a: string, b: string, close: string, d: string)
    ensures (a + "," + b) + close + d == a + ("," + (b + close + d))
  {
  }

  lemma Cancel(a: string, x: string, y: string)
    requires a + x == a + y
    ensures x == y
  {
    assert x == (a + x)[|a|..] == (a + y)[|a|..] == y;
  }

  /** What may follow a printed value inside a larger text. */
  predicate Delimited(rest: string) {
    rest == "" || rest[0] in {',', ']', '}'}
  }

  /** The form of an escape can be read off its first two characters. */
  lemma EscapeForm(c: char, x: string)
    ensures (Escape(c) + x)[0] == '\\' <==> ShortEscape(c).Some? || c as int < 32
    ensures ShortEscape(c).Some? ==> |Escape(c)| == 2 && (Escape(c) + x)[1] == ShortEscape(c).value != 'u'
    ensures ShortEscape(c).None? && c as int < 32 ==> |Escape(c)| == 6 && (Escape(c) + x)[1] == 'u'
    ensures ShortEscape(c).None? && c as int < 32 ==>
      (Escape(c) + x)[4] == HexDigit(c as int / 16) && (Escape(c) + x)[5] == HexDigit(c as int % 16)
    ensures ShortEscape(c).None? && c as int >= 32 ==> |Escape(c)| == 1 && (Escape(c) + x)[0] == c
  {
  }

  lemma EscapePrefixFree(c: char, d: char, x: string, y: string)
    requires Escape(c) + x == Escape(d) + y
    ensures c == d && x == y
  {
    EscapeForm(c, x);
    EscapeForm(d, y);
    assert c == d;
    assert x == (Escape(c) + x)[|Escape(c)|..] == y;
  }

  /** The character a printed literal continues with. */
  lemma EscapeAllHead(s: string, x: string)
    ensures var t := EscapeAll(s) + ['\"'] + x; t[0] == '\"' <==> s == ""
  {
    if s != "" {
      assert EscapeAll(s)[0] == Escape(s[0])[0];
    }
  }

  lemma {:induction false} QuotePrefixFree(s: string, t: string, x: string, y: string)
    requires EscapeAll(s) + ['\"'] + x == EscapeAll(t) + ['\"'] + y
    ensures s == t && x == y
    decreases |s|
  {
    EscapeAllHead(s, x);
    EscapeAllHead(t, y);
    if s == "" {
      assert EscapeAll(s) + ['\"'] == ['\"'] == EscapeAll(t) + ['\"'];
      Cancel(['\"'], x, y);
    } else {
      Associate(Escape(s[0]), EscapeAll(s[1..]), ['\"'], x);
      Associate(Escape(t[0]), EscapeAll(t[1..]), ['\"'], y);
      EscapePrefixFree(s[0], t[0], EscapeAll(s[1..]) + ['\"'] + x, EscapeAll(t[1..]) + ['\"'] + y);
      QuotePrefixFree(s[1..], t[1..], x, y);
    }
  }

  lemma QuotedPrefixFree(s: string, t: string, x: string, y: string)
    requires Quote(s) + x == Quote(t) + y
    ensures s == t && x == y
  {
    Associate(['\"'], EscapeAll(s), ['\"'], x);
    Associate(['\"'], EscapeAll(t), ['\"'], y);
    Cancel(['\"'], EscapeAll(s) + ['\"'] + x, EscapeAll(t) + ['\"'] + y);
    QuotePrefixFree(s, t, x, y);
  }

  /** How many digits a text starts with. */
  function DigitRun(t: string): nat {
    if t == "" || !IsDigit(t[0]) then 0 else 1 + DigitRun(t[1..])
  }

  lemma {:induction false} DigitRunLength(s: string, x: string)
    requires forall i :: 0 <= i < |s| ==> IsDigit(s[i])
    requires x == "" || !IsDigit(x[0])
    ensures DigitRun(s + x) == |s|
  {
    if s == "" {
      assert s + x == x;
    } else {
      assert (s + x)[1..] == s[1..] + x;
      DigitRunLength(s[1..], x);
    }
  }

  lemma DigitsPrefixFree(m: nat, n: nat, x: string, y: string)
    requires Digits(m) + x == Digits(n) + y
    requires (x == "" || !IsDigit(x[0])) && (y == "" || !IsDigit(y[0]))
    ensures m == n && x == y
  {
    var t, a := Digits(m) + x, |Digits(m)|;
    DigitRunLength(Digits(m), x);
    DigitRunLength(Digits(n), y);
    assert Digits(m) == t[..a] == Digits(n) && x == t[a..] == y;
    DigitsInjective(m, n);
  }

  lemma NumberHead(n: int, x: string)
    ensures (Number(n) + x)[0] == '-' <==> n < 0
    ensures n < 0 ==> Number(n) + x == ['-'] + (Digits(-n) + x)
  {
  }

  lemma NumberPrefixFree(m: int, n: int, x: string, y: string)
    requires Number(m) + x == Number(n) + y
    requires Delimited(x) && Delimited(y)
    ensures m == n && x == y
  {
    NumberHead(m, x);
    NumberHead(n, y);
    if m < 0 {
      Cancel(['-'], Digits(-m) + x, Digits(-n) + y);
      DigitsPrefixFree(-m, -n, x, y);
    } else {
      DigitsPrefixFree(m, n, x, y);
    }
  }

  /** The first character of a printed value tells its kind. */
  function Head(v: Value): (c: char)
    ensures c !in {',', ']', '}'}
  {
    match v
    case VNull => 'n'
    case VBool(b) => if b then 't' else 'f'
    case VNum(n) => Number(n)[0]
    case VStr(s) => '\"'
    case VArr(_) => '['
    case VObj(_) => '{'
  }

  lemma PrintHead(v: Value, x: string)
    ensures Print(v) != "" && (Print(v) + x)[0] == Head(v)
  {
  }

  lemma SameHead(u: Value, v: Value)
    requires Head(u) == Head(v)
    ensures match u
      case VNull => v.VNull?
      case VBool(b) => v == VBool(b)
      case VNum(_) => v.VNum?
      case VStr(_) => v.VStr?
      case VArr(_) => v.VArr?
      case VObj(_) => v.VObj?
  {
  }

  /** Printed values are prefix-free up to a delimiter, hence printing is injective. */
  lemma {:induction false} PrintPrefixFree(u: Value, v: Value, x: string, y: string)
    requires Print(u) + x == Print(v) + y
    requires Delimited(x) && Delimited(y)
    ensures u == v && x == y
    decreases u, 0
  {
    PrintHead(u, x);
    PrintHead(v, y);
    SameHead(u, v);
    match u
    case VNull => Cancel(Print(u), x, y);
    case VBool(b) => Cancel(Print(u), x, y);
    case VNum(m) => NumberPrefixFree(m, v.n, x, y);
    case VStr(s) => QuotedPrefixFree(s, v.s, x, y);
    case VArr(items) =>
      Associate("[", PrintItems(items), "]", x);
      Associate("[", PrintItems(v.items), "]", y);
      Cancel("[", PrintItems(items) + "]" + x, PrintItems(v.items) + "]" + y);
      ItemsPrefixFree(items, v.items, x, y);
    case VObj(entries) =>
      Associate("{", PrintEntries(entries), "}", x);
      Associate("{", PrintEntries(v.entries), "}", y);
      Cancel("{", PrintEntries(entries) + "}" + x, PrintEntries(v.entries) + "}" + y);
      EntriesPrefixFree(entries, v.entries, x, y);
  }

  /** What follows the first item of a list. */
  function AfterItem(items: seq<Value>, x: string): (r: string)
    requires items != []
    ensures Delimited(r) && r != ""
  {
    if |items| == 1 then "]" + x else "," + (PrintItems(items[1..]) + "]" + x)
  }

  lemma ItemsSplit(items: seq<Value>, x: string)
    ensures items != [] ==> PrintItems(items) + "]" + x == Print(items[0]) + AfterItem(items, x)
    ensures (PrintItems(items) + "]" + x)[0] == if items == [] then ']' else Head(items[0])
  {
    if |items| == 1 {
      Associate("", Print(items[0]), "]", x);
      PrintHead(items[0], AfterItem(items, x));
    } else if |items| > 1 {
      Regroup(Print(items[0]), PrintItems(items[1..]), "]", x);
      PrintHead(items[0], AfterItem(items, x));
    }
  }

  lemma {:induction false} ItemsPrefixFree(us: seq<Value>, vs: seq<Value>, x: string, y: string)
    requires PrintItems(us) + "]" + x == PrintItems(vs) + "]" + y
    ensures us == vs && x == y
    decreases us, 1
  {
    ItemsSplit(us, x);
    ItemsSplit(vs, y);
    if us == [] {
      assert PrintItems(us) + "]" == "]" == PrintItems(vs) + "]";
      Cancel("]", x, y);
    } else {
      PrintPrefixFree(us[0], vs[0], AfterItem(us, x), AfterItem(vs, y));
      assert AfterItem(us, x)[0] == AfterItem(vs, y)[0];
      if |us| == 1 {
        Cancel("]", x, y);
      } else {
        Cancel(",", PrintItems(us[1..]) + "]" + x, PrintItems(vs[1..]) + "]" + y);
        ItemsPrefixFree(us[1..], vs[1..], x, y);
      }
    }
  }

  /** What follows the first key of an entry list, and what follows its value. */
  function AfterKey(entries: seq<Entry>, x: string): string
    requires entries != []
  {
    ":" + (Print(entries[0].value) + AfterEntry(entries, x))
  }

  function AfterEntry(entries: seq<Entry>, x: string): (r: string)
    requires entries != []
    ensures Delimited(r) && r != ""
  {
    if |entries| == 1 then "}" + x else "," + (PrintEntries(entries[1..]) + "}" + x)
  }

  lemma EntriesText(entries: seq<Entry>, x: string)
    requires entries != []
    ensures PrintEntries(entries) + "}" + x == Quote(entries[0].key) + AfterKey(entries, x)
  {
    var q, p := Quote(entries[0].key), Print(entries[0].value);
    if |entries| == 1 {
      KeyValue(q, p, "}", x);
    } else {
      var rest := PrintEntries(entries[1..]);
      Regroup(q + ":" + p, rest, "}", x);
      KeyValue(q, p, "", "," + (rest + "}" + x));
      assert "" + ("," + (rest + "}" + x)) == AfterEntry(entries, x);
      assert (q + ":" + p) + "" == q + ":" + p;
    }
  }

  lemma QuoteHead(s: string, x: string)
    ensures (Quote(s) + x)[0] == '\"'
  {
  }

  lemma EntriesSplit(entries: seq<Entry>, x: string)
    ensures entries != [] ==> PrintEntries(entries) + "}" + x == Quote(entries[0].key) + AfterKey(entries, x)
    ensures (PrintEntries(entries) + "}" + x)[0] == if entries == [] then '}' else '\"'
  {
    if entries != [] {
      EntriesText(entries, x);
      QuoteHead(entries[0].key, AfterKey(entries, x));
    }
  }

  lemma KeyValue(q: string, p: string, close: string, d: string)
    ensures (q + ":" + p) + close + d == q + (":" + (p + (close + d)))
  {
  }

  lemma {:induction false} EntriesPrefixFree(us: seq<Entry>, vs: seq<Entry>, x: string, y: string)
    requires PrintEntries(us) + "}" + x == PrintEntries(vs) + "}" + y
    ensures us == vs && x == y
    decreases us, 1
  {
    EntriesSplit(us, x);
    EntriesSplit(vs, y);
    if us == [] {
      assert PrintEntries(us) + "}" == "}" == PrintEntries(vs) + "}";
      Cancel("}", x, y);
    } else {
      QuotedPrefixFree(us[0].key, vs[0].key, AfterKey(us, x), AfterKey(vs, y));
      Cancel(":", Print(us[0].value) + AfterEntry(us, x), Print(vs[0].value) + AfterEntry(vs, y));
      PrintPrefixFree(us[0].value, vs[0].value, AfterEntry(us, x), AfterEntry(vs, y));
      assert AfterEntry(us, x)[0] == AfterEntry(vs, y)[0];
      if |us| == 1 {
        Cancel("}", x, y);
      } else {
        Cancel(",", PrintEntries(us[1..]) + "}" + x, PrintEntries(vs[1..]) + "}" + y);
        EntriesPrefixFree(us[1..], vs[1..], x, y);
      }
    }
  }

  // ---- Key order ----

  type KeyOrder = (string, string) -> bool

  ghost predicate StrictTotal(less: KeyOrder) {
    && (forall a :: !less(a, a))
    && (forall a, b :: less(a, b) || less(b, a) || a == b)
    && (forall a, b, c :: less(a, b) && less(b, c) ==> less(a, c))
  }

  /** Puts an entry at its place in a sorted list. */
  function Insert(e: Entry, entries: seq<Entry>, less: KeyOrder): seq<Entry> {
    if entries == [] then [e]
    else if less(e.key, entries[0].key) then [e] + entries
    else [entries[0]] + Insert(e, entries[1..], less)
  }

  /** The value with the keys of every object in order. */
  function SortKeys(v: Value, less: KeyOrder): Value {
    match v
    case VArr(items) => VArr(SortItems(items, less))
    case VObj(entries) => VObj(SortEntries(entries, less))
    case _ => v
  }

  function SortItems(items: seq<Value>, less: KeyOrder): seq<Value> {
    if items == [] then [] else [SortKeys(items[0], less)] + SortItems(items[1..], less)
  }

  function SortEntries(entries: seq<Entry>, less: KeyOrder): seq<Entry> {
    if entries == [] then []
    else Insert(Entry(entries[0].key, SortKeys(entries[0].value, less)), SortEntries(entries[1..], less), less)
  }

  /** Every object lists its keys in strictly increasing order. */
  predicate InOrder(v: Value, less: KeyOrder) {
    match v
    case VArr(items) => forall i :: 0 <= i < |items| ==> InOrder(items[i], less)
    case VObj(entries) => EntriesInOrder(entries, less)
    case _ => true
  }

  predicate EntriesInOrder(entries: seq<Entry>, less: KeyOrder) {
    entries == [] || (
      && InOrder(entries[0].value, less)
      && (forall e :: e in entries[1..] ==> less(entries[0].key, e.key))
      && EntriesInOrder(entries[1..], less))
  }

  lemma {:induction false} InsertMembers(e: Entry, entries: seq<Entry>, less: KeyOrder)
    ensures forall x :: x in Insert(e, entries, less) ==> x == e || x in entries
  {
    if entries != [] { InsertMembers(e, entries[1..], less); }
  }

  lemma {:induction false} InsertInOrder(e: Entry, entries: seq<Entry>, less: KeyOrder)
    requires StrictTotal(less) && EntriesInOrder(entries, less) && InOrder(e.value, less)
    requires forall x :: x in entries ==> x.key != e.key
    ensures EntriesInOrder(Insert(e, entries, less), less)
  {
    if entries != [] {
      var r := Insert(e, entries, less);
      if less(e.key, entries[0].key) {
        assert r[1..] == entries && entries == [entries[0]] + entries[1..];
      } else {
        InsertInOrder(e, entries[1..], less);
        InsertMembers(e, entries[1..], less);
        assert r[1..] == Insert(e, entries[1..], less);
        assert entries[0].key != e.key;
      }
    }
  }

  lemma {:induction false} InsertFields(e: Entry, entries: seq<Entry>, less: KeyOrder)
    requires e.key !in AbsFields(entries)
    ensures AbsFields(Insert(e, entries, less)) == AbsFields(entries)[e.key := Abs(e.value)]
  {
    if entries != [] {
      var r := Insert(e, entries, less);
      if less(e.key, entries[0].key) {
        assert r[1..] == entries;
      } else {
        InsertFields(e, entries[1..], less);
        assert r[1..] == Insert(e, entries[1..], less);
      }
    }
  }

  lemma {:induction false} SortKeepsValue(v: Value, less: KeyOrder)
    requires StrictTotal(less) && WellFormed(v)
    ensures Abs(SortKeys(v, less)) == Abs(v) && InOrder(SortKeys(v, less), less)
    decreases v, 0
  {
    match v
    case VArr(items) => SortItemsKeeps(items, less);
    case VObj(entries) => SortEntriesKeeps(entries, less);
    case _ =>
  }

  lemma {:induction false} SortItemsKeeps(items: seq<Value>, less: KeyOrder)
    requires StrictTotal(less) && forall i :: 0 <= i < |items| ==> WellFormed(items[i])
    ensures var r := SortItems(items, less);
      AbsItems(r) == AbsItems(items) && forall i :: 0 <= i < |r| ==> InOrder(r[i], less)
    decreases items, 1
  {
    if items != [] {
      SortKeepsValue(items[0], less);
      SortItemsKeeps(items[1..], less);
    }
  }

  lemma {:induction false} SortEntriesKeeps(entries: seq<Entry>, less: KeyOrder)
    requires StrictTotal(less)
    requires forall i, j :: 0 <= i < j < |entries| ==> entries[i].key != entries[j].key
    requires forall i :: 0 <= i < |entries| ==> WellFormed(entries[i].value)
    ensures var r := SortEntries(entries, less);
      AbsFields(r) == AbsFields(entries) && EntriesInOrder(r, less)
    decreases entries, 1
  {
    if entries != [] {
      SortKeepsValue(entries[0].value, less);
      SortEntriesKeeps(entries[1..], less);
      var e, rest := Entry(entries[0].key, SortKeys(entries[0].value, less)), SortEntries(entries[1..], less);
      if e.key in AbsFields(entries[1..]) {
        var twin := EntryOf(entries[1..], e.key);
        assert false;
      }
      forall x | x in rest ensures x.key != e.key {
        assert x.key in AbsFields(rest);
      }
      InsertInOrder(e, rest, less);
      InsertFields(e, rest, less);
    }
  }

  /** A JSON value has one representation with its keys in order. */
  lemma {:induction false} InOrderUnique(u: Value, v: Value, less: KeyOrder)
    requires StrictTotal(less) && InOrder(u, less) && InOrder(v, less) && Abs(u) == Abs(v)
    ensures u == v
    decreases u, 0
  {
    match u
    case VArr(items) => ItemsUnique(items, v.items, less);
    case VObj(entries) => EntriesUnique(entries, v.entries, less);
    case _ =>
  }

  lemma {:induction false} ItemsUnique(us: seq<Value>, vs: seq<Value>, less: KeyOrder)
    requires StrictTotal(less) && AbsItems(us) == AbsItems(vs)
    requires forall i :: 0 <= i < |us| ==> InOrder(us[i], less)
    requires forall i :: 0 <= i < |vs| ==> InOrder(vs[i], less)
    ensures us == vs
    decreases us, 1
  {
    if us != [] {
      assert |AbsItems(us)| == |us| && |AbsItems(vs)| == |vs|;
      assert AbsItems(us[1..]) == AbsItems(us)[1..] == AbsItems(vs)[1..] == AbsItems(vs[1..]);
      InOrderUnique(us[0], vs[0], less);
      ItemsUnique(us[1..], vs[1..], less);
    }
  }

  lemma FirstKeyLeast(entries: seq<Entry>, k: string, less: KeyOrder)
    requires EntriesInOrder(entries, less) && k in AbsFields(entries)
    ensures entries != [] && (k == entries[0].key || less(entries[0].key, k))
  {
    var e := EntryOf(entries, k);
    assert e == entries[0] || e in entries[1..];
  }

  lemma RestFields(entries: seq<Entry>, less: KeyOrder)
    requires StrictTotal(less) && EntriesInOrder(entries, less) && entries != []
    ensures AbsFields(entries[1..]) == AbsFields(entries) - {entries[0].key}
  {
    var k, rest := entries[0].key, entries[1..];
    if k in AbsFields(rest) {
      var e := EntryOf(rest, k);
      assert false;
    }
  }

  lemma {:induction false} EntriesUnique(us: seq<Entry>, vs: seq<Entry>, less: KeyOrder)
    requires StrictTotal(less) && AbsFields(us) == AbsFields(vs)
    requires EntriesInOrder(us, less) && EntriesInOrder(vs, less)
    ensures us == vs
    decreases us, 1
  {
    assert us != [] ==> us[0].key in AbsFields(us);
    assert vs != [] ==> vs[0].key in AbsFields(vs);
    if us != [] {
      FirstKeyLeast(us, vs[0].key, less);
      FirstKeyLeast(vs, us[0].key, less);
      assert us[0].key == vs[0].key;
      RestFields(us, less);
      RestFields(vs, less);
      assert Abs(us[0].value) == AbsFields(us)[us[0].key] == AbsFields(vs)[vs[0].key] == Abs(vs[0].value);
      InOrderUnique(us[0].value, vs[0].value, less);
      EntriesUnique(us[1..], vs[1..], less);
    }
  }

  /** Canonical text under a key order. */
  function Text(v: Value, less: KeyOrder): string { Print(SortKeys(v, less)) }

  /** Two values have the same canonical text iff they are the same JSON value. */
  lemma TextIffSameValue(u: Value, v: Value, less: KeyOrder)
    requires StrictTotal(less) && WellFormed(u) && WellFormed(v)
    ensures Text(u, less) == Text(v, less) <==> Abs(u) == Abs(v)
  {
    var u', v' := SortKeys(u, less), SortKeys(v, less);
    SortKeepsValue(u, less);
    SortKeepsValue(v, less);
    if Text(u, less) == Text(v, less) {
      assert Print(u') + "" == Print(u') && Print(v') + "" == Print(v');
      PrintPrefixFree(u', v', "", "");
    } else if Abs(u) == Abs(v) {
      InOrderUnique(u', v', less);
    }
  }

  /** The UTF-16 code units of a character; characters are Unicode scalars, never surrogates. */
  function Units(c: char): (units: seq<int>)
    ensures |units| > 0
  {
    var n := c as int;
    if n < 0x1_0000 then [n] else [0xD800 + (n - 0x1_0000) / 0x400, 0xDC00 + (n - 0x1_0000) % 0x400]
  }

  function Utf16(s: string): seq<int> { if s == "" then [] else Units(s[0]) + Utf16(s[1..]) }

  /** Lexicographic order of code units: `Array.prototype.sort` on keys. */
  predicate UnitsLess(x: seq<int>, y: seq<int>) {
    y != [] && (x == [] || x[0] < y[0] || (x[0] == y[0] && UnitsLess(x[1..], y[1..])))
  }

  /** The same order, decided at the first character that differs. */
  predicate CodeUnitLess(a: string, b: string) {
    b != "" && (a == "" || UnitsLess(Units(a[0]), Units(b[0])) || (a[0] == b[0] && CodeUnitLess(a[1..], b[1..])))
  }

  /** Code units tell two characters apart before either ends. */
  lemma CharsDiffer(a: char, b: char, x: seq<int>, y: seq<int>)
    requires a != b
    ensures UnitsLess(Units(a) + x, Units(b) + y) <==> UnitsLess(Units(a), Units(b))
    ensures UnitsLess(Units(a), Units(b)) <==> !UnitsLess(Units(b), Units(a))
  {
    var u, v := Units(a), Units(b);
    assert (u + x)[0] == u[0] && (v + y)[0] == v[0];
    if u[0] == v[0] {
      assert |u| == 2 && |v| == 2 && u[1] != v[1];
      assert (u + x)[1..][0] == u[1] && (v + y)[1..][0] == v[1];
    }
  }

  lemma {:induction false} UnitsIrreflexive(x: seq<int>)
    ensures !UnitsLess(x, x)
  {
    if x != [] { UnitsIrreflexive(x[1..]); }
  }

  lemma UnitsStripped(c: char, x: seq<int>, y: seq<int>)
    ensures UnitsLess(Units(c) + x, Units(c) + y) <==> UnitsLess(x, y)
    ensures !UnitsLess(Units(c), Units(c))
  {
    var u := Units(c);
    assert (u + x)[1..] == u[1..] + x && (u + y)[1..] == u[1..] + y;
    UnitsIrreflexive(u);
    if |u| == 2 {
      assert (u[1..] + x)[1..] == x && (u[1..] + y)[1..] == y;
    } else {
      assert u[1..] + x == x && u[1..] + y == y;
    }
  }

  /** `CodeUnitLess` compares the UTF-16 texts of the keys. */
  lemma {:induction false} CodeUnitLessIsUtf16(a: string, b: string)
    ensures CodeUnitLess(a, b) <==> UnitsLess(Utf16(a), Utf16(b))
    decreases |a|
  {
    if a != "" && b != "" {
      if a[0] == b[0] {
        UnitsStripped(a[0], Utf16(a[1..]), Utf16(b[1..]));
        CodeUnitLessIsUtf16(a[1..], b[1..]);
      } else {
        CharsDiffer(a[0], b[0], Utf16(a[1..]), Utf16(b[1..]));
      }
    }
  }

  lemma {:induction false} CodeUnitTotal(a: string, b: string)
    ensures !CodeUnitLess(a, a)
    ensures CodeUnitLess(a, b) || CodeUnitLess(b, a) || a == b
    decreases |a|
  {
    if a != "" {
      CodeUnitTotal(a[1..], if b == "" then "" else b[1..]);
      UnitsStripped(a[0], [], []);
      if b != "" && a[0] != b[0] { CharsDiffer(a[0], b[0], [], []); }
      assert b != "" && a[0] == b[0] && a[1..] == b[1..] ==> a == [a[0]] + a[1..] == b;
    }
  }

  lemma UnitsTransitive(a: char, b: char, c: char)
    requires UnitsLess(Units(a), Units(b)) && UnitsLess(Units(b), Units(c))
    ensures UnitsLess(Units(a), Units(c))
  {
  }

  lemma {:induction false} CodeUnitTransitive(a: string, b: string, c: string)
    requires CodeUnitLess(a, b) && CodeUnitLess(b, c)
    ensures CodeUnitLess(a, c)
    decreases |a|
  {
    if a != "" {
      if a[0] == b[0] == c[0] {
        UnitsStripped(a[0], [], []);
        CodeUnitTransitive(a[1..], b[1..], c[1..]);
      } else if a[0] != b[0] && b[0] != c[0] {
        UnitsTransitive(a[0], b[0], c[0]);
      }
    }
  }

  lemma CodeUnitOrder()
    ensures StrictTotal(CodeUnitLess)
  {
    forall a, b ensures !CodeUnitLess(a, a) && (CodeUnitLess(a, b) || CodeUnitLess(b, a) || a == b) {
      CodeUnitTotal(a, b);
    }
    forall a, b, c | CodeUnitLess(a, b) && CodeUnitLess(b, c) ensures CodeUnitLess(a, c) {
      CodeUnitTransitive(a, b, c);
    }
  }

  function CanonicalJson(v: Value): string { Text(v, CodeUnitLess) }

  /** `canonicalJson` is unambiguous and independent of key order. */
  lemma CanonicalJsonIsInjective(u: Value, v: Value)
    requires WellFormed(u) && WellFormed(v)
    ensures CanonicalJson(u) == CanonicalJson(v) <==> Abs(u) == Abs(v)
  {
    CodeUnitOrder();
    TextIffSameValue(u, v, CodeUnitLess);
  }
}
