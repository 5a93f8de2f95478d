/** JSON data as values: what `canonicalJson` accepts, with objects as maps so that
    equality ignores the order in which keys were inserted. */
module Json {
  datatype Option<+T> = None | Some(value: T)

  datatype Json =
    | Null
    | Bool(b: bool)
    | Num(n: int)
    | Str(s: string)
    | Arr(items: seq<Json>)
    | Obj(fields: map<string, Json>)

  predicate IsDigit(c: char) { '0' <= c <= '9' }

  function DigitChar(d: nat): (c: char)
    requires d < 10
    ensures IsDigit(c) && c as int == '0' as int + d
  {
    ('0' as int + d) as char
  }

  /** The decimal text of a natural number, as `String(n)` prints it. */
  function Digits(n: nat): (s: string)
    ensures |s| > 0 && forall i :: 0 <= i < |s| ==> IsDigit(s[i])
  {
    if n < 10 then [DigitChar(n)] else Digits(n / 10) + [DigitChar(n % 10)]
  }

  lemma {:induction false} DigitsInjective(m: nat, n: nat)
    requires Digits(m) == Digits(n)
    ensures m == n
  {
    var s := Digits(m);
    assert (m < 10 <==> |s| == 1) && (n < 10 <==> |s| == 1);
    if m >= 10 {
      assert Digits(m / 10) == s[..|s| - 1] == Digits(n / 10);
      assert s[|s| - 1] == DigitChar(m % 10) == DigitChar(n % 10);
      DigitsInjective(m / 10, n / 10);
    }
  }

  /** An attribute path, already split at its dots. */
  type Path = seq<string>

  const RESERVED_NAMES := ["__proto__", "constructor", "prototype"]

  predicate ValidPath(path: Path) {
    path != [] && forall k :: 0 <= k < |path| ==> path[k] != "" && path[k] !in RESERVED_NAMES
  }

  /** The array element whose index prints as `key`. */
  function Element(items: seq<Json>, key: string, from: nat := 0): Option<Json>
    requires from <= |items|
    decreases |items| - from
  {
    if from == |items| then None
    else if Digits(from) == key then Some(items[from])
    else Element(items, key, from + 1)
  }

  /** One own-property access; `None` is JavaScript's `undefined`. */
  function Member(value: Json, key: string): Option<Json> {
    match value
    case Obj(fields) => if key in fields then Some(fields[key]) else None
    case Arr(items) => if key == "length" then Some(Num(|items|)) else Element(items, key)
    case _ => None
  }

  /** What a path denotes in a value. */
  function Lookup(value: Option<Json>, path: Path): Option<Json>
    decreases |path|
  {
    if path == [] then value
    else Lookup(if value.Some? then Member(value.value, path[0]) else None, path[1..])
  }

  lemma {:induction false} LookupUndefined(path: Path)
    ensures Lookup(None, path) == None
    decreases |path|
  {
    if path != [] { LookupUndefined(path[1..]); }
  }

  /** `readPath`: `Err` is the exception for a malformed path. */
  datatype Read = Found(value: Option<Json>) | Malformed

  method ReadPath(value: Option<Json>, path: Path) returns (r: Read)
    ensures r == if ValidPath(path) then Found(Lookup(value, path)) else Malformed
  {
    if path == [] || exists k :: 0 <= k < |path| && (path[k] == "" || path[k] in RESERVED_NAMES) {
      return Malformed;
    }
    var current := value;
    for k := 0 to |path|
      invariant Lookup(value, path) == Lookup(current, path[k..])
    {
      assert path[k..][1..] == path[k + 1..];
      var next := if current.Some? then Member(current.value, path[k]) else None;
      if next.None? {
        LookupUndefined(path[k + 1..]);
        return Found(None);
      }
      current := next;
    }
    return Found(current);
  }
}
