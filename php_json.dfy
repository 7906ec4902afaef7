/**
  The decoded server descriptor as PHP sees it after `json_decode($text, true)`:
  scalars, and arrays that are ORDERED key/value sequences (JSON objects and
  JSON lists both become PHP arrays). Also the few PHP value operations the
  kernel relies on: `foreach`, `$a['key']`, `isset`, `(int)` and string
  conversion for concatenation.
*/
module PhpJson {
  import opened Wrappers

  /** A PHP array key. json_decode turns a member name that is a canonical
      decimal integer ("8080") into an integer key; every other name stays a string. */
  datatype Key = IntKey(n: int) | StrKey(s: string)

  /** A decoded JSON value. Floating-point numbers are not modelled. */
  datatype Json =
    | JNull
    | JBool(b: bool)
    | JInt(i: int)
    | JString(s: string)
    | JArray(entries: seq<(Key, Json)>)

  /** What `foreach` visits: the entries of an array in order, nothing for any other value. */
  function Entries(v: Json): seq<(Key, Json)>
  {
    if v.JArray? then v.entries else []
  }

  /** The first index at or after `from` whose element satisfies `p`:
      the scan a `foreach` with an early `return` performs. */
  function FirstWhere<T>(s: seq<T>, p: T -> bool, from: nat): (r: Option<nat>)
    requires from <= |s|
    ensures r.Some? ==> from <= r.value < |s| && p(s[r.value])
    ensures r.Some? ==> forall j :: from <= j < r.value ==> !p(s[j])
    ensures r.None? ==> forall j :: from <= j < |s| ==> !p(s[j])
    decreases |s| - from
  {
    if from == |s| then None
    else if p(s[from]) then Some(from)
    else FirstWhere(s, p, from + 1)
  }

  /** `$a['k']` on an array with entries `es`: the value of the entry with key `k`,
      or null when there is none (PHP arrays have distinct keys; the first is read). */
  function Lookup(es: seq<(Key, Json)>, k: string): (r: Json)
    ensures r != JNull ==> exists i :: 0 <= i < |es| && es[i] == (StrKey(k), r)
    ensures forall i :: 0 <= i < |es| && es[i].0 == StrKey(k) && (forall j :: 0 <= j < i ==> es[j].0 != StrKey(k)) ==>
              r == es[i].1
    ensures (forall i :: 0 <= i < |es| ==> es[i].0 != StrKey(k)) ==> r == JNull
  {
    match FirstWhere(es, (e: (Key, Json)) => e.0 == StrKey(k), 0)
    case Some(i) => es[i].1
    case None => JNull
  }

  /** `isset($a['k'])`: the key is present and its value is not null. */
  predicate IsSet(es: seq<(Key, Json)>, k: string)
  {
    Lookup(es, k) != JNull
  }

  /** The key of a `foreach ($a as $key => $v)` as a PHP value. */
  function KeyValue(k: Key): Json
  {
    match k
    case IntKey(n) => JInt(n)
    case StrKey(s) => JString(s)
  }

  predicate IsDigit(c: char)
  {
    '0' <= c <= '9'
  }

  /** The value of the decimal digits `ds`. */
  function DecimalValue(ds: string): nat
    requires forall i :: 0 <= i < |ds| ==> IsDigit(ds[i])
  {
    if ds == [] then 0
    else
      assert IsDigit(ds[|ds| - 1]);
      10 * DecimalValue(ds[..|ds| - 1]) + (ds[|ds| - 1] as int - '0' as int)
  }

  /** The longest prefix of `s` made of decimal digits. */
  function DigitPrefix(s: string): (r: string)
    ensures |r| <= |s| && r == s[..|r|]
    ensures forall i :: 0 <= i < |r| ==> IsDigit(r[i])
    ensures |r| < |s| ==> !IsDigit(s[|r|])
  {
    if s == [] || !IsDigit(s[0]) then [] else [s[0]] + DigitPrefix(s[1..])
  }

  /** `(int) $key`. A string key is read by its leading decimal digits (0 when it has none). */
  function KeyToInt(k: Key): int
  {
    match k
    case IntKey(n) => n
    case StrKey(s) => DecimalValue(DigitPrefix(s))
  }

  function DigitChar(d: nat): char
    requires d < 10
  {
    ('0' as int + d) as char
  }

  /** The decimal representation of `n`, without leading zeros. */
  function NatToString(n: nat): (r: string)
    ensures |r| > 0 && forall i :: 0 <= i < |r| ==> IsDigit(r[i])
    ensures DecimalValue(r) == n
    ensures r[0] == '0' ==> r == "0"
  {
    if n < 10 then [DigitChar(n)]
    else
      var r := NatToString(n / 10) + [DigitChar(n % 10)];
      assert r[..|r| - 1] == NatToString(n / 10);
      r
  }

  function IntToString(n: int): string
  {
    if n < 0 then "-" + NatToString(-n) else NatToString(n)
  }

  /** PHP's conversion of a value to a string, as `.` applies it:
      null and false give "", true gives "1", an array gives "Array". */
  function ToPhpString(v: Json): string
  {
    match v
    case JNull => ""
    case JBool(b) => if b then "1" else ""
    case JInt(i) => IntToString(i)
    case JString(s) => s
    case JArray(_) => "Array"
  }
}
