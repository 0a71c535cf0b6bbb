/** Decoded JSON values as the Python code sees them after `response.json()`,
    and Python's `str()` of such a value. */
module Json {
  import opened Results

  newtype byte = x: int | 0 <= x < 256

  /** A JSON value. Objects keep their members in insertion order, as Python dicts
      do; numbers are integers (fractional JSON numbers are not modelled). A
      decoded object is taken to have distinct keys: the decoder keeps the last of
      repeated keys, and lookups here find the first. */
  datatype Json =
    | JNull
    | JBool(b: bool)
    | JNum(n: int)
    | JStr(s: string)
    | JArr(items: seq<Json>)
    | JObj(members: seq<(string, Json)>)

  predicate IsDigits(s: string)
  {
    forall i :: 0 <= i < |s| ==> '0' <= s[i] <= '9'
  }

  function Digit(d: nat): (c: char)
    requires d < 10
    ensures '0' <= c <= '9'
  {
    (('0' as int) + d) as char
  }

  /** The decimal numeral of `n`, without leading zeros. */
  function NatToDecimal(n: nat): (s: string)
    ensures |s| >= 1 && IsDigits(s)
    ensures s[0] == '0' ==> n == 0
    decreases n
  {
    if n < 10 then [Digit(n)] else NatToDecimal(n / 10) + [Digit(n % 10)]
  }

  /** The number a decimal numeral denotes; the reference reading of `NatToDecimal`. */
  function DecimalValue(s: string): nat
    requires IsDigits(s)
  {
    if |s| == 0 then 0
    else 10 * DecimalValue(s[..|s| - 1]) + ((s[|s| - 1] as int) - ('0' as int))
  }

  lemma {:induction false} DecimalRoundTrip(n: nat)
    ensures DecimalValue(NatToDecimal(n)) == n
  {
    if n >= 10 {
      var s := NatToDecimal(n);
      DecimalRoundTrip(n / 10);
      assert s[..|s| - 1] == NatToDecimal(n / 10);
    }
  }

  /** Python's `str(n)` for an integer. */
  function IntToDecimal(n: int): (s: string)
    ensures n < 0 <==> (|s| > 0 && s[0] == '-')
  {
    if n < 0 then "-" + NatToDecimal(-n) else NatToDecimal(n)
  }

  /** Python's `repr()` of a decoded value. Strings nested in a container are
      quoted with single quotes and no escaping. */
  function Repr(j: Json): string
    decreases j
  {
    match j
    case JNull => "None"
    case JBool(b) => if b then "True" else "False"
    case JNum(n) => IntToDecimal(n)
    case JStr(s) => "'" + s + "'"
    case JArr(items) => "[" + ReprItems(j, items) + "]"
    case JObj(ms) => "{" + ReprMembers(j, ms) + "}"
  }

  function ReprItems(ghost parent: Json, items: seq<Json>): string
    requires forall x :: x in items ==> x < parent
    decreases parent, |items|
  {
    if |items| == 0 then ""
    else
      assert items[0] in items;
      assert forall x :: x in items[1..] ==> x in items;
      if |items| == 1 then Repr(items[0])
    else Repr(items[0]) + ", " + ReprItems(parent, items[1..])
  }

  function ReprMembers(ghost parent: Json, ms: seq<(string, Json)>): string
    requires forall m :: m in ms ==> m.1 < parent
    decreases parent, |ms|
  {
    if |ms| == 0 then ""
    else
      var entry := "'" + ms[0].0 + "': " + Repr(ms[0].1);
      if |ms| == 1 then entry else entry + ", " + ReprMembers(parent, ms[1..])
  }

  /** Python's `str()` of a decoded value: a string is itself, anything else its repr. */
  function PyStr(j: Json): string
  {
    if j.JStr? then j.s else Repr(j)
  }
}
