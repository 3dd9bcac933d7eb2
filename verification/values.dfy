/** The JavaScript values that travel through the dispatcher and the logger:
    tool arguments, handler results, thrown values and log data. Numbers are
    integers only. */
module Values {

  datatype Value =
    | Undefined
    | Null
    | Bool(b: bool)
    | Num(n: int)
    | Str(s: string)
    | Arr(items: seq<Value>)
    | Obj(fields: map<string, Value>)

  /** JavaScript truthiness, as used by `x || y` and `if (x)`. */
  predicate Truthy(v: Value)
  {
    match v
    case Undefined => false
    case Null => false
    case Bool(b) => b
    case Num(n) => n != 0
    case Str(s) => |s| > 0
    case Arr(_) => true
    case Obj(_) => true
  }

  /** `x || fallback`: the first operand when it is truthy, otherwise the second. */
  function Or(x: Value, fallback: Value): Value
  {
    if Truthy(x) then x else fallback
  }

  predicate IsDigit(c: char)
  {
    '0' <= c <= '9'
  }

  function DigitChar(d: int): (c: char)
    requires 0 <= d < 10
    ensures IsDigit(c) && c as int - '0' as int == d
  {
    ('0' as int + d) as char
  }

  /** The decimal text of a natural number, without leading zeros. */
  function NatToDecimal(n: nat): (r: string)
    ensures 1 <= |r|
    ensures forall i :: 0 <= i < |r| ==> IsDigit(r[i])
    ensures r[0] == '0' ==> n == 0
    decreases n
  {
    if n < 10 then [DigitChar(n)] else NatToDecimal(n / 10) + [DigitChar(n % 10)]
  }

  /** The number a string of decimal digits denotes. */
  function DecimalValue(s: string): nat
    requires forall i :: 0 <= i < |s| ==> IsDigit(s[i])
  {
    if |s| == 0 then 0
    else
      var last := s[|s| - 1];
      assert IsDigit(last);
      DecimalValue(s[..|s| - 1]) * 10 + (last as int - '0' as int)
  }

  /** Reading the decimal text back gives the number. */
  lemma {:induction false} DecimalRoundTrip(n: nat)
    ensures DecimalValue(NatToDecimal(n)) == n
    decreases n
  {
    if n >= 10 {
      var r := NatToDecimal(n);
      assert r[..|r| - 1] == NatToDecimal(n / 10);
      DecimalRoundTrip(n / 10);
    }
  }

  /** `String(n)` for an integer number. */
  function IntToDecimal(n: int): string
  {
    if n < 0 then "-" + NatToDecimal(-n) else NatToDecimal(n)
  }

  /** `String(v)`: the conversion applied to a thrown value that is not an `Error`.
      Array elements are joined with "," and null or undefined elements print empty. */
  function ToJsString(v: Value): string
    decreases v
  {
    match v
    case Undefined => "undefined"
    case Null => "null"
    case Bool(b) => if b then "true" else "false"
    case Num(n) => IntToDecimal(n)
    case Str(s) => s
    case Obj(_) => "[object Object]"
    case Arr(items) =>
      Join(seq(|items|, i requires 0 <= i < |items| =>
        if items[i].Null? || items[i].Undefined? then "" else ToJsString(items[i])), ",")
  }

  /** `parts.join(sep)`. */
  function Join(parts: seq<string>, sep: string): string
  {
    if |parts| == 0 then ""
    else if |parts| == 1 then parts[0]
    else parts[0] + sep + Join(parts[1..], sep)
  }

  /** Magnitude from which JavaScript prints numbers in exponent form. */
  const ExponentThreshold: int := 1_000_000_000_000_000_000_000

  /** `String` is the identity on strings and prints numbers below 10^21 in
      magnitude in decimal, so the printed number can be read back. */
  lemma ToJsStringFacts(v: Value)
    ensures v.Str? ==> ToJsString(v) == v.s
    ensures v.Num? && 0 <= v.n < ExponentThreshold ==> DecimalValue(ToJsString(v)) == v.n
    ensures v.Num? && -ExponentThreshold < v.n < 0 ==>
      ToJsString(v)[0] == '-' && DecimalValue(ToJsString(v)[1..]) == -v.n
  {
    if v.Num? {
      if v.n >= 0 {
        DecimalRoundTrip(v.n);
      } else {
        assert ToJsString(v)[1..] == NatToDecimal(-v.n);
        DecimalRoundTrip(-v.n);
      }
    }
  }
}
