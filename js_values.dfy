/**
 * The JavaScript values a field of a parsed JSON request body can hold, with
 * the two operations the server applies to them: the truthiness test `!x`
 * and the string interpolation `${x}`.
 */
module JsValues {
  import opened Wrappers

  /** Number.MAX_SAFE_INTEGER: up to it in magnitude, every integer is a distinct double. */
  const MaxSafeInteger: int := 9007199254740991

  /** JavaScript's safe integers: a JSON number in this range parses without rounding. */
  type SafeInteger = n: int | -MaxSafeInteger <= n <= MaxSafeInteger

  /** A body field: missing (`undefined`), `null`, a boolean, an integer or a string. */
  datatype JsValue =
    | Undefined
    | Null
    | Bool(b: bool)
    | Num(n: SafeInteger)
    | Str(s: string)

  /** JavaScript truthiness: `!v` is false exactly when this holds. */
  predicate Truthy(v: JsValue)
  {
    match v
    case Undefined => false
    case Null => false
    case Bool(b) => b
    case Num(n) => n != 0
    case Str(s) => s != ""
  }

  predicate IsDigit(c: char)
  {
    '0' <= c <= '9'
  }

  function DigitValue(c: char): (d: nat)
    requires IsDigit(c)
    ensures d < 10
  {
    c as int - '0' as int
  }

  function DigitChar(d: nat): (c: char)
    requires d < 10
    ensures IsDigit(c) && DigitValue(c) == d
  {
    ('0' as int + d) as char
  }

  /** Decimal digits of a natural number, most significant first, as Number.prototype.toString writes them. */
  function NatText(n: nat): (s: string)
    ensures |s| > 0
    ensures forall k :: 0 <= k < |s| ==> IsDigit(s[k])
    ensures s[0] == '0' ==> n == 0 && |s| == 1
    decreases n
  {
    if n < 10 then [DigitChar(n)] else NatText(n / 10) + [DigitChar(n % 10)]
  }

  /** Text of an integer under `${n}`: a minus sign for negatives, then the digits. */
  function IntText(n: int): (s: string)
    ensures |s| > 0
    ensures (s[0] == '-') == (n < 0)
  {
    if n < 0 then "-" + NatText(-n) else NatText(n)
  }

  /** The text `${v}` produces for a body value. */
  function ToText(v: JsValue): (s: string)
    ensures Truthy(v) ==> s != ""
    ensures v.Str? ==> s == v.s
  {
    match v
    case Undefined => "undefined"
    case Null => "null"
    case Bool(b) => if b then "true" else "false"
    case Num(n) => IntText(n)
    case Str(s) => s
  }

  /** Reference reading of a string of decimal digits; None unless every character is a digit. */
  function ParseNat(s: string): (r: Option<nat>)
    ensures r.Some? <==> |s| > 0 && forall k :: 0 <= k < |s| ==> IsDigit(s[k])
    decreases |s|
  {
    if s == [] || !IsDigit(s[|s| - 1]) then None
    else if |s| == 1 then Some(DigitValue(s[0]))
    else
      match ParseNat(s[..|s| - 1])
      case None => None
      case Some(p) => Some(10 * p + DigitValue(s[|s| - 1]))
  }

  /** Reference reading of an optionally negative decimal integer. */
  function ParseInt(s: string): (r: Option<int>)
  {
    if |s| > 0 && s[0] == '-' then
      match ParseNat(s[1..])
      case None => None
      case Some(p) => Some(-(p as int))
    else
      match ParseNat(s)
      case None => None
      case Some(p) => Some(p as int)
  }

  lemma {:induction false} NatTextRoundTrip(n: nat)
    ensures ParseNat(NatText(n)) == Some(n)
    decreases n
  {
    if n >= 10 {
      var s := NatText(n);
      NatTextRoundTrip(n / 10);
      assert s[..|s| - 1] == NatText(n / 10);
      assert DigitValue(s[|s| - 1]) == n % 10;
    }
  }

  /** The text of an integer reads back as that integer. */
  lemma IntTextRoundTrip(n: int)
    ensures ParseInt(IntText(n)) == Some(n)
  {
    if n < 0 {
      NatTextRoundTrip(-n);
      assert IntText(n)[1..] == NatText(-n);
    } else {
      NatTextRoundTrip(n);
    }
  }

  /** Distinct integers interpolate to distinct texts. */
  lemma IntTextInjective(m: int, n: int)
    ensures IntText(m) == IntText(n) ==> m == n
  {
    IntTextRoundTrip(m);
    IntTextRoundTrip(n);
  }
}
