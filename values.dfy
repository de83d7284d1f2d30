/** Python values as they appear in a DynamoDB item and in a WebSite object's
    attributes, with the parts of Python's semantics the core relies on:
    `dict.get`, `==` and `str()`. */
module PyValues {

  datatype Option<T> = None | Some(value: T)

  /** The exceptions the core raises or catches. */
  datatype Exception =
    | KeyError(key: string)         // a missing dictionary key or environment variable
    | ValueError                    // int() rejected its argument
    | AttributeError(name: string)  // an attribute lookup on an object that lacks it
    | Raised(text: string)          // any other exception, e.g. escaping urlopen

  datatype Result<T> = Ok(value: T) | Err(error: Exception)

  /** A value held by an item attribute. DynamoDB numbers arrive as Decimal;
      only whole numbers are modelled. */
  datatype Value = VNone | VBool(b: bool) | VInt(i: int) | VStr(s: string)

  /** A flat dictionary: a DynamoDB item, or an object's `__dict__`. */
  type Item = map<string, Value>

  /** `d.get(key, default)` */
  function Get(d: Item, key: string, default: Value): Value {
    if key in d then d[key] else default
  }

  function BoolAsInt(b: bool): int {
    if b then 1 else 0
  }

  /** Python's `==` on values: bool is a subclass of int, so True == 1 and False == 0. */
  predicate PyEq(a: Value, b: Value) {
    if a.VBool? && b.VInt? then BoolAsInt(a.b) == b.i
    else if a.VInt? && b.VBool? then a.i == BoolAsInt(b.b)
    else a == b
  }

  /** Python's `==` agrees with structural equality except between a bool and an int. */
  lemma PyEqIsEqualityOffBools(a: Value, b: Value)
    requires !(a.VBool? && b.VInt?) && !(a.VInt? && b.VBool?)
    ensures PyEq(a, b) <==> a == b
  {
  }

  predicate IsDigit(c: char) {
    '0' <= c <= '9'
  }

  function DigitChar(d: int): (c: char)
    requires 0 <= d < 10
    ensures IsDigit(c) && c as int - '0' as int == d
  {
    "0123456789"[d]
  }

  /** The decimal text of a natural number, as `str()` writes it. */
  function DecimalDigits(n: nat): (r: string)
    ensures |r| >= 1
    ensures forall k :: 0 <= k < |r| ==> IsDigit(r[k])
    ensures r[0] == '0' ==> n == 0
  {
    if n < 10 then [DigitChar(n)] else DecimalDigits(n / 10) + [DigitChar(n % 10)]
  }

  /** The number a string of decimal digits denotes. */
  function DigitsValue(s: string): nat
    requires forall k :: 0 <= k < |s| ==> IsDigit(s[k])
  {
    if s == [] then 0
    else
      assert IsDigit(s[|s| - 1]);
      DigitsValue(s[..|s| - 1]) * 10 + (s[|s| - 1] as int - '0' as int)
  }

  /** Reading back the decimal text gives the number written. */
  lemma {:induction false} DecimalRoundTrip(n: nat)
    ensures DigitsValue(DecimalDigits(n)) == n
  {
    if n >= 10 {
      var r := DecimalDigits(n);
      assert r[..|r| - 1] == DecimalDigits(n / 10);
      DecimalRoundTrip(n / 10);
    }
  }

  /** `str(v)` */
  function PyStr(v: Value): string {
    match v
    case VNone => "None"
    case VBool(b) => if b then "True" else "False"
    case VInt(i) => if i < 0 then "-" + DecimalDigits(-i) else DecimalDigits(i)
    case VStr(s) => s
  }
}
