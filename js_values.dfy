/** The JavaScript runtime values the client handles without a static type: data that arrives
    from the server, and the conversions `String(x)` and `parseInt(x)` applied to it.
    Numbers are integers in this model. */
module JsValues {
  import opened Wrappers
  import opened Strings

  datatype Value =
    | Undefined
    | Null
    | Bool(b: bool)
    | Num(n: int)
    | Str(s: string)
    | Arr(elems: seq<Value>)
    | Obj(props: map<string, Value>)

  /** JavaScript truthiness. */
  predicate Truthy(v: Value)
  {
    match v
    case Undefined => false
    case Null => false
    case Bool(b) => b
    case Num(n) => n != 0
    case Str(s) => s != ""
    case Arr(_) => true
    case Obj(_) => true
  }

  /** `typeof v === 'object'` (true of `null` as well). */
  predicate IsObjectType(v: Value)
  {
    v.Null? || v.Arr? || v.Obj?
  }

  /** The property read `v[key]` for the non-index keys the client uses. */
  function Get(v: Value, key: string): Value
  {
    match v
    case Obj(props) => if key in props then props[key] else Undefined
    case Arr(es) => if key == "length" then Num(|es|) else Undefined
    case Str(s) => if key == "length" then Num(|s|) else Undefined
    case _ => Undefined
  }

  /** `String(v)`; an array joins its elements with "," and writes `null` and `undefined`
      elements as the empty string. */
  function ToString(v: Value): string
    decreases v
  {
    match v
    case Undefined => "undefined"
    case Null => "null"
    case Bool(b) => if b then "true" else "false"
    case Num(n) => IntToString(n)
    case Str(s) => s
    case Obj(_) => "[object Object]"
    case Arr(es) => JoinWithCommas(seq(|es|, i requires 0 <= i < |es| =>
                      if es[i].Undefined? || es[i].Null? then "" else ToString(es[i])))
  }

  function JoinWithCommas(parts: seq<string>): string
  {
    if parts == [] then ""
    else if |parts| == 1 then parts[0]
    else parts[0] + "," + JoinWithCommas(parts[1..])
  }

  predicate IsHexDigit(c: char)
  {
    IsDigit(c) || ('a' <= c <= 'f') || ('A' <= c <= 'F')
  }

  function HexDigitValue(c: char): nat
    requires IsHexDigit(c)
  {
    if IsDigit(c) then c as int - '0' as int
    else if 'a' <= c <= 'f' then c as int - 'a' as int + 10
    else c as int - 'A' as int + 10
  }

  /** The longest prefix of `s` whose characters all satisfy the digit test of the radix. */
  function DigitPrefix(s: string, hex: bool): (r: string)
    ensures |r| <= |s| && r == s[..|r|]
    ensures forall i :: 0 <= i < |r| ==> if hex then IsHexDigit(r[i]) else IsDigit(r[i])
    ensures |r| < |s| ==> !(if hex then IsHexDigit(s[|r|]) else IsDigit(s[|r|]))
  {
    if s == [] || !(if hex then IsHexDigit(s[0]) else IsDigit(s[0])) then []
    else [s[0]] + DigitPrefix(s[1..], hex)
  }

  function HexValue(s: string): nat
    requires forall i :: 0 <= i < |s| ==> IsHexDigit(s[i])
  {
    if s == [] then 0 else HexValue(s[..|s| - 1]) * 16 + HexDigitValue(s[|s| - 1])
  }

  /** `parseInt(s)` with no radix; `None` stands for NaN. Leading whitespace is skipped, one
      sign is read, then the digits as `ParseUnsigned` reads them. */
  function ParseInt(s: string): (r: Option<int>)
    ensures r.Some? ==> exists i :: 0 <= i < |s| && IsDigit(s[i])
    ensures r.Some? && r.value < 0 ==> exists i :: 0 <= i < |s| && s[i] == '-'
  {
    var t := TrimStart(JsSpace, s);
    assert forall i :: 0 <= i < |t| ==> t[i] == s[|s| - |t| + i];
    if |t| > 0 && t[0] == '-' then
      match ParseUnsigned(t[1..])
      case Some(v) => Some(-v)
      case None => None
    else if |t| > 0 && t[0] == '+' then
      match ParseUnsigned(t[1..])
      case Some(v) => Some(v)
      case None => None
    else
      match ParseUnsigned(t)
      case Some(v) => Some(v)
      case None => None
  }

  /** A "0x"/"0X" prefix selects base 16; the longest run of digits of the base is read, and
      no digit at all gives NaN. */
  function ParseUnsigned(u: string): (r: Option<int>)
    ensures r.Some? ==> r.value >= 0
    ensures r.Some? ==> |u| > 0 && IsDigit(u[0])
  {
    if |u| >= 2 && u[0] == '0' && (u[1] == 'x' || u[1] == 'X') then
      var digits := DigitPrefix(u[2..], true);
      if digits == [] then None else Some(HexValue(digits))
    else
      var digits := DigitPrefix(u, false);
      if digits == [] then None else Some(DecimalValue(digits))
  }

  /** A decimal numeral without a leading zero parses to its value. */
  lemma ParseIntOfDigits(d: string)
    requires 1 <= |d| && IsDigits(d) && (d[0] == '0' ==> |d| == 1)
    ensures ParseInt(d) == Some(DecimalValue(d))
  {
    ParseUnsignedOfDigits(d);
    assert !IsSpace(JsSpace, d[0]);
    assert TrimStart(JsSpace, d) == d;
  }

  lemma ParseUnsignedOfDigits(d: string)
    requires 1 <= |d| && IsDigits(d) && (d[0] == '0' ==> |d| == 1)
    ensures ParseUnsigned(d) == Some(DecimalValue(d))
  {
    DigitPrefixOfDigits(d);
  }

  lemma {:induction false} DigitPrefixOfDigits(s: string)
    requires IsDigits(s)
    ensures DigitPrefix(s, false) == s
  {
    if s != [] {
      DigitPrefixOfDigits(s[1..]);
    }
  }

  /** A string whose first character is neither whitespace, a sign nor a digit parses to NaN. */
  lemma ParseIntOfNonNumeric(s: string)
    requires |s| > 0 && !IsSpace(JsSpace, s[0]) && s[0] != '-' && s[0] != '+' && !IsDigit(s[0])
    ensures ParseInt(s) == None
  {
    assert TrimStart(JsSpace, s) == s;
  }
}
