/** Text helpers with the exact character sets and formats the system relies on:
    whitespace trimming (JavaScript `String.prototype.trim` and Python `str.strip`),
    decimal rendering of integers, ASCII lower-casing and substring search. */
module Strings {

  /** Which runtime's whitespace set a trim uses. */
  datatype Space = JsSpace | PySpace

  /** JavaScript: WhiteSpace and LineTerminator code points. Python: the code points for
      which `str.isspace()` holds (it adds U+001C..U+001F and U+0085, and lacks U+FEFF). */
  predicate IsSpace(k: Space, c: char)
  {
    match k
    case JsSpace =>
      ('\t' <= c <= '\r') || c == ' ' || c == '\U{00A0}' || c == '\U{1680}'
      || ('\U{2000}' <= c <= '\U{200A}') || c == '\U{2028}' || c == '\U{2029}'
      || c == '\U{202F}' || c == '\U{205F}' || c == '\U{3000}' || c == '\U{FEFF}'
    case PySpace =>
      ('\t' <= c <= '\r') || ('\U{001C}' <= c <= '\U{001F}') || c == ' ' || c == '\U{0085}'
      || c == '\U{00A0}' || c == '\U{1680}' || ('\U{2000}' <= c <= '\U{200A}')
      || c == '\U{2028}' || c == '\U{2029}' || c == '\U{202F}' || c == '\U{205F}' || c == '\U{3000}'
  }

  predicate AllSpace(k: Space, s: string)
  {
    forall i :: 0 <= i < |s| ==> IsSpace(k, s[i])
  }

  /** Drops the leading whitespace: the result is the longest suffix that does not start with it. */
  function TrimStart(k: Space, s: string): (r: string)
    ensures |r| <= |s| && r == s[|s| - |r|..]
    ensures AllSpace(k, s[..|s| - |r|])
    ensures r == [] || !IsSpace(k, r[0])
  {
    if s == [] || !IsSpace(k, s[0]) then s else TrimStart(k, s[1..])
  }

  /** Drops the trailing whitespace: the result is the longest prefix that does not end with it. */
  function TrimEnd(k: Space, s: string): (r: string)
    ensures |r| <= |s| && r == s[..|r|]
    ensures AllSpace(k, s[|r|..])
    ensures r == [] || !IsSpace(k, r[|r| - 1])
  {
    if s == [] || !IsSpace(k, s[|s| - 1]) then s else TrimEnd(k, s[..|s| - 1])
  }

  /** `trim()` / `strip()`: the slice of `s` that starts after its leading whitespace and
      has whitespace on neither end; empty exactly when `s` is all whitespace. */
  function Trim(k: Space, s: string): (r: string)
    ensures OccursAt(s, r, |s| - |TrimStart(k, s)|)
    ensures r == [] <==> AllSpace(k, s)
    ensures r != [] ==> !IsSpace(k, r[0]) && !IsSpace(k, r[|r| - 1])
  {
    TrimOccurs(k, s);
    TrimEmptyIff(k, s);
    TrimEnds(k, s);
    TrimEnd(k, TrimStart(k, s))
  }

  lemma TrimOccurs(k: Space, s: string)
    ensures OccursAt(s, TrimEnd(k, TrimStart(k, s)), |s| - |TrimStart(k, s)|)
  {
    var t := TrimStart(k, s);
    var r := TrimEnd(k, t);
    PrefixOfSuffix(s, |s| - |t|, |r|);
  }

  lemma PrefixOfSuffix(s: string, n: nat, m: nat)
    requires n + m <= |s|
    ensures s[n..][..m] == s[n..n + m]
  {
  }

  lemma TrimEnds(k: Space, s: string)
    ensures var r := TrimEnd(k, TrimStart(k, s));
            r != [] ==> !IsSpace(k, r[0]) && !IsSpace(k, r[|r| - 1])
  {
    var t := TrimStart(k, s);
    var r := TrimEnd(k, t);
    assert r != [] ==> r[0] == t[0];
  }

  lemma TrimEmptyIff(k: Space, s: string)
    ensures TrimEnd(k, TrimStart(k, s)) == [] <==> AllSpace(k, s)
  {
    var t := TrimStart(k, s);
    var n := |s| - |t|;
    if TrimEnd(k, t) == [] {
      forall i | 0 <= i < |s| ensures IsSpace(k, s[i]) {
        assert s[i] == s[..n][i];
      }
    }
  }

  lemma {:induction false} TrimIdempotent(k: Space, s: string)
    ensures Trim(k, Trim(k, s)) == Trim(k, s)
  {
    var r := Trim(k, s);
    if r != [] {
      assert TrimStart(k, r) == r;
      assert TrimEnd(k, r) == r;
    }
  }

  predicate IsDigit(c: char) { '0' <= c <= '9' }

  predicate IsDigits(s: string) { forall i :: 0 <= i < |s| ==> IsDigit(s[i]) }

  function DigitChar(d: nat): (c: char)
    requires d < 10
    ensures IsDigit(c) && c as int - '0' as int == d
  {
    (d + '0' as int) as char
  }

  /** Value of a run of decimal digits, read left to right. */
  function DecimalValue(s: string): nat
    requires IsDigits(s)
  {
    if s == [] then 0 else DecimalValue(s[..|s| - 1]) * 10 + (s[|s| - 1] as int - '0' as int)
  }

  /** Decimal rendering of a natural number, as JavaScript's `String(n)` and Python's `str(n)`
      write it: at least one digit and no leading zero. */
  function NatToString(n: nat): (r: string)
    ensures 1 <= |r| && IsDigits(r)
    ensures (|r| == 1) == (n < 10)
    ensures r[0] == '0' ==> n == 0
    decreases n
  {
    if n < 10 then [DigitChar(n)] else NatToString(n / 10) + [DigitChar(n % 10)]
  }

  /** Reading the digits back gives the number: the rendering loses nothing. */
  lemma {:induction false} NatToStringRoundTrip(n: nat)
    ensures DecimalValue(NatToString(n)) == n
    decreases n
  {
    var r := NatToString(n);
    if n >= 10 {
      NatToStringRoundTrip(n / 10);
      assert r[..|r| - 1] == NatToString(n / 10);
    }
  }

  lemma NatToStringInjective(a: nat, b: nat)
    requires NatToString(a) == NatToString(b)
    ensures a == b
  {
    NatToStringRoundTrip(a);
    NatToStringRoundTrip(b);
  }

  /** Decimal rendering of an integer with a leading '-' when negative. */
  function IntToString(n: int): (r: string)
    ensures 1 <= |r|
    ensures (r[0] == '-') == (n < 0)
    ensures n >= 0 ==> IsDigits(r)
    ensures n < 0 ==> IsDigits(r[1..]) && 2 <= |r|
  {
    if n < 0 then "-" + NatToString(-n) else NatToString(n)
  }

  lemma IntToStringInjective(a: int, b: int)
    requires IntToString(a) == IntToString(b)
    ensures a == b
  {
    if a < 0 {
      assert IntToString(a)[1..] == NatToString(-a);
      assert IntToString(b)[1..] == NatToString(-b);
      NatToStringInjective(-a, -b);
    } else {
      NatToStringInjective(a, b);
    }
  }

  function LowerAscii(c: char): char
  {
    if 'A' <= c <= 'Z' then (c as int + 32) as char else c
  }

  /** `toLowerCase()` on the letters A-Z; every other character is kept. */
  function ToLowerAscii(s: string): (r: string)
    ensures |r| == |s|
    ensures forall i :: 0 <= i < |s| ==> r[i] == LowerAscii(s[i])
  {
    if s == [] then [] else [LowerAscii(s[0])] + ToLowerAscii(s[1..])
  }

  predicate OccursAt(s: string, sub: string, i: int)
  {
    0 <= i && i + |sub| <= |s| && s[i..i + |sub|] == sub
  }

  /** `s.includes(sub)`: some position of `s` starts a copy of `sub`. */
  function Contains(s: string, sub: string): (b: bool)
    ensures b <==> exists i :: OccursAt(s, sub, i)
    decreases |s|
  {
    if |sub| > |s| then false
    else if s[..|sub|] == sub then (assert OccursAt(s, sub, 0); true)
    else
      var rest := Contains(s[1..], sub);
      if rest then
        var i :| OccursAt(s[1..], sub, i);
        assert OccursAt(s, sub, i + 1) by { assert s[i + 1..i + 1 + |sub|] == s[1..][i..i + |sub|]; }
        true
      else
        assert forall i :: OccursAt(s, sub, i) ==> i == 0 by {
          forall i | OccursAt(s, sub, i) ensures i == 0 {
            if i > 0 { assert s[1..][i - 1..i - 1 + |sub|] == s[i..i + |sub|]; assert OccursAt(s[1..], sub, i - 1); }
          }
        }
        false
  }
}
