/** The few JavaScript string-to-number conversions the crash pipeline relies
    on: `parseInt(s, 10)`, the `isNaN(parseFloat(s))` test, and `s == 1`. */
module JsText {

  import opened Wrappers

  /** `String(v)` of a field read: an own string value, or `"undefined"`
      when the row has no such field. */
  function JsString(v: Option<string>): string
  {
    if v.Some? then v.value else "undefined"
  }

  /** StrWhiteSpaceChar of ECMA-262: WhiteSpace (TAB, VT, FF, ZWNBSP and every
      space separator) and LineTerminator (LF, CR, LS, PS). */
  predicate IsStrWhiteSpace(c: char)
  {
    c == '\t' || c == '\n' || c == '\U{B}' || c == '\U{C}' || c == '\r'
    || c == ' ' || c == '\U{A0}' || c == '\U{1680}'
    || ('\U{2000}' <= c <= '\U{200A}')
    || c == '\U{2028}' || c == '\U{2029}' || c == '\U{202F}' || c == '\U{205F}'
    || c == '\U{3000}' || c == '\U{FEFF}'
  }

  predicate IsDigit(c: char)
  {
    '0' <= c <= '9'
  }

  predicate AllDigits(s: string)
  {
    forall i :: 0 <= i < |s| ==> IsDigit(s[i])
  }

  /** `s` with its leading white space removed. */
  function TrimStart(s: string): (r: string)
    ensures r == [] || !IsStrWhiteSpace(r[0])
  {
    if s != [] && IsStrWhiteSpace(s[0]) then TrimStart(s[1..]) else s
  }

  /** Trimming only removes characters from the front. */
  lemma {:induction false} TrimStartSuffix(s: string)
    ensures |TrimStart(s)| <= |s| && TrimStart(s) == s[|s| - |TrimStart(s)|..]
  {
    if s != [] && IsStrWhiteSpace(s[0]) {
      TrimStartSuffix(s[1..]);
    }
  }

  /** `s` with its trailing white space removed. */
  function TrimEnd(s: string): (r: string)
    ensures |r| <= |s| && r == s[..|r|]
    ensures r == [] || !IsStrWhiteSpace(r[|r| - 1])
  {
    if s != [] && IsStrWhiteSpace(s[|s| - 1]) then TrimEnd(s[..|s| - 1]) else s
  }

  /** The longest prefix of `s` made of decimal digits. */
  function DigitPrefix(s: string): (r: string)
    ensures |r| <= |s| && r == s[..|r|]
    ensures AllDigits(r)
    ensures |r| < |s| ==> !IsDigit(s[|r|])
  {
    if s != [] && IsDigit(s[0]) then [s[0]] + DigitPrefix(s[1..]) else []
  }

  /** The value of a string of decimal digits. */
  function DigitsValue(d: string): nat
    requires AllDigits(d)
  {
    if d == [] then 0 else 10 * DigitsValue(d[..|d| - 1]) + (d[|d| - 1] - '0') as nat
  }

  /** `parseInt(s, 10)`: skip leading white space, take an optional sign, then
      the longest run of decimal digits; `None` (NaN) when that run is empty.
      A value beyond 2^53 would be rounded by JavaScript, but only ever to
      another value beyond 2^53, so comparisons with clock times agree. */
  function ParseInt(s: string): Option<int>
  {
    var t := TrimStart(s);
    var negative := t != [] && t[0] == '-';
    var u := if t != [] && (t[0] == '+' || t[0] == '-') then t[1..] else t;
    var d := DigitPrefix(u);
    var n: int := if d == [] then 0 else DigitsValue(d);
    if d == [] then None
    else if negative then Some(-n)
    else Some(n)
  }

  /** The decimal rendering of a natural number, without leading zeros. */
  function NatToString(n: nat): (r: string)
    ensures r != [] && AllDigits(r)
    ensures r[0] != '0' || n == 0
    decreases n
  {
    var digit := ['0' + (n % 10) as char];
    if n < 10 then digit else NatToString(n / 10) + digit
  }

  lemma {:induction false} DigitsValueOfNatToString(n: nat)
    ensures DigitsValue(NatToString(n)) == n
    decreases n
  {
    var r := NatToString(n);
    if n >= 10 {
      DigitsValueOfNatToString(n / 10);
      assert r[..|r| - 1] == NatToString(n / 10);
    }
  }

  lemma {:induction false} DigitPrefixOfDigits(d: string, tail: string)
    requires AllDigits(d)
    requires tail == [] || !IsDigit(tail[0])
    ensures DigitPrefix(d + tail) == d
  {
    if d != [] {
      assert (d + tail)[1..] == d[1..] + tail;
      DigitPrefixOfDigits(d[1..], tail);
    } else {
      assert d + tail == tail;
    }
  }

  /** `parseInt` reads back what `String(n)` writes, and stops at the first
      character that is not a digit ("930 hrs" reads as 930). */
  lemma ParseIntRoundTrip(n: nat, tail: string)
    requires tail == [] || !IsDigit(tail[0])
    ensures ParseInt(NatToString(n) + tail) == Some(n)
  {
    var s := NatToString(n) + tail;
    assert IsDigit(s[0]);
    assert TrimStart(s) == s;
    DigitPrefixOfDigits(NatToString(n), tail);
    DigitsValueOfNatToString(n);
  }

  /** A string without any decimal digit never parses. */
  lemma ParseIntNeedsADigit(s: string)
    requires forall i :: 0 <= i < |s| ==> !IsDigit(s[i])
    ensures ParseInt(s) == None
  {
    var t := TrimStart(s);
    TrimStartSuffix(s);
    assert forall i :: 0 <= i < |t| ==> t[i] == s[|s| - |t| + i];
    var u := if t != [] && (t[0] == '+' || t[0] == '-') then t[1..] else t;
    assert u == [] || !IsDigit(u[0]);
  }

  /** `!isNaN(parseFloat(s))`: after leading white space and an optional sign
      the text starts a StrDecimalLiteral, that is a digit, a `.` followed by
      a digit, or `Infinity`. */
  predicate FloatParses(s: string)
  {
    var t := TrimStart(s);
    var u := if t != [] && (t[0] == '+' || t[0] == '-') then t[1..] else t;
    (u != [] && IsDigit(u[0]))
    || (|u| >= 2 && u[0] == '.' && IsDigit(u[1]))
    || (|u| >= 8 && u[..8] == "Infinity")
  }

  /** `s` with its leading `0` characters removed. */
  function DropZeros(s: string): (r: string)
    ensures |r| <= |s|
  {
    if s != [] && s[0] == '0' then DropZeros(s[1..]) else s
  }

  predicate AllZeros(s: string)
  {
    forall i :: 0 <= i < |s| ==> s[i] == '0'
  }

  /** The loose equality `v == 1` for a field value: `undefined == 1` is
      false, and a string equals 1 when `Number(s)` is 1. After trimming, that
      is an unsigned or `+` decimal numeral whose integer part is `0…01` and
      whose fraction (if any) is all zeros, or a `0x`/`0o`/`0b` literal of
      value 1. */
  predicate LooseEqualsOne(v: Option<string>)
  {
    v.Some? &&
    var t := TrimEnd(TrimStart(v.value));
    var u := DropZeros(if t != [] && t[0] == '+' then t[1..] else t);
    (u != [] && u[0] == '1' && (u[1..] == [] || (u[1] == '.' && AllZeros(u[2..]))))
    || (|t| >= 3 && t[0] == '0' && t[1] in "xXoObB" && DropZeros(t[2..]) == "1")
  }

  /** Whatever `parseInt` reads as a number, `parseFloat` does too; a
      missing field (`"undefined"`) is NaN for both. */
  lemma FloatParsesWhenIntParses(s: string)
    ensures ParseInt(s).Some? ==> FloatParses(s)
    ensures !FloatParses(JsString(None)) && ParseInt(JsString(None)).None?
  {
    var t := TrimStart(s);
    var u := if t != [] && (t[0] == '+' || t[0] == '-') then t[1..] else t;
    if DigitPrefix(u) != [] {
      assert IsDigit(u[0]);
    }
    assert forall i :: 0 <= i < |"undefined"| ==> !IsDigit("undefined"[i]);
    ParseIntNeedsADigit(JsString(None));
  }

  /** A decimal numeral written without leading zeros is loosely equal to 1
      exactly when it is "1". */
  lemma LooseEqualsOneOfNumeral(n: nat)
    ensures LooseEqualsOne(Some(NatToString(n))) <==> n == 1
  {
    var s := NatToString(n);
    assert IsDigit(s[0]) && IsDigit(s[|s| - 1]);
    assert TrimStart(s) == s;
    assert TrimEnd(s) == s;
    assert s[0] != '+';
    if n == 0 {
      assert s == "0";
      assert DropZeros(s) == [];
    } else {
      assert DropZeros(s) == s;
      if |s| > 1 {
        assert s[1] != '.';
      }
      if s == "1" {
        DigitsValueOfNatToString(n);
      }
    }
  }
}
