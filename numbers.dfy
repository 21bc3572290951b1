/** Decimal text of integers (`Number.prototype.toString`) and
    `parseInt(value, 10)`, the two conversions the connector update uses. */
module Numbers {
  import opened Results

  predicate IsDigit(c: char) {
    '0' <= c <= '9'
  }

  predicate AllDigits(s: string) {
    forall i :: 0 <= i < |s| ==> IsDigit(s[i])
  }

  function DigitChar(d: nat): (c: char)
    requires d < 10
    ensures IsDigit(c) && c as int - '0' as int == d
  {
    "0123456789"[d]
  }

  function DigitValue(c: char): (d: nat)
    requires IsDigit(c)
    ensures d < 10
  {
    c as int - '0' as int
  }

  /** Decimal digits of `n`, most significant first, no leading zero. */
  function NatToString(n: nat): (r: string)
    ensures |r| > 0 && AllDigits(r)
    ensures r[0] == '0' ==> n == 0
    decreases n
  {
    if n < 10 then [DigitChar(n)] else NatToString(n / 10) + [DigitChar(n % 10)]
  }

  /** `n.toString()` for an integral JavaScript number. */
  function IntToString(n: int): (r: string)
    ensures |r| > 0 && (r[0] == '-' || IsDigit(r[0]))
    ensures forall i :: 0 < i < |r| ==> IsDigit(r[i])
  {
    if n < 0 then "-" + NatToString(-n) else NatToString(n)
  }

  /** The characters `parseInt` skips before the number: the WhiteSpace and
      LineTerminator code points of ECMAScript (section 7.2 and 7.3 of
      ECMA-262), the category Zs code points written out. */
  predicate IsJsWhiteSpace(c: char) {
    || c == '\t' || c == '\U{000B}' || c == '\U{000C}' || c == ' ' || c == '\U{00A0}'
    || c == '\U{FEFF}' || c == '\n' || c == '\r' || c == '\U{2028}' || c == '\U{2029}'
    || c == '\U{1680}' || ('\U{2000}' <= c <= '\U{200A}') || c == '\U{202F}'
    || c == '\U{205F}' || c == '\U{3000}'
  }

  function TrimStart(s: string): (r: string)
    ensures |r| <= |s|
    ensures r != [] ==> !IsJsWhiteSpace(r[0])
    decreases |s|
  {
    if s != [] && IsJsWhiteSpace(s[0]) then TrimStart(s[1..]) else s
  }

  /** The longest prefix of `s` made of decimal digits. */
  function LeadingDigits(s: string): (r: string)
    ensures AllDigits(r) && r <= s
    decreases |s|
  {
    if s != [] && IsDigit(s[0]) then [s[0]] + LeadingDigits(s[1..]) else []
  }

  /** The value of a digit string read left to right. */
  function DigitsValue(ds: string): nat
    requires AllDigits(ds)
    decreases |ds|
  {
    if ds == [] then 0 else DigitsValue(ds[..|ds| - 1]) * 10 + DigitValue(ds[|ds| - 1])
  }

  /** `t` without its sign character, if it has one. */
  function Unsigned(t: string): string {
    if t != [] && (t[0] == '-' || t[0] == '+') then t[1..] else t
  }

  /** `parseInt(s, 10)`: skip leading white space, take an optional sign and
      the longest run of digits; no digit at all gives NaN, here `None`.
      The value is the exact integer; JavaScript rounds a value beyond
      2^53 to a double, and such a value lies outside [0, 100] either way. */
  function ParseInt(s: string): Option<int> {
    var t := TrimStart(s);
    var negative := t != [] && t[0] == '-';
    var body := Unsigned(t);
    var ds := LeadingDigits(body);
    var magnitude: int := if ds == [] then 0 else DigitsValue(ds);
    if ds == [] then None
    else if negative then Some(-magnitude)
    else Some(magnitude)
  }

  lemma {:induction false} DigitsValueOfNatToString(n: nat)
    ensures DigitsValue(NatToString(n)) == n
    decreases n
  {
    var r := NatToString(n);
    if n >= 10 {
      DigitsValueOfNatToString(n / 10);
      assert r[..|r| - 1] == NatToString(n / 10);
    }
  }

  lemma {:induction false} LeadingDigitsOfDigits(ds: string)
    requires AllDigits(ds)
    ensures LeadingDigits(ds) == ds
    decreases |ds|
  {
    if ds != [] {
      LeadingDigitsOfDigits(ds[1..]);
    }
  }

  /** Reading back the decimal text of an integer gives that integer. */
  lemma ParseIntOfIntToString(n: int)
    ensures ParseInt(IntToString(n)) == Some(n)
  {
    var r := IntToString(n);
    assert TrimStart(r) == r;
    var m: nat := if n < 0 then -n else n;
    var digits := NatToString(m);
    if n < 0 {
      assert r[1..] == digits;
    }
    LeadingDigitsOfDigits(digits);
    DigitsValueOfNatToString(m);
  }

  lemma {:induction false} TrimStartSpace(ws: string, rest: string)
    requires forall i :: 0 <= i < |ws| ==> IsJsWhiteSpace(ws[i])
    requires rest == [] || !IsJsWhiteSpace(rest[0])
    ensures TrimStart(ws + rest) == rest
    decreases |ws|
  {
    if ws != [] {
      assert (ws + rest)[1..] == ws[1..] + rest;
      TrimStartSpace(ws[1..], rest);
    }
  }

  lemma {:induction false} LeadingDigitsStop(ds: string, tail: string)
    requires AllDigits(ds)
    requires tail == [] || !IsDigit(tail[0])
    ensures LeadingDigits(ds + tail) == ds
    decreases |ds|
  {
    if ds != [] {
      assert (ds + tail)[1..] == ds[1..] + tail;
      LeadingDigitsStop(ds[1..], tail);
    } else {
      assert ds + tail == tail;
    }
  }

  /** A sign (or none) before a digit: not white space, and stripped by `Unsigned`. */
  lemma SignedText(sign: string, body: string)
    requires sign == "" || sign == "-" || sign == "+"
    requires body != [] && IsDigit(body[0])
    ensures var t := sign + body;
      t != [] && !IsJsWhiteSpace(t[0]) && Unsigned(t) == body && (t[0] == '-' <==> sign == "-")
  {
    if sign != "" {
      assert (sign + body)[0] == sign[0] && (sign + body)[1..] == body;
    } else {
      assert sign + body == body;
    }
  }

  /** What `parseInt` reads from white space, an optional sign, a run of
      digits and any text not starting with a digit: the value of the
      digits, leading zeros included, with the sign applied. */
  lemma ParseIntReads(ws: string, sign: string, ds: string, tail: string)
    requires forall i :: 0 <= i < |ws| ==> IsJsWhiteSpace(ws[i])
    requires sign == "" || sign == "-" || sign == "+"
    requires ds != [] && AllDigits(ds)
    requires tail == [] || !IsDigit(tail[0])
    ensures ParseInt(ws + sign + ds + tail) == Some(if sign == "-" then -(DigitsValue(ds) as int) else DigitsValue(ds))
  {
    var body := ds + tail;
    var t := sign + body;
    assert ws + sign + ds + tail == ws + t;
    assert body[0] == ds[0];
    SignedText(sign, body);
    TrimStartSpace(ws, t);
    LeadingDigitsStop(ds, tail);
  }
}
