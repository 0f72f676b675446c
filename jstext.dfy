/**
 * The JavaScript string built-ins the quote layer uses: `trim`, `parseInt`,
 * `parseFloat`, `replace(/,/g, '')`, `toUpperCase`, number-to-string
 * conversion and `encodeURIComponent`.
 */
module JsText {
  import opened Base

  /** JavaScript WhiteSpace and LineTerminator code points (what `trim` removes). */
  predicate IsSpace(c: char)
  {
    c == '\t' || c == '\n' || c == '\U{000B}' || c == '\U{000C}' || c == '\r' || c == ' '
    || c == '\U{00A0}' || c == '\U{1680}' || ('\U{2000}' <= c <= '\U{200A}')
    || c == '\U{2028}' || c == '\U{2029}' || c == '\U{202F}' || c == '\U{205F}'
    || c == '\U{3000}' || c == '\U{FEFF}'
  }

  /** Drops leading white space: what remains is a suffix that starts with a non-space. */
  function TrimStart(s: string): (r: string)
    ensures |r| <= |s| && r == s[|s| - |r|..]
    ensures forall i :: 0 <= i < |s| - |r| ==> IsSpace(s[i])
    ensures r == [] || !IsSpace(r[0])
  {
    if s != [] && IsSpace(s[0]) then
      var r := TrimStart(s[1..]);
      assert forall i :: 1 <= i < |s| - |r| ==> s[i] == s[1..][i - 1];
      r
    else s
  }

  /** Drops trailing white space: what remains is a prefix that ends with a non-space. */
  function TrimEnd(s: string): (r: string)
    ensures |r| <= |s| && r == s[..|r|]
    ensures forall i :: |r| <= i < |s| ==> IsSpace(s[i])
    ensures r == [] || !IsSpace(r[|r| - 1])
  {
    if s != [] && IsSpace(s[|s| - 1]) then TrimEnd(s[..|s| - 1]) else s
  }

  /** `String.prototype.trim`. */
  function Trim(s: string): string
  {
    TrimEnd(TrimStart(s))
  }

  /** `trim` leaves a string alone that neither starts nor ends with white space. */
  lemma TrimNoop(s: string)
    requires s == [] || (!IsSpace(s[0]) && !IsSpace(s[|s| - 1]))
    ensures Trim(s) == s
  {
  }

  /** `trim` is idempotent, and what it keeps neither starts nor ends with white space. */
  lemma TrimIdempotent(s: string)
    ensures Trim(Trim(s)) == Trim(s)
    ensures Trim(s) == [] || (!IsSpace(Trim(s)[0]) && !IsSpace(Trim(s)[|Trim(s)| - 1]))
  {
    var t := TrimStart(s);
    var r := TrimEnd(t);
    if r != [] {
      assert r[0] == t[0];
    }
    TrimNoop(r);
  }

  predicate IsDigit(c: char) { '0' <= c <= '9' }

  function DigitVal(c: char): nat
    requires IsDigit(c)
  {
    c as int - '0' as int
  }

  function DigitChar(d: nat): char
    requires d < 10
  {
    "0123456789"[d]
  }

  predicate AllDigits(s: string) { forall i :: 0 <= i < |s| ==> IsDigit(s[i]) }

  /** The number of leading decimal digits. */
  function DigitRun(s: string): (n: nat)
    ensures n <= |s| && AllDigits(s[..n])
    ensures n < |s| ==> !IsDigit(s[n])
  {
    if s != [] && IsDigit(s[0]) then 1 + DigitRun(s[1..]) else 0
  }

  /** The value of a string of decimal digits. */
  function DigitsValue(s: string): nat
    requires AllDigits(s)
  {
    if s == [] then 0 else DigitsValue(s[..|s| - 1]) * 10 + DigitVal(s[|s| - 1])
  }

  predicate IsHexDigit(c: char) { IsDigit(c) || 'a' <= c <= 'f' || 'A' <= c <= 'F' }

  function HexVal(c: char): nat
    requires IsHexDigit(c)
  {
    if IsDigit(c) then DigitVal(c)
    else if 'a' <= c <= 'f' then c as int - 'a' as int + 10
    else c as int - 'A' as int + 10
  }

  function HexRun(s: string): (n: nat)
    ensures n <= |s| && forall i :: 0 <= i < n ==> IsHexDigit(s[i])
  {
    if s != [] && IsHexDigit(s[0]) then 1 + HexRun(s[1..]) else 0
  }

  function HexValue(s: string): nat
    requires forall i :: 0 <= i < |s| ==> IsHexDigit(s[i])
  {
    if s == [] then 0 else HexValue(s[..|s| - 1]) * 16 + HexVal(s[|s| - 1])
  }

  /** A leading sign: -1, +1 and what follows it. */
  function SplitSign(t: string): (int, string)
  {
    if t != [] && t[0] == '-' then (-1, t[1..])
    else if t != [] && t[0] == '+' then (1, t[1..])
    else (1, t)
  }

  /**
   * `parseInt(s)` without a radix: leading white space and a sign are
   * skipped, a `0x`/`0X` prefix selects hexadecimal, and the longest run of
   * digits is read. `None` is NaN (no digits at all).
   */
  function ParseInt(s: string): Option<int>
  {
    var (sign, u) := SplitSign(TrimStart(s));
    if |u| >= 2 && u[0] == '0' && (u[1] == 'x' || u[1] == 'X') then
      var n := HexRun(u[2..]);
      if n == 0 then None else Some(sign * HexValue(u[2..][..n]))
    else
      var n := DigitRun(u);
      if n == 0 then None else Some(sign * DigitsValue(u[..n]))
  }

  function Pow10(n: nat): (r: real)
    ensures r >= 1.0
  {
    if n == 0 then 1.0 else 10.0 * Pow10(n - 1)
  }

  /** The exponent part `e[+-]digits` at the start of `s`, or 0 when there is none. */
  function ExponentOf(s: string): int
  {
    if s != [] && (s[0] == 'e' || s[0] == 'E') then
      var (sign, d) := SplitSign(s[1..]);
      var n := DigitRun(d);
      if n == 0 then 0 else sign * DigitsValue(d[..n])
    else 0
  }

  function Scale10(m: real, e: int): real
  {
    if e >= 0 then m * Pow10(e) else m / Pow10(-e)
  }

  /**
   * `parseFloat(s)`: leading white space is skipped and the longest prefix
   * of the form `[+-] digits [. digits] [e [+-] digits]` (at least one
   * digit before or after the point) is read. `None` is NaN.
   */
  function ParseFloat(s: string): Option<real>
  {
    var (sign, u) := SplitSign(TrimStart(s));
    match UnsignedDecimal(u)
    case None => None
    case Some(m) => Some(sign as real * m)
  }

  /** The unsigned decimal literal at the start of `u`, if there is one. */
  function UnsignedDecimal(u: string): Option<real>
  {
    var n1 := DigitRun(u);
    var rest := u[n1..];
    if rest != [] && rest[0] == '.' then FractionPart(u[..n1], rest[1..])
    else if n1 == 0 then None
    else Some(Scale10(DigitsValue(u[..n1]) as real, ExponentOf(rest)))
  }

  /** A literal with a decimal point: the digits before it and the text after it. */
  function FractionPart(intDigits: string, frac: string): Option<real>
    requires AllDigits(intDigits)
  {
    var n2 := DigitRun(frac);
    if |intDigits| + n2 == 0 then None
    else
      var mant := DigitsValue(intDigits) as real + DigitsValue(frac[..n2]) as real / Pow10(n2);
      Some(Scale10(mant, ExponentOf(frac[n2..])))
  }

  /** Decimal digits of a natural number, most significant first. */
  function NatToString(n: nat): (r: string)
    ensures r != [] && AllDigits(r)
    ensures |r| > 1 ==> r[0] != '0'
  {
    if n < 10 then [DigitChar(n)] else NatToString(n / 10) + [DigitChar(n % 10)]
  }

  lemma {:induction false} DigitsOfNat(n: nat)
    ensures DigitsValue(NatToString(n)) == n
  {
    var r := NatToString(n);
    if n >= 10 {
      DigitsOfNat(n / 10);
      assert r[..|r| - 1] == NatToString(n / 10);
    }
  }

  lemma {:induction false} DigitRunAll(s: string)
    requires AllDigits(s)
    ensures DigitRun(s) == |s|
  {
    if s != [] {
      DigitRunAll(s[1..]);
    }
  }

  lemma NatStringPrefix(n: nat)
    ensures TrimStart(NatToString(n)) == NatToString(n)
    ensures SplitSign(NatToString(n)) == (1, NatToString(n))
    ensures DigitRun(NatToString(n)) == |NatToString(n)|
    ensures DigitsValue(NatToString(n)) == n
  {
    var r := NatToString(n);
    assert IsDigit(r[0]);
    DigitNotSpace(r[0]);
    assert TrimStart(r) == r;
    assert SplitSign(r) == (1, r);
    DigitsOfNat(n);
    DigitRunAll(r);
  }

  lemma DigitNotSpace(c: char)
    requires IsDigit(c)
    ensures !IsSpace(c) && c != '-' && c != '+'
  {
  }

  /** Printing a natural number and reading it back with `parseInt` gives it back. */
  lemma ParseIntOfNat(n: nat)
    ensures ParseInt(NatToString(n)) == Some(n)
  {
    var r := NatToString(n);
    NatStringPrefix(n);
    if |r| >= 2 {
      assert IsDigit(r[1]);
    }
    assert r[..|r|] == r;
  }

  /** Printing a natural number and reading it back with `parseFloat` gives it back. */
  lemma ParseFloatOfNat(n: nat)
    ensures ParseFloat(NatToString(n)) == Some(n as real)
  {
    var r := NatToString(n);
    NatStringPrefix(n);
    assert r[..|r|] == r;
    assert r[|r|..] == [];
    assert ExponentOf([]) == 0;
    assert UnsignedDecimal(r) == Some(n as real);
  }

  /** `replace(/,/g, '')`. */
  function StripCommas(s: string): (r: string)
    ensures forall i :: 0 <= i < |r| ==> r[i] != ','
    ensures |r| <= |s|
    ensures (forall i :: 0 <= i < |s| ==> s[i] != ',') ==> r == s
  {
    if s == [] then []
    else if s[0] == ',' then StripCommas(s[1..])
    else [s[0]] + StripCommas(s[1..])
  }

  /**
   * Stripping commas works piece by piece; with `StripCommasChar` this says
   * the other characters are all kept, in their order.
   */
  lemma {:induction false} StripCommasAppend(a: string, b: string)
    ensures StripCommas(a + b) == StripCommas(a) + StripCommas(b)
  {
    if a != [] {
      assert (a + b)[0] == a[0] && (a + b)[1..] == a[1..] + b;
      StripCommasAppend(a[1..], b);
    } else {
      assert a + b == b;
    }
  }

  lemma StripCommasChar(c: char)
    ensures StripCommas([c]) == if c == ',' then [] else [c]
  {
    assert [c][1..] == [];
  }

  function UpperChar(c: char): char
  {
    if 'a' <= c <= 'z' then (c as int - 'a' as int + 'A' as int) as char else c
  }

  /** `toUpperCase` on the ASCII letters; every other character is kept. */
  function ToUpperAscii(s: string): (r: string)
    ensures |r| == |s|
    ensures forall i :: 0 <= i < |s| ==> r[i] == UpperChar(s[i])
  {
    seq(|s|, i requires 0 <= i < |s| => UpperChar(s[i]))
  }

  /** The characters `encodeURIComponent` leaves unescaped. */
  predicate IsUnreserved(c: char)
  {
    'A' <= c <= 'Z' || 'a' <= c <= 'z' || IsDigit(c)
    || c == '-' || c == '_' || c == '.' || c == '!' || c == '~' || c == '*'
    || c == '\'' || c == '(' || c == ')'
  }

  predicate IsUrlSafe(c: char)
  {
    IsUnreserved(c) || c == '%'
  }

  function HexChar(d: nat): (c: char)
    requires d < 16
    ensures IsUnreserved(c)
  {
    "0123456789ABCDEF"[d]
  }

  /** The UTF-8 bytes of a Unicode scalar value. */
  function Utf8(cp: nat): (bs: seq<nat>)
    ensures 1 <= |bs| <= 4 && forall i :: 0 <= i < |bs| ==> bs[i] < 256
  {
    if cp < 0x80 then [cp]
    else if cp < 0x800 then [0xC0 + cp / 64, 0x80 + cp % 64]
    else if cp < 0x10000 then [0xE0 + (cp / 4096) % 16, 0x80 + (cp / 64) % 64, 0x80 + cp % 64]
    else [0xF0 + (cp / 262144) % 8, 0x80 + (cp / 4096) % 64, 0x80 + (cp / 64) % 64, 0x80 + cp % 64]
  }

  function PercentBytes(bs: seq<nat>): (r: string)
    requires forall i :: 0 <= i < |bs| ==> bs[i] < 256
    ensures |r| == 3 * |bs|
    ensures forall i :: 0 <= i < |r| ==> IsUrlSafe(r[i])
  {
    if bs == [] then []
    else ['%', HexChar(bs[0] / 16), HexChar(bs[0] % 16)] + PercentBytes(bs[1..])
  }

  /** Each byte becomes `%` and its two hexadecimal digits, high digit first, one byte after the other. */
  lemma {:induction false} PercentBytesAppend(a: seq<nat>, b: seq<nat>)
    requires forall i :: 0 <= i < |a| ==> a[i] < 256
    requires forall i :: 0 <= i < |b| ==> b[i] < 256
    ensures forall i :: 0 <= i < |a + b| ==> (a + b)[i] < 256
    ensures PercentBytes(a + b) == PercentBytes(a) + PercentBytes(b)
  {
    if a != [] {
      assert (a + b)[0] == a[0] && (a + b)[1..] == a[1..] + b;
      PercentBytesAppend(a[1..], b);
    } else {
      assert a + b == b;
    }
  }

  lemma PercentByte(x: nat)
    requires x < 256
    ensures PercentBytes([x]) == ['%', HexChar(x / 16), HexChar(x % 16)]
  {
    assert [x][1..] == [];
  }

  /** One character as `encodeURIComponent` writes it: itself when unreserved, else the %XX escapes of its UTF-8 bytes. */
  function EncodeChar(c: char): (r: string)
    ensures IsUnreserved(c) ==> r == [c]
    ensures !IsUnreserved(c) ==> r == PercentBytes(Utf8(c as int)) && 3 <= |r| <= 12 && r[0] == '%'
  {
    if IsUnreserved(c) then [c] else PercentBytes(Utf8(c as int))
  }

  /** `encodeURIComponent`: unreserved characters are kept, every other one becomes its %XX-escaped UTF-8 bytes. */
  function EncodeURIComponent(s: string): (r: string)
    ensures forall i :: 0 <= i < |r| ==> IsUrlSafe(r[i])
    ensures |r| >= |s|
    ensures (forall i :: 0 <= i < |s| ==> IsUnreserved(s[i])) ==> r == s
  {
    if s == [] then [] else EncodeChar(s[0]) + EncodeURIComponent(s[1..])
  }

  /**
   * Encoding works character by character: the encoding of a text is the
   * encodings of its characters, one after the other.
   */
  lemma {:induction false} EncodeAppend(a: string, b: string)
    ensures EncodeURIComponent(a + b) == EncodeURIComponent(a) + EncodeURIComponent(b)
  {
    if a != [] {
      EncodeCons(a, b);
      EncodeAppend(a[1..], b);
      ConcatAssoc(EncodeChar(a[0]), EncodeURIComponent(a[1..]), EncodeURIComponent(b));
    } else {
      assert a + b == b;
    }
  }

  lemma EncodeCons(a: string, b: string)
    requires a != []
    ensures EncodeURIComponent(a + b) == EncodeChar(a[0]) + EncodeURIComponent(a[1..] + b)
  {
    assert (a + b)[0] == a[0] && (a + b)[1..] == a[1..] + b;
  }

  lemma ConcatAssoc(x: string, y: string, z: string)
    ensures x + (y + z) == (x + y) + z
  {
  }

  lemma EncodeSingle(c: char)
    ensures EncodeURIComponent([c]) == EncodeChar(c)
  {
    assert [c][1..] == [];
  }

  /** A space is `%20`, a comma `%2C`, and the `|` of a TWSE channel list `%7C`. */
  lemma EncodeExamples()
    ensures EncodeChar(' ') == "%20" && EncodeChar(',') == "%2C" && EncodeChar('|') == "%7C"
  {
  }
}
