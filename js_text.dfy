/**
 * The parts of JavaScript's string and number semantics that the page handlers depend on:
 * String.prototype.trim, parseInt with no radix argument (section 19.2.5 of ECMA-262),
 * and String(n) for an integer n.
 */
module JsText {
  import opened Wrappers

  /** An ECMAScript WhiteSpace or LineTerminator code point: what trim and parseInt skip. */
  predicate IsWhiteSpace(c: char)
  {
    c == '\t' || c == '\n' || c == '\U{B}' || c == '\U{C}' || c == '\r' || c == ' '
    || c == '\U{A0}' || c == '\U{1680}' || ('\U{2000}' <= c <= '\U{200A}')
    || c == '\U{2028}' || c == '\U{2029}' || c == '\U{202F}' || c == '\U{205F}'
    || c == '\U{3000}' || c == '\U{FEFF}'
  }

  predicate AllWhiteSpace(s: string)
  {
    forall i :: 0 <= i < |s| ==> IsWhiteSpace(s[i])
  }

  /** s without its leading white space: a suffix of s, everything cut off was white space. */
  function TrimStart(s: string): (r: string)
    ensures |r| <= |s| && r == s[|s| - |r|..]
    ensures AllWhiteSpace(s[..|s| - |r|])
    ensures r == [] || !IsWhiteSpace(r[0])
  {
    if s != [] && IsWhiteSpace(s[0]) then
      var r := TrimStart(s[1..]);
      assert s[..|s| - |r|] == [s[0]] + s[1..][..|s| - 1 - |r|];
      r
    else s
  }

  /** s without its trailing white space: a prefix of s, everything cut off was white space. */
  function TrimEnd(s: string): (r: string)
    ensures |r| <= |s| && r == s[..|r|]
    ensures AllWhiteSpace(s[|r|..])
    ensures r == [] || !IsWhiteSpace(r[|r| - 1])
  {
    if s != [] && IsWhiteSpace(s[|s| - 1]) then
      var r := TrimEnd(s[..|s| - 1]);
      assert s[|r|..] == s[..|s| - 1][|r|..] + [s[|s| - 1]];
      r
    else s
  }

  /** s.trim() */
  function Trim(s: string): string
  {
    TrimEnd(TrimStart(s))
  }

  /** `!s.trim()` holds exactly when s is made of white space only (the empty string included). */
  lemma {:induction false} TrimEmptyIffAllWhiteSpace(s: string)
    ensures Trim(s) == [] <==> AllWhiteSpace(s)
  {
    var t := TrimStart(s);
    if Trim(s) == [] {
      assert t[0..] == t;
      assert s == s[..|s| - |t|] + t;
    } else if AllWhiteSpace(s) {
      TrimStartOfWhiteSpace(s);
    }
  }

  lemma {:induction false} TrimStartOfWhiteSpace(s: string)
    requires AllWhiteSpace(s)
    ensures TrimStart(s) == []
  {
  }

  /** The value of c as a digit of base radix (10 or 16), if it is one. */
  function DigitValue(c: char, radix: nat): (d: Option<nat>)
    requires radix == 10 || radix == 16
    ensures d.Some? ==> d.value < radix
    ensures radix == 10 ==> (d.Some? <==> '0' <= c <= '9')
  {
    if '0' <= c <= '9' then Some(c as nat - '0' as nat)
    else if radix == 16 && 'a' <= c <= 'f' then Some(c as nat - 'a' as nat + 10)
    else if radix == 16 && 'A' <= c <= 'F' then Some(c as nat - 'A' as nat + 10)
    else None
  }

  predicate AllDigits(z: string, radix: nat)
    requires radix == 10 || radix == 16
  {
    forall i :: 0 <= i < |z| ==> DigitValue(z[i], radix).Some?
  }

  /** The length of the longest prefix of s made of base-radix digits. */
  function DigitRun(s: string, radix: nat): (n: nat)
    requires radix == 10 || radix == 16
    ensures n <= |s| && AllDigits(s[..n], radix)
    ensures n == |s| || DigitValue(s[n], radix).None?
  {
    if s != [] && DigitValue(s[0], radix).Some? then 1 + DigitRun(s[1..], radix) else 0
  }

  /** The number a string of base-radix digits denotes, most significant digit first. */
  function DigitsValue(z: string, radix: nat): nat
    requires radix == 10 || radix == 16
    requires AllDigits(z, radix)
  {
    if z == [] then 0
    else DigitsValue(z[..|z| - 1], radix) * radix + DigitValue(z[|z| - 1], radix).value
  }

  predicate IsNegative(t: string)
  {
    t != [] && t[0] == '-'
  }

  function DropSign(t: string): string
  {
    if t != [] && (t[0] == '-' || t[0] == '+') then t[1..] else t
  }

  predicate HasHexPrefix(u: string)
  {
    |u| >= 2 && u[0] == '0' && (u[1] == 'x' || u[1] == 'X')
  }

  /** The unsigned part of parseInt: base 16 after a "0x" or "0X" prefix, base 10 otherwise, longest digit run. */
  function ReadDigits(u: string): Option<nat>
  {
    var radix := if HasHexPrefix(u) then 16 else 10;
    var v := if HasHexPrefix(u) then u[2..] else u;
    var n := DigitRun(v, radix);
    if n == 0 then None else Some(DigitsValue(v[..n], radix))
  }

  /** The signed part of parseInt, on a string with no leading white space. */
  function ReadSigned(t: string): Option<int>
  {
    match ReadDigits(DropSign(t))
    case None => None
    case Some(v) => if IsNegative(t) then Some(-(v as int)) else Some(v as int)
  }

  /**
   * parseInt(s) with no radix: skip leading white space, read an optional sign, read base 16
   * after a "0x" or "0X" prefix and base 10 otherwise, and take the longest run of digits;
   * no digit at all gives NaN (None). JavaScript returns a double; the model keeps the exact
   * integer, and -0 is 0.
   */
  function ParseInt(s: string): Option<int>
  {
    ReadSigned(TrimStart(s))
  }

  function DigitChar(d: nat): (c: char)
    requires d < 10
  {
    ('0' as nat + d) as char
  }

  /** The decimal numeral of n, no leading zeros. */
  function NatToDecimal(n: nat): (s: string)
    ensures |s| >= 1 && AllDigits(s, 10)
  {
    if n < 10 then [DigitChar(n)] else NatToDecimal(n / 10) + [DigitChar(n % 10)]
  }

  /** The numeral of n denotes n. */
  lemma {:induction false} NatToDecimalValue(n: nat)
    ensures DigitsValue(NatToDecimal(n), 10) == n
  {
    if n >= 10 {
      var s := NatToDecimal(n);
      assert s[..|s| - 1] == NatToDecimal(n / 10);
      NatToDecimalValue(n / 10);
    }
  }

  /** The numeral of n has no leading zero: it starts with 0 only when n is 0. */
  lemma {:induction false} NatToDecimalNoLeadingZero(n: nat)
    ensures NatToDecimal(n)[0] == '0' <==> n == 0
  {
    if n >= 10 {
      NatToDecimalNoLeadingZero(n / 10);
      assert NatToDecimal(n)[0] == NatToDecimal(n / 10)[0];
    }
  }

  /** String(n) for an integer n, as JavaScript writes it below 10^21 in magnitude (no exponent). */
  function ToDecimal(n: int): string
  {
    if n < 0 then "-" + NatToDecimal(-n) else NatToDecimal(n)
  }

  /** What may follow a numeral without changing what parseInt reads from it. */
  predicate EndsNumeral(rest: string)
  {
    rest == [] || !('0' <= rest[0] <= '9' || rest[0] == 'x' || rest[0] == 'X')
  }

  /** A run of digits followed by a non-digit is read up to its end and no further. */
  lemma {:induction false} DigitRunOfNumeral(z: string, rest: string)
    requires AllDigits(z, 10) && EndsNumeral(rest)
    ensures DigitRun(z + rest, 10) == |z|
  {
    if z == [] {
      assert z + rest == rest;
    } else {
      assert (z + rest)[1..] == z[1..] + rest;
      DigitRunOfNumeral(z[1..], rest);
    }
  }

  /** A numeral followed by a non-digit starts with a digit and has no "0x" prefix. */
  lemma {:induction false} NumeralShape(z: string, rest: string)
    requires |z| >= 1 && AllDigits(z, 10) && EndsNumeral(rest)
    ensures '0' <= (z + rest)[0] <= '9' && !HasHexPrefix(z + rest)
  {
    var u := z + rest;
    assert u[0] == z[0];
    if |z| >= 2 {
      assert u[1] == z[1];
    } else if rest != [] {
      assert u[1] == rest[0];
    }
  }

  /** The digits of a numeral are read up to the first character that does not continue it. */
  lemma {:induction false} ReadDigitsOfNumeral(z: string, rest: string)
    requires |z| >= 1 && AllDigits(z, 10) && EndsNumeral(rest)
    ensures ReadDigits(z + rest) == Some(DigitsValue(z, 10))
  {
    NumeralShape(z, rest);
    DigitRunOfNumeral(z, rest);
    assert (z + rest)[..|z|] == z;
  }

  /** Nothing is trimmed from a string that does not start with white space. */
  lemma {:induction false} TrimStartNoLeadingSpace(s: string)
    requires s != [] && !IsWhiteSpace(s[0])
    ensures TrimStart(s) == s
  {
  }

  /** A string that starts with a sign or a digit does not start with white space. */
  lemma {:induction false} SignedStartNotSpace(sign: string, u: string)
    requires sign == "" || sign == "-" || sign == "+"
    requires u != [] && '0' <= u[0] <= '9'
    ensures sign + u != [] && !IsWhiteSpace((sign + u)[0])
  {
    var s := sign + u;
    assert s[0] == '-' || s[0] == '+' || '0' <= s[0] <= '9';
  }

  /** An optional sign in front of a digit: no white space to skip, and the sign is read off. */
  lemma {:induction false} SignedStart(sign: string, u: string)
    requires sign == "" || sign == "-" || sign == "+"
    requires u != [] && '0' <= u[0] <= '9'
    ensures TrimStart(sign + u) == sign + u
    ensures DropSign(sign + u) == u
    ensures IsNegative(sign + u) <==> sign == "-"
  {
    SignedStartNotSpace(sign, u);
    TrimStartNoLeadingSpace(sign + u);
    SignRead(sign, u);
  }

  lemma {:induction false} SignRead(sign: string, u: string)
    requires sign == "" || sign == "-" || sign == "+"
    requires u != [] && '0' <= u[0] <= '9'
    ensures DropSign(sign + u) == u
    ensures IsNegative(sign + u) <==> sign == "-"
  {
    if sign == "" {
      assert sign + u == u;
    } else {
      assert (sign + u)[1..] == u;
    }
  }

  /** parseInt reads a signed run of decimal digits up to the first character that does not continue it. */
  lemma {:induction false} ParseIntDigits(s: string, sign: string, z: string, rest: string, n: nat)
    requires sign == "" || sign == "-" || sign == "+"
    requires |z| >= 1 && AllDigits(z, 10) && EndsNumeral(rest)
    requires s == sign + z + rest && n == DigitsValue(z, 10)
    ensures ParseInt(s) == Some(if sign == "-" then -(n as int) else n as int)
  {
    var u := z + rest;
    assert s == sign + u;
    ReadDigitsOfNumeral(z, rest);
    NumeralShape(z, rest);
    SignedStart(sign, u);
    assert ParseInt(s) == ReadSigned(s);
    assert ReadDigits(DropSign(s)) == Some(DigitsValue(z, 10));
  }

  /** parseInt reads back a signed decimal numeral, whatever text follows it. */
  lemma {:induction false} ParseIntSignedNumeral(sign: string, n: nat, rest: string)
    requires sign == "" || sign == "-" || sign == "+"
    requires EndsNumeral(rest)
    ensures ParseInt(sign + NatToDecimal(n) + rest) == Some(if sign == "-" then -(n as int) else n as int)
  {
    NatToDecimalValue(n);
    ParseIntDigits(sign + NatToDecimal(n) + rest, sign, NatToDecimal(n), rest, n);
  }

  /** String(n) read back by parseInt, whatever text follows it. */
  lemma {:induction false} ParseIntToDecimal(n: int, rest: string)
    requires EndsNumeral(rest)
    ensures ParseInt(ToDecimal(n) + rest) == Some(n)
  {
    if n < 0 {
      ParseIntSignedNumeral("-", -n, rest);
    } else {
      ParseIntSignedNumeral("", n, rest);
      assert "" + NatToDecimal(n) == NatToDecimal(n);
    }
  }

  /** An input that is empty or white space only is NaN to parseInt. */
  lemma {:induction false} ParseIntBlank(s: string)
    requires AllWhiteSpace(s)
    ensures ParseInt(s) == None
  {
    TrimStartOfWhiteSpace(s);
  }

  /** NaN when nothing follows the leading white space; a negative number only after a minus sign. */
  lemma {:induction false} ParseIntShape(s: string)
    ensures TrimStart(s) == [] ==> ParseInt(s) == None
    ensures ParseInt(s).Some? && ParseInt(s).value < 0 ==> TrimStart(s)[0] == '-'
  {
  }

  /** String.prototype.toUpperCase on one character; letters outside a-z are left as they are. */
  function ToUpperAscii(c: char): (u: char)
    ensures 'A' <= u <= 'Z' <==> ('a' <= c <= 'z' || 'A' <= c <= 'Z')
    ensures 'a' <= c <= 'z' ==> u as int == c as int - ('a' as int - 'A' as int)
    ensures !('a' <= c <= 'z') ==> u == c
  {
    if 'a' <= c <= 'z' then (c as int - 32) as char else c
  }
}
