/**
 * The browser's global `parseInt(string)` with no radix (ECMA-262), as
 * the coordinate form calls it. `None` stands for NaN.
 *
 * It skips leading white space. It reads an optional sign. A leading "0x"
 * or "0X" switches to base 16. It then reads the longest run of digits in
 * that base and ignores the rest. With no digits the result is NaN.
 * Results are unbounded integers: the rounding to a double and the
 * Infinity that very long inputs give are not modelled.
 */
module JsParseInt {
  import opened Wrappers

  /** The characters ECMA-262 lets parseInt skip at the front (StrWhiteSpaceChar). */
  predicate IsWhiteSpace(c: char) {
    || c == '\t' || c == '\n' || c == '\U{B}' || c == '\U{C}' || c == '\r' || c == ' '
    || c == '\U{A0}' || c == '\U{1680}' || ('\U{2000}' <= c <= '\U{200A}')
    || c == '\U{2028}' || c == '\U{2029}' || c == '\U{202F}' || c == '\U{205F}'
    || c == '\U{3000}' || c == '\U{FEFF}'
  }

  /** s with its leading white space removed. */
  function TrimStart(s: string): (r: string)
    ensures |r| <= |s| && r == s[|s| - |r|..]
    ensures r == [] || !IsWhiteSpace(r[0])
    ensures forall i :: 0 <= i < |s| - |r| ==> IsWhiteSpace(s[i])
  {
    if s != [] && IsWhiteSpace(s[0]) then TrimStart(s[1..]) else s
  }

  /** The value of c as a digit in a base up to 36: 0-9, then a-z or A-Z for 10-35. */
  function DigitValue(c: char): (r: Option<nat>)
    ensures r.Some? <==> ('0' <= c <= '9' || 'a' <= c <= 'z' || 'A' <= c <= 'Z')
    ensures r.Some? ==> r.value < 36
    ensures '0' <= c <= '9' ==> r == Some(c as int - '0' as int)
    ensures 'a' <= c <= 'z' ==> r == Some(c as int - 'a' as int + 10)
    ensures 'A' <= c <= 'Z' ==> r == Some(c as int - 'A' as int + 10)
  {
    if '0' <= c <= '9' then Some(c as int - '0' as int)
    else if 'a' <= c <= 'z' then Some(c as int - 'a' as int + 10)
    else if 'A' <= c <= 'Z' then Some(c as int - 'A' as int + 10)
    else None
  }

  predicate IsDigitIn(c: char, radix: nat) {
    DigitValue(c).Some? && DigitValue(c).value < radix
  }

  predicate AllDigitsIn(s: string, radix: nat) {
    forall i :: 0 <= i < |s| ==> IsDigitIn(s[i], radix)
  }

  /** The longest prefix of s made of digits in base radix. */
  function LeadingDigits(s: string, radix: nat): (r: string)
    ensures r <= s
    ensures AllDigitsIn(r, radix)
    ensures |r| == |s| || !IsDigitIn(s[|r|], radix)
  {
    if s == [] || !IsDigitIn(s[0], radix) then [] else [s[0]] + LeadingDigits(s[1..], radix)
  }

  /** The number that a run of digits denotes in base radix, most significant digit first. */
  function Value(digits: string, radix: nat): nat
    requires AllDigitsIn(digits, radix)
  {
    if digits == [] then 0
    else Value(digits[..|digits| - 1], radix) * radix + DigitValue(digits[|digits| - 1]).value
  }

  /** What parseInt reads from the front of a string: sign, base and digits. */
  datatype Numeral = Numeral(negative: bool, radix: nat, digits: string)

  predicate HasHexPrefix(u: string) {
    |u| >= 2 && u[0] == '0' && (u[1] == 'x' || u[1] == 'X')
  }

  /** t without the one sign character it may start with. */
  function Unsigned(t: string): string {
    if t != [] && (t[0] == '-' || t[0] == '+') then t[1..] else t
  }

  /**
   * The numeral at the front of s: negative exactly when the first
   * non-blank character is '-', base 16 exactly when a "0x" or "0X" follows
   * the blanks and the sign, and the digits the longest run of digits of
   * that base after the prefix.
   */
  function Scan(s: string): (n: Numeral)
    ensures n.negative <==> (TrimStart(s) != [] && TrimStart(s)[0] == '-')
    ensures n.radix == 16 <==> HasHexPrefix(Unsigned(TrimStart(s)))
    ensures n.radix == 10 || n.radix == 16
    ensures var u := Unsigned(TrimStart(s));
            n.digits == LeadingDigits(if n.radix == 16 then u[2..] else u, n.radix)
    ensures AllDigitsIn(n.digits, n.radix)
  {
    var t := TrimStart(s);
    var negative := t != [] && t[0] == '-';
    var u := Unsigned(t);
    if HasHexPrefix(u) then Numeral(negative, 16, LeadingDigits(u[2..], 16))
    else Numeral(negative, 10, LeadingDigits(u, 10))
  }

  /** Scan(s) has the given sign, base and digits, stated field by field. */
  predicate Reads(s: string, negative: bool, radix: nat, digits: string) {
    Scan(s).negative == negative && Scan(s).radix == radix && Scan(s).digits == digits
  }

  /** The number a scanned numeral denotes: None (NaN) without digits, otherwise their value, negated after a minus sign. */
  function Evaluate(n: Numeral): (r: Option<int>)
    requires AllDigitsIn(n.digits, n.radix)
    ensures r.None? <==> n.digits == []
    ensures r.Some? ==> r.value == if n.negative then -(Value(n.digits, n.radix) as int) else Value(n.digits, n.radix)
  {
    if n.digits == [] then None
    else
      var magnitude: int := Value(n.digits, n.radix);
      Some(if n.negative then -magnitude else magnitude)
  }

  /** parseInt(s), with no radix argument. */
  function ParseInt(s: string): (r: Option<int>)
    ensures r.None? <==> Scan(s).digits == []
    ensures r.Some? ==> r.value == if Scan(s).negative then -(Value(Scan(s).digits, Scan(s).radix) as int)
                                   else Value(Scan(s).digits, Scan(s).radix)
  {
    Evaluate(Scan(s))
  }

  /** The decimal digits of n, with no leading zero. */
  function DecimalDigits(n: nat): (r: string)
    ensures |r| > 0 && AllDigitsIn(r, 10)
    ensures r[0] == '0' <==> n == 0
    ensures n < 10 <==> |r| == 1
  {
    if n < 10 then [('0' as int + n) as char]
    else DecimalDigits(n / 10) + [('0' as int + n % 10) as char]
  }

  /** The decimal rendering of an integer, as a user types it into the form. */
  function DecimalString(n: int): string {
    if n < 0 then "-" + DecimalDigits(-n) else DecimalDigits(n)
  }

  lemma {:induction false} ValueOfDecimalDigits(n: nat)
    ensures Value(DecimalDigits(n), 10) == n
  {
    if n >= 10 {
      var d := DecimalDigits(n);
      assert d[..|d| - 1] == DecimalDigits(n / 10);
      ValueOfDecimalDigits(n / 10);
    }
  }

  lemma {:induction false} LeadingDigitsStopAtRest(ds: string, rest: string, radix: nat)
    requires AllDigitsIn(ds, radix)
    requires rest == [] || !IsDigitIn(rest[0], radix)
    ensures LeadingDigits(ds + rest, radix) == ds
  {
    if ds == [] {
      assert ds + rest == rest;
    } else {
      assert (ds + rest)[0] == ds[0];
      assert (ds + rest)[1..] == ds[1..] + rest;
      LeadingDigitsStopAtRest(ds[1..], rest, radix);
    }
  }

  /** A decimal digit is neither blank nor a sign. */
  lemma DigitIsNotBlankOrSign(c: char)
    requires IsDigitIn(c, 10)
    ensures !IsWhiteSpace(c) && c != '-' && c != '+'
  {
  }

  /** How Scan reads a string that starts with a decimal digit and has no hexadecimal prefix, with or without a minus sign. */
  lemma ScanUnsignedDecimal(u: string)
    requires u != [] && IsDigitIn(u[0], 10) && !HasHexPrefix(u)
    ensures Reads(u, false, 10, LeadingDigits(u, 10))
    ensures Reads("-" + u, true, 10, LeadingDigits(u, 10))
  {
    DigitIsNotBlankOrSign(u[0]);
    assert TrimStart(u) == u;
    var t := "-" + u;
    assert t[0] == '-' && t[1..] == u;
    assert TrimStart(t) == t;
  }

  /** Scan reads the digits of m, and then stops, from m's decimal digits followed by rest. */
  lemma ScanDecimalDigits(m: nat, rest: string)
    requires rest == [] || !(IsDigitIn(rest[0], 10) || (m == 0 && (rest[0] == 'x' || rest[0] == 'X')))
    ensures Reads(DecimalDigits(m) + rest, false, 10, DecimalDigits(m))
    ensures Reads("-" + (DecimalDigits(m) + rest), true, 10, DecimalDigits(m))
    ensures Value(DecimalDigits(m), 10) == m
  {
    var d := DecimalDigits(m);
    var u := d + rest;
    assert u[0] == d[0];
    assert !HasHexPrefix(u) by {
      if |u| >= 2 && u[0] == '0' {
        assert |d| == 1;
        assert u[1] == rest[0];
      }
    }
    ScanUnsignedDecimal(u);
    LeadingDigitsStopAtRest(d, rest, 10);
    ValueOfDecimalDigits(m);
  }

  lemma ParseNegativeDecimal(m: nat, rest: string)
    requires rest == [] || !(IsDigitIn(rest[0], 10) || (m == 0 && (rest[0] == 'x' || rest[0] == 'X')))
    ensures ParseInt("-" + (DecimalDigits(m) + rest)) == Some(-(m as int))
  {
    ScanDecimalDigits(m, rest);
  }

  /**
   * parseInt reads back any integer written in decimal and ignores what
   * follows it, unless that starts with a digit or, after the integer 0,
   * with the x or X that would make "0x" a hexadecimal prefix.
   */
  lemma ParseIntReadsDecimalPrefix(n: int, rest: string)
    requires rest == [] || !(IsDigitIn(rest[0], 10) || (n == 0 && (rest[0] == 'x' || rest[0] == 'X')))
    ensures ParseInt(DecimalString(n) + rest) == Some(n)
  {
    if n < 0 {
      var m: nat := -n;
      var d := DecimalDigits(m);
      var t := "-" + (d + rest);
      assert DecimalString(n) + rest == t by {
        assert DecimalString(n) == "-" + d;
        assert ("-" + d) + rest == t;
      }
      ParseNegativeDecimal(m, rest);
      assert ParseInt(t) == Some(n);
    } else {
      ScanDecimalDigits(n, rest);
    }
  }

  /** A decimal integer typed on its own into an input parses to itself. */
  lemma ParseIntRoundTrip(n: int)
    ensures ParseInt(DecimalString(n)) == Some(n)
  {
    ParseIntReadsDecimalPrefix(n, []);
    assert DecimalString(n) + [] == DecimalString(n);
  }

  /** parseInt's value negated, as a leading minus sign gives it; NaN stays NaN. */
  function Negated(r: Option<int>): Option<int> {
    if r.Some? then Some(-r.value) else None
  }

  predicate AllBlank(blanks: string) {
    forall i :: 0 <= i < |blanks| ==> IsWhiteSpace(blanks[i])
  }

  lemma {:induction false} TrimStartSkipsBlanks(blanks: string, s: string)
    requires AllBlank(blanks)
    ensures TrimStart(blanks + s) == TrimStart(s)
  {
    if blanks != [] {
      assert (blanks + s)[0] == blanks[0];
      assert (blanks + s)[1..] == blanks[1..] + s;
      TrimStartSkipsBlanks(blanks[1..], s);
    } else {
      assert blanks + s == s;
    }
  }

  /** Scan looks at a string only from its first non-blank character on. */
  lemma ScanSeesTrimmed(a: string, b: string)
    requires TrimStart(a) == TrimStart(b)
    ensures Reads(a, Scan(b).negative, Scan(b).radix, Scan(b).digits)
  {
  }

  /** parseInt's answer is a function of what Scan reads. */
  lemma ParseIntSeesScan(a: string, b: string)
    requires Reads(a, Scan(b).negative, Scan(b).radix, Scan(b).digits)
    ensures ParseInt(a) == ParseInt(b)
  {
  }

  /** Leading white space does not change what parseInt reads. */
  lemma ParseIntIgnoresLeadingBlanks(blanks: string, s: string)
    requires AllBlank(blanks)
    ensures ParseInt(blanks + s) == ParseInt(s)
    ensures ParseInt(s) == ParseInt(TrimStart(s))
  {
    TrimStartSkipsBlanks(blanks, s);
    ScanSeesTrimmed(blanks + s, s);
    ParseIntSeesScan(blanks + s, s);
    var t := TrimStart(s);
    assert TrimStart(t) == t;
    ScanSeesTrimmed(s, t);
    ParseIntSeesScan(s, t);
  }

  /** A string that starts with a sign and then neither a blank nor a second sign has nothing to trim, and one sign to drop. */
  lemma TrimSigned(sign: char, u: string)
    requires sign == '+' || sign == '-'
    requires u == [] || !(IsWhiteSpace(u[0]) || u[0] == '+' || u[0] == '-')
    ensures TrimStart([sign] + u) == [sign] + u && Unsigned([sign] + u) == u
    ensures TrimStart(u) == u && Unsigned(u) == u
  {
    assert TrimStart([sign] + u) == [sign] + u by {
      assert !IsWhiteSpace(sign);
    }
    assert Unsigned([sign] + u) == u by {
      var t := [sign] + u;
      assert t[0] == sign && t[1..] == u;
    }
  }

  /** Base and digits depend only on what follows the blanks and the sign. */
  lemma ScanSeesUnsigned(a: string, b: string)
    requires Unsigned(TrimStart(a)) == Unsigned(TrimStart(b))
    ensures Scan(a).radix == Scan(b).radix && Scan(a).digits == Scan(b).digits
  {
  }

  /** How Scan reads a signed string: the sign sets the flag, the rest reads as without it. */
  lemma ScanSign(sign: char, u: string)
    requires sign == '+' || sign == '-'
    requires u == [] || !(IsWhiteSpace(u[0]) || u[0] == '+' || u[0] == '-')
    ensures Scan([sign] + u).negative == (sign == '-') && !Scan(u).negative
    ensures Scan([sign] + u).radix == Scan(u).radix && Scan([sign] + u).digits == Scan(u).digits
  {
    TrimSigned(sign, u);
    ScanSeesUnsigned([sign] + u, u);
  }

  /**
   * A '+' in front changes nothing, provided no blank or second sign follows
   * it (parseInt skips blanks only before the sign).
   */
  lemma ParseIntPlusSign(u: string)
    requires u == [] || !(IsWhiteSpace(u[0]) || u[0] == '+' || u[0] == '-')
    ensures ParseInt("+" + u) == ParseInt(u)
  {
    ScanSign('+', u);
  }

  /** Two numerals that differ only in their sign evaluate to negated results. */
  lemma EvaluateNegated(a: Numeral, b: Numeral)
    requires AllDigitsIn(b.digits, b.radix)
    requires a.negative && !b.negative && a.radix == b.radix && a.digits == b.digits
    ensures Evaluate(a) == Negated(Evaluate(b))
  {
  }

  /** A '-' in front negates, under the same proviso. */
  lemma ParseIntMinusSign(u: string)
    requires u == [] || !(IsWhiteSpace(u[0]) || u[0] == '+' || u[0] == '-')
    ensures ParseInt("-" + u) == Negated(ParseInt(u))
  {
    ScanSign('-', u);
    EvaluateNegated(Scan("-" + u), Scan(u));
  }

  predicate AllZeros(zeros: string) {
    forall i :: 0 <= i < |zeros| ==> zeros[i] == '0'
  }

  lemma {:induction false} ValueIgnoresLeadingZeros(zeros: string, ds: string, radix: nat)
    requires AllZeros(zeros) && 1 <= radix && AllDigitsIn(ds, radix)
    ensures AllDigitsIn(zeros + ds, radix)
    ensures Value(zeros + ds, radix) == Value(ds, radix)
  {
    var w := zeros + ds;
    assert AllDigitsIn(w, radix) by {
      forall i | 0 <= i < |w| ensures IsDigitIn(w[i], radix) {
        if i < |zeros| { assert w[i] == '0'; } else { assert w[i] == ds[i - |zeros|]; }
      }
    }
    if ds == [] {
      assert w == zeros;
      if zeros != [] {
        assert zeros[..|zeros| - 1] + [] == zeros[..|zeros| - 1];
        ValueIgnoresLeadingZeros(zeros[..|zeros| - 1], [], radix);
      }
    } else {
      assert w[..|w| - 1] == zeros + ds[..|ds| - 1];
      assert w[|w| - 1] == ds[|ds| - 1];
      ValueIgnoresLeadingZeros(zeros, ds[..|ds| - 1], radix);
    }
  }

  /** How Scan reads zeros followed by the decimal digits of n. */
  lemma ScanLeadingZeros(zeros: string, n: nat)
    requires AllZeros(zeros)
    ensures Reads(zeros + DecimalDigits(n), false, 10, zeros + DecimalDigits(n))
  {
    var d := DecimalDigits(n);
    var w := zeros + d;
    assert AllDigitsIn(w, 10) by {
      forall i | 0 <= i < |w| ensures IsDigitIn(w[i], 10) {
        if i < |zeros| { assert w[i] == '0'; } else { assert w[i] == d[i - |zeros|]; }
      }
    }
    assert !HasHexPrefix(w) by {
      if |w| >= 2 {
        assert w[1] == '0' || w[1] == d[if |zeros| == 0 then 1 else 0];
      }
    }
    ScanUnsignedDecimal(w);
    LeadingDigitsStopAtRest(w, [], 10);
    assert w + [] == w;
  }

  /** Leading zeros are read as decimal digits worth nothing: "007" is 7, not octal. */
  lemma ParseIntLeadingZeros(zeros: string, n: nat)
    requires AllZeros(zeros)
    ensures ParseInt(zeros + DecimalDigits(n)) == Some(n)
  {
    ScanLeadingZeros(zeros, n);
    ValueIgnoresLeadingZeros(zeros, DecimalDigits(n), 10);
    ValueOfDecimalDigits(n);
  }

  /** The lower-case hexadecimal digits of n, with no leading zero. */
  function HexDigits(n: nat): (r: string)
    ensures |r| > 0 && AllDigitsIn(r, 16)
  {
    if n < 16 then [HexDigit(n)] else HexDigits(n / 16) + [HexDigit(n % 16)]
  }

  function HexDigit(d: nat): (c: char)
    requires d < 16
    ensures DigitValue(c) == Some(d)
  {
    if d < 10 then ('0' as int + d) as char else ('a' as int + d - 10) as char
  }

  lemma {:induction false} ValueOfHexDigits(n: nat)
    ensures Value(HexDigits(n), 16) == n
  {
    if n >= 16 {
      var h := HexDigits(n);
      assert h[..|h| - 1] == HexDigits(n / 16);
      ValueOfHexDigits(n / 16);
    }
  }

  /** parseInt reads back any natural number written in hexadecimal after "0x", and ignores what follows. */
  lemma ParseIntReadsHex(n: nat, rest: string)
    requires rest == [] || !IsDigitIn(rest[0], 16)
    ensures ParseInt("0x" + (HexDigits(n) + rest)) == Some(n)
  {
    var h := HexDigits(n);
    var w := "0x" + (h + rest);
    assert Reads(w, false, 16, h) by {
      assert TrimStart(w) == w by { assert !IsWhiteSpace('0'); }
      assert Unsigned(w) == w && HasHexPrefix(w);
      assert w[2..] == h + rest;
      LeadingDigitsStopAtRest(h, rest, 16);
    }
    ValueOfHexDigits(n);
  }

  /** A string whose first non-blank character is neither a sign nor a digit is NaN. */
  lemma NoLeadingNumberIsNaN(s: string)
    requires TrimStart(s) == [] || !(IsDigitIn(TrimStart(s)[0], 10) || TrimStart(s)[0] == '-' || TrimStart(s)[0] == '+')
    ensures ParseInt(s) == None
  {
  }

  /** Text with no number in front is NaN. */
  lemma TextIsNaN()
    ensures ParseInt("abc") == None
  {
    assert TrimStart("abc") == "abc";
    NoLeadingNumberIsNaN("abc");
  }

  /** A sign with no digits after it is NaN. */
  lemma BareSignIsNaN()
    ensures ParseInt("-") == None
  {
  }

  /** A hexadecimal prefix with no hexadecimal digit after it is NaN, although "0" alone is 0. */
  lemma BareHexPrefixIsNaN()
    ensures ParseInt("0x") == None
    ensures ParseInt("0") == Some(0)
  {
    assert TrimStart("0x") == "0x" by { assert !IsWhiteSpace('0'); }
    assert "0x"[2..] == [];
    ParseIntRoundTrip(0);
    assert DecimalString(0) == "0";
  }

  /** Trailing text is ignored. */
  lemma TrailingTextExample()
    ensures ParseInt("150px") == Some(150)
  {
    assert DecimalString(150) + "px" == "150px" by {
      assert DecimalDigits(15) == "15" by { assert DecimalDigits(1) == "1"; }
    }
    ParseIntReadsDecimalPrefix(150, "px");
  }

  /** Without a radix, a "0x" prefix reads hexadecimal. */
  lemma HexPrefixExample()
    ensures ParseInt("0x1A") == Some(26)
  {
    assert TrimStart("0x1A") == "0x1A";
    assert "0x1A"[2..] == "1A";
    assert LeadingDigits("1A", 16) == "1A";
    assert Value("1A", 16) == 26 by { assert "1A"[..1] == "1"; }
  }

  /** Forty-two written in decimal. */
  lemma FortyTwo()
    ensures ParseInt("42") == Some(42)
  {
    assert DecimalDigits(42) == "42" by {
      assert DecimalDigits(4) == "4";
    }
    ParseIntRoundTrip(42);
  }

  /** Leading blanks are skipped. */
  lemma LeadingBlankExample()
    ensures ParseInt(" 42") == Some(42)
  {
    assert AllBlank(" ") by { assert " "[0] == ' '; }
    assert " " + "42" == " 42";
    ParseIntIgnoresLeadingBlanks(" ", "42");
    FortyTwo();
  }

  /** A plus sign is read and ignored. */
  lemma PlusSignExample()
    ensures ParseInt("+42") == Some(42)
  {
    assert "+" + "42" == "+42";
    ParseIntPlusSign("42");
    FortyTwo();
  }

  /** Leading zeros read as decimal, not octal. */
  lemma LeadingZerosExample()
    ensures ParseInt("007") == Some(7)
  {
    assert AllZeros("00");
    ParseIntLeadingZeros("00", 7);
    assert "00" + DecimalDigits(7) == "007";
  }

  /** A minus sign also applies to a hexadecimal numeral. */
  lemma NegativeHexExample()
    ensures ParseInt("-0x1A") == Some(-26)
  {
    assert "-" + "0x1A" == "-0x1A";
    ParseIntMinusSign("0x1A");
    HexPrefixExample();
  }
}
