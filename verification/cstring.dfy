/**
 The pieces of the C library the coreid option relies on: `isdigit` and
 `isspace` in the "C" locale, and `strtoul` called with base 0 as section
 7.22.1.4 of ISO C11 describes it.  Also a numeral formatter that `StrToUL`
 inverts (see the round-trip lemmas).
 */
module CString {

  /** ULONG_MAX on an LP64 host, where unsigned long is 64 bits wide. */
  const ULONG_MAX: nat := 0xFFFF_FFFF_FFFF_FFFF

  /** `isdigit` in the "C" locale. */
  predicate IsDigit(c: char) {
    '0' <= c <= '9'
  }

  /** `isspace` in the "C" locale. */
  predicate IsSpace(c: char) {
    c == ' ' || c == '\t' || c == '\n' || c == '\U{B}' || c == '\U{C}' || c == '\r'
  }

  /** The value ISO C11 ascribes to a digit or a letter (a..z and A..Z are 10..35);
      36 for every other character, which is a digit in no base. */
  function DigitValue(c: char): (d: nat)
    ensures d <= 36
    ensures d < 10 <==> IsDigit(c)
  {
    if '0' <= c <= '9' then c as int - '0' as int
    else if 'a' <= c <= 'z' then c as int - 'a' as int + 10
    else if 'A' <= c <= 'Z' then c as int - 'A' as int + 10
    else 36
  }

  predicate IsDigitOf(c: char, base: nat) {
    DigitValue(c) < base
  }

  /** Length of the leading white space of `s`. */
  function SpaceRun(s: string): (n: nat)
    ensures n <= |s|
    ensures forall i :: 0 <= i < n ==> IsSpace(s[i])
    ensures n < |s| ==> !IsSpace(s[n])
  {
    if |s| == 0 || !IsSpace(s[0]) then 0 else 1 + SpaceRun(s[1..])
  }

  /** Length of the longest prefix of `s` made of digits of `base`. */
  function DigitRun(s: string, base: nat): (n: nat)
    ensures n <= |s|
    ensures n < |s| ==> !IsDigitOf(s[n], base)
  {
    if |s| == 0 || !IsDigitOf(s[0], base) then 0 else 1 + DigitRun(s[1..], base)
  }

  /** The run is made of digits only, so it is the longest digit prefix. */
  lemma {:induction false} DigitRunDigits(s: string, base: nat)
    ensures forall i :: 0 <= i < DigitRun(s, base) ==> IsDigitOf(s[i], base)
    decreases |s|
  {
    if |s| > 0 && IsDigitOf(s[0], base) {
      DigitRunDigits(s[1..], base);
      forall i | 1 <= i < DigitRun(s, base) ensures IsDigitOf(s[i], base) {
        assert s[i] == s[1..][i - 1];
      }
    }
  }

  /** The number a string of digits denotes in `base`, most significant digit first. */
  function Value(s: string, base: nat): nat
  {
    if |s| == 0 then 0 else Value(s[..|s| - 1], base) * base + DigitValue(s[|s| - 1])
  }

  /** What base 0 makes of the text after the sign: where the digits start and
      in which base they are read.  "0x" counts as a prefix only when a hex
      digit follows it; otherwise the leading 0 starts an octal constant. */
  datatype Radix = Radix(skip: nat, base: nat)

  function RadixOf(u: string): (r: Radix)
    ensures r.skip <= |u|
    ensures r.base == 8 || r.base == 10 || r.base == 16
    ensures r.base == 16 <==> |u| >= 3 && u[0] == '0' && (u[1] == 'x' || u[1] == 'X') && IsDigitOf(u[2], 16)
    ensures r.base == 8 <==> |u| >= 1 && u[0] == '0' && r.skip == 0
  {
    if |u| >= 3 && u[0] == '0' && (u[1] == 'x' || u[1] == 'X') && IsDigitOf(u[2], 16) then Radix(2, 16)
    else if |u| >= 1 && u[0] == '0' then Radix(0, 8)
    else Radix(0, 10)
  }

  /** The result of strtoul: the value returned and the offset `*endptr` is set to. */
  datatype Conversion = Conversion(value: nat, end: nat)

  /** An out-of-range magnitude converts to ULONG_MAX. */
  function Clamp(m: nat): nat {
    if m > ULONG_MAX then ULONG_MAX else m
  }

  /** The digits of the constant that base 0 finds at the start of `u` (the text
      after any white space and sign), without the "0x" prefix. */
  function Digits(u: string): (d: string)
    ensures RadixOf(u).skip + |d| <= |u|
    ensures |u| > 0 && IsDigit(u[0]) ==> |d| > 0
  {
    var r := RadixOf(u);
    u[r.skip..r.skip + DigitRun(u[r.skip..], r.base)]
  }

  /** That constant's magnitude, unbounded, and where it ends; an `end` of 0 means
      there is no constant there. */
  function Constant(u: string): (r: Conversion)
    ensures r.end <= |u|
    ensures r.end == 0 ==> r.value == 0
    ensures |u| > 0 && IsDigit(u[0]) ==> r.end > 0
  {
    var d := Digits(u);
    if |d| == 0 then Conversion(0, 0) else Conversion(Value(d, RadixOf(u).base), RadixOf(u).skip + |d|)
  }

  /** `strtoul(s, &end, 0)`: leading white space, an optional sign, then the longest
      decimal, 0x-hex or 0-octal constant.  Without such a constant nothing is
      converted: the value is 0 and `end` points at the start of `s`.  A magnitude
      above ULONG_MAX gives ULONG_MAX; a minus sign negates the magnitude in
      unsigned long arithmetic. */
  function StrToUL(s: string): (r: Conversion)
    ensures r.value <= ULONG_MAX
    ensures r.end <= |s|
    ensures r.end == 0 ==> r.value == 0
    ensures |s| > 0 && IsDigit(s[0]) ==> r == Conversion(Clamp(Constant(s).value), Constant(s).end)
  {
    var ws := SpaceRun(s);
    var t := s[ws..];
    var signed := |t| > 0 && (t[0] == '+' || t[0] == '-');
    var u := if signed then t[1..] else t;
    var c := Constant(u);
    if c.end == 0 then Conversion(0, 0)
    else
      var v := if c.value > ULONG_MAX then ULONG_MAX
               else if signed && t[0] == '-' then (ULONG_MAX + 1 - c.value) % (ULONG_MAX + 1)
               else c.value;
      Conversion(v, ws + (if signed then 1 else 0) + c.end)
  }

  /** The character that writes digit `d` (lower-case letters above 9). */
  function DigitChar(d: nat): (c: char)
    requires d < 36
    ensures DigitValue(c) == d
  {
    if d < 10 then ('0' as int + d) as char else ('a' as int + d - 10) as char
  }

  /** `n` written in `base` without leading zeros. */
  function Numeral(n: nat, base: nat): string
    requires 2 <= base <= 36
    decreases n
  {
    if n < base then [DigitChar(n)]
    else
      DivShrinks(n, base);
      DivMod(n, base);
      Numeral(n / base, base) + [DigitChar(n % base)]
  }

  /** A numeral consists of digits of its base and starts with a non-zero digit
      unless it is "0". */
  lemma {:induction false} NumeralDigits(n: nat, base: nat)
    requires 2 <= base <= 36
    ensures |Numeral(n, base)| > 0
    ensures forall i :: 0 <= i < |Numeral(n, base)| ==> IsDigitOf(Numeral(n, base)[i], base)
    ensures n > 0 ==> Numeral(n, base)[0] != '0'
  {
    if n >= base {
      DivShrinks(n, base);
      DivMod(n, base);
      NumeralDigits(n / base, base);
      var p := Numeral(n / base, base);
      var s := p + [DigitChar(n % base)];
      assert Numeral(n, base) == s;
      forall i | 0 <= i < |s| ensures IsDigitOf(s[i], base) {
        if i < |p| { assert s[i] == p[i]; }
      }
      assert s[0] == p[0];
    } else {
      assert Numeral(n, base) == [DigitChar(n)];
    }
  }

  /** A numeral denotes the number it was made from. */
  lemma {:induction false} NumeralValue(n: nat, base: nat)
    requires 2 <= base <= 36
    ensures Value(Numeral(n, base), base) == n
  {
    if n >= base {
      var q, d := n / base, n % base;
      assert Value(Numeral(n, base), base) == Value(Numeral(q, base), base) * base + d by {
        assert Numeral(n, base) == Numeral(q, base) + [DigitChar(d)];
        ValueSnoc(Numeral(q, base), DigitChar(d), base);
      }
      DivShrinks(n, base);
      NumeralValue(q, base);
      DivMod(n, base);
    }
  }

  /** Appending a digit shifts the value one place and adds the digit. */
  lemma ValueSnoc(p: string, c: char, base: nat)
    ensures Value(p + [c], base) == Value(p, base) * base + DigitValue(c)
  {
    assert (p + [c])[..|p|] == p;
  }

  lemma DivShrinks(n: nat, b: nat)
    requires 2 <= b <= n
    ensures 1 <= n / b < n
  {
  }

  lemma DivMod(n: nat, b: nat)
    requires b > 0
    ensures (n / b) * b + n % b == n
    ensures n % b < b
  {
  }

  /** A leading zero does not change the value of a numeral. */
  lemma {:induction false} ValueLeadingZero(s: string, base: nat)
    ensures Value(['0'] + s, base) == Value(s, base)
  {
    if |s| > 0 {
      var z := ['0'] + s;
      assert z[..|z| - 1] == ['0'] + s[..|s| - 1];
      ValueLeadingZero(s[..|s| - 1], base);
    }
  }

  /** Appending text that does not start with a digit of `base` leaves the digit run alone. */
  lemma {:induction false} DigitRunAppend(s: string, tail: string, base: nat)
    requires |tail| == 0 || !IsDigitOf(tail[0], base)
    ensures DigitRun(s + tail, base) == DigitRun(s, base)
  {
    if |s| > 0 {
      assert (s + tail)[1..] == s[1..] + tail;
      DigitRunAppend(s[1..], tail, base);
    }
  }

  /** A numeral made only of digits of `base` is one run of digits to its end. */
  lemma WholeRun(s: string, base: nat)
    requires forall i :: 0 <= i < |s| ==> IsDigitOf(s[i], base)
    ensures DigitRun(s, base) == |s|
  {
  }

  /** A constant that runs to the end of the text converts to the value of its digits. */
  lemma WholeConstant(u: string)
    requires forall i :: RadixOf(u).skip <= i < |u| ==> IsDigitOf(u[i], RadixOf(u).base)
    requires RadixOf(u).skip < |u|
    ensures Constant(u) == Conversion(Value(u[RadixOf(u).skip..], RadixOf(u).base), |u|)
  {
    var r := RadixOf(u);
    var d := u[r.skip..];
    forall i | 0 <= i < |d| ensures IsDigitOf(d[i], r.base) {
      assert d[i] == u[r.skip + i];
    }
    WholeRun(d, r.base);
    assert u[r.skip..r.skip + |d|] == d;
  }

  /** Decimal round trip: strtoul reads back every number written in decimal. */
  lemma DecimalRoundTrip(n: nat)
    ensures StrToUL(Numeral(n, 10)) == Conversion(Clamp(n), |Numeral(n, 10)|)
  {
    var s := Numeral(n, 10);
    NumeralDigits(n, 10);
    NumeralValue(n, 10);
    if n == 0 {
      assert s == "0";
      assert RadixOf(s) == Radix(0, 8);
      WholeConstant(s);
      assert s[0..] == s;
      ValueLeadingZero("", 8);
    } else {
      assert RadixOf(s) == Radix(0, 10);
      WholeConstant(s);
      assert s[0..] == s;
    }
  }

  /** Hexadecimal round trip: "0x" followed by the hex numeral of `n` reads back as `n`. */
  lemma HexRoundTrip(n: nat)
    ensures StrToUL("0x" + Numeral(n, 16)) == Conversion(Clamp(n), 2 + |Numeral(n, 16)|)
  {
    var h := Numeral(n, 16);
    var s := "0x" + h;
    NumeralDigits(n, 16);
    NumeralValue(n, 16);
    assert s[2] == h[0];
    assert RadixOf(s) == Radix(2, 16);
    forall i | 2 <= i < |s| ensures IsDigitOf(s[i], 16) {
      assert s[i] == h[i - 2];
    }
    WholeConstant(s);
    assert s[2..] == h;
  }

  /** Octal round trip: "0" followed by the octal numeral of `n` reads back as `n`. */
  lemma OctalRoundTrip(n: nat)
    ensures StrToUL("0" + Numeral(n, 8)) == Conversion(Clamp(n), 1 + |Numeral(n, 8)|)
  {
    var o := Numeral(n, 8);
    var s := "0" + o;
    NumeralDigits(n, 8);
    NumeralValue(n, 8);
    assert RadixOf(s) == Radix(0, 8);
    forall i | 0 <= i < |s| ensures IsDigitOf(s[i], 8) {
      if i > 0 { assert s[i] == o[i - 1]; }
    }
    WholeConstant(s);
    assert s[0..] == ['0'] + o;
    ValueLeadingZero(o, 8);
  }

  /** A character that can neither continue a constant in any base strtoul picks
      with base 0 nor complete a "0x" prefix. */
  predicate Stops(c: char) {
    !IsDigitOf(c, 16) && c != 'x' && c != 'X'
  }

  /** Trailing text is not part of the conversion: once `s` starts with a digit,
      whatever follows a stopping character changes neither the value nor `end`. */
  lemma TrailingIgnored(s: string, tail: string)
    requires |s| > 0 && IsDigit(s[0])
    requires |tail| == 0 || Stops(tail[0])
    ensures StrToUL(s + tail) == StrToUL(s)
  {
    ConstantAppend(s, tail);
  }

  lemma ConstantAppend(s: string, tail: string)
    requires |s| > 0 && IsDigit(s[0])
    requires |tail| == 0 || Stops(tail[0])
    ensures Constant(s + tail) == Constant(s)
  {
    RadixAppend(s, tail);
    DigitsAppend(s, tail, RadixOf(s));
  }

  /** A stopping character cannot complete a "0x" prefix. */
  lemma RadixAppend(s: string, tail: string)
    requires |s| > 0 && IsDigit(s[0])
    requires |tail| == 0 || Stops(tail[0])
    ensures RadixOf(s + tail) == RadixOf(s)
  {
    var st := s + tail;
    assert st[0] == s[0];
    if |s| >= 2 { assert st[1] == s[1]; }
    if |s| >= 3 { assert st[2] == s[2]; }
  }

  /** A stopping character ends the digit run in any base base 0 can pick, so the
      constant's digits are the same with or without the tail. */
  lemma DigitsAppend(s: string, tail: string, r: Radix)
    requires RadixOf(s + tail) == RadixOf(s) == r
    requires r.base <= 16
    requires |tail| == 0 || Stops(tail[0])
    ensures Digits(s + tail) == Digits(s)
  {
    var u := s[r.skip..];
    assert (s + tail)[r.skip..] == u + tail;
    DigitRunAppend(u, tail, r.base);
    SliceOfAppend(s, tail, r.skip, r.skip + DigitRun(u, r.base));
  }

  lemma SliceOfAppend(s: string, tail: string, i: nat, j: nat)
    requires i <= j <= |s|
    ensures (s + tail)[i..j] == s[i..j]
  {
  }
}
