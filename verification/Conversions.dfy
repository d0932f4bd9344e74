/** Numbers as text: `cvtdec0`, `cvtdec` and `cvthex` of lib/c_io.c. */
module Conversions {
  import opened Defs

  const INT_MIN: int := -0x8000_0000
  const INT_MAX: int := 0x7fff_ffff

  type Int32 = n: int | INT_MIN <= n <= INT_MAX

  /** Negation wraps around: the most negative value is its own negation. */
  function Negate(v: Int32): Int32 {
    if v == INT_MIN then INT_MIN else -v
  }

  /** Division that truncates toward zero. */
  function Quotient(v: Int32, d: nat): Int32
    requires 2 <= d
  {
    var n: int := v;
    if n >= 0 then n / d else -(-n / d)
  }

  function Digit(d: nat): char
    requires d < 16
  {
    if d < 10 then '0' + d as char else 'A' + (d - 10) as char
  }

  // ---- what text means ----

  predicate IsDigit(c: char, base: nat)
    requires base <= 16
  {
    exists d :: 0 <= d < base && Digit(d) == c
  }

  function DigitValue(c: char): nat {
    if '0' <= c <= '9' then c as nat - '0' as nat
    else if 'A' <= c <= 'F' then c as nat - 'A' as nat + 10
    else 0
  }

  /** The number that the digits `s` stand for, most significant first. */
  function ValueOf(s: string, base: nat): nat {
    if s == "" then 0 else ValueOf(s[..|s| - 1], base) * base + DigitValue(s[|s| - 1])
  }

  /** Only digits, at least one, and no zero in front of another digit. */
  ghost predicate Numeral(s: string, base: nat)
    requires base <= 16
  {
    && s != "" && (forall i :: 0 <= i < |s| ==> IsDigit(s[i], base))
    && (s[0] == '0' ==> |s| == 1)
  }

  function ParseInt(s: string): int {
    var negative := s != "" && s[0] == '-';
    var n: int := ValueOf(s[if negative then 1 else 0..], 10);
    if negative then -n else n
  }

  lemma DigitOk(d: nat, base: nat)
    requires d < base <= 16
    ensures DigitValue(Digit(d)) == d && IsDigit(Digit(d), base) && (Digit(d) == '0' <==> d == 0) && Digit(d) != '-'
  {
  }

  lemma ValueSnoc(s: string, d: nat, base: nat)
    requires d < base <= 16
    ensures ValueOf(s + [Digit(d)], base) == ValueOf(s, base) * base + d
  {
    DigitOk(d, base);
    var t := s + [Digit(d)];
    assert t[..|t| - 1] == s && t[|t| - 1] == Digit(d);
  }

  // ---- decimal ----

  /** The remainder of a division by ten: never of the other sign. */
  function Remainder(v: Int32): int
    ensures -10 < Remainder(v) < 10 && v == 10 * Quotient(v, 10) + Remainder(v)
  {
    var n: int := v;
    if n >= 0 then n % 10 else -(-n % 10)
  }

  /** `cvtdec0`: a negative quotient is taken to come from the most negative value. */
  function Dec0(v: Int32): string
    decreases if v < 0 then INT_MAX + 1 else v
  {
    var q := Quotient(v, 10);
    if q < 0 then Dec0(214748364) + [Digit(8)]
    else (if q != 0 then Dec0(q) else "") + [('0' as int + Remainder(v)) as char]
  }

  function Dec(v: Int32): string {
    if v < 0 then "-" + Dec0(Negate(v)) else Dec0(v)
  }

  function Magnitude(v: Int32): nat {
    var n: int := v;
    if n < 0 then -n else n
  }

  lemma NumeralSnoc(s: string, d: nat, base: nat)
    requires d < base <= 16 && (s == "" || (Numeral(s, base) && s[0] != '0'))
    ensures Numeral(s + [Digit(d)], base) && ((s + [Digit(d)])[0] == '0' <==> s == "" && d == 0)
  {
    hide Digit, IsDigit;
    DigitOk(d, base);
    assert s == "" ==> s + [Digit(d)] == [Digit(d)];
  }

  /** The digits stand for the magnitude, also of the most negative value. */
  lemma {:induction false} Dec0Value(v: Int32)
    requires 0 <= v || v == INT_MIN
    ensures ValueOf(Dec0(v), 10) == Magnitude(v) && Numeral(Dec0(v), 10) && (Dec0(v)[0] == '0' <==> v == 0)
    decreases Magnitude(v)
  {
    hide ValueOf, Numeral;
    var q := if v < 0 then 214748364 else v / 10;
    var d := if v < 0 then 8 else v % 10;
    assert Dec0(v) == (if q != 0 then Dec0(q) else "") + [Digit(d)];
    if q != 0 {
      Dec0Value(q);
      Nonempty(Dec0(q), 10);
      ValueSnoc(Dec0(q), d, 10);
      NumeralSnoc(Dec0(q), d, 10);
    } else {
      ValueEmpty(10);
      ValueSnoc("", d, 10);
      NumeralSnoc("", d, 10);
    }
  }

  /** The digits stand for the magnitude of no other negative value: below -9 they are those of the most negative
      one, and above it the one character is no digit. */
  lemma Dec0Exactly(v: Int32)
    ensures ValueOf(Dec0(v), 10) == Magnitude(v) && Numeral(Dec0(v), 10) <==> 0 <= v || v == INT_MIN
    ensures v <= -10 ==> Dec0(v) == Dec0(INT_MIN)
    ensures -10 < v < 0 ==> |Dec0(v)| == 1 && Dec0(v)[0] as int == '0' as int + v
  {
    hide ValueOf, Dec0;
    if 0 <= v || v == INT_MIN {
      Dec0Value(v);
    } else if v <= -10 {
      Dec0Value(INT_MIN);
      Dec0Far(v);
    } else {
      Dec0Near(v);
      assert !IsDigit(Dec0(v)[0], 10);
    }
  }

  lemma Dec0Far(v: Int32)
    requires v <= -10
    ensures Dec0(v) == Dec0(INT_MIN)
  {
    hide ValueOf, Numeral;
    assert Quotient(v, 10) < 0;
  }

  lemma Dec0Near(v: Int32)
    requires -10 < v < 0
    ensures Dec0(v) == [('0' as int + v) as char]
  {
    hide ValueOf, Numeral;
  }

  lemma ValueEmpty(base: nat)
    ensures ValueOf("", base) == 0
  {
  }

  lemma Nonempty(s: string, base: nat)
    requires base <= 16 && Numeral(s, base)
    ensures s != ""
  {
  }

  function Pow10(k: nat): nat { if k == 0 then 1 else 10 * Pow10(k - 1) }

  lemma {:induction false} Dec0Length(v: Int32, k: nat)
    requires 1 <= k && 0 <= v < Pow10(k)
    ensures 1 <= |Dec0(v)| <= k
    decreases v
  {
    if v >= 10 {
      assert v / 10 < Pow10(k - 1);
      Dec0Length(v / 10, k - 1);
    }
  }

  /** `cvtdec` parses back to the value, for every 32-bit value; the digits have no superfluous zero; and with
      its NUL the text fits in twelve characters. */
  lemma DecRoundTrip(v: Int32)
    ensures ParseInt(Dec(v)) == v
    ensures Numeral(Dec(v)[if v < 0 then 1 else 0..], 10) && |Dec(v)| + 1 <= 12
  {
    hide ValueOf, Numeral, Dec0;
    var u := if v < 0 then Negate(v) else v;
    Dec0Value(u);
    Nonempty(Dec0(u), 10);
    NoSign(Dec0(u), 10);
    Dec0Fits(u);
    assert Dec(v)[if v < 0 then 1 else 0..] == Dec0(u);
  }

  lemma NoSign(s: string, base: nat)
    requires base <= 16 && Numeral(s, base)
    ensures s[0] != '-'
  {
    var d :| 0 <= d < base && Digit(d) == s[0];
    DigitOk(d, base);
  }

  lemma Dec0Fits(u: Int32)
    requires 0 <= u || u == INT_MIN
    ensures |Dec0(u)| <= 10
  {
    assert Pow10(3) == 1000;
    assert Pow10(6) == 1000 * Pow10(3);
    assert Pow10(9) == 1000 * Pow10(6);
    if u < 0 {
      Dec0Length(214748364, 9);
    } else {
      Dec0Length(u, 10);
    }
  }

  // ---- hexadecimal ----

  /** The shortest hexadecimal text. */
  function Hex(u: nat): string {
    (if u < 16 then "" else Hex(u / 16)) + [Digit(u % 16)]
  }

  lemma {:induction false} HexValue(u: nat)
    ensures ValueOf(Hex(u), 16) == u && Numeral(Hex(u), 16) && (Hex(u)[0] == '0' <==> u == 0)
  {
    hide Digit, ValueOf, Numeral;
    if u >= 16 {
      HexValue(u / 16);
      Nonempty(Hex(u / 16), 16);
      ValueSnoc(Hex(u / 16), u % 16, 16);
      NumeralSnoc(Hex(u / 16), u % 16, 16);
    } else {
      ValueEmpty(16);
      ValueSnoc("", u, 16);
      NumeralSnoc("", u, 16);
    }
  }

  /** 16 to the power 8 - i. */
  function Weight(i: nat): nat
    requires i <= 8
  {
    match i
    case 0 => 0x1_0000_0000
    case 1 => 0x1000_0000
    case 2 => 0x100_0000
    case 3 => 0x10_0000
    case 4 => 0x1_0000
    case 5 => 0x1000
    case 6 => 0x100
    case 7 => 0x10
    case 8 => 1
  }

  /** The first `i` of the eight hexadecimal digits, as a number ... */
  function Leading(u: U32, i: nat): U32
    requires i <= 8
    decreases 8 - i
  {
    if i == 8 then u else Leading(u, i + 1) / 16
  }

  function Scaled(d: nat, i: nat): nat
    requires i <= 8
  {
    d * Weight(i)
  }

  /** ... and the others. */
  function Trailing(u: U32, i: nat): nat
    requires i <= 8
    decreases 8 - i
  {
    if i == 8 then 0 else Scaled(Leading(u, i + 1) % 16, i + 1) + Trailing(u, i + 1)
  }

  /** The word after `i` shifts by four bits. */
  function Shifted(u: U32, i: nat): nat
    requires i <= 8
  {
    Trailing(u, i) * Weight(8 - i)
  }

  lemma {:induction false} DigitsSplit(u: U32, i: nat)
    requires i <= 8
    ensures u == Leading(u, i) * Weight(i) + Trailing(u, i) && Trailing(u, i) < Weight(i)
    decreases 8 - i
  {
    if i < 8 {
      DigitsSplit(u, i + 1);
      var q, d := Leading(u, i), Leading(u, i + 1) % 16;
      assert Leading(u, i + 1) == 16 * q + d;
      SplitWeight(i, q, d);
    }
  }

  lemma SplitWeight(i: nat, q: nat, d: nat)
    requires i < 8 && d < 16
    ensures (16 * q + d) * Weight(i + 1) == q * Weight(i) + d * Weight(i + 1)
    ensures d * Weight(i + 1) + Weight(i + 1) <= Weight(i)
  {
  }

  lemma ShiftStep(u: U32, i: nat)
    requires i < 8
    ensures Shifted(u, i) / 0x1000_0000 == Leading(u, i + 1) % 16 && Shifted(u, i) < UINT32
    ensures Shifted(u, i + 1) == Shifted(u, i) * 16 % UINT32
  {
    DigitsSplit(u, i + 1);
    TopDigit(i, Leading(u, i + 1) % 16, Trailing(u, i + 1));
  }

  lemma TopDigit(i: nat, d: nat, rest: nat)
    requires i < 8 && d < 16 && rest < Weight(i + 1)
    ensures var word := (d * Weight(i + 1) + rest) * Weight(8 - i);
            && word / 0x1000_0000 == d && word < UINT32
            && word * 16 % UINT32 == rest * Weight(8 - (i + 1))
  {
    var word := (d * Weight(i + 1) + rest) * Weight(8 - i);
    assert word == d * 0x1000_0000 + rest * Weight(8 - i) && rest * Weight(8 - i) < 0x1000_0000;
    assert 16 * (rest * Weight(8 - i)) == rest * Weight(8 - (i + 1));
  }

  lemma {:induction false} HexLength(u: U32, i: nat)
    requires 1 <= i <= 8
    ensures 1 <= |Hex(Leading(u, i))| <= i
    decreases i
  {
    if i > 1 {
      HexLength(u, i - 1);
    } else {
      HexStart(u);
    }
  }

  lemma HexStart(u: U32)
    ensures Leading(u, 0) == 0 && Shifted(u, 0) == u && Leading(u, 8) == u
  {
    DigitsSplit(u, 0);
  }

  lemma HexSnoc(u: nat)
    ensures Hex(u) == (if u / 16 == 0 then "" else Hex(u / 16)) + [Digit(u % 16)]
  {
  }

  /** `cvthex` parses back to the word's unsigned value, has no superfluous zero, and fits. */
  lemma HexRoundTrip(u: U32)
    ensures ValueOf(Hex(u), 16) == u && Numeral(Hex(u), 16) && |Hex(u)| + 1 <= 9
  {
    hide ValueOf, Numeral, Hex;
    HexValue(u);
    HexLength(u, 8);
    assert Leading(u, 8) == u;
  }

  // ---- the code ----

  method CvtDec0(buf: array<char>, at: nat, value: Int32) returns (end: nat)
    requires at + |Dec0(value)| <= buf.Length
    modifies buf
    ensures end == at + |Dec0(value)| && buf[at..end] == Dec0(value)
    ensures forall i :: 0 <= i < buf.Length && !(at <= i < end) ==> buf[i] == old(buf[i])
    decreases if value < 0 then INT_MAX + 1 else value
  {
    var quotient, v, next := Quotient(value, 10), value, at;
    if quotient < 0 {
      quotient, v := 214748364, 8;
    }
    if quotient != 0 {
      next := CvtDec0(buf, at, quotient);
    }
    buf[next] := ('0' as int + Remainder(v)) as char;
    end := next + 1;
  }

  method CvtDec(buf: array<char>, value: Int32) returns (n: nat)
    requires buf.Length >= 12
    modifies buf
    ensures n < 12 && buf[..n] == Dec(value) && buf[n] == '\0'
    ensures forall i :: n < i < buf.Length ==> buf[i] == old(buf[i])
  {
    hide Dec0, ValueOf, Numeral;
    DecRoundTrip(value);
    var bp, v := 0, value;
    if v < 0 {
      buf[0] := '-';
      bp, v := 1, Negate(v);
    }
    n := CvtDec0(buf, bp, v);
    assert buf[..n] == buf[..bp] + buf[bp..n];
    buf[n] := '\0';
  }

  method CvtHex(buf: array<char>, value: U32) returns (n: nat)
    requires buf.Length >= 9
    modifies buf
    ensures n < 9 && buf[..n] == Hex(value) && buf[n] == '\0'
    ensures forall i :: n < i < buf.Length ==> buf[i] == old(buf[i])
  {
    hide Digit, Shifted;
    HexStart(value);
    var v, stored, bp := value, false, 0;
    for i := 0 to 8
      invariant v == Shifted(value, i) && bp <= i && bp < buf.Length
      invariant stored <==> Leading(value, i) != 0 || i == 8
      invariant buf[..bp] == if stored then Hex(Leading(value, i)) else ""
      invariant forall j :: bp <= j < buf.Length ==> buf[j] == old(buf[j])
    {
      ShiftStep(value, i);
      var val := v / 0x1000_0000;
      HexSnoc(Leading(value, i + 1));
      if i == 7 || val != 0 || stored {
        stored := true;
        buf[bp] := Digit(val);
        bp := bp + 1;
        assert buf[..bp] == buf[..bp - 1] + [Digit(val)];
      }
      v := v * 16 % UINT32;
    }
    buf[bp] := '\0';
    n := bp;
  }
}
