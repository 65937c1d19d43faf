/** Python's `%X`, `%06X` and `%d` conversions, with the parsers that invert them.
    The report prints code points with `"U+%06X"` and counts with `"%d"`. */
module Format {
  import opened Options

  /** Digits used for bases up to sixteen; letters are upper case, as `%X` prints them. */
  predicate IsDigit(ch: char, base: nat) {
    DigitValue(ch) < base
  }

  /** Value of one digit character, or 16 for a character that is no digit. */
  function DigitValue(ch: char): (v: nat)
    ensures v <= 16
  {
    if '0' <= ch <= '9' then ch as int - '0' as int
    else if 'A' <= ch <= 'F' then ch as int - 'A' as int + 10
    else 16
  }

  function DigitChar(d: nat): (ch: char)
    requires d < 16
    ensures DigitValue(ch) == d
    ensures '0' <= ch <= '9' || 'A' <= ch <= 'F'
  {
    if d < 10 then (d + '0' as int) as char else (d - 10 + 'A' as int) as char
  }

  predicate AllDigits(s: string, base: nat) {
    forall i :: 0 <= i < |s| ==> IsDigit(s[i], base)
  }

  /** The number a string of digits denotes, most significant digit first. */
  function NumeralValue(s: string, base: nat): nat
    requires AllDigits(s, base)
  {
    if s == [] then 0
    else NumeralValue(s[..|s| - 1], base) * base + DigitValue(s[|s| - 1])
  }

  /** The shortest numeral for `n`: `"0"` for zero, otherwise no leading zero. */
  function Numeral(n: nat, base: nat): (r: string)
    requires 2 <= base <= 16
    ensures |r| >= 1 && AllDigits(r, base)
    ensures NumeralValue(r, base) == n
    ensures r[0] == '0' ==> n == 0
    decreases n
  {
    if n < base then [DigitChar(n)]
    else
      DivMod(n, base);
      var q, d := n / base, n % base;
      var p := Numeral(q, base);
      var r := p + [DigitChar(d)];
      assert r[..|r| - 1] == p;
      assert forall i :: 0 <= i < |r| ==> IsDigit(r[i], base) by {
        forall i | 0 <= i < |r| ensures IsDigit(r[i], base) {
          if i < |p| { assert r[i] == p[i]; }
        }
      }
      assert n == q * base + d;
      assert r[0] == p[0] && q > 0;
      r
  }

  /** Left-pads `s` with `'0'` up to `width` characters, as the `0` flag of `%06X` does. */
  function PadZeros(s: string, width: nat): (r: string)
    ensures |r| == if |s| >= width then |s| else width
    ensures forall i :: 0 <= i < |r| - |s| ==> r[i] == '0'
    ensures r[|r| - |s|..] == s
    decreases width - |s|
  {
    if |s| >= width then s else PadZeros("0" + s, width)
  }

  /** `"%06X" % n` for a non-negative `n`. */
  function Hex06(n: nat): string {
    PadZeros(Numeral(n, 16), 6)
  }

  /** `"%d" % n`. */
  function Decimal(n: int): string {
    if n < 0 then "-" + Numeral(-n, 10) else Numeral(n, 10)
  }

  /** Reads back what `Decimal` prints. */
  function ParseDecimal(s: string): (r: Option<int>) {
    if |s| > 0 && s[0] == '-' then
      if |s| > 1 && AllDigits(s[1..], 10) then Some(0 - NumeralValue(s[1..], 10)) else None
    else if |s| > 0 && AllDigits(s, 10) then Some(NumeralValue(s, 10))
    else None
  }

  function Pow(base: nat, k: nat): (r: nat)
    ensures base >= 1 ==> r >= 1
  {
    if k == 0 then 1 else base * Pow(base, k - 1)
  }

  /** Leading zeros do not change the value of a numeral. */
  lemma {:induction false} LeadingZeroValue(s: string, base: nat)
    requires 2 <= base <= 16 && AllDigits(s, base)
    ensures AllDigits("0" + s, base)
    ensures NumeralValue("0" + s, base) == NumeralValue(s, base)
    decreases |s|
  {
    var z := "0" + s;
    assert forall i :: 0 <= i < |z| ==> IsDigit(z[i], base) by {
      forall i | 0 <= i < |z| ensures IsDigit(z[i], base) {
        if i > 0 { assert z[i] == s[i - 1]; }
      }
    }
    if s != [] {
      assert z[..|z| - 1] == "0" + s[..|s| - 1];
      LeadingZeroValue(s[..|s| - 1], base);
    }
  }

  lemma {:induction false} PadZerosValue(s: string, width: nat, base: nat)
    requires 2 <= base <= 16 && AllDigits(s, base)
    ensures AllDigits(PadZeros(s, width), base)
    ensures NumeralValue(PadZeros(s, width), base) == NumeralValue(s, base)
    decreases width - |s|
  {
    if |s| < width {
      LeadingZeroValue(s, base);
      PadZerosValue("0" + s, width, base);
    }
  }

  /** A numeral with `k` digits denotes a number below `base^k`. */
  lemma {:induction false} NumeralValueBound(s: string, base: nat)
    requires 2 <= base <= 16 && AllDigits(s, base)
    ensures NumeralValue(s, base) < Pow(base, |s|)
    decreases |s|
  {
    if s != [] {
      var p := s[..|s| - 1];
      NumeralValueBound(p, base);
      NextDigitBound(NumeralValue(p, base), DigitValue(s[|s| - 1]), Pow(base, |p|), base);
    }
  }

  /** Appending a digit to a numeral below `m` gives one below `base * m`. */
  lemma NextDigitBound(v: nat, d: nat, m: nat, base: nat)
    requires v < m && d < base
    ensures v * base + d < base * m
  {
    MulMono(v + 1, m, base);
  }

  lemma DivMod(n: nat, base: nat)
    requires 2 <= base
    ensures n == (n / base) * base + n % base
    ensures 0 <= n % base < base
    ensures n >= base ==> 0 < n / base < n
  {
  }

  lemma MulMono(a: nat, b: nat, c: nat)
    requires a <= b
    ensures a * c <= b * c
  {
  }

  /** Division with remainder by `base` has a single answer. */
  lemma DigitUnique(a: nat, x: nat, b: nat, y: nat, base: nat)
    requires x < base && y < base && a * base + x == b * base + y
    ensures a == b && x == y
  {
    if a < b {
      MulMono(a + 1, b, base);
    } else if b < a {
      MulMono(b + 1, a, base);
    }
  }

  /** Numerals of one length are equal exactly when their values are. */
  lemma {:induction false} NumeralInjective(s: string, t: string, base: nat)
    requires 2 <= base <= 16 && AllDigits(s, base) && AllDigits(t, base) && |s| == |t|
    requires NumeralValue(s, base) == NumeralValue(t, base)
    ensures s == t
    decreases |s|
  {
    if s != [] {
      var n := |s| - 1;
      var a, b := NumeralValue(s[..n], base), NumeralValue(t[..n], base);
      var x, y := DigitValue(s[n]), DigitValue(t[n]);
      assert a * base + x == b * base + y;
      DigitUnique(a, x, b, y, base);
      NumeralInjective(s[..n], t[..n], base);
      assert s[n] == t[n] by {
        assert DigitValue(s[n]) == DigitValue(t[n]);
      }
      assert s == s[..n] + [s[n]] && t == t[..n] + [t[n]];
    }
  }

  /** The shortest numeral of `n` is no longer than any numeral of `n`. */
  lemma {:induction false} NumeralShortest(n: nat, base: nat, k: nat)
    requires 2 <= base <= 16 && 1 <= k && n < Pow(base, k)
    ensures |Numeral(n, base)| <= k
    decreases n
  {
    if n >= base {
      var q, m := n / base, Pow(base, k - 1);
      assert Pow(base, k) == base * m;
      QuotientBound(n, base, m);
      DivMod(n, base);
      assert k - 1 >= 1;
      NumeralShortest(q, base, k - 1);
      NumeralDropDigit(n, base);
    }
  }

  /** A numeral of `n >= base` is that of `n / base` and one more digit. */
  lemma NumeralDropDigit(n: nat, base: nat)
    requires 2 <= base <= 16 && n >= base
    ensures |Numeral(n, base)| == |Numeral(n / base, base)| + 1
  {
  }

  /** Dropping the last digit of a number below `base * m` leaves one below `m`. */
  lemma QuotientBound(n: nat, base: nat, m: nat)
    requires 2 <= base && n < base * m
    ensures n / base < m
  {
    DivMod(n, base);
    if n / base >= m {
      MulMono(m, n / base, base);
    }
  }

  /** `%06X` prints exactly six upper-case digits below 16^6, and they read back as `n`. */
  lemma Hex06RoundTrip(n: nat)
    ensures AllDigits(Hex06(n), 16) && NumeralValue(Hex06(n), 16) == n
    ensures |Hex06(n)| >= 6
    ensures n < 0x100_0000 <==> |Hex06(n)| == 6
  {
    var h := Numeral(n, 16);
    PadZerosValue(h, 6, 16);
    assert Pow(16, 6) == 0x100_0000;
    if n < 0x100_0000 {
      NumeralShortest(n, 16, 6);
    } else {
      NumeralValueBound(Hex06(n), 16);
    }
  }

  /** Every six-digit hexadecimal string is what `%06X` prints for its value. */
  lemma Hex06Inverse(s: string)
    requires |s| == 6 && AllDigits(s, 16)
    ensures Hex06(NumeralValue(s, 16)) == s
  {
    var n := NumeralValue(s, 16);
    NumeralValueBound(s, 16);
    assert Pow(16, 6) == 0x100_0000;
    Hex06RoundTrip(n);
    NumeralInjective(Hex06(n), s, 16);
  }

  /** `%d` reads back as the number printed, negative numbers included. */
  lemma DecimalRoundTrip(n: int)
    ensures ParseDecimal(Decimal(n)) == Some(n)
  {
    var d := Numeral(if n < 0 then -n else n, 10);
    if n < 0 {
      assert Decimal(n)[1..] == d;
    } else {
      assert IsDigit(d[0], 10);
    }
  }
}
