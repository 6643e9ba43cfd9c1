/** Numbers as text: the digits the log stream prints, and what a reader makes of them. */
module Numerals {

  const DIGITS: string := "9876543210123456789"   // zero stands at index 9
  const DIGITS_HEX: string := "0123456789ABCDEF"

  predicate Base(base: nat) {
    base == 10 || base == 16
  }

  /** The numeral of `n`, most significant digit first. */
  function Digits(n: nat, base: nat): (r: string)
    requires Base(base)
    ensures r != []
  {
    if n < base then [DIGITS_HEX[n]] else Digits(n / base, base) + [DIGITS_HEX[n % base]]
  }

  function Decimal(value: int): string {
    if value < 0 then ['-'] + Digits(-value, 10) else Digits(value, 10)
  }

  // ---------------------------------------------------------------- reading

  function DigitValue(c: char): int {
    if '0' <= c <= '9' then c as int - '0' as int
    else if 'A' <= c <= 'F' then c as int - 'A' as int + 10
    else -1
  }

  predicate IsDigit(c: char, base: nat) {
    0 <= DigitValue(c) < base
  }

  predicate AllDigits(s: string, base: nat) {
    forall c :: c in s ==> IsDigit(c, base)
  }

  function Value(s: string, base: nat): int {
    if s == [] then 0 else base * Value(s[..|s| - 1], base) + DigitValue(s[|s| - 1])
  }

  function ParseDecimal(s: string): int {
    if s != [] && s[0] == '-' then -Value(s[1..], 10) else Value(s, 10)
  }

  /** Digits only, at least one, and no leading zero unless it is the only digit. */
  predicate Canonical(s: string, base: nat) {
    s != [] && AllDigits(s, base) && (s[0] == '0' ==> |s| == 1)
  }

  /** A canonical decimal integer; minus only before a positive number. */
  predicate CanonicalDecimal(s: string) {
    if s != [] && s[0] == '-' then Canonical(s[1..], 10) && s[1] != '0' else Canonical(s, 10)
  }

  lemma TableValue(d: nat, base: nat)
    requires Base(base) && d < base
    ensures DigitValue(DIGITS_HEX[d]) == d && (DIGITS_HEX[d] == '0' <==> d == 0) && DIGITS_HEX[d] != '-'
  {
  }

  lemma DigitOfValue(c: char, base: nat)
    requires Base(base) && IsDigit(c, base)
    ensures DIGITS_HEX[DigitValue(c)] == c
  {
  }

  lemma DivMod(n: nat, base: nat)
    requires Base(base)
    ensures n == base * (n / base) + n % base && 0 <= n % base < base
    ensures n >= base ==> 0 < n / base < n
  {
  }

  lemma {:induction false} DigitsCorrect(n: nat, base: nat)
    requires Base(base)
    ensures Canonical(Digits(n, base), base) && Value(Digits(n, base), base) == n
    ensures Digits(n, base)[0] == '0' <==> n == 0
  {
    var s := Digits(n, base);
    if n < base {
      TableValue(n, base);
      assert s[..0] == [];
    } else {
      DivMod(n, base);
      DigitsCorrect(n / base, base);
      TableValue(n % base, base);
      assert s[..|s| - 1] == Digits(n / base, base);
    }
  }

  lemma NoSign(s: string, base: nat)
    requires Canonical(s, base)
    ensures s[0] != '-'
  {
    assert IsDigit(s[0], base);
  }

  /** Every decimal output reads back as the number printed, with no superfluous leading zero. */
  lemma DecimalRoundTrip(value: int)
    ensures ParseDecimal(Decimal(value)) == value && CanonicalDecimal(Decimal(value))
  {
    var ds := Digits(if value < 0 then -value else value, 10);
    DigitsCorrect(if value < 0 then -value else value, 10);
    NoSign(ds, 10);
    if value < 0 {
      assert Decimal(value) == ['-'] + ds && (['-'] + ds)[1..] == ds;
    } else {
      assert Decimal(value) == ds;
    }
  }

  lemma FrontCanonical(s: string, base: nat)
    requires Base(base) && Canonical(s, base) && |s| > 1
    ensures Canonical(s[..|s| - 1], base) && s[..|s| - 1][0] != '0' && IsDigit(s[|s| - 1], base)
  {
    assert forall c :: c in s[..|s| - 1] ==> c in s;
  }

  /** The text is the numeral of its value, which is positive unless the text starts with a zero. */
  ghost predicate IsNumeral(s: string, base: nat)
    requires Base(base) && s != []
  {
    Value(s, base) >= 0 && (s[0] != '0' ==> Value(s, base) > 0) && Digits(Value(s, base), base) == s
  }

  lemma {:induction false} ValueOfCanonical(s: string, base: nat)
    requires Base(base) && Canonical(s, base)
    ensures IsNumeral(s, base)
    decreases |s|
  {
    if |s| == 1 {
      OneDigit(s, base);
    } else {
      var front, last := s[..|s| - 1], s[|s| - 1];
      FrontCanonical(s, base);
      ValueOfCanonical(front, base);
      Longer(front, last, s, base);
    }
  }

  lemma SnocValue(front: string, last: char, base: nat)
    requires Base(base) && IsDigit(last, base) && Value(front, base) > 0
    ensures Value(front + [last], base) == base * Value(front, base) + DigitValue(last) > 0
  {
    assert (front + [last])[..|front|] == front;
  }

  /** The text of `q` with one more digit is the text of the number one digit longer. */
  lemma LastDigit(q: nat, last: char, base: nat)
    requires Base(base) && IsDigit(last, base) && q > 0
    ensures Digits(base * q + DigitValue(last), base) == Digits(q, base) + [last]
  {
    DigitOfValue(last, base);
    AppendDigit(q, DigitValue(last), base);
  }

  lemma NumeralOf(s: string, v: nat, base: nat)
    requires Base(base) && s != [] && v > 0 && Value(s, base) == v && Digits(v, base) == s
    ensures IsNumeral(s, base)
  {
  }

  lemma SnocNumeral(front: string, last: char, base: nat) returns (v: nat)
    requires Base(base) && IsDigit(last, base) && Value(front, base) > 0
    ensures v > 0 && Value(front + [last], base) == v && Digits(v, base) == Digits(Value(front, base), base) + [last]
  {
    v := base * Value(front, base) + DigitValue(last);
    SnocValue(front, last, base);
    LastDigit(Value(front, base), last, base);
  }

  lemma Longer(front: string, last: char, s: string, base: nat)
    requires Base(base) && IsDigit(last, base) && front != [] && front[0] != '0' && IsNumeral(front, base)
    requires s == front + [last]
    ensures IsNumeral(s, base)
  {
    var v := SnocNumeral(front, last, base);
    NumeralOf(s, v, base);
  }

  lemma OneDigit(s: string, base: nat)
    requires Base(base) && Canonical(s, base) && |s| == 1
    ensures Value(s, base) == DigitValue(s[0]) >= 0 && (s[0] != '0' ==> Value(s, base) > 0)
    ensures Digits(Value(s, base), base) == s
  {
    assert s[..0] == [] && Value(s[..0], base) == 0;
    assert IsDigit(s[0], base);
    DigitOfValue(s[0], base);
  }

  lemma AppendDigit(q: nat, r: nat, base: nat)
    requires Base(base) && r < base && q > 0
    ensures Digits(base * q + r, base) == Digits(q, base) + [DIGITS_HEX[r]]
  {
    Recompose(q, r, base);
  }

  lemma Recompose(q: nat, r: nat, base: nat)
    requires Base(base) && r < base && q > 0
    ensures (base * q + r) / base == q && (base * q + r) % base == r && base * q + r >= base
  {
  }

  /** Conversely, every canonical text is what is printed for the number it denotes. */
  lemma CanonicalIsPrinted(s: string)
    requires CanonicalDecimal(s)
    ensures Decimal(ParseDecimal(s)) == s
  {
    if s[0] == '-' {
      ValueOfCanonical(s[1..], 10);
      assert s == ['-'] + s[1..];
    } else {
      ValueOfCanonical(s, 10);
    }
  }

  function Pow10(k: nat): nat {
    if k == 0 then 1 else 10 * Pow10(k - 1)
  }

  lemma {:induction false} DigitsLength(n: nat, k: nat)
    requires k >= 1 && n < Pow10(k)
    ensures |Digits(n, 10)| <= k
  {
    if n >= 10 {
      DigitsLength(n / 10, k - 1);
    }
  }

  lemma {:induction false} DigitsAtLeast(n: nat, k: nat)
    requires n >= Pow10(k)
    ensures |Digits(n, 10)| > k
  {
    if k > 0 {
      DigitsAtLeast(n / 10, k - 1);
    }
  }

  /** Signed or unsigned, up to 64 bits. */
  predicate IsMachineInteger(value: int) {
    -0x8000_0000_0000_0000 <= value <= 0xFFFF_FFFF_FFFF_FFFF
  }

  /** With its terminator, any machine integer needs at most 21 bytes. */
  lemma DecimalFits(value: int)
    requires IsMachineInteger(value)
    ensures |Decimal(value)| <= 20
  {
    PowersOfTen();
    if value < 0 { DigitsLength(-value, 19); } else { DigitsLength(value, 20); }
  }

  lemma PowersOfTen()
    ensures Pow10(19) == 10_000_000_000_000_000_000
  {
    assert Pow10(5) == 100_000;
    assert Pow10(10) == 100_000 * Pow10(5);
    assert Pow10(15) == 100_000 * Pow10(10);
    assert Pow10(19) == 10_000 * Pow10(15);
  }

  /** The largest of them needs all 21. */
  lemma LargestIsLongest()
    ensures |Decimal(0xFFFF_FFFF_FFFF_FFFF)| == 20
  {
    PowersOfTen();
    DigitsAtLeast(0xFFFF_FFFF_FFFF_FFFF, 19);
    DecimalFits(0xFFFF_FFFF_FFFF_FFFF);
  }

  lemma {:induction false} HexLength(n: nat, k: nat)
    requires k >= 1 && n < Pow16(k)
    ensures |Digits(n, 16)| <= k
  {
    if n >= 16 {
      HexLength(n / 16, k - 1);
    }
  }

  function Pow16(k: nat): nat {
    if k == 0 then 1 else 16 * Pow16(k - 1)
  }
}
