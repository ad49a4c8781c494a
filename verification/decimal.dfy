/**
 Canonical decimal text of an integer: what `%d`, `std::to_string` and the
 logger's own formatter all print. `Text` and `ReadInt` are each other's
 inverse, so distinct integers have distinct texts.
 */
module Decimal {

  function DigitChar(d: nat): char
    requires d < 10
  {
    ('0' as int + d) as char
  }

  predicate IsDigit(c: char) {
    '0' <= c <= '9'
  }

  predicate AllDigits(s: string) {
    forall i :: 0 <= i < |s| ==> IsDigit(s[i])
  }

  /** No superfluous leading zero. */
  predicate Canonical(s: string) {
    |s| > 0 && AllDigits(s) && (s[0] == '0' ==> |s| == 1)
  }

  function Digits(n: nat): string {
    if n < 10 then [DigitChar(n)] else Digits(n / 10) + [DigitChar(n % 10)]
  }

  function Abs(v: int): nat {
    if v < 0 then -v else v
  }

  function Text(v: int): string {
    if v < 0 then "-" + Digits(-v) else Digits(v)
  }

  function ReadNat(s: string): nat
    requires AllDigits(s)
  {
    if s == [] then 0 else 10 * ReadNat(s[..|s| - 1]) + (s[|s| - 1] as int - '0' as int)
  }

  /** The integer a decimal text denotes, or 0 for a text that is not decimal. */
  function ReadInt(s: string): int {
    if |s| > 0 && s[0] == '-' && AllDigits(s[1..]) then (var magnitude: int := ReadNat(s[1..]); -magnitude)
    else if AllDigits(s) then ReadNat(s)
    else 0
  }

  lemma {:induction false} DigitsCanonical(n: nat)
    ensures Canonical(Digits(n))
    ensures Digits(n)[0] == '0' ==> n == 0
  {
    if n >= 10 {
      DigitsCanonical(n / 10);
    }
  }

  lemma {:induction false} ReadDigits(n: nat)
    ensures AllDigits(Digits(n)) && ReadNat(Digits(n)) == n
  {
    DigitsCanonical(n);
    var s := Digits(n);
    if n < 10 {
      assert s[..|s| - 1] == [];
    } else {
      ReadDigits(n / 10);
      assert s[..|s| - 1] == Digits(n / 10);
    }
  }

  /** Every canonical digit string is the text of the number it denotes. */
  lemma {:induction false} DigitsOfRead(s: string)
    requires Canonical(s)
    ensures Digits(ReadNat(s)) == s
    ensures s[0] != '0' ==> ReadNat(s) > 0
  {
    var init := s[..|s| - 1];
    var last := s[|s| - 1] as int - '0' as int;
    assert s == init + [DigitChar(last)];
    if |s| > 1 {
      assert init[0] == s[0];
      DigitsOfRead(init);
    } else {
      assert init == [];
    }
  }

  lemma ReadText(v: int)
    ensures ReadInt(Text(v)) == v
  {
    DigitsCanonical(Abs(v));
    ReadDigits(Abs(v));
    if v < 0 {
      assert Text(v)[1..] == Digits(-v);
    } else {
      assert IsDigit(Text(v)[0]);
    }
  }

  /** The text has no superfluous zero, and a sign exactly for a negative number. */
  lemma TextCanonical(v: int)
    ensures v >= 0 ==> Canonical(Text(v))
    ensures v < 0 ==> Text(v)[0] == '-' && Canonical(Text(v)[1..]) && Text(v)[1] != '0'
  {
    DigitsCanonical(Abs(v));
    if v < 0 { assert Text(v)[1..] == Digits(-v); }
  }

  lemma TextInjective(v: int, w: int)
    requires Text(v) == Text(w)
    ensures v == w
  {
    ReadText(v);
    ReadText(w);
  }

  function Pow10(k: nat): nat {
    if k == 0 then 1 else 10 * Pow10(k - 1)
  }

  lemma {:induction false} DigitsLength(n: nat, k: nat)
    requires k > 0
    ensures |Digits(n)| <= k <==> n < Pow10(k)
  {
    if k == 1 {
      assert Pow10(1) == 10 * Pow10(0);
      if n >= 10 { DigitsCanonical(n / 10); }
    } else if n < 10 {
      Pow10AtLeast10(k);
    } else {
      DigitsLength(n / 10, k - 1);
    }
  }

  lemma {:induction false} Pow10AtLeast10(k: nat)
    requires k > 0
    ensures Pow10(k) >= 10
  {
    if k > 1 { Pow10AtLeast10(k - 1); }
  }

  const INT64_MIN: int := -0x8000_0000_0000_0000
  const UINT64_MAX: int := 0xFFFF_FFFF_FFFF_FFFF

  /** Twenty characters hold every 64-bit integer, signed or unsigned. */
  lemma TextLength64(v: int)
    requires INT64_MIN <= v <= UINT64_MAX
    ensures 1 <= |Text(v)| <= 20
  {
    DigitsCanonical(Abs(v));
    Pow10Values();
    if v < 0 { DigitsLength(-v, 19); } else { DigitsLength(v, 20); }
  }

  lemma Pow10Values()
    ensures Pow10(13) == 10_000_000_000_000
    ensures Pow10(19) == 10_000_000_000_000_000_000
    ensures Pow10(20) == 100_000_000_000_000_000_000
  {
    assert Pow10(4) == 10_000;
    assert Pow10(8) == 10_000 * 10_000 by { assert Pow10(6) == 1_000_000; }
    assert Pow10(13) == 10_000_000_000_000 by { assert Pow10(10) == 10_000_000_000; }
    assert Pow10(16) == 10_000_000_000_000_000;
  }
}
