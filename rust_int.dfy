/**
 * The pieces of Rust's integer semantics the arrangement code relies on:
 * the ranges of u8, u16, u32 and i32, the truncating `as u8` cast from i32,
 * and the decimal text of an i32 as `format!("{}", n)` writes it and
 * `str::parse::<i32>` reads it.
 */
module RustInt {
  import opened Wrappers

  const I32_MIN: int := -0x8000_0000
  const I32_MAX: int := 0x7FFF_FFFF

  type u8 = x: int | 0 <= x < 0x100
  type u16 = x: int | 0 <= x < 0x1_0000
  type u32 = x: int | 0 <= x < 0x1_0000_0000
  type i32 = x: int | I32_MIN <= x <= I32_MAX

  /** `x as u8` for an i32 `x`: the low eight bits of its two's complement form. */
  function CastToU8(x: i32): (r: u8)
    ensures (x - r) % 0x100 == 0
    ensures 0 <= x < 0x100 ==> r == x
  {
    x % 0x100
  }

  /** Adding a small amount to a cast byte adds it before the cast, as long as the sum stays a byte. */
  lemma CastToU8Add(x: i32, n: int)
    requires 0 <= CastToU8(x) + n < 0x100
    ensures (x + n) % 0x100 == CastToU8(x) + n
  {
    var k := x / 0x100;
    assert x == k * 0x100 + CastToU8(x);
  }

  predicate IsDigit(c: char) {
    '0' <= c <= '9'
  }

  predicate AllDigits(s: string) {
    s == [] || (AllDigits(s[..|s| - 1]) && IsDigit(s[|s| - 1]))
  }

  function DigitChar(d: int): (c: char)
    requires 0 <= d < 10
    ensures IsDigit(c) && c as int - '0' as int == d
  {
    ('0' as int + d) as char
  }

  /** The decimal digits of `n`, most significant first, without leading zeros. */
  function NatToDigits(n: nat): (s: string)
    ensures |s| > 0 && AllDigits(s) && IsDigit(s[0]) && IsDigit(s[|s| - 1])
    ensures s[0] == '0' ==> n == 0
  {
    if n < 10 then [DigitChar(n)]
    else
      var s := NatToDigits(n / 10) + [DigitChar(n % 10)];
      assert s[..|s| - 1] == NatToDigits(n / 10);
      s
  }

  /** The value of a run of decimal digits (leading zeros allowed). */
  function DigitsToNat(s: string): nat
    requires AllDigits(s)
  {
    if s == [] then 0 else DigitsToNat(s[..|s| - 1]) * 10 + (s[|s| - 1] as int - '0' as int)
  }

  lemma {:induction false} DigitsRoundTrip(n: nat)
    ensures DigitsToNat(NatToDigits(n)) == n
  {
    if n >= 10 {
      var s := NatToDigits(n);
      assert s[..|s| - 1] == NatToDigits(n / 10);
      DigitsRoundTrip(n / 10);
    }
  }

  /** `format!("{}", n)` for an i32 `n`: a minus sign for negative values, then the digits. */
  function I32ToString(n: i32): (s: string)
    ensures |s| > 0 && IsDigit(s[|s| - 1])
    ensures (s[0] == '-') == (n < 0)
  {
    if n < 0 then "-" + NatToDigits(0 - n as int) else NatToDigits(n)
  }

  /**
   * `s.parse::<i32>()`: an optional leading '+' or '-', then at least one
   * decimal digit and nothing else; the value must fit in an i32.
   */
  function ParseI32(s: string): (r: Option<i32>)
    ensures r.Some? ==> |s| > 0 && IsDigit(s[|s| - 1])
  {
    if s == [] then None
    else
      var signed := s[0] == '+' || s[0] == '-';
      var digits := if signed then s[1..] else s;
      if digits == [] || !AllDigits(digits) then None
      else
        var magnitude := DigitsToNat(digits);
        var value: int := if s[0] == '-' then 0 - magnitude else magnitude;
        if I32_MIN <= value <= I32_MAX then Some(value) else None
  }

  /** Reading back what `format!` wrote gives the same i32. */
  lemma ParseI32RoundTrip(n: i32)
    ensures ParseI32(I32ToString(n)) == Some(n)
  {
    var s := I32ToString(n);
    if n < 0 {
      DigitsRoundTrip(0 - n as int);
      assert s[1..] == NatToDigits(0 - n as int);
    } else {
      DigitsRoundTrip(n);
    }
  }

  /**
   * What `parse::<i32>` accepts: a leading '+' and leading zeros are fine; an
   * empty text, a lone sign and a trailing letter are refused.
   */
  lemma ParseI32Examples()
    ensures ParseI32("+4") == Some(4) && ParseI32("04") == Some(4) && ParseI32("-12") == Some(-12)
    ensures ParseI32("") == None && ParseI32("-") == None && ParseI32("+") == None && ParseI32("4b") == None
  {
    assert "+4"[1..] == "4" && "-12"[1..] == "12" && "-"[1..] == [] && "+"[1..] == [];
    assert "04"[..1] == "0" && "12"[..1] == "1" && "0"[..0] == [] && "1"[..0] == [] && "4"[..0] == [];
    assert AllDigits("4") && AllDigits("04") && AllDigits("12");
    assert DigitsToNat("4") == 4 && DigitsToNat("04") == 4 && DigitsToNat("12") == 12;
    assert !IsDigit("4b"[1]);
  }
}
