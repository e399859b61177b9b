/**
  Go's strconv.Atoi on a 64-bit platform, and strconv.Itoa (FormatInt) as its
  inverse.  Atoi accepts an optional '+' or '-' followed by one or more ASCII
  decimal digits whose value fits in a 64-bit signed int; anything else is an
  error.  Leading zeros are allowed and "-0" reads as 0.
*/
module GoStrconv {
  import opened Wrappers

  const MIN_INT: int := -0x8000_0000_0000_0000
  const MAX_INT: int := 0x7fff_ffff_ffff_ffff

  predicate IsDigit(ch: char) { '0' <= ch <= '9' }

  predicate AllDigits(s: string) { forall i :: 0 <= i < |s| ==> IsDigit(s[i]) }

  function DigitValue(ch: char): (v: nat)
    requires IsDigit(ch)
    ensures v < 10
  {
    ch as int - '0' as int
  }

  function DigitChar(v: nat): (ch: char)
    requires v < 10
    ensures IsDigit(ch) && DigitValue(ch) == v
  {
    ('0' as int + v) as char
  }

  /** Value of a digit string, accumulated left to right as n*10 + digit. */
  function DecimalValue(d: string): nat
    requires AllDigits(d)
  {
    if |d| == 0 then 0 else DecimalValue(d[..|d| - 1]) * 10 + DigitValue(d[|d| - 1])
  }

  /** `s` without one leading sign character. */
  function Unsigned(s: string): string
  {
    if |s| > 0 && (s[0] == '+' || s[0] == '-') then s[1..] else s
  }

  predicate Negative(s: string) { |s| > 0 && s[0] == '-' }

  /** strconv.Atoi: Some(value) for a well-formed in-range literal, None for an error. */
  function Atoi(s: string): Option<int>
  {
    var d := Unsigned(s);
    if |d| == 0 || !AllDigits(d) then None
    else
      var v: int := if Negative(s) then 0 - DecimalValue(d) as int else DecimalValue(d);
      if MIN_INT <= v <= MAX_INT then Some(v) else None
  }

  /** Shortest decimal rendering of a natural number. */
  function NatDigits(n: nat): (d: string)
    ensures |d| > 0 && AllDigits(d)
  {
    if n < 10 then [DigitChar(n)] else NatDigits(n / 10) + [DigitChar(n % 10)]
  }

  /** strconv.Itoa: the decimal rendering with a '-' for negative values. */
  function FormatInt(v: int): string
  {
    if v < 0 then "-" + NatDigits(-v) else NatDigits(v)
  }

  lemma {:induction false} NatDigitsValue(n: nat)
    ensures DecimalValue(NatDigits(n)) == n
  {
    if n >= 10 {
      var d := NatDigits(n / 10);
      NatDigitsValue(n / 10);
      assert NatDigits(n) == d + [DigitChar(n % 10)];
      assert (d + [DigitChar(n % 10)])[..|d|] == d;
    }
  }

  /** Atoi reads back every in-range value that Itoa writes. */
  lemma AtoiFormatInt(v: int)
    requires MIN_INT <= v <= MAX_INT
    ensures Atoi(FormatInt(v)) == Some(v)
  {
    if v < 0 {
      NatDigitsValue(-v);
      assert Unsigned(FormatInt(v)) == NatDigits(-v);
    } else {
      NatDigitsValue(v);
      var d := NatDigits(v);
      assert IsDigit(d[0]);
      assert Unsigned(d) == d;
    }
  }

  /** A leading zero does not change the value of a digit string. */
  lemma {:induction false} LeadingZeroValue(d: string)
    requires AllDigits(d)
    ensures AllDigits("0" + d) && DecimalValue("0" + d) == DecimalValue(d)
    decreases |d|
  {
    var z := "0" + d;
    assert AllDigits(z) by {
      forall i | 0 <= i < |z| ensures IsDigit(z[i]) { if i > 0 { assert z[i] == d[i - 1]; } }
    }
    if |d| > 0 {
      var init := d[..|d| - 1];
      LeadingZeroValue(init);
      assert z[..|z| - 1] == "0" + init;
      assert z[|z| - 1] == d[|d| - 1];
    }
  }

  /** The value of a digit string never falls below that of one of its prefixes. */
  lemma {:induction false} PrefixValue(d: string, k: nat)
    requires AllDigits(d) && k <= |d|
    ensures DecimalValue(d[..k]) <= DecimalValue(d)
    decreases |d|
  {
    if k < |d| {
      var init := d[..|d| - 1];
      PrefixValue(init, k);
      assert init[..k] == d[..k];
    } else {
      assert d[..k] == d;
    }
  }
}
