/**
 * JavaScript number conversions on integer-valued numbers: `'' + n`
 * (decimal rendering), `Number(s)` (parsing, with NaN as `None`) and the
 * delay `setTimeout` actually waits.
 */
module JsNumber {
  import opened Wrappers

  predicate IsDigit(c: char) {
    '0' <= c <= '9'
  }

  predicate AllDigits(s: string) {
    forall i :: 0 <= i < |s| ==> IsDigit(s[i])
  }

  function DigitChar(d: nat): (c: char)
    requires d < 10
    ensures IsDigit(c) && c as int - '0' as int == d
  {
    ('0' as int + d) as char
  }

  /** The decimal digits of `n`, most significant first, without leading zeros. */
  function Digits(n: nat): (r: string)
    ensures |r| >= 1 && AllDigits(r)
    decreases n
  {
    if n < 10 then [DigitChar(n)] else Digits(n / 10) + [DigitChar(n % 10)]
  }

  /**
   * `'' + n`: the decimal rendering of an integer-valued number; never empty,
   * signed exactly when negative, and ending in a digit.
   */
  function Stamp(n: int): (r: string)
    ensures |r| >= 1 && IsDigit(r[|r| - 1])
    ensures r[0] == '-' <==> n < 0
  {
    if n < 0 then "-" + Digits(-n) else Digits(n)
  }

  /** The value of a string of decimal digits. */
  function DigitsValue(s: string): nat
    requires AllDigits(s)
    decreases |s|
  {
    if s == [] then 0 else 10 * DigitsValue(s[..|s| - 1]) + (s[|s| - 1] as int - '0' as int)
  }

  /**
   * `Number(s)` on the strings it reads as integers: the empty string is 0,
   * an optional sign is followed by decimal digits; everything else is NaN (`None`).
   */
  function ParseNumber(s: string): (r: Option<int>)
    ensures s == "" ==> r == Some(0)
    ensures s != "" && !IsDigit(s[|s| - 1]) ==> r.None?
    ensures AllDigits(s) ==> r == Some(DigitsValue(s))
  {
    if s == "" then Some(0)
    else if (s[0] == '-' || s[0] == '+') && |s| > 1 && AllDigits(s[1..]) then
      var magnitude: int := DigitsValue(s[1..]);
      Some(if s[0] == '-' then -magnitude else magnitude)
    else if AllDigits(s) then Some(DigitsValue(s))
    else None
  }

  /** `'' + NaN`. */
  const NaN: string := "NaN"

  lemma {:induction false} DigitsRoundTrip(n: nat)
    ensures DigitsValue(Digits(n)) == n
    decreases n
  {
    if n >= 10 {
      DigitsRoundTrip(n / 10);
      var d := Digits(n / 10) + [DigitChar(n % 10)];
      assert d[..|d| - 1] == Digits(n / 10);
    }
  }

  /** `Number('' + n) == n` for every integer `n`. */
  lemma StampRoundTrip(n: int)
    ensures ParseNumber(Stamp(n)) == Some(n)
  {
    if n < 0 {
      DigitsRoundTrip(-n);
      assert ("-" + Digits(-n))[1..] == Digits(-n);
    } else {
      DigitsRoundTrip(n);
    }
  }

  /** `Number('NaN')` is NaN. */
  lemma NaNIsNotANumber()
    ensures ParseNumber(NaN) == None
  {
    assert !IsDigit(NaN[0]);
  }

  /** The delay `setTimeout(f, ms)` waits: a negative delay counts as 0. */
  function TimerDelay(ms: int): nat {
    if ms < 0 then 0 else ms
  }
}
