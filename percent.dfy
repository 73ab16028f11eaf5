/**
 * `toPercent` (script.js): a confidence in [0, 1] shown as a percentage with
 * one decimal place, e.g. 0.8 becomes "80.0%". The value is first rounded to
 * whole tenths of a percent (`Tenths`), then written out (`ToPercent`).
 */
module Percent {
  import opened Wrappers

  /** The decimal digit character standing for d. */
  function DigitChar(d: nat): (c: char)
    requires d < 10
    ensures '0' <= c <= '9' && c as int - '0' as int == d
  {
    ('0' as int + d) as char
  }

  predicate IsDigits(s: string) {
    forall i :: 0 <= i < |s| ==> '0' <= s[i] <= '9'
  }

  /** The decimal numeral of n, without leading zeros. */
  function Decimal(n: nat): (s: string)
    ensures |s| >= 1 && IsDigits(s)
    ensures s[0] == '0' ==> n == 0 && s == "0"
    decreases n
  {
    if n < 10 then [DigitChar(n)] else Decimal(n / 10) + [DigitChar(n % 10)]
  }

  /** The number a string of decimal digits stands for. */
  function ValueOf(s: string): nat
    requires IsDigits(s)
    decreases |s|
  {
    if s == [] then 0 else ValueOf(s[..|s| - 1]) * 10 + (s[|s| - 1] as int - '0' as int)
  }

  lemma {:induction false} ValueOfDecimal(n: nat)
    ensures ValueOf(Decimal(n)) == n
    decreases n
  {
    if n >= 10 {
      var s := Decimal(n / 10);
      ValueOfDecimal(n / 10);
      assert Decimal(n) == s + [DigitChar(n % 10)];
      assert (s + [DigitChar(n % 10)])[..|s|] == s;
    }
  }

  /**
   * A value rounded to whole tenths of a percent: the integer nearest to
   * 1000 * v, ties rounded up, as `(v * 100).toFixed(1)` would on exact
   * values.
   */
  function Tenths(v: real): (t: nat)
    requires v >= 0.0
    ensures t as real - 0.5 <= v * 1000.0 < t as real + 0.5
  {
    (v * 1000.0 + 0.5).Floor
  }

  /** `toPercent` on a value already rounded to `tenths` tenths of a percent. */
  function ToPercent(tenths: nat): (s: string)
    ensures |s| >= 4 && s[|s| - 1] == '%' && s[|s| - 3] == '.'
    ensures IsDigits(s[..|s| - 3]) && '0' <= s[|s| - 2] <= '9'
  {
    Decimal(tenths / 10) + "." + [DigitChar(tenths % 10)] + "%"
  }

  /** Reads a percentage written as ToPercent writes it back as tenths of a percent. */
  function ParsePercent(s: string): Option<nat> {
    if |s| >= 4 && s[|s| - 1] == '%' && s[|s| - 3] == '.'
       && IsDigits(s[..|s| - 3]) && '0' <= s[|s| - 2] <= '9'
    then Some(ValueOf(s[..|s| - 3]) * 10 + (s[|s| - 2] as int - '0' as int))
    else None
  }

  /** ToPercent loses nothing: distinct roundings give distinct strings. */
  lemma {:induction false} PercentRoundTrip(tenths: nat)
    ensures ParsePercent(ToPercent(tenths)) == Some(tenths)
  {
    var s := ToPercent(tenths);
    var w := Decimal(tenths / 10);
    assert s == w + ['.', DigitChar(tenths % 10), '%'];
    assert s[..|s| - 3] == w;
    ValueOfDecimal(tenths / 10);
  }

  /** The confidence string of an empty scan, and a few others. */
  lemma PercentExamples()
    ensures ToPercent(Tenths(0.0)) == "0.0%"
    ensures ToPercent(Tenths(0.5)) == "50.0%"
    ensures ToPercent(Tenths(0.8)) == "80.0%"
    ensures ToPercent(Tenths(0.12345)) == "12.3%"
    ensures ToPercent(Tenths(1.0)) == "100.0%"
  {
  }
}
