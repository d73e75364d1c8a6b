/**
  Job identifiers. The program draws a random UUID per request; the model
  draws the decimal rendering of a counter, which is unique by construction.
*/
module JobIds {
  function DigitChar(d: nat): char
    requires d < 10
  {
    ('0' as int + d) as char
  }

  /** The decimal digits of `n`, most significant first, without leading zeros. */
  function JobId(n: nat): (s: string)
    ensures |s| > 0
    ensures forall i :: 0 <= i < |s| ==> '0' <= s[i] <= '9'
  {
    if n < 10 then [DigitChar(n)] else JobId(n / 10) + [DigitChar(n % 10)]
  }

  /** The number a string of decimal digits denotes. */
  function DigitsValue(s: string): int
  {
    if s == [] then 0 else DigitsValue(s[..|s| - 1]) * 10 + (s[|s| - 1] as int - '0' as int)
  }

  /** Reading an id back gives the counter it was drawn from. */
  lemma {:induction false} JobIdRoundTrip(n: nat)
    ensures DigitsValue(JobId(n)) == n
  {
    if n >= 10 {
      var s := JobId(n);
      assert s[..|s| - 1] == JobId(n / 10);
      JobIdRoundTrip(n / 10);
    }
  }

  /** Distinct counters give distinct ids. */
  lemma JobIdInjective(m: nat, n: nat)
    requires m != n
    ensures JobId(m) != JobId(n)
  {
    JobIdRoundTrip(m);
    JobIdRoundTrip(n);
  }
}
