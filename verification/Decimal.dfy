/** Decimal text of a non-negative number, as `%d` and `strconv.Itoa` write it. */
module Decimal {
  import opened Wrappers

  function Digit(d: nat): (c: char)
    requires d < 10
    ensures '0' <= c <= '9'
  {
    '0' + d as char
  }

  function Format(n: nat): (s: string)
    ensures |s| > 0
    ensures forall i :: 0 <= i < |s| ==> '0' <= s[i] <= '9'
  {
    if n < 10 then [Digit(n)] else Format(n / 10) + [Digit(n % 10)]
  }

  /** The number a decimal text stands for, if it is one. */
  function Parse(s: string): Option<nat> {
    if |s| == 0 then None
    else
      var c := s[|s| - 1];
      if !('0' <= c <= '9') then None
      else if |s| == 1 then Some((c - '0') as nat)
      else match Parse(s[..|s| - 1])
           case None => None
           case Some(high) => Some(high * 10 + (c - '0') as nat)
  }

  lemma {:induction false} RoundTrip(n: nat)
    ensures Parse(Format(n)) == Some(n)
  {
    if n >= 10 {
      RoundTrip(n / 10);
      assert Format(n)[..|Format(n)| - 1] == Format(n / 10);
    }
  }

  /** The number behind a fixed prefix: `pvc-plots-12` holds 12 behind `pvc-plots-`. */
  function ParseAfter(prefix: string, name: string): Option<nat> {
    if prefix <= name then Parse(name[|prefix|..]) else None
  }

  lemma ParseAfterFormat(prefix: string, n: nat)
    ensures ParseAfter(prefix, prefix + Format(n)) == Some(n)
  {
    RoundTrip(n);
    assert (prefix + Format(n))[|prefix|..] == Format(n);
  }
}
