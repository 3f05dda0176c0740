/** Decimal numerals, as integer formatting prints them, and reading them back. */
module Numerals {
  import opened Prelude

  predicate IsDigit(c: char) { '0' <= c <= '9' }

  predicate AllDigits(s: string) { forall i :: 0 <= i < |s| ==> IsDigit(s[i]) }

  function Digit(d: nat): (c: char)
    requires d < 10
    ensures IsDigit(c) && c as int - '0' as int == d
  {
    ('0' as int + d) as char
  }

  function Decimal(n: nat): (s: string)
    ensures AllDigits(s) && |s| >= 1 && (|s| > 1 ==> s[0] != '0')
    ensures Value(s) == n
  {
    if n < 10 then [Digit(n)]
    else
      var rest := Decimal(n / 10);
      assert (rest + [Digit(n % 10)])[..|rest|] == rest;
      rest + [Digit(n % 10)]
  }

  /** What a run of digits denotes. */
  function Value(s: string): nat
    requires AllDigits(s)
  {
    if s == [] then 0 else Value(s[..|s| - 1]) * 10 + (s[|s| - 1] as int - '0' as int)
  }

  // ---- reading one back ----

  /** What was read, and the text that is left. */
  type Parsed<T> = Option<(T, string)>

  /** How many digits `s` starts with. */
  function Run(s: string): (n: nat)
    ensures n <= |s| && AllDigits(s[..n])
  {
    if s == [] || !IsDigit(s[0]) then 0
    else
      var n := 1 + Run(s[1..]);
      assert forall i :: 0 < i < n ==> s[i] == s[1..][..n - 1][i - 1];
      n
  }

  function ParseNumber(s: string): (r: Parsed<nat>)
    ensures r.Some? ==> |r.value.1| < |s|
  {
    var n := Run(s);
    if n == 0 || (n > 1 && s[0] == '0') then None else Some((Value(s[..n]), s[n..]))
  }

  lemma {:induction false} RunOf(d: string, rest: string)
    requires AllDigits(d) && (rest == [] || !IsDigit(rest[0]))
    ensures Run(d + rest) == |d|
  {
    if d == [] {
      assert d + rest == rest;
    } else {
      assert (d + rest)[1..] == d[1..] + rest;
      RunOf(d[1..], rest);
    }
  }

  lemma NumberRoundTrip(n: nat, rest: string)
    requires rest == [] || !IsDigit(rest[0])
    ensures ParseNumber(Decimal(n) + rest) == Some((n, rest))
  {
    var d := Decimal(n);
    RunOf(d, rest);
    hide Decimal;
    assert (d + rest)[..|d|] == d && (d + rest)[|d|..] == rest;
  }
}
