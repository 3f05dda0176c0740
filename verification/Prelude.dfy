/** Small shared vocabulary: optional values, machine integers and the two
    sequence operations (filtering and removal) that the queue models use. */
module Prelude {

  datatype Option<+T> = None | Some(value: T) {
    predicate IsFailure() { None? }

    function PropagateFailure<U>(): Option<U>
      requires None?
    {
      None
    }

    function Extract(): T
      requires Some?
    {
      value
    }
  }

  type u8 = n: int | 0 <= n < 0x100
  type u16 = n: int | 0 <= n < 0x1_0000
  type u32 = n: int | 0 <= n < 0x1_0000_0000
  type u64 = n: int | 0 <= n < 0x1_0000_0000_0000_0000

  /** Hosted targets have a 64-bit `usize`. */
  const USIZE_MAX: int := 0xFFFF_FFFF_FFFF_FFFF
  const ISIZE_MAX: int := 0x7FFF_FFFF_FFFF_FFFF
  type usize = n: int | 0 <= n <= USIZE_MAX

  const I32_MAX: int := 0x7FFF_FFFF

  /** `as i32`: the low 32 bits, read as two's complement. */
  function AsI32(n: int): (r: int)
    ensures -0x8000_0000 <= r <= I32_MAX
  {
    var low := n % 0x1_0000_0000;
    if low <= I32_MAX then low else low - 0x1_0000_0000
  }

  /** The C interface's code for a bad argument. */
  const BAD_ARG: int := -10

  function Min(a: int, b: int): int { if a <= b then a else b }

  function SaturatingSub(a: nat, b: nat): nat { if a < b then 0 else a - b }

  /** `s` without its element at `i`, later elements moving up by one. */
  function Without<T>(s: seq<T>, i: nat): (r: seq<T>)
    requires i < |s|
    ensures |r| == |s| - 1
  {
    s[..i] + s[i + 1..]
  }

  function Filter<T>(keep: T -> bool, s: seq<T>): (r: seq<T>)
    ensures |r| <= |s|
  {
    if s == [] then []
    else if keep(s[0]) then [s[0]] + Filter(keep, s[1..])
    else Filter(keep, s[1..])
  }

  lemma {:induction false} FilterMember<T>(keep: T -> bool, s: seq<T>, x: T)
    ensures x in Filter(keep, s) <==> x in s && keep(x)
  {
    if s != [] {
      FilterMember(keep, s[1..], x);
      assert s == [s[0]] + s[1..];
    }
  }

  lemma {:induction false} FilterConcat<T>(keep: T -> bool, a: seq<T>, b: seq<T>)
    ensures Filter(keep, a + b) == Filter(keep, a) + Filter(keep, b)
  {
    if a == [] {
      assert a + b == b;
    } else {
      assert (a + b)[1..] == a[1..] + b;
      FilterConcat(keep, a[1..], b);
    }
  }

  lemma {:induction false} NoneKept<T>(keep: T -> bool, s: seq<T>)
    requires forall i :: 0 <= i < |s| ==> !keep(s[i])
    ensures Filter(keep, s) == []
  {
    if s != [] {
      NoneKept(keep, s[1..]);
    }
  }

  lemma {:induction false} AllKept<T>(keep: T -> bool, s: seq<T>)
    requires forall i :: 0 <= i < |s| ==> keep(s[i])
    ensures Filter(keep, s) == s
  {
    if s != [] {
      AllKept(keep, s[1..]);
    }
  }

  /** Removing an element that the filter rejects leaves the filtered sequence alone. */
  lemma {:induction false} FilterWithoutRejected<T>(keep: T -> bool, s: seq<T>, i: nat)
    requires i < |s| && !keep(s[i])
    ensures Filter(keep, Without(s, i)) == Filter(keep, s)
  {
    FilterSplit(keep, s, i);
    FilterConcat(keep, s[..i], s[i + 1..]);
  }

  lemma {:induction false} FilterSplit<T>(keep: T -> bool, s: seq<T>, i: nat)
    requires i < |s|
    ensures Filter(keep, s)
         == Filter(keep, s[..i]) + (if keep(s[i]) then [s[i]] else []) + Filter(keep, s[i + 1..])
  {
    assert s == s[..i] + ([s[i]] + s[i + 1..]);
    FilterConcat(keep, s[..i], [s[i]] + s[i + 1..]);
    assert ([s[i]] + s[i + 1..])[1..] == s[i + 1..];
  }

  /** Removing an element the filter accepts removes it from the filtered
      sequence, at the position it has there. */
  lemma {:induction false} FilterWithoutKept<T>(keep: T -> bool, s: seq<T>, i: nat)
    requires i < |s| && keep(s[i])
    ensures |Filter(keep, s[..i])| < |Filter(keep, s)|
    ensures Filter(keep, s)[|Filter(keep, s[..i])|] == s[i]
    ensures Filter(keep, Without(s, i)) == Without(Filter(keep, s), |Filter(keep, s[..i])|)
  {
    FilterSplit(keep, s, i);
    FilterConcat(keep, s[..i], s[i + 1..]);
  }

  lemma WithoutMultiset<T>(s: seq<T>, i: nat)
    requires i < |s|
    ensures multiset(s) == multiset(Without(s, i)) + multiset{s[i]}
    ensures multiset(Without(s, i)) == multiset(s) - multiset{s[i]}
  {
    assert s == s[..i] + [s[i]] + s[i + 1..];
  }

  lemma WithoutPermuted<T>(a: seq<T>, b: seq<T>, i: nat, j: nat)
    requires multiset(a) == multiset(b) && i < |a| && j < |b| && a[i] == b[j]
    ensures multiset(Without(a, i)) == multiset(Without(b, j))
  {
    WithoutMultiset(a, i);
    WithoutMultiset(b, j);
  }

  lemma AtLeastOnce(k: int, x: int)
    requires k > 0 && x >= 1
    ensures k * x >= k
  {
  }

  lemma Distribute(k: int, a: int, b: int)
    ensures k * (a - b) == k * a - k * b
  {
  }

  lemma Quotient(n: int, k: int, q: int)
    requires k > 0 && k * q <= n < k * q + k
    ensures n / k == q
  {
    var d, x := n / k, n / k - q;
    assert n == k * d + n % k;
    Distribute(k, d, q);
    if x >= 1 {
      AtLeastOnce(k, x);
    } else if x <= -1 {
      AtLeastOnce(k, -x);
    }
  }

  lemma Remainder(n: int, k: int, q: int)
    requires k > 0 && k * q <= n < k * q + k
    ensures n % k == n - k * q
  {
    Quotient(n, k, q);
    assert n == k * (n / k) + n % k;
  }

  lemma NextRemainder(n: nat, m: nat)
    requires m > 0
    ensures (n + 1) % m == if n % m + 1 == m then 0 else n % m + 1
  {
    var k := n / m;
    assert n == m * k + n % m;
    assert m * (k + 1) == m * k + m;
    Remainder(n + 1, m, if n % m + 1 == m then k + 1 else k);
  }

  lemma Scale(a: nat, b: nat, m: nat)
    requires a <= b
    ensures a * m <= b * m
  {
  }

  lemma {:induction false} Contained<T>(a: set<T>, b: set<T>)
    requires a <= b
    ensures |a| <= |b|
  {
    assert b == a + (b - a);
  }
}
