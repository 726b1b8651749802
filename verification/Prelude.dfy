/** Vocabulary shared by every module: options, byte strings and their concatenation. */
module Prelude {

  datatype Option<+T> = None | Some(value: T)

  /** One octet of S16LE audio. */
  type Byte = b: int | 0 <= b < 256

  function Max(a: real, b: real): real {
    if a < b then b else a
  }

  function MaxNat(a: nat, b: nat): nat {
    if a < b then b else a
  }

  /** The parts, end to end. */
  function Concat<T>(parts: seq<seq<T>>): seq<T> {
    if parts == [] then [] else Concat(parts[..|parts| - 1]) + parts[|parts| - 1]
  }

  lemma ConcatAppend<T>(parts: seq<seq<T>>, part: seq<T>)
    ensures Concat(parts + [part]) == Concat(parts) + part
  {
    assert (parts + [part])[..|parts|] == parts;
  }

  lemma {:induction false} ConcatPrefix<T>(parts: seq<seq<T>>, n: nat)
    requires n <= |parts|
    ensures Concat(parts[..n]) <= Concat(parts)
    decreases |parts|
  {
    if n == |parts| {
      assert parts[..n] == parts;
    } else {
      var front := parts[..|parts| - 1];
      ConcatPrefix(front, n);
      assert front[..n] == parts[..n];
    }
  }

  lemma {:induction false} ConcatPlus<T>(xs: seq<seq<T>>, ys: seq<seq<T>>)
    ensures Concat(xs + ys) == Concat(xs) + Concat(ys)
    decreases |ys|
  {
    if ys == [] {
      assert xs + ys == xs;
    } else {
      var front := ys[..|ys| - 1];
      assert xs + ys == (xs + front) + [ys[|ys| - 1]];
      ConcatAppend(xs + front, ys[|ys| - 1]);
      ConcatPlus(xs, front);
    }
  }

  lemma Regroup<T>(a: seq<T>, b: seq<T>, c: seq<T>)
    ensures (a + b) + c == a + (b + c)
  {
  }

  /** Summed length of the parts. */
  function Total<T>(parts: seq<seq<T>>): nat {
    if parts == [] then 0 else Total(parts[..|parts| - 1]) + |parts[|parts| - 1]|
  }

  lemma TotalAppend<T>(parts: seq<seq<T>>, part: seq<T>)
    ensures Total(parts + [part]) == Total(parts) + |part|
  {
    assert (parts + [part])[..|parts|] == parts;
  }

  lemma {:induction false} TotalTail<T>(parts: seq<seq<T>>)
    requires parts != []
    ensures Total(parts) == |parts[0]| + Total(parts[1..])
    decreases |parts|
  {
    if |parts| > 1 {
      var front := parts[..|parts| - 1];
      TotalTail(front);
      assert parts[1..] == front[1..] + [parts[|parts| - 1]];
      TotalAppend(front[1..], parts[|parts| - 1]);
    }
  }

  lemma MulAtLeast(q: int, d: int)
    requires d > 0
    ensures q >= 1 ==> q * d >= d
    ensures q <= -1 ==> q * d <= -d
  {
  }

  lemma ModOfMultiple(k: nat, d: nat)
    requires d > 0
    ensures (k * d) % d == 0
  {
    var x := k * d;
    var q, r := x / d, x % d;
    assert x == q * d + r;
    assert (k - q) * d == r;
    MulAtLeast(k - q, d);
  }

  /** Dropping the remainder leaves the largest multiple. */
  lemma RoundDown(n: nat, d: nat)
    requires d > 0
    ensures n % d <= n && (n - n % d) % d == 0
    ensures n >= d ==> n - n % d >= d
  {
    assert n == (n / d) * d + n % d;
    MulAtLeast(n / d, d);
    ModOfMultiple(n / d, d);
  }

  /** How many whole `d`s fit in `n`: integer division. */
  function WholeIn(n: nat, d: nat): nat
    requires d > 0
  {
    Quotient(n, d);
    n / d
  }

  lemma Quotient(n: nat, d: nat)
    requires d > 0
    ensures n / d >= 0
  {
    MulAtLeast(n / d, d);
    assert n == (n / d) * d + n % d;
  }

  lemma WholeInStep(n: nat, d: nat)
    requires d > 0
    ensures n < d ==> WholeIn(n, d) == 0
    ensures n >= d ==> WholeIn(n, d) == WholeIn(n - d, d) + 1
  {
    var q := if n < d then 0 else (n - d) / d + 1;
    var r := if n < d then n else (n - d) % d;
    assert n == q * d + r;
    assert n == (n / d) * d + n % d;
    assert (q - n / d) * d == n % d - r;
    MulAtLeast(q - n / d, d);
  }

  /** `k` times `n`, by repeated addition. */
  function Times(k: nat, n: nat): nat {
    if n == 0 then 0 else k + Times(k, n - 1)
  }

  lemma TimesStep(k: nat, n: nat)
    ensures Times(k, n + 1) == k + Times(k, n)
  {
  }

  lemma {:induction false} TimesIsProduct(k: nat, n: nat)
    ensures Times(k, n) == k * n
  {
    if n > 0 {
      TimesIsProduct(k, n - 1);
    }
  }

  lemma DropTwice<T>(s: seq<T>, a: nat, b: nat)
    requires a + b <= |s|
    ensures s[a..][b..] == s[a + b..]
  {
  }

  lemma DropPast<T>(first: seq<T>, rest: seq<T>, at: nat)
    requires at <= |rest|
    ensures (first + rest)[|first| + at..] == rest[at..]
  {
  }

  lemma {:induction false} WholeInTimes(d: nat, k: nat)
    requires d > 0
    ensures WholeIn(Times(d, k), d) == k
  {
    WholeInStep(Times(d, k), d);
    if k > 0 {
      WholeInTimes(d, k - 1);
    }
  }

  /** `x` added up `n` times. */
  function Scaled(x: real, n: nat): (s: real)
  {
    if n == 0 then 0.0 else Scaled(x, n - 1) + x
  }

  lemma {:induction false} ScaledIsProduct(x: real, n: nat)
    ensures Scaled(x, n) == x * n as real
  {
    if n > 0 {
      ScaledIsProduct(x, n - 1);
      assert x * n as real == x * (n - 1) as real + x;
    }
  }

  lemma {:induction false} ScaledAdds(x: real, m: nat, n: nat)
    ensures Scaled(x, m + n) == Scaled(x, m) + Scaled(x, n)
  {
    if n > 0 {
      ScaledAdds(x, m, n - 1);
    }
  }

  lemma {:induction false} ScaledSum(x: real, y: real, n: nat)
    ensures Scaled(x + y, n) == Scaled(x, n) + Scaled(y, n)
  {
    if n > 0 {
      ScaledSum(x, y, n - 1);
    }
  }

  /** `x` scaled down, or up, by `factor` `n` times over. */
  function Decayed(x: real, factor: real, n: nat): real {
    if n == 0 then x else factor * Decayed(x, factor, n - 1)
  }

  /** The remainder, by repeated subtraction: which of `d` interleaved lanes item `n` falls in. */
  function Lane(n: nat, d: nat): (lane: nat)
    requires d > 0
    ensures lane < d
  {
    if n < d then n else Lane(n - d, d)
  }

  lemma {:induction false} LaneIsRemainder(n: nat, d: nat)
    requires d > 0
    ensures Lane(n, d) == n % d
  {
    if n >= d {
      LaneIsRemainder(n - d, d);
      WholeInStep(n, d);
      assert n == (n / d) * d + n % d;
      assert n - d == ((n - d) / d) * d + (n - d) % d;
    } else {
      WholeInStep(n, d);
      assert n == (n / d) * d + n % d;
    }
  }

  lemma {:induction false} LaneOfTimes(d: nat, k: nat)
    requires d > 0
    ensures Lane(Times(d, k), d) == 0
  {
    if k > 0 {
      LaneOfTimes(d, k - 1);
    }
  }

  /** Skipping whole rounds of lanes leaves the lane. */
  lemma {:induction false} LaneShift(a: nat, i: nat, d: nat)
    requires d > 0 && Lane(a, d) == 0
    ensures Lane(a + i, d) == Lane(i, d)
  {
    if a >= d {
      LaneShift(a - d, i, d);
    }
  }
}
