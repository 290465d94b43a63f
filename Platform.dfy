/** Machine-level facts of the Arduino (AVR) target that the library's logic depends on:
    integer widths, the unsigned arithmetic of the millisecond clock, C's integer conversions
    and division, and the `constrain` and `random` routines of the Arduino core. */
module Platform {

  /** Arduino `byte`. */
  type byte = x: int | 0 <= x < 0x100

  /** Arduino `int`: 16 bits, two's complement. */
  type int16 = x: int | -0x8000 <= x < 0x8000

  /** Arduino `unsigned long`: 32 bits. */
  type uint32 = x: int | 0 <= x < 0x1_0000_0000

  const INT16_MAX: int := 0x7FFF
  const ULONG_RANGE: int := 0x1_0000_0000

  /** `now - start` evaluated in `unsigned long`: it wraps around at 2^32, so an interval that
      straddles the overflow of the millisecond counter is still measured correctly. */
  function Elapsed(now: uint32, start: uint32): (d: uint32)
    ensures d == (now - start) % ULONG_RANGE
    ensures (start + d) % ULONG_RANGE == now
    ensures start <= now ==> d == now - start
  {
    if start <= now then now - start else now - start + ULONG_RANGE
  }

  /** C's conversion of an `int` to `unsigned long`, as happens when an `int` duration is
      compared with an elapsed time: negative values become huge. */
  function ToULong(x: int16): (u: uint32)
    ensures u == x % ULONG_RANGE
    ensures x >= 0 ==> u == x
    ensures x < 0 ==> u > INT16_MAX * 0x1_0000
  {
    if x >= 0 then x else x + ULONG_RANGE
  }

  /** C's conversion of an `unsigned long` into an `int` (avr-gcc keeps the low 16 bits and
      reads them as two's complement). */
  function ToInt16(x: uint32): (i: int16)
    ensures (i - x) % 0x1_0000 == 0
    ensures x <= INT16_MAX ==> i == x
  {
    var low := x % 0x1_0000;
    if low <= INT16_MAX then low else low - 0x1_0000
  }

  /** C integer division by a positive divisor: truncates toward zero. */
  function CDiv(a: int, b: int): (q: int)
    requires b > 0
    ensures a >= 0 ==> 0 <= q * b <= a < q * b + b
    ensures a < 0 ==> q * b - b < a <= q * b <= 0
  {
    if a >= 0 then DivideBounds(a, b); a / b
    else DivideBounds(-a, b); -((-a) / b)
  }

  /** Euclidean division of a natural number brackets the dividend. */
  lemma DivideBounds(a: int, b: int)
    requires a >= 0 && b > 0
    ensures 0 <= a / b
    ensures (a / b) * b <= a < (a / b) * b + b
  {
    var q, r := a / b, a % b;
    assert a == q * b + r && 0 <= r < b;
  }

  lemma MulMono(a: int, b: int, m: int)
    requires a <= b && m >= 0
    ensures a * m <= b * m
  {
    assert b * m - a * m == (b - a) * m;
  }

  /** The quotient of `t` by `m` is the `k` whose multiple brackets `t`. */
  lemma DivIs(t: int, m: int, k: int)
    requires m > 0 && k * m <= t < k * m + m
    ensures t / m == k
  {
    var q, r := t / m, t % m;
    assert t == q * m + r && 0 <= r < m;
    if q < k {
      MulMono(q + 1, k, m);
    } else if q > k {
      MulMono(k + 1, q, m);
    }
  }

  lemma DivAtMost(n: int, b: int, x: int)
    requires b > 0 && 0 <= n < x * b + b
    ensures 0 <= n / b <= x
  {
    var q, r := n / b, n % b;
    assert n == q * b + r && 0 <= r < b;
    if q > x {
      MulMono(x + 1, q, b);
    }
  }

  /** Counting on by one modulo `n`, from a residue or from the number itself, agrees. */
  lemma ModSucc(j: int, n: int)
    requires j >= 0 && n > 0
    ensures (j % n + 1) % n == (j + 1) % n
  {
    var q, p := j / n, j % n;
    DivMod(j, n);
    if p + 1 < n {
      ModIs(j + 1, n, q, p + 1);
      ModIs(p + 1, n, 0, p + 1);
    } else {
      ModIs(j + 1, n, q + 1, 0);
      ModIs(p + 1, n, 1, 0);
    }
  }

  lemma DivMod(t: int, m: int)
    requires m > 0
    ensures t == (t / m) * m + t % m && 0 <= t % m < m
  {
  }

  /** The remainder of `t` by `m` is the `r` of any decomposition `t == q * m + r`. */
  lemma ModIs(t: int, m: int, q: int, r: int)
    requires m > 0 && t == q * m + r && 0 <= r < m
    ensures t % m == r
  {
    DivIs(t, m, q);
    DivMod(t, m);
  }

  function Min(a: int, b: int): (m: int)
    ensures m <= a && m <= b && (m == a || m == b)
  {
    if a < b then a else b
  }

  function Max(a: int, b: int): (m: int)
    ensures m >= a && m >= b && (m == a || m == b)
  {
    if a > b then a else b
  }

  /** Arduino's `constrain(x, lo, hi)` macro. */
  function Constrain(x: int, lo: int, hi: int): (r: int)
    requires lo <= hi
    ensures lo <= r <= hi
    ensures lo <= x <= hi ==> r == x
    ensures x < lo ==> r == lo
    ensures x > hi ==> r == hi
  {
    if x < lo then lo else if x > hi then hi else x
  }

  /** Arduino's `random(lo, hi)`: `draw` is the value the underlying generator `random()`
      produced; the result lies in the half-open range [lo, hi), and is `lo` when the range
      is empty. */
  function Random(lo: int, hi: int, draw: nat): (r: int)
    ensures lo >= hi ==> r == lo
    ensures lo < hi ==> lo <= r < hi
  {
    if lo >= hi then lo else lo + draw % (hi - lo)
  }

  /** Every value of a non-empty range is produced by some draw of the generator. */
  lemma RandomReachesEveryValue(lo: int, hi: int, v: int)
    requires lo <= v < hi
    ensures Random(lo, hi, v - lo) == v
  {
  }
}
