/** Facts about integer multiplication, Euclidean division and remainder
    that the index and hash computations rely on. */
module Arithmetic {

  lemma MulMonotone(a: int, b: int, w: nat)
    requires a <= b
    ensures a * w <= b * w
  {
  }

  /** The only multiple of a positive `w` strictly between -w and w is 0. */
  lemma SmallMultipleIsZero(x: int, w: int)
    requires w > 0 && -w < x * w < w
    ensures x == 0
  {
    if x >= 1 {
      MulMonotone(1, x, w);
    } else if x <= -1 {
      MulMonotone(x, -1, w);
    }
  }

  /** Division and remainder recover quotient and remainder uniquely. */
  lemma DivModUnique(q: int, r: int, w: int)
    requires 0 <= r < w
    ensures (q * w + r) / w == q && (q * w + r) % w == r
  {
    var n := q * w + r;
    assert (q - n / w) * w == n % w - r;
    SmallMultipleIsZero(q - n / w, w);
  }

  /** Adding a multiple of `w` does not change the remainder modulo `w`. */
  lemma ModShift(n: int, k: int, w: int)
    requires w > 0
    ensures (n + k * w) % w == n % w
  {
    assert (n / w + k) * w + n % w == n + k * w;
    DivModUnique(n / w + k, n % w, w);
  }
}
