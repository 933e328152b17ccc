/**
 * The output-size rule of `_transform` and the default for the `max` option.
 *
 * The source computes `scale = min(1, max / max(w, h))` and then
 * `max(Math.round(dim * scale), 1)` per axis, in floating point.  Here the
 * same computation is done exactly over the integers: for a positive
 * denominator, `Math.round(n / d)` is `floor(n / d + 1/2)`, which is
 * `(2 * n + d) / (2 * d)` with floor division.
 */
module Sizing {

  /** A decoded image side: a loaded image is at least one pixel wide and high. */
  type Dim = n: int | n >= 1 witness 1

  /** The `max` option as a caller passes it. */
  datatype MaxOption = Absent | Finite(value: int) | Infinite

  /** The bound the transform stage works with (`env.max`). */
  datatype Bound = Unbounded | AtMost(limit: int)

  function Max(a: int, b: int): int { if a < b then b else a }

  /** JavaScript truthiness of `options.max`: a missing value and 0 are falsy. */
  predicate Truthy(opt: MaxOption) {
    opt.Infinite? || (opt.Finite? && opt.value != 0)
  }

  /** `options.max || Infinity`. */
  function EffectiveMax(opt: MaxOption): (b: Bound)
    ensures b.Unbounded? <==> !Truthy(opt) || opt.Infinite?
    ensures b.AtMost? ==> opt == Finite(b.limit) && b.limit != 0
  {
    match opt
    case Finite(n) => if n != 0 then AtMost(n) else Unbounded
    case _ => Unbounded
  }

  /** `Math.round(num / den)`: the nearest integer, a half rounded up. */
  function RoundHalfUp(num: int, den: int): (r: int)
    requires den > 0
    ensures 2 * r * den - den <= 2 * num < 2 * r * den + den
  {
    var q := (2 * num + den) / (2 * den);
    assert 2 * num + den == (2 * den) * q + (2 * num + den) % (2 * den);
    q
  }

  /** The bracket of `RoundHalfUp` has room for one integer only. */
  lemma RoundHalfUpUnique(num: int, den: int, k: int)
    requires den > 0
    requires 2 * k * den - den <= 2 * num < 2 * k * den + den
    ensures RoundHalfUp(num, den) == k
  {
    var r := RoundHalfUp(num, den);
    if r < k {
      assert (k - r) * (2 * den) == 2 * k * den - 2 * r * den;
      MulAtLeast(k - r, 2 * den);
    } else if r > k {
      assert (r - k) * (2 * den) == 2 * r * den - 2 * k * den;
      MulAtLeast(r - k, 2 * den);
    }
  }

  lemma MulAtLeast(a: int, b: int)
    requires a >= 1 && b >= 0
    ensures a * b >= b
  {
    assert a * b == (a - 1) * b + b;
    assert (a - 1) * b >= 0;
  }

  lemma MulMonotone(a: int, b: int, c: int)
    requires a >= 0 && b <= c
    ensures a * b <= a * c
  {
    assert a * c - a * b == a * (c - b);
    assert a * (c - b) >= 0;
  }

  /** One axis scaled by `limit / longest` and rounded, never below one pixel. */
  function ScaledAxis(dim: int, limit: int, longest: int): (r: int)
    requires longest > 0
    ensures r >= 1
  {
    Max(RoundHalfUp(dim * limit, longest), 1)
  }

  /** The `out_width`, `out_height` that `_transform` gives the canvas. */
  function OutputSize(width: Dim, height: Dim, bound: Bound): (r: (int, int))
    ensures r.0 >= 1 && r.1 >= 1
  {
    match bound
    case Unbounded => (width, height)
    case AtMost(m) =>
      var longest := Max(width, height);
      if m > longest then (width, height)
      else (ScaledAxis(width, m, longest), ScaledAxis(height, m, longest))
  }

  /** An axis no longer than the longest side, scaled by at most 1, does not grow. */
  lemma ScaledAxisAtMost(dim: int, limit: int, longest: int, cap: int)
    requires 1 <= dim <= longest && limit <= longest
    requires cap >= 1 && dim * limit <= cap * longest
    ensures 1 <= ScaledAxis(dim, limit, longest) <= cap
  {
    var r := RoundHalfUp(dim * limit, longest);
    if r > cap {
      assert (r - cap) * (2 * longest) == 2 * r * longest - 2 * cap * longest;
      MulAtLeast(r - cap, 2 * longest);
    }
  }

  /** The output never exceeds the source and is never smaller than 1x1. */
  lemma OutputNeverUpscales(width: Dim, height: Dim, bound: Bound)
    ensures var (w, h) := OutputSize(width, height, bound);
            1 <= w <= width && 1 <= h <= height
  {
    if bound.AtMost? {
      var m, longest := bound.limit, Max(width, height);
      if m <= longest {
        MulMonotone(width, m, longest);
        assert width * longest == longest * width;
        ScaledAxisAtMost(width, m, longest, width);
        MulMonotone(height, m, longest);
        assert height * longest == longest * height;
        ScaledAxisAtMost(height, m, longest, height);
      }
    }
  }

  /** Without a bound, or with one the image already fits, the size is kept. */
  lemma OutputKeepsFittingSize(width: Dim, height: Dim, bound: Bound)
    requires bound.Unbounded? || bound.limit >= Max(width, height)
    ensures OutputSize(width, height, bound) == (width, height)
  {
    if bound.AtMost? && bound.limit == Max(width, height) {
      var m := bound.limit;
      RoundHalfUpUnique(width * m, m, width);
      RoundHalfUpUnique(height * m, m, height);
    }
  }

  /** Scaled by `limit / longest` with `1 <= limit <= longest`, no axis exceeds `limit`. */
  lemma ScaledAxisWithinLimit(dim: int, limit: int, longest: int)
    requires 1 <= dim <= longest && 1 <= limit <= longest
    ensures 1 <= ScaledAxis(dim, limit, longest) <= limit
  {
    MulMonotone(limit, dim, longest);
    assert dim * limit == limit * dim && limit * longest == longest * limit;
    ScaledAxisAtMost(dim, limit, longest, limit);
  }

  /** The longest side itself is scaled to exactly `limit`. */
  lemma ScaledLongestIsLimit(limit: int, longest: int)
    requires 1 <= limit <= longest
    ensures ScaledAxis(longest, limit, longest) == limit
  {
    assert 2 * limit * longest == 2 * (longest * limit);
    RoundHalfUpUnique(longest * limit, longest, limit);
  }

  /** A positive bound smaller than the image: the longer side becomes exactly the bound. */
  lemma OutputLongerSideIsBound(width: Dim, height: Dim, bound: Bound)
    requires bound.AtMost? && 1 <= bound.limit < Max(width, height)
    ensures var (w, h) := OutputSize(width, height, bound);
            Max(w, h) == bound.limit && w <= bound.limit && h <= bound.limit
  {
    var m, longest := bound.limit, Max(width, height);
    ScaledAxisWithinLimit(width, m, longest);
    ScaledAxisWithinLimit(height, m, longest);
    ScaledLongestIsLimit(m, longest);
  }

  /** A negative bound set on `env.max` (zero never gets there) collapses the image to 1x1. */
  lemma OutputNonPositiveBound(width: Dim, height: Dim, bound: Bound)
    requires bound.AtMost? && bound.limit <= 0
    ensures OutputSize(width, height, bound) == (1, 1)
  {
    var m, longest := bound.limit, Max(width, height);
    MulMonotone(width, m, 0);
    ScaledAxisAtMost(width, m, longest, 1);
    MulMonotone(height, m, 0);
    ScaledAxisAtMost(height, m, longest, 1);
  }

  /** A 10x10 image with `max: 5` becomes 5x5; a 400x300 one with `max: 100` becomes 100x75. */
  lemma OutputExamples()
    ensures OutputSize(10, 10, EffectiveMax(Finite(5))) == (5, 5)
    ensures OutputSize(400, 300, EffectiveMax(Finite(100))) == (100, 75)
    ensures OutputSize(3, 1000, EffectiveMax(Finite(0))) == (3, 1000)
  {
  }
}
