/*
 * Fixed-point arithmetic and tensor layout shared by the CMSIS-NN kernels.
 *
 * The Cortex-M intrinsics are modelled by their arithmetic meaning on
 * unbounded integers: __SMLAD as a dual 16-bit multiply-accumulate, __SSAT
 * as saturation to a signed bit width, a signed `>>` as an arithmetic shift
 * (rounding towards minus infinity), and read_and_pad as the sign extension
 * of four consecutive q7 values into two in-order 16-bit pairs.
 */
module NnArith {

  type Q7 = x: int | -128 <= x < 128
  type Q15 = x: int | -32768 <= x < 32768

  /** The scaling parameters of a kernel call: bias_shift, out_shift and the value of NN_ROUND(out_shift). */
  datatype Scaling = Scaling(biasShift: nat, outShift: nat, nnRound: int)

  /** The shifts are uint16_t, and a shift of a 32-bit value is defined only below 32. */
  predicate ScalingFits(q: Scaling)
  {
    q.biasShift < 32 && q.outShift < 32
  }

  function Pow2(n: nat): (r: nat)
    ensures r >= 1
  {
    if n == 0 then 1 else 2 * Pow2(n - 1)
  }

  /** `x >> s` on a signed integer: the largest integer whose multiple of 2^s does not exceed `x`. */
  function Shr(x: int, s: nat): (r: int)
    ensures Pow2(s) * r <= x < Pow2(s) * r + Pow2(s)
  {
    x / Pow2(s)
  }

  /** The largest value of a signed integer of `bits` bits, 2^(bits-1) - 1. */
  function SatMax(bits: nat): (r: int)
    requires 1 <= bits
  {
    Pow2(bits - 1) - 1
  }

  /** The saturation bounds of q7 and q15. */
  lemma SatMaxValues()
    ensures SatMax(8) == 127 && SatMax(16) == 32767
  {
    assert Pow2(1) == 2;
    assert Pow2(3) == 8;
    assert Pow2(7) == 128;
    assert Pow2(15) == 32768;
  }

  /** __SSAT(v, bits): `v` clamped to the signed range of `bits` bits. */
  function Ssat(v: int, bits: nat): (r: int)
    requires 1 <= bits
    ensures -SatMax(bits) - 1 <= r <= SatMax(bits)
    // a value that fits is kept; one that does not is replaced by the nearer bound
    ensures -SatMax(bits) - 1 <= v <= SatMax(bits) ==> r == v
    ensures v < -SatMax(bits) - 1 ==> r == -SatMax(bits) - 1
    ensures v > SatMax(bits) ==> r == SatMax(bits)
  {
    if v < -SatMax(bits) - 1 then -SatMax(bits) - 1
    else if v > SatMax(bits) then SatMax(bits)
    else v
  }

  /** The two signed 16-bit halves of a 32-bit SIMD operand, low half first. */
  datatype Halves = Halves(lo: int, hi: int)

  /** __SMLAD(x, y, acc): both halves multiplied pairwise and added to the accumulator. */
  function Smlad(x: Halves, y: Halves, acc: int): (r: int)
  {
    acc + x.lo * y.lo + x.hi * y.hi
  }

  /** read_and_pad at `k`: the q7 values k, k+1 as the first pair and k+2, k+3 as the second. */
  function ReadAndPad(w: seq<Q7>, k: nat): (r: (Halves, Halves))
    requires k + 4 <= |w|
  {
    (Halves(w[k], w[k + 1]), Halves(w[k + 2], w[k + 3]))
  }

  /** The dot product of two vectors of equal length: the reference for every accumulation loop. */
  function Dot(a: seq<int>, b: seq<int>): (r: int)
    requires |a| == |b|
    decreases |a|
  {
    if |a| == 0 then 0 else Dot(a[..|a| - 1], b[..|b| - 1]) + a[|a| - 1] * b[|b| - 1]
  }

  /** Adding the product at `k` to the dot product of the first `k` entries gives that of the first `k + 1`. */
  lemma DotExtend(a: seq<int>, b: seq<int>, k: nat)
    requires k < |a| == |b|
    ensures Dot(a[..k + 1], b[..k + 1]) == Dot(a[..k], b[..k]) + a[k] * b[k]
  {
    assert a[..k + 1][..k] == a[..k];
    assert b[..k + 1][..k] == b[..k];
  }

  /** Four products at once, as one iteration of a 4-at-a-time loop adds them. */
  lemma DotExtend4(a: seq<int>, b: seq<int>, k: nat)
    requires k + 4 <= |a| == |b|
    ensures Dot(a[..k + 4], b[..k + 4]) == Dot(a[..k], b[..k]) + a[k] * b[k] + a[k + 1] * b[k + 1] + a[k + 2] * b[k + 2] + a[k + 3] * b[k + 3]
  {
    DotExtend(a, b, k);
    DotExtend(a, b, k + 1);
    DotExtend(a, b, k + 2);
    DotExtend(a, b, k + 3);
  }

  // ---------------------------------------------------------------------
  // CHW layout: element (c, y, x) of a tensor of planes with h rows of w
  // entries lies at c*h*w + y*w + x
  // ---------------------------------------------------------------------

  function Chw(c: int, y: int, x: int, h: int, w: int): (r: int)
  {
    c * (h * w) + y * w + x
  }

  lemma MulMono(a: int, b: int, k: nat)
    requires a <= b
    ensures a * k <= b * k
  {
  }

  /** Every in-range element lies inside the tensor, and (y, x) inside its plane. */
  lemma ChwBounds(c: int, y: int, x: int, C: nat, h: nat, w: nat)
    requires 0 <= c < C && 0 <= y < h && 0 <= x < w
    ensures 0 <= y * w + x < h * w
    ensures 0 <= Chw(c, y, x, h, w) < C * (h * w)
  {
    MulMono(y, h - 1, w);
    MulMono(c, C - 1, h * w);
  }

  /** The same element one plane further on lies one plane size further on. */
  lemma ChwNextPlane(c: int, y: int, x: int, h: int, w: int)
    ensures Chw(c + 1, y, x, h, w) == Chw(c, y, x, h, w) + h * w
  {
  }

  /** A quotient and a remainder below the divisor are determined by the dividend. */
  lemma QuotRemUnique(q: int, r: int, q': int, r': int, m: int)
    requires 0 <= r < m && 0 <= r' < m && q * m + r == q' * m + r'
    ensures q == q' && r == r'
  {
    if q < q' {
      MulMono(q + 1, q', m);
    } else if q' < q {
      MulMono(q' + 1, q, m);
    }
  }

  /** Distinct in-range elements lie at distinct offsets. */
  lemma ChwInjective(c: int, y: int, x: int, c': int, y': int, x': int, h: nat, w: nat)
    requires 0 <= y < h && 0 <= x < w && 0 <= y' < h && 0 <= x' < w
    requires Chw(c, y, x, h, w) == Chw(c', y', x', h, w)
    ensures c == c' && y == y' && x == x'
  {
    ChwBounds(0, y, x, 1, h, w);
    ChwBounds(0, y', x', 1, h, w);
    QuotRemUnique(c, y * w + x, c', y' * w + x', h * w);
    QuotRemUnique(y, x, y', x', w);
  }

  /** A product of naturals above some natural has both factors positive. */
  lemma FactorsPositive(k: int, h: nat, w: nat)
    requires 0 <= k < h * w
    ensures h > 0 && w > 0
  {
  }

  /** Dividing an offset below C*m by m gives a quotient below C and the remainder below m. */
  lemma DivBelow(k: int, C: int, m: int)
    requires 0 <= k < C * m && m > 0
    ensures 0 <= k / m < C && 0 <= k % m < m && k == k / m * m + k % m
  {
    if k / m >= C {
      MulMono(C, k / m, m);
    }
  }

  /** Every offset inside the tensor is the offset of one in-range element. */
  lemma ChwSplit(k: int, C: nat, h: nat, w: nat)
    requires 0 <= k < C * (h * w)
    ensures h * w > 0 && w > 0
    ensures 0 <= k / (h * w) < C && 0 <= k % (h * w) / w < h && 0 <= k % (h * w) % w < w
    ensures k == Chw(k / (h * w), k % (h * w) / w, k % (h * w) % w, h, w)
  {
    var m := h * w;
    FactorsPositive(k, C, m);
    FactorsPositive(0, h, w);
    DivBelow(k, C, m);
    DivBelow(k % m, h, w);
  }

  /** `a` and `b` agree at every in-range element of a C x h x w tensor whose (y, x) is not (y0, x0). */
  ghost predicate SameOffPixel(a: seq<int>, b: seq<int>, C: int, h: int, w: int, y0: int, x0: int)
  {
    forall c, y, x | 0 <= c < C && 0 <= y < h && 0 <= x < w && (y != y0 || x != x0) ::
      0 <= Chw(c, y, x, h, w) < |a| && Chw(c, y, x, h, w) < |b| ==>
      a[Chw(c, y, x, h, w)] == b[Chw(c, y, x, h, w)]
  }

  /** `a` and `b` have the same length and agree from `from` on. */
  ghost predicate SameFrom(a: seq<int>, b: seq<int>, from: int)
  {
    |a| == |b| && forall k | 0 <= from <= k < |a| :: a[k] == b[k]
  }

  /** Every in-range element other than (c, y, x) lies at a different offset. */
  lemma ChwDistinct(c: int, y: int, x: int, h: nat, w: nat)
    requires 0 <= y < h && 0 <= x < w
    ensures forall c', y', x' | 0 <= y' < h && 0 <= x' < w && (c' != c || y' != y || x' != x) ::
      Chw(c', y', x', h, w) != Chw(c, y, x, h, w)
  {
    forall c', y', x' | 0 <= y' < h && 0 <= x' < w && Chw(c', y', x', h, w) == Chw(c, y, x, h, w)
      ensures c' == c && y' == y && x' == x
    {
      ChwInjective(c', y', x', c, y, x, h, w);
    }
  }
}
