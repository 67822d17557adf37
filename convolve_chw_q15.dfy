/*
 * arm_convolve_CHW_q15_basic_nonsquare: a q15 convolution of a CHW input
 * tensor into a CHW output tensor.
 *
 * For each output pixel the kernel first copies the input patch under the
 * filter into the column buffer bufferA (im2col, channel-major, zero where
 * the patch hangs over the border), then takes the dot product of every
 * filter's weight row with that column, adds the shifted bias and the
 * rounding constant, shifts right and saturates to q15.
 *
 * The read-only inputs (Im_in, wt, bias) are values; the buffers the kernel
 * writes (bufferA, Im_out) are arrays. Accumulators are unbounded integers.
 */
module ConvolveChwQ15 {
  import opened NnArith
  import opened Wrappers

  /** The dimension arguments of the call, each a uint16_t in the source. */
  datatype ConvShape = ConvShape(
    inX: nat, inY: nat, chIn: nat, chOut: nat,
    kX: nat, kY: nat, padX: nat, padY: nat,
    strideX: nat, strideY: nat, outX: nat, outY: nat)

  /** ARM_MATH_SUCCESS and the other arm_status values are not distinguished further. */
  datatype ArmStatus = ArmMathSuccess | ArmMathFailure

  /** Every dimension is a uint16_t, and every quantity the source keeps in an int16_t or uint16_t fits it. */
  predicate ShapeFits(s: ConvShape)
  {
    && s.inX < 0x1_0000 && s.inY < 0x1_0000 && s.chIn < 0x1_0000 && s.chOut < 0x1_0000
    && s.kX < 0x1_0000 && s.kY < 0x1_0000 && s.padX < 0x1_0000 && s.padY < 0x1_0000
    && s.strideX < 0x1_0000 && s.strideY < 0x1_0000
    // i_out_x, i_out_y and kernel_size_2d are int16_t; single_in_map_size and
    // map_size_out are too, but the model advances by the whole plane (see
    // PlaneStrideWraps and OutStrideWraps)
    && s.outX <= 0x7FFF && s.outY <= 0x7FFF
    && s.kY * s.kX <= 0x7FFF
    // i_ker_y and i_ker_x are int16_t, from the first patch's top row to the last patch's bottom row
    && s.padY <= 0x8000 && s.padX <= 0x8000
    && (s.outY == 0 || (s.outY - 1) * s.strideY - s.padY + s.kY <= 0x7FFF)
    && (s.outX == 0 || (s.outX - 1) * s.strideX - s.padX + s.kX <= 0x7FFF)
    // colCnt is a uint16_t
    && Len(s) / 4 < 0x1_0000
  }

  /** The value a conversion to int16_t leaves of `x`: the one in [-2^15, 2^15) that is congruent to it modulo 2^16. */
  function Int16(x: int): (r: int)
    ensures -0x8000 <= r < 0x8000 && (x - r) % 0x1_0000 == 0
    ensures -0x8000 <= x < 0x8000 ==> r == x
  {
    (x + 0x8000) % 0x1_0000 - 0x8000
  }

  /**
   * The offset in Im_in that the im2col copy reads for channel `c` of input
   * pixel (iy, ix), as written: pSrc starts at i_ker_y*dim_im_in_x +
   * i_ker_x and advances by the int16_t single_in_map_size once per channel.
   */
  function SrcAsWritten(s: ConvShape, c: nat, iy: int, ix: int): int
  {
    iy * s.inX + ix + c * Int16(s.inY * s.inX)
  }

  /** Where the input plane has at most 2^15 - 1 pixels, the copy as written reads the CHW position of the tap. */
  lemma SrcAsWrittenFits(s: ConvShape, c: nat, iy: int, ix: int)
    requires s.inY * s.inX <= 0x7FFF
    ensures SrcAsWritten(s, c, iy, ix) == Chw(c, iy, ix, s.inY, s.inX)
  {
  }

  /**
   * A 200 x 200 input with two channels, whose plane size 40000 does not fit
   * single_in_map_size: for channel 1 of pixel (0, 0) the copy as written
   * reads offset -25536, before the start of Im_in, instead of the CHW
   * position 40000 that FillTap reads.
   */
  lemma PlaneStrideWraps()
    ensures var s := ConvShape(200, 200, 2, 1, 1, 1, 0, 0, 2, 2, 100, 100);
      && ShapeFits(s)
      && SrcAsWritten(s, 1, 0, 0) == -25536
      && Chw(1, 0, 0, s.inY, s.inX) == 40000
  {
    var s := ConvShape(200, 200, 2, 1, 1, 1, 0, 0, 2, 2, 100, 100);
    assert s.inY * s.inX == 40000;
    assert Int16(40000) == -25536;
  }

  /**
   * The offset in Im_out that filter `i` of output pixel (oy, ox) is stored
   * at, as written: pOut starts at the pixel's index oy*dim_im_out_x + ox
   * and advances by the int16_t map_size_out once per filter.
   */
  function OutAsWritten(s: ConvShape, i: nat, oy: int, ox: int): int
  {
    oy * s.outX + ox + i * Int16(s.outY * s.outX)
  }

  /** Where the output plane has at most 2^15 - 1 pixels, the store as written goes to the CHW position of the result. */
  lemma OutAsWrittenFits(s: ConvShape, i: nat, oy: int, ox: int)
    requires s.outY * s.outX <= 0x7FFF
    ensures OutAsWritten(s, i, oy, ox) == Chw(i, oy, ox, s.outY, s.outX)
  {
  }

  /**
   * A 200 x 200 output with two filters over a one-channel input and a 1 x 1
   * kernel, whose plane size 40000 does not fit map_size_out: filter 1 of
   * pixel (0, 0) is stored at offset -25536, before the start of Im_out,
   * instead of the CHW position 40000 that PixelOutputs writes.
   */
  lemma OutStrideWraps()
    ensures var s := ConvShape(200, 200, 1, 2, 1, 1, 0, 0, 1, 1, 200, 200);
      && ShapeFits(s)
      && OutAsWritten(s, 1, 0, 0) == -25536
      && Chw(1, 0, 0, s.outY, s.outX) == 40000
  {
    var s := ConvShape(200, 200, 1, 2, 1, 1, 0, 0, 1, 1, 200, 200);
    assert s.outY * s.outX == 40000;
    assert Int16(40000) == -25536;
  }

  /** ch_im_in * dim_kernel_x * dim_kernel_y: the length of a column and of a weight row. */
  function Len(s: ConvShape): (r: nat)
  {
    s.chIn * (s.kY * s.kX)
  }

  /** The arguments the source reads: the input tensor, ch_im_out weight rows, one bias per filter if any. */
  predicate InputsFit(s: ConvShape, imIn: seq<Q15>, wt: seq<Q15>, bias: Option<seq<Q15>>)
  {
    && |imIn| >= s.chIn * (s.inY * s.inX)
    && |wt| >= s.chOut * Len(s)
    && (bias.Some? ==> |bias.value| >= s.chOut)
  }

  /**
   * Column entry (c, dy, dx) for output pixel (oy, ox): input pixel
   * (c, oy*stride_y - padding_y + dy, ox*stride_x - padding_x + dx), or 0
   * where that lies outside the input.
   */
  function Tap(s: ConvShape, imIn: seq<Q15>, oy: int, ox: int, c: int, dy: int, dx: int): (r: Q15)
    requires |imIn| >= s.chIn * (s.inY * s.inX) && 0 <= c < s.chIn
  {
    var iy := oy * s.strideY - s.padY + dy;
    var ix := ox * s.strideX - s.padX + dx;
    if iy < 0 || iy >= s.inY || ix < 0 || ix >= s.inX then 0
    else
      ChwBounds(c, iy, ix, s.chIn, s.inY, s.inX);
      imIn[Chw(c, iy, ix, s.inY, s.inX)]
  }

  /** The im2col column of output pixel (oy, ox), channel-major: entry (c, dy, dx) at c*Ky*Kx + dy*Kx + dx. */
  function Column(s: ConvShape, imIn: seq<Q15>, oy: int, ox: int): (col: seq<int>)
    requires |imIn| >= s.chIn * (s.inY * s.inX)
    ensures |col| == Len(s)
  {
    seq(Len(s), k requires 0 <= k < Len(s) =>
      ChwSplit(k, s.chIn, s.kY, s.kX);
      Tap(s, imIn, oy, ox, k / (s.kY * s.kX), k % (s.kY * s.kX) / s.kX, k % (s.kY * s.kX) % s.kX))
  }

  /** The column holds entry (c, dy, dx) at its CHW offset. */
  lemma ColumnAt(s: ConvShape, imIn: seq<Q15>, oy: int, ox: int, c: int, dy: int, dx: int)
    requires |imIn| >= s.chIn * (s.inY * s.inX)
    requires 0 <= c < s.chIn && 0 <= dy < s.kY && 0 <= dx < s.kX
    ensures 0 <= Chw(c, dy, dx, s.kY, s.kX) < Len(s)
    ensures Column(s, imIn, oy, ox)[Chw(c, dy, dx, s.kY, s.kX)] == Tap(s, imIn, oy, ox, c, dy, dx)
  {
    var k := Chw(c, dy, dx, s.kY, s.kX);
    ChwBounds(c, dy, dx, s.chIn, s.kY, s.kX);
    ChwSplit(k, s.chIn, s.kY, s.kX);
    ChwInjective(c, dy, dx, k / (s.kY * s.kX), k % (s.kY * s.kX) / s.kX, k % (s.kY * s.kX) % s.kX, s.kY, s.kX);
  }

  /** Weight row `i`: the ch_im_in*Kx*Ky weights of filter `i`. */
  function Row(s: ConvShape, wt: seq<Q15>, i: nat): (row: seq<int>)
    requires |wt| >= s.chOut * Len(s) && i < s.chOut
    ensures |row| == Len(s)
  {
    MulMono(i + 1, s.chOut, Len(s));
    wt[i * Len(s)..i * Len(s) + Len(s)]
  }

  /** The accumulator's start for filter `i`: the shifted bias plus NN_ROUND, or 0 without a bias. */
  function Init(s: ConvShape, bias: Option<seq<Q15>>, q: Scaling, i: nat): (r: int)
    requires bias.Some? ==> |bias.value| >= s.chOut
    requires i < s.chOut
  {
    if bias.Some? then bias.value[i] * Pow2(q.biasShift) + q.nnRound else 0
  }

  /** Output (i, oy, ox): the accumulated dot product shifted right by out_shift and saturated to q15. */
  function ConvOut(s: ConvShape, imIn: seq<Q15>, wt: seq<Q15>, bias: Option<seq<Q15>>, q: Scaling, i: nat, oy: int, ox: int): (r: Q15)
    requires InputsFit(s, imIn, wt, bias) && i < s.chOut
  {
    SatMaxValues();
    Ssat(Shr(Init(s, bias, q, i) + Dot(Row(s, wt, i), Column(s, imIn, oy, ox)), q.outShift), 16)
  }

  // ---------------------------------------------------------------------
  // im2col
  // ---------------------------------------------------------------------

  /** Every entry of the first `Len(s)` of bufferA for kernel position (dy, dx) below channel `chans` is filled. */
  ghost predicate TapsFilled(s: ConvShape, imIn: seq<Q15>, oy: int, ox: int, buf: seq<Q15>, dy: int, dx: int, chans: int)
    requires |imIn| >= s.chIn * (s.inY * s.inX)
  {
    forall c | 0 <= c < chans && c < s.chIn ::
      0 <= Chw(c, dy, dx, s.kY, s.kX) < |buf| && buf[Chw(c, dy, dx, s.kY, s.kX)] == Tap(s, imIn, oy, ox, c, dy, dx)
  }

  /**
   * The pDest loop for kernel position (dy, dx) = (i_ker_y - i_ker_y_begin,
   * i_ker_x - i_ker_x_begin): one entry per input channel, Kx*Ky apart,
   * zeros outside the input and the input pixel's channels, one plane apart,
   * inside it.
   */
  method FillTap(s: ConvShape, imIn: seq<Q15>, oy: int, ox: int, dy: int, dx: int, bufferA: array<Q15>)
    requires |imIn| >= s.chIn * (s.inY * s.inX) && bufferA.Length >= Len(s)
    requires 0 <= dy < s.kY && 0 <= dx < s.kX
    modifies bufferA
    ensures TapsFilled(s, imIn, oy, ox, bufferA[..], dy, dx, s.chIn)
    ensures SameOffPixel(bufferA[..], old(bufferA[..]), s.chIn, s.kY, s.kX, dy, dx)
    ensures SameFrom(bufferA[..], old(bufferA[..]), Len(s))
  {
    var iy := oy * s.strideY - s.padY + dy;
    var ix := ox * s.strideX - s.padX + dx;
    var kernelSize2d := s.kY * s.kX;
    var dest := dy * s.kX + dx;
    var destEnd := dest + s.chIn * kernelSize2d;
    var outside := iy < 0 || iy >= s.inY || ix < 0 || ix >= s.inX;
    var src := iy * s.inX + ix;
    ghost var c := 0;
    ChwBounds(0, dy, dx, 1, s.kY, s.kX);
    assert kernelSize2d >= 1;
    while dest < destEnd
      invariant 0 <= c <= s.chIn && dest == Chw(c, dy, dx, s.kY, s.kX) && src == Chw(c, iy, ix, s.inY, s.inX)
      invariant TapsFilled(s, imIn, oy, ox, bufferA[..], dy, dx, c)
      invariant SameOffPixel(bufferA[..], old(bufferA[..]), s.chIn, s.kY, s.kX, dy, dx)
      invariant SameFrom(bufferA[..], old(bufferA[..]), Len(s))
      decreases destEnd - dest
    {
      ChwBounds(c, dy, dx, s.chIn, s.kY, s.kX);
      ChwDistinct(c, dy, dx, s.kY, s.kX);
      if outside {
        bufferA[dest] := 0;
      } else {
        ChwBounds(c, iy, ix, s.chIn, s.inY, s.inX);
        bufferA[dest] := imIn[src];
      }
      ChwNextPlane(c, iy, ix, s.inY, s.inX);
      ChwNextPlane(c, dy, dx, s.kY, s.kX);
      src := src + s.inY * s.inX;
      dest := dest + kernelSize2d;
      c := c + 1;
    }
    if c < s.chIn {
      MulMono(c + 1, s.chIn, kernelSize2d);
      assert false;
    }
  }

  /** Column entries (c, y, x) for every kernel position before (dy, dx), in row-major order, are filled. */
  ghost predicate PatchFilledBefore(s: ConvShape, imIn: seq<Q15>, oy: int, ox: int, buf: seq<Q15>, dy: int, dx: int)
    requires |imIn| >= s.chIn * (s.inY * s.inX)
  {
    forall c, y, x | 0 <= c < s.chIn && 0 <= y < s.kY && 0 <= x < s.kX && (y < dy || (y == dy && x < dx)) ::
      0 <= Chw(c, y, x, s.kY, s.kX) < |buf| && buf[Chw(c, y, x, s.kY, s.kX)] == Tap(s, imIn, oy, ox, c, y, x)
  }

  /** The i_ker_x loop for kernel row `dy`: every kernel position of the row is filled in turn. */
  method FillPatchRow(s: ConvShape, imIn: seq<Q15>, oy: int, ox: int, dy: int, bufferA: array<Q15>)
    requires |imIn| >= s.chIn * (s.inY * s.inX) && bufferA.Length >= Len(s)
    requires 0 <= dy < s.kY
    requires PatchFilledBefore(s, imIn, oy, ox, bufferA[..], dy, 0)
    modifies bufferA
    ensures PatchFilledBefore(s, imIn, oy, ox, bufferA[..], dy + 1, 0)
    ensures SameFrom(bufferA[..], old(bufferA[..]), Len(s))
  {
    var xBegin := ox * s.strideX - s.padX;
    var xEnd := xBegin + s.kX;
    var kx := xBegin;
    while kx < xEnd
      invariant xBegin <= kx <= xEnd
      invariant PatchFilledBefore(s, imIn, oy, ox, bufferA[..], dy, kx - xBegin)
      invariant SameFrom(bufferA[..], old(bufferA[..]), Len(s))
    {
      FillTap(s, imIn, oy, ox, dy, kx - xBegin, bufferA);
      kx := kx + 1;
    }
  }

  /** A buffer holding every column entry at its CHW offset starts with the column. */
  lemma FilledIsColumn(s: ConvShape, imIn: seq<Q15>, oy: int, ox: int, buf: seq<Q15>)
    requires |imIn| >= s.chIn * (s.inY * s.inX) && |buf| >= Len(s)
    requires PatchFilledBefore(s, imIn, oy, ox, buf, s.kY, 0)
    ensures buf[..Len(s)] == Column(s, imIn, oy, ox)
  {
    forall k | 0 <= k < Len(s)
      ensures buf[k] == Column(s, imIn, oy, ox)[k]
    {
      ChwSplit(k, s.chIn, s.kY, s.kX);
    }
  }

  /**
   * im2col for output pixel (oy, ox): the i_ker_y loop fills the first
   * ch_im_in*Kx*Ky entries of bufferA with the pixel's column, entry
   * (c, dy, dx) at c*Kx*Ky + dy*Kx + dx, and leaves the rest of bufferA alone.
   */
  method Im2col(s: ConvShape, imIn: seq<Q15>, oy: int, ox: int, bufferA: array<Q15>)
    requires |imIn| >= s.chIn * (s.inY * s.inX) && bufferA.Length >= Len(s)
    modifies bufferA
    ensures forall c, dy, dx | 0 <= c < s.chIn && 0 <= dy < s.kY && 0 <= dx < s.kX ::
      0 <= Chw(c, dy, dx, s.kY, s.kX) < Len(s) && bufferA[Chw(c, dy, dx, s.kY, s.kX)] == Tap(s, imIn, oy, ox, c, dy, dx)
    ensures bufferA[..Len(s)] == Column(s, imIn, oy, ox)
    ensures SameFrom(bufferA[..], old(bufferA[..]), Len(s))
  {
    var yBegin := oy * s.strideY - s.padY;
    var yEnd := yBegin + s.kY;
    var ky := yBegin;
    while ky < yEnd
      invariant yBegin <= ky <= yEnd
      invariant PatchFilledBefore(s, imIn, oy, ox, bufferA[..], ky - yBegin, 0)
      invariant SameFrom(bufferA[..], old(bufferA[..]), Len(s))
    {
      FillPatchRow(s, imIn, oy, ox, ky - yBegin, bufferA);
      ky := ky + 1;
    }
    FilledIsColumn(s, imIn, oy, ox, bufferA[..]);
    forall c, dy, dx | 0 <= c < s.chIn && 0 <= dy < s.kY && 0 <= dx < s.kX
      ensures 0 <= Chw(c, dy, dx, s.kY, s.kX) < Len(s)
    {
      ChwBounds(c, dy, dx, s.chIn, s.kY, s.kX);
    }
  }

  // ---------------------------------------------------------------------
  // The filters
  // ---------------------------------------------------------------------

  /**
   * The two while loops over colCnt: four products per iteration through
   * two __SMLAD, then the `& 3` remaining ones, add exactly the dot product
   * of the weight row with the column to the accumulator.
   */
  method FilterSum(row: seq<int>, bufferA: array<Q15>, init: int) returns (sum: int)
    requires |row| <= bufferA.Length && |row| / 4 < 0x1_0000
    ensures sum == init + Dot(row, bufferA[..|row|])
  {
    var len := |row|;
    ghost var col := bufferA[..len];
    sum := init;
    var k := 0;
    var colCnt := len / 4;
    while colCnt > 0
      invariant 0 <= colCnt <= len / 4 && k == 4 * (len / 4 - colCnt)
      invariant sum == init + Dot(row[..k], col[..k])
    {
      var inA1 := Halves(row[k], row[k + 1]);
      var inB1 := Halves(bufferA[k], bufferA[k + 1]);
      var inA2 := Halves(row[k + 2], row[k + 3]);
      var inB2 := Halves(bufferA[k + 2], bufferA[k + 3]);
      sum := Smlad(inA1, inB1, sum);
      sum := Smlad(inA2, inB2, sum);
      DotExtend4(row, col, k);
      k := k + 4;
      colCnt := colCnt - 1;
    }
    colCnt := len % 4;
    while colCnt > 0
      invariant 0 <= colCnt && k + colCnt == len
      invariant sum == init + Dot(row[..k], col[..k])
    {
      sum := sum + row[k] * bufferA[k];
      DotExtend(row, col, k);
      k := k + 1;
      colCnt := colCnt - 1;
    }
    assert row[..k] == row && col[..k] == col;
  }

  /**
   * One pass of the filter loop: the accumulator starts from the bias term,
   * takes the dot product of weight row `i` (at pA) with the column in
   * bufferA, and is shifted and saturated to q15.
   */
  method FilterOutput(s: ConvShape, imIn: seq<Q15>, wt: seq<Q15>, bias: Option<seq<Q15>>, q: Scaling,
                      i: nat, pA: nat, oy: int, ox: int, bufferA: array<Q15>) returns (v: Q15)
    requires InputsFit(s, imIn, wt, bias) && Len(s) / 4 < 0x1_0000 && i < s.chOut && pA == i * Len(s)
    requires bufferA.Length >= Len(s) && bufferA[..Len(s)] == Column(s, imIn, oy, ox)
    ensures v == ConvOut(s, imIn, wt, bias, q, i, oy, ox)
  {
    SatMaxValues();
    var init := if bias.Some? then bias.value[i] * Pow2(q.biasShift) + q.nnRound else 0;
    MulMono(i + 1, s.chOut, Len(s));
    var sum := FilterSum(wt[pA..pA + Len(s)], bufferA, init);
    v := Ssat(Shr(sum, q.outShift), 16);
  }

  /** Output element (i, oy, ox) for every filter `i` below `upto` is in place. */
  ghost predicate PixelDone(s: ConvShape, imIn: seq<Q15>, wt: seq<Q15>, bias: Option<seq<Q15>>, q: Scaling, out: seq<Q15>, oy: int, ox: int, upto: int)
    requires InputsFit(s, imIn, wt, bias)
  {
    forall i | 0 <= i < upto && i < s.chOut ::
      0 <= Chw(i, oy, ox, s.outY, s.outX) < |out| && out[Chw(i, oy, ox, s.outY, s.outX)] == ConvOut(s, imIn, wt, bias, q, i, oy, ox)
  }

  /**
   * The filter loop for output pixel (oy, ox): filter `i` reads weight row
   * `i`, and its result goes map_size_out further than filter i-1's.
   */
  method PixelOutputs(s: ConvShape, imIn: seq<Q15>, wt: seq<Q15>, bias: Option<seq<Q15>>, q: Scaling,
                      oy: int, ox: int, bufferA: array<Q15>, imOut: array<Q15>)
    requires InputsFit(s, imIn, wt, bias) && Len(s) / 4 < 0x1_0000
    requires bufferA.Length >= Len(s) && imOut.Length >= s.chOut * (s.outY * s.outX) && bufferA != imOut
    requires 0 <= oy < s.outY && 0 <= ox < s.outX
    requires bufferA[..Len(s)] == Column(s, imIn, oy, ox)
    modifies imOut
    ensures PixelDone(s, imIn, wt, bias, q, imOut[..], oy, ox, s.chOut)
    ensures SameOffPixel(imOut[..], old(imOut[..]), s.chOut, s.outY, s.outX, oy, ox)
    ensures SameFrom(imOut[..], old(imOut[..]), s.chOut * (s.outY * s.outX))
  {
    var pA := 0;
    var pOut := oy * s.outX + ox;
    var mapSizeOut := s.outY * s.outX;
    var i := 0;
    while i < s.chOut
      invariant 0 <= i <= s.chOut && pA == i * Len(s) && pOut == Chw(i, oy, ox, s.outY, s.outX)
      invariant PixelDone(s, imIn, wt, bias, q, imOut[..], oy, ox, i)
      invariant SameOffPixel(imOut[..], old(imOut[..]), s.chOut, s.outY, s.outX, oy, ox)
      invariant SameFrom(imOut[..], old(imOut[..]), s.chOut * (s.outY * s.outX))
    {
      var v := FilterOutput(s, imIn, wt, bias, q, i, pA, oy, ox, bufferA);
      ChwBounds(i, oy, ox, s.chOut, s.outY, s.outX);
      ChwDistinct(i, oy, ox, s.outY, s.outX);
      imOut[pOut] := v;
      ChwNextPlane(i, oy, ox, s.outY, s.outX);
      pA := pA + Len(s);
      pOut := pOut + mapSizeOut;
      i := i + 1;
    }
  }

  // ---------------------------------------------------------------------
  // The output pixels
  // ---------------------------------------------------------------------

  /** Every output element (i, y, x) whose pixel comes before (oy, ox) in row-major order is in place. */
  ghost predicate OutputDoneBefore(s: ConvShape, imIn: seq<Q15>, wt: seq<Q15>, bias: Option<seq<Q15>>, q: Scaling, out: seq<Q15>, oy: int, ox: int)
    requires InputsFit(s, imIn, wt, bias)
  {
    forall i, y, x | 0 <= i < s.chOut && 0 <= y < s.outY && 0 <= x < s.outX && (y < oy || (y == oy && x < ox)) ::
      0 <= Chw(i, y, x, s.outY, s.outX) < |out| && out[Chw(i, y, x, s.outY, s.outX)] == ConvOut(s, imIn, wt, bias, q, i, y, x)
  }

  /** The i_out_x loop for output row `oy`: im2col, then the filters, for each pixel of the row. */
  method ConvolveRow(s: ConvShape, imIn: seq<Q15>, wt: seq<Q15>, bias: Option<seq<Q15>>, q: Scaling,
                     oy: int, bufferA: array<Q15>, imOut: array<Q15>)
    requires InputsFit(s, imIn, wt, bias) && Len(s) / 4 < 0x1_0000
    requires bufferA.Length >= Len(s) && imOut.Length >= s.chOut * (s.outY * s.outX) && bufferA != imOut
    requires 0 <= oy < s.outY
    requires OutputDoneBefore(s, imIn, wt, bias, q, imOut[..], oy, 0)
    modifies bufferA, imOut
    ensures OutputDoneBefore(s, imIn, wt, bias, q, imOut[..], oy + 1, 0)
    ensures SameFrom(imOut[..], old(imOut[..]), s.chOut * (s.outY * s.outX))
    ensures SameFrom(bufferA[..], old(bufferA[..]), Len(s))
    ensures s.outX > 0 ==> bufferA[..Len(s)] == Column(s, imIn, oy, s.outX - 1)
    ensures s.outX == 0 ==> bufferA[..] == old(bufferA[..])
  {
    var ox := 0;
    while ox < s.outX
      invariant 0 <= ox <= s.outX
      invariant OutputDoneBefore(s, imIn, wt, bias, q, imOut[..], oy, ox)
      invariant SameFrom(imOut[..], old(imOut[..]), s.chOut * (s.outY * s.outX))
      invariant SameFrom(bufferA[..], old(bufferA[..]), Len(s))
      invariant ox > 0 ==> bufferA[..Len(s)] == Column(s, imIn, oy, ox - 1)
      invariant ox == 0 ==> bufferA[..] == old(bufferA[..])
    {
      Im2col(s, imIn, oy, ox, bufferA);
      PixelOutputs(s, imIn, wt, bias, q, oy, ox, bufferA, imOut);
      ox := ox + 1;
    }
  }

  /**
   * arm_convolve_CHW_q15_basic_nonsquare: every output element (i, oy, ox),
   * at i*outX*outY + oy*outX + ox, is the saturated, shifted sum of bias
   * term and dot product of filter `i` with the pixel's column; nothing of
   * Im_out beyond the ch_im_out planes and nothing of bufferA beyond its
   * first ch_im_in*Kx*Ky entries is written, and bufferB is not used. Those
   * entries of bufferA are left holding the last pixel's column.
   */
  method ConvolveChwQ15BasicNonsquare(imIn: seq<Q15>, s: ConvShape, wt: seq<Q15>, bias: Option<seq<Q15>>, q: Scaling,
                                      imOut: array<Q15>, bufferA: array<Q15>, bufferB: array<Q7>) returns (status: ArmStatus)
    requires ShapeFits(s) && ScalingFits(q) && InputsFit(s, imIn, wt, bias)
    requires bufferA.Length >= Len(s) && imOut.Length >= s.chOut * (s.outY * s.outX) && bufferA != imOut
    modifies bufferA, imOut
    ensures status == ArmMathSuccess
    ensures forall i, oy, ox | 0 <= i < s.chOut && 0 <= oy < s.outY && 0 <= ox < s.outX ::
      0 <= Chw(i, oy, ox, s.outY, s.outX) < imOut.Length &&
      imOut[Chw(i, oy, ox, s.outY, s.outX)] == ConvOut(s, imIn, wt, bias, q, i, oy, ox)
    ensures SameFrom(imOut[..], old(imOut[..]), s.chOut * (s.outY * s.outX))
    ensures SameFrom(bufferA[..], old(bufferA[..]), Len(s))
    ensures s.outY > 0 && s.outX > 0 ==> bufferA[..Len(s)] == Column(s, imIn, s.outY - 1, s.outX - 1)
    ensures s.outY == 0 || s.outX == 0 ==> bufferA[..] == old(bufferA[..])
  {
    var oy := 0;
    while oy < s.outY
      invariant 0 <= oy <= s.outY
      invariant OutputDoneBefore(s, imIn, wt, bias, q, imOut[..], oy, 0)
      invariant SameFrom(imOut[..], old(imOut[..]), s.chOut * (s.outY * s.outX))
      invariant SameFrom(bufferA[..], old(bufferA[..]), Len(s))
      invariant oy > 0 && s.outX > 0 ==> bufferA[..Len(s)] == Column(s, imIn, oy - 1, s.outX - 1)
      invariant oy == 0 || s.outX == 0 ==> bufferA[..] == old(bufferA[..])
    {
      ConvolveRow(s, imIn, wt, bias, q, oy, bufferA, imOut);
      oy := oy + 1;
    }
    status := ArmMathSuccess;
  }
}
