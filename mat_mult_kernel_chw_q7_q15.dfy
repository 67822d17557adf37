/*
 * arm_nn_CHW_mat_mult_kernel_q7_q15: the q7 weight matrix (ch_im_out rows
 * of numCol_A weights) times two q15 im2col columns, for a convolution with
 * CHW output. Rows are taken two at a time, four accumulators at once; an
 * odd last row is taken on its own. Output (r, j), for column j of the two,
 * goes to pOut[r*out_stride + j] as the shifted, saturated q7 value of
 * bias term plus dot product.
 *
 * The read-only operands (pA, pInBuffer, bias) are values; the output is an
 * array, and pOut an index into it. Accumulators are unbounded integers.
 */
module MatMultKernelChwQ7Q15 {
  import opened NnArith

  /** Where output (r, j) goes: `j` entries into output channel `r`, channels `stride` apart. */
  function OutPos(base: int, r: int, j: int, stride: int): (p: int)
  {
    base + r * stride + j
  }

  /** Row `r` of the weight matrix. */
  function WeightRow(pA: seq<Q7>, numCol: nat, r: nat): (row: seq<Q7>)
    requires (r + 1) * numCol <= |pA|
    ensures |row| == numCol
  {
    pA[r * numCol..r * numCol + numCol]
  }

  /** Column `j` (0 or 1) of the two im2col columns in pInBuffer. */
  function InColumn(inBuffer: seq<Q15>, numCol: nat, j: nat): (col: seq<Q15>)
    requires j < 2 && 2 * numCol <= |inBuffer|
    ensures |col| == numCol
  {
    inBuffer[j * numCol..j * numCol + numCol]
  }

  /** The arguments the kernel reads: ch_im_out weight rows, two columns, one bias per row. */
  predicate OperandsFit(pA: seq<Q7>, inBuffer: seq<Q15>, bias: seq<Q7>, chOut: nat, numCol: nat)
  {
    |pA| >= chOut * numCol && |inBuffer| >= 2 * numCol && |bias| >= chOut
  }

  /** Output (r, j): (bias[r] << bias_shift) + NN_ROUND(out_shift) + row r . column j, shifted right and saturated to q7. */
  function KernelOut(pA: seq<Q7>, inBuffer: seq<Q15>, bias: seq<Q7>, chOut: nat, numCol: nat, q: Scaling, r: nat, j: nat): (o: Q7)
    requires OperandsFit(pA, inBuffer, bias, chOut, numCol) && r < chOut && j < 2
  {
    SatMaxValues();
    MulMono(r + 1, chOut, numCol);
    Ssat(Shr(bias[r] * Pow2(q.biasShift) + q.nnRound + Dot(WeightRow(pA, numCol, r), InColumn(inBuffer, numCol, j)), q.outShift), 8)
  }

  /**
   * The two while loops of a row pair: read_and_pad splits four weights of
   * each row into two pairs, and each __SMLAD adds two products; the `& 3`
   * loop adds the rest. `sum`, `sum3` belong to the first row, `sum2`,
   * `sum4` to the second, and `sum`, `sum2` to the first column.
   */
  method PairSums(a: seq<Q7>, a2: seq<Q7>, b: seq<Q15>, b2: seq<Q15>, init1: int, init2: int)
    returns (sum: int, sum2: int, sum3: int, sum4: int)
    requires |a| == |a2| == |b| == |b2| && |a| / 4 < 0x1_0000
    ensures sum == init1 + Dot(a, b) && sum3 == init1 + Dot(a, b2)
    ensures sum2 == init2 + Dot(a2, b) && sum4 == init2 + Dot(a2, b2)
  {
    var numCol := |a|;
    sum, sum3 := init1, init1;
    sum2, sum4 := init2, init2;
    var k := 0;
    var colCnt := numCol / 4;
    while colCnt > 0
      invariant 0 <= colCnt <= numCol / 4 && k == 4 * (numCol / 4 - colCnt)
      invariant sum == init1 + Dot(a[..k], b[..k]) && sum3 == init1 + Dot(a[..k], b2[..k])
      invariant sum2 == init2 + Dot(a2[..k], b[..k]) && sum4 == init2 + Dot(a2[..k], b2[..k])
    {
      var inB1 := Halves(b[k], b[k + 1]);
      var inB2 := Halves(b2[k], b2[k + 1]);
      var (inA11, inA12) := ReadAndPad(a, k);
      var (inA21, inA22) := ReadAndPad(a2, k);
      sum := Smlad(inA11, inB1, sum);
      sum3 := Smlad(inA11, inB2, sum3);
      sum2 := Smlad(inA21, inB1, sum2);
      sum4 := Smlad(inA21, inB2, sum4);
      inB1 := Halves(b[k + 2], b[k + 3]);
      inB2 := Halves(b2[k + 2], b2[k + 3]);
      sum := Smlad(inA12, inB1, sum);
      sum3 := Smlad(inA12, inB2, sum3);
      sum2 := Smlad(inA22, inB1, sum2);
      sum4 := Smlad(inA22, inB2, sum4);
      DotExtend4(a, b, k);
      DotExtend4(a, b2, k);
      DotExtend4(a2, b, k);
      DotExtend4(a2, b2, k);
      k := k + 4;
      colCnt := colCnt - 1;
    }
    colCnt := numCol % 4;
    while colCnt > 0
      invariant 0 <= colCnt && k + colCnt == numCol
      invariant sum == init1 + Dot(a[..k], b[..k]) && sum3 == init1 + Dot(a[..k], b2[..k])
      invariant sum2 == init2 + Dot(a2[..k], b[..k]) && sum4 == init2 + Dot(a2[..k], b2[..k])
    {
      sum := sum + a[k] * b[k];
      sum3 := sum3 + a[k] * b2[k];
      sum2 := sum2 + a2[k] * b[k];
      sum4 := sum4 + a2[k] * b2[k];
      DotExtend(a, b, k);
      DotExtend(a, b2, k);
      DotExtend(a2, b, k);
      DotExtend(a2, b2, k);
      k := k + 1;
      colCnt := colCnt - 1;
    }
    assert a[..k] == a && a2[..k] == a2 && b[..k] == b && b2[..k] == b2;
  }

  /** The two while loops of the odd last row: the same accumulation with `sum` and `sum3` only. */
  method RowSums(a: seq<Q7>, b: seq<Q15>, b2: seq<Q15>, init: int) returns (sum: int, sum3: int)
    requires |a| == |b| == |b2| && |a| / 4 < 0x1_0000
    ensures sum == init + Dot(a, b) && sum3 == init + Dot(a, b2)
  {
    var numCol := |a|;
    sum, sum3 := init, init;
    var k := 0;
    var colCnt := numCol / 4;
    while colCnt > 0
      invariant 0 <= colCnt <= numCol / 4 && k == 4 * (numCol / 4 - colCnt)
      invariant sum == init + Dot(a[..k], b[..k]) && sum3 == init + Dot(a[..k], b2[..k])
    {
      var inB1 := Halves(b[k], b[k + 1]);
      var inB2 := Halves(b2[k], b2[k + 1]);
      var (inA11, inA12) := ReadAndPad(a, k);
      sum := Smlad(inA11, inB1, sum);
      sum3 := Smlad(inA11, inB2, sum3);
      inB1 := Halves(b[k + 2], b[k + 3]);
      inB2 := Halves(b2[k + 2], b2[k + 3]);
      sum := Smlad(inA12, inB1, sum);
      sum3 := Smlad(inA12, inB2, sum3);
      DotExtend4(a, b, k);
      DotExtend4(a, b2, k);
      k := k + 4;
      colCnt := colCnt - 1;
    }
    colCnt := numCol % 4;
    while colCnt > 0
      invariant 0 <= colCnt && k + colCnt == numCol
      invariant sum == init + Dot(a[..k], b[..k]) && sum3 == init + Dot(a[..k], b2[..k])
    {
      sum := sum + a[k] * b[k];
      sum3 := sum3 + a[k] * b2[k];
      DotExtend(a, b, k);
      DotExtend(a, b2, k);
      k := k + 1;
      colCnt := colCnt - 1;
    }
    assert a[..k] == a && b[..k] == b && b2[..k] == b2;
  }

  /** One pass of the row loop, for rows 2*iRow and 2*iRow + 1: the four q7 results. */
  method RowPairOutputs(pA: seq<Q7>, inBuffer: seq<Q15>, bias: seq<Q7>, chOut: nat, numCol: nat, q: Scaling, iRow: nat)
    returns (o0: Q7, o1: Q7, o2: Q7, o3: Q7)
    requires OperandsFit(pA, inBuffer, bias, chOut, numCol) && numCol / 4 < 0x1_0000 && 2 * iRow + 1 < chOut
    ensures o0 == KernelOut(pA, inBuffer, bias, chOut, numCol, q, 2 * iRow, 0)
    ensures o1 == KernelOut(pA, inBuffer, bias, chOut, numCol, q, 2 * iRow, 1)
    ensures o2 == KernelOut(pA, inBuffer, bias, chOut, numCol, q, 2 * iRow + 1, 0)
    ensures o3 == KernelOut(pA, inBuffer, bias, chOut, numCol, q, 2 * iRow + 1, 1)
  {
    SatMaxValues();
    var r := 2 * iRow;
    MulMono(r + 2, chOut, numCol);
    MulMono(r + 1, r + 2, numCol);
    // pBias walks the bias two entries per pair; pA and pA2 start at rows r and r + 1
    var init1 := bias[r] * Pow2(q.biasShift) + q.nnRound;
    var init2 := bias[r + 1] * Pow2(q.biasShift) + q.nnRound;
    var sum, sum2, sum3, sum4 := PairSums(WeightRow(pA, numCol, r), WeightRow(pA, numCol, r + 1),
                                          InColumn(inBuffer, numCol, 0), InColumn(inBuffer, numCol, 1), init1, init2);
    o0 := Ssat(Shr(sum, q.outShift), 8);
    o1 := Ssat(Shr(sum3, q.outShift), 8);
    o2 := Ssat(Shr(sum2, q.outShift), 8);
    o3 := Ssat(Shr(sum4, q.outShift), 8);
  }

  /** The left-over row ch_im_out - 1 when ch_im_out is odd: its two q7 results. */
  method LastRowOutputs(pA: seq<Q7>, inBuffer: seq<Q15>, bias: seq<Q7>, chOut: nat, numCol: nat, q: Scaling)
    returns (o0: Q7, o1: Q7)
    requires OperandsFit(pA, inBuffer, bias, chOut, numCol) && numCol / 4 < 0x1_0000 && chOut >= 1
    ensures o0 == KernelOut(pA, inBuffer, bias, chOut, numCol, q, chOut - 1, 0)
    ensures o1 == KernelOut(pA, inBuffer, bias, chOut, numCol, q, chOut - 1, 1)
  {
    SatMaxValues();
    var init := bias[chOut - 1] * Pow2(q.biasShift) + q.nnRound;
    var sum, sum3 := RowSums(WeightRow(pA, numCol, chOut - 1), InColumn(inBuffer, numCol, 0), InColumn(inBuffer, numCol, 1), init);
    o0 := Ssat(Shr(sum, q.outShift), 8);
    o1 := Ssat(Shr(sum3, q.outShift), 8);
  }

  // ---------------------------------------------------------------------
  // Output positions
  // ---------------------------------------------------------------------

  /** Whether output position `k` is one the kernel writes: entry 0 or 1 of one of the ch_im_out channels. */
  predicate Written(base: int, chOut: nat, stride: nat, k: int)
    requires stride > 0
  {
    base <= k && (k - base) / stride < chOut && (k - base) % stride < 2
  }

  /** Output (r, j) is at a written position. */
  lemma OutPosWritten(base: int, chOut: nat, stride: nat, r: nat, j: nat)
    requires r < chOut && j < 2 <= stride
    ensures Written(base, chOut, stride, OutPos(base, r, j, stride))
  {
    var d := OutPos(base, r, j, stride) - base;
    QuotRemUnique(r, j, d / stride, d % stride, stride);
  }

  /** With channels at least two entries apart, every output of an earlier row lies before row `r`. */
  lemma EarlierRowsBefore(base: int, stride: nat, r: nat)
    requires 2 <= stride
    ensures forall r', j | 0 <= r' < r && 0 <= j < 2 :: OutPos(base, r', j, stride) < OutPos(base, r, 0, stride)
  {
    forall r', j | 0 <= r' < r && 0 <= j < 2
      ensures OutPos(base, r', j, stride) < OutPos(base, r, 0, stride)
    {
      MulMono(r' + 1, r, stride);
    }
  }

  /** Outputs (r, j) of every row below `upto` are in place. */
  ghost predicate RowsDone(pA: seq<Q7>, inBuffer: seq<Q15>, bias: seq<Q7>, chOut: nat, numCol: nat, q: Scaling,
                           out: seq<Q7>, base: int, stride: nat, upto: int)
    requires OperandsFit(pA, inBuffer, bias, chOut, numCol)
  {
    forall r, j | 0 <= r < upto && r < chOut && 0 <= j < 2 ::
      0 <= OutPos(base, r, j, stride) < |out| &&
      out[OutPos(base, r, j, stride)] == KernelOut(pA, inBuffer, bias, chOut, numCol, q, r, j)
  }

  /** `a` and `b` have the same length and agree at every position the kernel does not write. */
  ghost predicate SameUnwritten(a: seq<Q7>, b: seq<Q7>, base: int, chOut: nat, stride: nat)
    requires stride > 0
  {
    |a| == |b| && forall k | 0 <= k < |a| && !Written(base, chOut, stride, k) :: a[k] == b[k]
  }

  /**
   * `*pOut++ = o0; *pOut = o1;` with pOut at channel `r`: the two outputs
   * of row `r` go in place, after those of the rows before it, and no
   * position outside the written ones changes.
   */
  method StorePair(pA: seq<Q7>, inBuffer: seq<Q15>, bias: seq<Q7>, chOut: nat, numCol: nat, q: Scaling,
                   out: array<Q7>, base: nat, stride: nat, r: nat, o0: Q7, o1: Q7)
    requires OperandsFit(pA, inBuffer, bias, chOut, numCol) && 2 <= stride && r < chOut
    requires OutPos(base, chOut - 1, 1, stride) < out.Length
    requires o0 == KernelOut(pA, inBuffer, bias, chOut, numCol, q, r, 0)
    requires o1 == KernelOut(pA, inBuffer, bias, chOut, numCol, q, r, 1)
    requires RowsDone(pA, inBuffer, bias, chOut, numCol, q, out[..], base, stride, r)
    modifies out
    ensures RowsDone(pA, inBuffer, bias, chOut, numCol, q, out[..], base, stride, r + 1)
    ensures SameUnwritten(out[..], old(out[..]), base, chOut, stride)
  {
    MulMono(r, chOut - 1, stride);
    EarlierRowsBefore(base, stride, r);
    OutPosWritten(base, chOut, stride, r, 0);
    OutPosWritten(base, chOut, stride, r, 1);
    var pOut := OutPos(base, r, 0, stride);
    out[pOut] := o0;
    pOut := pOut + 1;
    out[pOut] := o1;
  }

  /**
   * arm_nn_CHW_mat_mult_kernel_q7_q15: writes output (r, j) for every row
   * r < ch_im_out and column j < 2 at pOut_base + r*out_stride + j, and
   * nothing else; returns pOut_base + 2.
   */
  method MatMultKernel(pA: seq<Q7>, inBuffer: seq<Q15>, chOut: nat, numCol: nat, outStride: nat,
                       q: Scaling, bias: seq<Q7>, out: array<Q7>, base: nat) returns (next: nat)
    requires chOut < 0x1_0000 && numCol < 0x1_0000 && ScalingFits(q)
    requires OperandsFit(pA, inBuffer, bias, chOut, numCol)
    requires 2 <= outStride < 0x1_0000
    requires chOut > 0 ==> OutPos(base, chOut - 1, 1, outStride) < out.Length
    modifies out
    ensures next == base + 2
    ensures RowsDone(pA, inBuffer, bias, chOut, numCol, q, out[..], base, outStride, chOut)
    ensures SameUnwritten(out[..], old(out[..]), base, chOut, outStride)
  {
    var rowCnt := chOut / 2;
    var iRow := 0;
    while iRow < rowCnt
      invariant 0 <= iRow <= rowCnt
      invariant RowsDone(pA, inBuffer, bias, chOut, numCol, q, out[..], base, outStride, 2 * iRow)
      invariant SameUnwritten(out[..], old(out[..]), base, chOut, outStride)
    {
      var o0, o1, o2, o3 := RowPairOutputs(pA, inBuffer, bias, chOut, numCol, q, iRow);
      StorePair(pA, inBuffer, bias, chOut, numCol, q, out, base, outStride, 2 * iRow, o0, o1);
      StorePair(pA, inBuffer, bias, chOut, numCol, q, out, base, outStride, 2 * iRow + 1, o2, o3);
      iRow := iRow + 1;
    }
    if chOut % 2 == 1 {
      var o0, o1 := LastRowOutputs(pA, inBuffer, bias, chOut, numCol, q);
      StorePair(pA, inBuffer, bias, chOut, numCol, q, out, base, outStride, chOut - 1, o0, o1);
    }
    next := base + 2;
  }
}
