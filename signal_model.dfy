/*
 * Reference model of the CMSIS-RTOS thread signal flags that RV_Signal.c
 * validates: every thread owns a 32-bit flag word of which the low
 * osFeature_Signals bits are usable; osSignalSet / osSignalClear return the
 * previous flags (or the error word 0x80000000) and osSignalWait consumes
 * flags.
 *
 * Flag words, masks and the int32_t results are modelled as their 32-bit
 * patterns (bv32), so that 0x80000000 is the same value whether the source
 * reads it as int32_t or uint32_t.
 */
module SignalModel {
  import opened RtosTypes

  /** osFeature_Signals: the number of usable signal flags of a thread. */
  type SignalCount = n: nat | 1 <= n <= 31 witness 1

  /** The word osSignalSet / osSignalClear return on error: (int32_t)0x80000000. */
  const SignalError: bv32 := 0x8000_0000

  /** The single flag `i`. */
  function Bit(i: nat): (b: bv32)
    requires i < 32
  {
    (1 as bv32) << i
  }

  /** The `i` lowest flags, `(1 << i) - 1`. */
  function LowBits(i: nat): (m: bv32)
    requires i <= 31
  {
    ((1 as bv32) << i) - 1
  }

  /** SIG_FLAG_MSK: all usable flags. */
  function FlagMask(n: SignalCount): bv32
  {
    LowBits(n)
  }

  /** SIG_FLAG_MSK is a valid flag mask: the reserved flag is never usable. */
  lemma FlagMaskValid(n: SignalCount)
    ensures ValidFlagMask(FlagMask(n))
  {
  }

  /**
   * A possible SIG_FLAG_MSK: the nonempty run of low flags `2^n - 1` for
   * some `n <= 31`, so that the reserved top flag is never usable.
   */
  predicate ValidFlagMask(msk: bv32)
  {
    msk != 0 && msk & (msk + 1) == 0 && msk & SignalError == 0
  }

  /** A flag word that only uses the usable flags `msk`. */
  predicate InRange(msk: bv32, s: bv32)
  {
    s & !msk == 0
  }

  /** The result of osSignalSet / osSignalClear: the returned word and the thread's new flags. */
  datatype SigStep = SigStep(ret: bv32, flags: bv32)

  /** The osEvent that osSignalWait returns. */
  datatype SigEvent = SigEvent(status: Status, signals: bv32)

  /** The result of osSignalWait: the call's outcome and the waiting thread's new flags. */
  datatype WaitStep = WaitStep(outcome: Call<SigEvent>, flags: bv32)

  /**
   * osSignalSet on a thread whose flags are `flags`, with usable flags `msk`;
   * allowed from threads and ISRs alike.
   */
  function SetSpec(msk: bv32, flags: bv32, signals: bv32): (r: SigStep)
  {
    if InRange(msk, signals) then SigStep(flags, flags | signals) else SigStep(SignalError, flags)
  }

  /** osSignalClear on a thread whose flags are `flags`; refused from an ISR. */
  function ClearSpec(msk: bv32, flags: bv32, signals: bv32, ctx: Context): (r: SigStep)
  {
    if ctx.Isr? || !InRange(msk, signals) then SigStep(SignalError, flags)
    else SigStep(flags, flags & !signals)
  }

  /**
   * osSignalWait(signals, millisec) by a thread whose flags are `flags`.
   * A nonzero mask waits for all of its flags and consumes exactly them; a
   * zero mask waits for any flag and consumes all of them.
   */
  function WaitSpec(msk: bv32, flags: bv32, signals: bv32, millisec: Word, ctx: Context): (r: WaitStep)
  {
    if ctx.Isr? then WaitStep(Returns(SigEvent(ErrorISR, 0)), flags)
    else if !InRange(msk, signals) then WaitStep(Returns(SigEvent(ErrorValue, 0)), flags)
    else if signals != 0 && flags & signals == signals then WaitStep(Returns(SigEvent(EventSignal, signals)), flags & !signals)
    else if signals == 0 && flags != 0 then WaitStep(Returns(SigEvent(EventSignal, flags)), 0)
    else if millisec == 0 then WaitStep(Returns(SigEvent(OK, 0)), flags)
    else if millisec == WaitForever then WaitStep(Suspends, flags)
    else WaitStep(Returns(SigEvent(EventTimeout, 0)), flags)
  }

  /** The flags a wait for `signals` is waiting for are present. */
  predicate Satisfied(flags: bv32, signals: bv32)
  {
    if signals == 0 then flags != 0 else flags & signals == signals
  }

  /** A wait that returned osEventSignal. */
  predicate IsSignalled(c: Call<SigEvent>)
  {
    c.Returns? && c.value.status == EventSignal
  }

  /** A wait step whose call returned osEventSignal. */
  predicate Signalled(r: WaitStep)
  {
    IsSignalled(r.outcome)
  }

  /** The status of an osEvent that was returned. */
  predicate HasStatus(c: Call<SigEvent>, s: Status)
  {
    c.Returns? && c.value.status == s
  }

  /** A thread of the kernel, as far as signals go: its flag word. */
  class OsThread {
    var signals: bv32

    constructor ()
      ensures signals == 0
    {
      signals := 0;
    }
  }

  /** osSignalSet(thread_id, signals): the error word for a NULL thread. */
  method SignalSet(t: OsThread?, msk: bv32, signals: bv32) returns (r: bv32)
    modifies t
    ensures t == null ==> r == SignalError
    ensures t != null ==>
      var s := SetSpec(msk, old(t.signals), signals);
      r == s.ret && t.signals == s.flags
  {
    if t == null {
      r := SignalError;
    } else {
      var s := SetSpec(msk, t.signals, signals);
      r := s.ret;
      t.signals := s.flags;
    }
  }

  /** osSignalClear(thread_id, signals): the error word for a NULL thread. */
  method SignalClear(t: OsThread?, msk: bv32, signals: bv32, ctx: Context) returns (r: bv32)
    modifies t
    ensures t == null ==> r == SignalError
    ensures t != null ==>
      var s := ClearSpec(msk, old(t.signals), signals, ctx);
      r == s.ret && t.signals == s.flags
  {
    if t == null {
      r := SignalError;
    } else {
      var s := ClearSpec(msk, t.signals, signals, ctx);
      r := s.ret;
      t.signals := s.flags;
    }
  }

  /**
   * osSignalWait(signals, millisec) by the running thread `self`; from an ISR
   * there is no waiting thread and `self` may be null.
   */
  method SignalWait(self: OsThread?, msk: bv32, signals: bv32, millisec: Word, ctx: Context) returns (r: Call<SigEvent>)
    requires ctx.Thread? ==> self != null
    modifies self
    ensures ctx.Isr? ==> r == Returns(SigEvent(ErrorISR, 0)) && (self != null ==> self.signals == old(self.signals))
    ensures self != null ==>
      var s := WaitSpec(msk, old(self.signals), signals, millisec, ctx);
      r == s.outcome && self.signals == s.flags
  {
    if self == null {
      r := Returns(SigEvent(ErrorISR, 0));
    } else {
      var s := WaitSpec(msk, self.signals, signals, millisec, ctx);
      r := s.outcome;
      self.signals := s.flags;
    }
  }

  // ---------------------------------------------------------------------
  // Properties of the flag word
  // ---------------------------------------------------------------------

  /** A single flag. */
  predicate PowerOfTwo(p: bv32)
  {
    p != 0 && p & (p - 1) == 0
  }

  lemma BitShape(i: nat)
    requires i < 32
    ensures PowerOfTwo(Bit(i))
  {
  }

  lemma LowBitsShape(i: nat)
    requires i <= 31
    ensures LowBits(i) == Bit(i) - 1 && LowBits(i) & (LowBits(i) + 1) == 0
  {
  }

  lemma BitDoubles(i: nat)
    requires i < 31
    ensures Bit(i) < Bit(i + 1)
  {
  }

  /** Higher flags are larger words. */
  lemma {:induction false} BitMono(i: nat, j: nat)
    requires i < j <= 31
    ensures Bit(i) < Bit(j)
  {
    BitDoubles(j - 1);
    if i < j - 1 {
      BitMono(i, j - 1);
    }
  }

  /** A single flag lies within a run of low flags exactly when it is at most that run. */
  lemma PowerBelowMask(p: bv32, m: bv32)
    requires PowerOfTwo(p) && m & (m + 1) == 0
    ensures InRange(m, p) <==> p <= m
  {
  }

  /** A word at most a run of low flags uses only those flags. */
  lemma BelowLowMask(x: bv32, m: bv32)
    requires m & (m + 1) == 0 && x <= m
    ensures InRange(m, x)
  {
  }

  /**
   * The small masks the test cases use: flag 0 is always usable, flags 0
   * and 1 when there are at least two, and the reserved flag never.
   */
  lemma SmallMasks(n: SignalCount)
    ensures InRange(FlagMask(n), 1)
    ensures n >= 2 ==> InRange(FlagMask(n), 2) && InRange(FlagMask(n), 3)
    ensures !InRange(FlagMask(n), SignalError)
  {
  }

  /** Flag `i` is at most SIG_FLAG_MSK exactly when `i < n`: the bound of the flag walks. */
  lemma BitBelowMask(n: SignalCount, i: nat)
    requires i < 32
    ensures Bit(i) <= FlagMask(n) <==> i < n
  {
    LowBitsShape(n);
    if i < n {
      BitMono(i, n);
    } else if n < i {
      BitMono(n, i);
    }
  }

  /** Flag `i` is a usable flag exactly when `i < n`. */
  lemma BitInRange(n: SignalCount, i: nat)
    requires i < 32
    ensures InRange(FlagMask(n), Bit(i)) <==> i < n
  {
    BitBelowMask(n, i);
    BitShape(i);
    LowBitsShape(n);
    PowerBelowMask(Bit(i), FlagMask(n));
  }

  /** Adding flag `i` to the flags below it gives the flags below `i + 1`. */
  lemma LowBitsGrow(i: nat)
    requires i < 31
    ensures LowBits(i) | Bit(i) == LowBits(i + 1)
    ensures LowBits(i + 1) == (LowBits(i) << 1) | 1
    ensures Bit(i) << 1 == Bit(i + 1)
  {
  }

  /** Removing the top flag `j - 1` from the flags below `j` gives the flags below `j - 1`. */
  lemma LowBitsShrink(j: nat)
    requires 1 <= j <= 31
    ensures LowBits(j) & !Bit(j - 1) == LowBits(j - 1)
  {
  }

  /** Shifting the `j` lowest flags right leaves the `j - 1` lowest. */
  lemma LowBitsHalve(j: nat)
    requires 1 <= j <= 31
    ensures LowBits(j) >> 1 == LowBits(j - 1)
  {
  }

  /** Shifting the top flag of a clear walk right moves it one flag down, or to nothing. */
  lemma BitShiftDown(j: nat)
    requires 1 <= j <= 31
    ensures Bit(j - 1) >> 1 == if j == 1 then 0 else Bit(j - 2)
  {
  }

  /**
   * Setting flag `i` on a thread holding exactly the flags below `i` reports
   * those flags, `2^i - 1`, and then holds the flags below `i + 1`.
   */
  lemma SetAccumulates(n: SignalCount, i: nat)
    requires i < n
    ensures SetSpec(FlagMask(n), LowBits(i), Bit(i)) == SigStep(LowBits(i), LowBits(i + 1))
  {
    BitInRange(n, i);
    LowBitsGrow(i);
  }

  /**
   * Clearing the top flag of a thread holding the `j` lowest flags reports
   * them and leaves the `j - 1` lowest.
   */
  lemma ClearFromTop(n: SignalCount, j: nat)
    requires 1 <= j <= n
    ensures ClearSpec(FlagMask(n), LowBits(j), Bit(j - 1), Thread) == SigStep(LowBits(j), LowBits(j - 1))
  {
    BitInRange(n, j - 1);
    LowBitsShrink(j);
  }

  /**
   * Round `n - j` of a clear walk, with the `j` lowest flags still set: it
   * runs exactly while `j > 0`, clears flag `j - 1`, and moves the flag to
   * clear and the expected report one flag down.
   */
  lemma ClearRounds(n: SignalCount, j: nat)
    requires 1 <= j <= n
    ensures Bit(j - 1) != 0
    ensures ClearSpec(FlagMask(n), LowBits(j), Bit(j - 1), Thread) == SigStep(LowBits(j), LowBits(j - 1))
    ensures LowBits(j) >> 1 == LowBits(j - 1)
    ensures Bit(j - 1) >> 1 == if j == 1 then 0 else Bit(j - 2)
  {
    BitShape(j - 1);
    ClearFromTop(n, j);
    LowBitsHalve(j);
    BitShiftDown(j);
  }

  /**
   * The reserved top flag can never be set: the call returns the error word
   * and the flags stay as they were, and the error word is never a flag word
   * a successful call can report.
   */
  lemma ReservedBitRejected(msk: bv32, flags: bv32)
    requires ValidFlagMask(msk)
    ensures SetSpec(msk, flags, SignalError) == SigStep(SignalError, flags)
    ensures InRange(msk, flags) ==> flags != SignalError
  {
  }

  /** No call lets a thread's flag word leave the usable flags: osSignalSet. */
  lemma SetStaysInRange(msk: bv32, flags: bv32, signals: bv32)
    requires InRange(msk, flags)
    ensures InRange(msk, SetSpec(msk, flags, signals).flags)
  {
  }

  /** No call lets a thread's flag word leave the usable flags: osSignalClear. */
  lemma ClearStaysInRange(msk: bv32, flags: bv32, signals: bv32, ctx: Context)
    requires InRange(msk, flags)
    ensures InRange(msk, ClearSpec(msk, flags, signals, ctx).flags)
  {
  }

  /** No call lets a thread's flag word leave the usable flags: osSignalWait. */
  lemma WaitStaysInRange(msk: bv32, flags: bv32, signals: bv32, millisec: Word, ctx: Context)
    requires InRange(msk, flags)
    ensures InRange(msk, WaitSpec(msk, flags, signals, millisec, ctx).flags)
  {
  }

  /**
   * A thread's wait for a nonzero mask is an all-of wait: it is signalled
   * exactly when every flag of the mask is set, it then reports the mask and
   * consumes exactly those flags, and otherwise the flags are untouched.
   */
  lemma WaitAllOf(msk: bv32, flags: bv32, mask: bv32, millisec: Word)
    requires mask != 0 && InRange(msk, mask)
    ensures var r := WaitSpec(msk, flags, mask, millisec, Thread);
      && (Signalled(r) <==> flags & mask == mask)
      && (Signalled(r) ==> r.outcome.value.signals == mask && r.flags == flags & !mask)
      && (!Signalled(r) ==> r.flags == flags)
  {
  }

  /**
   * A thread's wait for the zero mask waits for any flag: it is signalled
   * exactly when some flag is set, and then reports and consumes all of them.
   */
  lemma WaitAnyOf(msk: bv32, flags: bv32, millisec: Word)
    ensures var r := WaitSpec(msk, flags, 0, millisec, Thread);
      && (Signalled(r) <==> flags != 0)
      && (Signalled(r) ==> r.outcome.value.signals == flags && r.flags == 0)
      && (!Signalled(r) ==> r.flags == flags)
  {
  }

  /**
   * An unsatisfied wait: no timeout reports osOK, a finite timeout
   * osEventTimeout, and osWaitForever suspends the thread.
   */
  lemma WaitUnsatisfied(msk: bv32, flags: bv32, mask: bv32, millisec: Word)
    requires InRange(msk, mask) && !Satisfied(flags, mask)
    ensures millisec == 0 ==> WaitSpec(msk, flags, mask, millisec, Thread) == WaitStep(Returns(SigEvent(OK, 0)), flags)
    ensures 0 < millisec < WaitForever ==> WaitSpec(msk, flags, mask, millisec, Thread) == WaitStep(Returns(SigEvent(EventTimeout, 0)), flags)
    ensures millisec == WaitForever ==> WaitSpec(msk, flags, mask, millisec, Thread) == WaitStep(Suspends, flags)
  {
  }

  /**
   * A wait never returns exactly when a thread waits forever, with a legal
   * mask, for flags that are not there; a mask outside the usable flags
   * fails with osErrorValue.
   */
  lemma WaitSuspends(msk: bv32, flags: bv32, signals: bv32, millisec: Word, ctx: Context)
    ensures WaitSpec(msk, flags, signals, millisec, ctx).outcome == Suspends <==>
      ctx.Thread? && InRange(msk, signals) && !Satisfied(flags, signals) && millisec == WaitForever
    ensures ctx.Thread? && !InRange(msk, signals) ==>
      WaitSpec(msk, flags, signals, millisec, ctx) == WaitStep(Returns(SigEvent(ErrorValue, 0)), flags)
  {
  }

  /** Clearing all usable flags leaves a thread with none, and reports what it held. */
  lemma ClearAll(msk: bv32, flags: bv32)
    requires InRange(msk, flags)
    ensures ClearSpec(msk, flags, msk, Thread) == SigStep(flags, 0)
  {
  }

  /**
   * From an ISR: osSignalClear returns the error word without clearing, and
   * osSignalWait fails with osErrorISR whatever the mask and timeout.
   */
  lemma IsrRules(msk: bv32, flags: bv32, signals: bv32, millisec: Word)
    ensures ClearSpec(msk, flags, signals, Isr) == SigStep(SignalError, flags)
    ensures WaitSpec(msk, flags, signals, millisec, Isr) == WaitStep(Returns(SigEvent(ErrorISR, 0)), flags)
  {
  }

  // ---------------------------------------------------------------------
  // The relay mask of the child-to-child test
  // ---------------------------------------------------------------------

  /** `flags <<= 1; flags |= (flags & 2) ? 0 : 1;` */
  function RelayNext(x: bv32): bv32
  {
    var s := x << 1;
    if s & 2 != 0 then s else s | 1
  }

  /** The low flag of the relay mask alternates; the flags above it are the old ones moved up. */
  lemma RelayShape(x: bv32)
    ensures RelayNext(x) & 1 == 1 - (x & 1)
    ensures RelayNext(x) & !1 == x << 1
  {
  }

  /** The relay mask strictly grows while it is below the reserved flag. */
  lemma RelayIncreases(x: bv32)
    requires 1 <= x < SignalError
    ensures x < RelayNext(x)
  {
  }

  /** Every other flag, among them flag `i`: the shape of the `i`-th relay mask. */
  function RelayPattern(i: nat): bv32
    requires i < 32
  {
    if Bit(i) & 0x5555_5555 != 0 then 0x5555_5555 else 0xAAAA_AAAA
  }

  /**
   * The relay mask after `i` steps from 1, in closed form: flags
   * `i, i - 2, i - 4, ...` (1, 2, 5, 10, 21, ...).
   */
  function RelayMask(i: nat): bv32
    requires i <= 31
  {
    RelayPattern(i) & (Bit(i) | LowBits(i))
  }

  /** The closed form starts at 1 and follows RelayNext. */
  lemma RelayMaskSteps(i: nat)
    requires i < 31
    ensures RelayMask(0) == 1
    ensures RelayNext(RelayMask(i)) == RelayMask(i + 1)
  {
  }

  /** The `i`-th relay mask has top flag `i`. */
  lemma RelayMaskBounds(i: nat)
    requires i <= 31
    ensures Bit(i) <= RelayMask(i)
    ensures i < 31 ==> RelayMask(i) <= LowBits(i + 1)
  {
  }

  /**
   * The relay loops of both children run while the mask is at most
   * SIG_FLAG_MSK, that is for exactly the masks `0 .. n - 1`.
   */
  lemma RelayMaskBelowMask(n: SignalCount, i: nat)
    requires i <= 31
    ensures RelayMask(i) <= FlagMask(n) <==> i < n
  {
    RelayMaskBounds(i);
    TopFlagBelowMask(n, i, RelayMask(i));
  }

  /**
   * Round `i` of the relay loops: the loops go on exactly while `i < n`, and
   * then the mask is a nonempty word of usable flags whose successor is the
   * next relay mask.
   */
  lemma RelayRounds(n: SignalCount, i: nat)
    requires i <= n
    ensures RelayMask(i) <= FlagMask(n) <==> i < n
    ensures i < n ==> RelayMask(i) != 0 && InRange(FlagMask(n), RelayMask(i))
    ensures i < n ==> RelayNext(RelayMask(i)) == RelayMask(i + 1)
  {
    RelayMaskBelowMask(n, i);
    if i < n {
      RelayMaskBounds(i);
      BitShape(i);
      FlagMaskValid(n);
      BelowLowMask(RelayMask(i), FlagMask(n));
      RelayMaskSteps(i);
    }
  }

  /**
   * Round `i` of a loop over the flags 1, 2, 4, ...: it goes on exactly
   * while `i < n`, and then flag `i` is a usable flag whose shift is the
   * next one.
   */
  lemma FlagRounds(n: SignalCount, i: nat)
    requires i <= n
    ensures Bit(i) <= FlagMask(n) <==> i < n
    ensures i < n ==> Bit(i) != 0 && InRange(FlagMask(n), Bit(i)) && Bit(i) << 1 == Bit(i + 1)
  {
    BitBelowMask(n, i);
    if i < n {
      BitInRange(n, i);
      BitShape(i);
      LowBitsGrow(i);
    }
  }

  /** A word whose top flag is `i` is at most SIG_FLAG_MSK exactly when `i < n`. */
  lemma TopFlagBelowMask(n: SignalCount, i: nat, x: bv32)
    requires i <= 31 && Bit(i) <= x && (i < 31 ==> x <= LowBits(i + 1))
    ensures x <= FlagMask(n) <==> i < n
  {
    if i < n {
      TopFlagBelow(n, i, x);
    } else {
      TopFlagAbove(n, i, x);
    }
  }

  /** Below the run of flags up to `i < n`: within SIG_FLAG_MSK. */
  lemma TopFlagBelow(n: SignalCount, i: nat, x: bv32)
    requires i < n && x <= LowBits(i + 1)
    ensures x <= FlagMask(n)
  {
    if i + 1 < n {
      LowBitsShape(n);
      LowBitsShape(i + 1);
      BitMono(i + 1, n);
    }
  }

  /** At least flag `i >= n`: above SIG_FLAG_MSK. */
  lemma TopFlagAbove(n: SignalCount, i: nat, x: bv32)
    requires n <= i <= 31 && Bit(i) <= x
    ensures !(x <= FlagMask(n))
  {
    LowBitsShape(n);
    if n < i {
      BitMono(n, i);
    }
  }
}
