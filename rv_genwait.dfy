/*
 * The generic wait test cases of RV_GenWait.c, run against the wait model.
 *
 * The file's global Stat_Isr and the framework's ISR_ExNum / TST_IRQHandler
 * are the fields of GenWaitSuite; every ASSERT_TRUE appends its condition to
 * `report`. Whether osFeatureWait is defined is the suite's `featureWait`:
 * the osWait parts of the file are compiled only when it is.
 */
module RvGenWait {
  import opened RtosTypes
  import opened WaitModel

  /** The delay every call of RV_GenWait.c asks for. */
  const DelayMs: Word := 10

  /** Whether the handler makes a call for selector `sel`: 0 calls osDelay, 1 calls osWait if it exists. */
  predicate Dispatches(sel: int, featureWait: bool)
  {
    sel == 0 || (featureWait && sel == 1)
  }

  /**
   * Stat_Isr after GenWait_IRQHandler ran with selector `sel` on the preset
   * `preset`: a selector the switch knows makes its call in ISR context and
   * captures the result; any other selector leaves the preset in place.
   */
  function HandlerResult(sel: int, featureWait: bool, preset: Status): (r: Status)
    ensures Dispatches(sel, featureWait) ==> r == ErrorISR
    ensures !Dispatches(sel, featureWait) ==> r == preset
  {
    if sel == 0 then Delay(DelayMs, Isr)
    else if featureWait && sel == 1 then WaitEvent(DelayMs, Isr)
    else preset
  }

  /** The globals of RV_GenWait.c. */
  class GenWaitSuite {
    /** whether osFeatureWait is defined */
    const featureWait: bool
    var statIsr: Status
    var isrExNum: int
    var tstIrqHandler: Handler
    var irqEnabled: bool
    var report: seq<bool>

    constructor (featureWait: bool)
      ensures this.featureWait == featureWait
      ensures !irqEnabled && tstIrqHandler == NoHandler && report == []
    {
      this.featureWait := featureWait;
      statIsr := OK;
      isrExNum := 0;
      tstIrqHandler := NoHandler;
      irqEnabled := false;
      report := [];
    }

    /** GenWait_IRQHandler: the selector picks osDelay or osWait, called in ISR context. */
    method GenWaitIrqHandler()
      requires irqEnabled && tstIrqHandler == GenWaitHandler
      modifies this`statIsr
      ensures statIsr == HandlerResult(isrExNum, featureWait, old(statIsr))
    {
      if isrExNum == 0 {
        statIsr := Delay(DelayMs, Isr);
      } else if featureWait && isrExNum == 1 {
        statIsr := WaitEvent(DelayMs, Isr);
      }
    }

    /** TC_GenWaitBasic: osDelay(10), and osWait(10) where it exists, run out their time in a thread. */
    method GenWaitBasic()
      modifies this`report
      ensures Passed(report) && |report| == if featureWait then 2 else 1
    {
      var rep := [Delay(DelayMs, Thread) == EventTimeout];
      if featureWait {
        rep := rep + [WaitEvent(DelayMs, Thread) == EventTimeout];
      }
      report := rep;
    }

    /** One pend of TC_GenWaitInterrupts: preset Stat_Isr to osOK, pend with selector `sel`, look at Stat_Isr. */
    method PendWith(sel: int) returns (refused: bool)
      requires irqEnabled && tstIrqHandler == GenWaitHandler && Dispatches(sel, featureWait)
      modifies this`isrExNum, this`statIsr
      ensures refused && isrExNum == sel
    {
      isrExNum := sel;
      statIsr := OK;
      GenWaitIrqHandler();
      refused := statIsr == ErrorISR;
    }

    /** TC_GenWaitInterrupts: osDelay, and osWait where it exists, are refused with osErrorISR in an ISR. */
    method GenWaitInterrupts()
      modifies this`tstIrqHandler, this`irqEnabled, this`isrExNum, this`statIsr, this`report
      ensures Passed(report) && |report| == (if featureWait then 2 else 1) && !irqEnabled
    {
      tstIrqHandler := GenWaitHandler;
      irqEnabled := true;
      var delayRefused := PendWith(0);
      var rep := [delayRefused];
      if featureWait {
        var waitRefused := PendWith(1);
        rep := rep + [waitRefused];
      }
      irqEnabled := false;
      report := rep;
    }
  }
}
