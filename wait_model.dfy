/*
 * Reference model of the CMSIS-RTOS generic wait functions that RV_GenWait.c
 * validates: osDelay and osWait. In this model no event ever arrives during
 * an osWait, so both calls behave alike: from a thread the time runs out and
 * the call reports osEventTimeout; from an ISR neither may be called and the
 * call reports osErrorISR.
 */
module WaitModel {
  import opened RtosTypes

  /** osDelay(millisec), in context `ctx`. */
  function Delay(millisec: Word, ctx: Context): (r: Status)
    // refused exactly in ISR context
    ensures r == ErrorISR <==> ctx.Isr?
    // a thread's delay always ends by its time running out
    ensures ctx.Thread? ==> r == EventTimeout
  {
    if ctx.Isr? then ErrorISR else EventTimeout
  }

  /**
   * The status of the osEvent that osWait(millisec) returns, in context
   * `ctx`, when no event arrives: with nothing to wake it, a wait is a delay.
   */
  function WaitEvent(millisec: Word, ctx: Context): (r: Status)
    ensures r == ErrorISR <==> ctx.Isr?
    ensures ctx.Thread? ==> r == EventTimeout
  {
    Delay(millisec, ctx)
  }
}
