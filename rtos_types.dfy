/*
 * Types shared by the CMSIS-RTOS reference model and the validation test cases:
 * the osStatus codes the test cases observe, the two execution contexts, 32-bit
 * words and timeouts, the outcome of a kernel call that may suspend its
 * caller, and the pass/fail record that ASSERT_TRUE writes.
 */
module RtosTypes {

  /** The osStatus codes (and osEvent status values) that the validation files observe. */
  datatype Status =
    | OK                    // osOK: call completed; for a get or wait, "no message / no event yet"
    | EventSignal           // osEventSignal: a signal wait was satisfied
    | EventMessage          // osEventMessage: a message was received
    | EventTimeout          // osEventTimeout: the requested time elapsed
    | ErrorParameter        // osErrorParameter: missing or wrong parameter
    | ErrorResource         // osErrorResource: resource not available, no wait requested
    | ErrorTimeoutResource  // osErrorTimeoutResource: resource not available within the timeout
    | ErrorISR              // osErrorISR: not allowed from interrupt context
    | ErrorValue            // osErrorValue: value outside the allowed range
    | ErrorOS               // osErrorOS: unspecified error (used only as a preset sentinel)

  /** Where a kernel call is made from: a thread, or an interrupt service routine. */
  datatype Context = Thread | Isr

  /** A 32-bit unsigned word (uint32_t). */
  type Word = x: int | 0 <= x < 0x1_0000_0000

  /** A timeout in milliseconds; osWaitForever is the all-ones word. */
  const WaitForever: Word := 0xFFFF_FFFF

  /** `x + 1` on uint32_t, which wraps around at 2^32. */
  function Inc32(x: Word): (r: Word)
    ensures x < 0xFFFF_FFFF ==> r == x + 1
    ensures x == 0xFFFF_FFFF ==> r == 0
  {
    (x + 1) % 0x1_0000_0000
  }

  /**
   * The outcome of a kernel call: it returns a value, or it suspends the
   * calling thread (a wait with osWaitForever that nothing satisfies).
   */
  datatype Call<T> = Returns(value: T) | Suspends

  /** The handler that TST_IRQHandler currently points to. */
  datatype Handler = NoHandler | MsgQueueHandler | SignalHandler | GenWaitHandler

  /** A test case passes when every ASSERT_TRUE it raised held. */
  predicate Passed(report: seq<bool>)
  {
    false !in report
  }
}
