# CMSIS-RTOS validation oracles and two CMSIS-NN CHW kernels, in Dafny

This project models two parts of CMSIS 5.

**The CMSIS-RTOS validation suite** for message queues, thread signals and
generic waits: `RV_MsgQueue.c`, `RV_Signal.c` and `RV_GenWait.c`.

- The suite is an oracle. Each test case drives the RTOS API and records
  `ASSERT_TRUE` outcomes, so each test pins down what a conforming kernel
  must do.
- The model has two layers:
  - A **reference kernel**. `MsgQueueModel` is a bounded FIFO of 32-bit
    words. `SignalModel` is a thread's 32-bit signal flag word with the
    usable low `osFeature_Signals` bits. `WaitModel` covers osDelay and
    osWait.
  - The **test cases**, written as imperative Dafny. Each file's globals
    (`MsgQ_Id`, `G_MsgQ_Counter`, `Var_ThreadId`, `ISR_ExNum`,
    `TST_IRQHandler`, the `*_Isr` capture variables, …) become the fields
    of a suite class: `MsgQueueSuite`, `SignalSuite` or `GenWaitSuite`.
- Every `ASSERT_TRUE` appends its condition to the suite's `report`. Each
  test case is proved to leave `Passed(report)`, with the exact number of
  assertions it raises.
- `SetPendingIRQ` is a synchronous call of the installed handler in ISR
  context.
- The two streaming tests pit a thread loop against a periodic timer whose
  callback pends the IRQ. They are proved for **every** interleaving of
  timer ticks with the thread's kernel calls. A `Gap` schedule is one such
  interleaving.

**The CMSIS-NN kernels** `arm_convolve_CHW_q15_basic_nonsquare` and
`arm_nn_CHW_mat_mult_kernel_q7_q15`.

- Both are loops over arrays. The buffers they write (`Im_out`, `bufferA`,
  `pOut`) are Dafny arrays. The read-only inputs (`Im_in`, `wt`, `bias`,
  `pA`, `pInBuffer`) are sequences.
- Each kernel is proved against a reference definition: a saturated,
  shifted dot product of a weight row with an im2col column (`ConvOut`,
  `KernelOut`).
- The proofs show:
  - The SIMD loop (`__SMLAD` on pairs, `read_and_pad`) plus the `% 4`
    remainder loop computes exactly that dot product.
  - im2col builds the zero-padded column.
  - Every output lands at its CHW position.
  - Nothing else in the written buffers changes.

Files and modules:

| file | module | content |
|---|---|---|
| wrappers.dfy | Wrappers | `Option`, for a NULL queue definition and a NULL bias |
| rtos_types.dfy | RtosTypes | osStatus codes, thread/ISR context, 32-bit words, `Call` (returns or suspends), `Passed` |
| msg_queue_model.dfy | MsgQueueModel | osMessageCreate/Put/Get, FIFO lemmas |
| signal_model.dfy | SignalModel | osSignalSet/Clear/Wait on `bv32` flag words, flag-walk lemmas |
| wait_model.dfy | WaitModel | osDelay, osWait |
| rv_msgqueue.dfy | RvMsgQueue | the test cases of RV_MsgQueue.c, the timer, the message streams |
| rv_signal.dfy | RvSignal | the test cases and threads of RV_Signal.c |
| rv_genwait.dfy | RvGenWait | the test cases of RV_GenWait.c |
| nn_arith.dfy | NnArith | q7/q15, arithmetic shift, `__SSAT`, `__SMLAD`, `read_and_pad`, dot product, CHW layout |
| convolve_chw_q15.dfy | ConvolveChwQ15 | arm_convolve_CHW_q15_basic_nonsquare |
| mat_mult_kernel_chw_q7_q15.dfy | MatMultKernelChwQ7Q15 | arm_nn_CHW_mat_mult_kernel_q7_q15 |

### Kernel semantics the model fixes

The kernel's source is not part of this model. Its contract is the one the
validation files assert:

- **Queue put.** A put succeeds exactly when there is room. On a full
  queue:
  - timeout 0 gives `osErrorResource`;
  - a finite timeout gives `osErrorTimeoutResource`;
  - `osWaitForever` suspends the caller.
- **Queue get.** A get delivers the oldest word. On an empty queue:
  - timeout 0 gives `osOK`;
  - a finite timeout gives `osEventTimeout`;
  - `osWaitForever` suspends the caller.
- **Queue calls from an ISR.** Only timeout 0 is allowed; any other timeout
  gives `osErrorParameter`. A `NULL` queue gives `osErrorParameter`.
  `osMessageCreate` returns `NULL` from an ISR or for a `NULL` definition.
- **Signal set and clear.** Both return the previous flags, or `0x80000000`
  when:
  - the thread is `NULL`;
  - the flags have bits outside the usable range;
  - osSignalClear is called from an ISR.
- **Signal wait.**
  - A nonzero mask waits for all of its flags.
  - A zero mask waits for any flag and consumes every flag that is set.
  - A mask outside the usable range gives `osErrorValue`.
  - In an ISR every wait gives `osErrorISR`; this check comes first.
- **osDelay and osWait.** Both give `osEventTimeout` in a thread and
  `osErrorISR` in an ISR.

## Model

| member | source | states |
|---|---|---|
| RtosTypes.Inc32 | CMSIS/RTOS/Validation/Source/RV_MsgQueue.c:169 | `G_MsgQ_Counter++` on uint32_t adds one and wraps to 0 after 0xFFFFFFFF |
| MsgQueueModel.PutStep | CMSIS/RTOS/Validation/Source/RV_MsgQueue.c:223-229 | a put succeeds iff the queue has room and the call is legal in its context (thread, or ISR with timeout 0), and then appends at the tail; on a full queue timeout 0 gives osErrorResource, a finite thread timeout osErrorTimeoutResource, osWaitForever suspends (iff); from an ISR a nonzero timeout gives osErrorParameter (lines 75-76, 79, 370-390) |
| MsgQueueModel.GetStep | CMSIS/RTOS/Validation/Source/RV_MsgQueue.c:232-243 | a get delivers a message iff one is queued and the call is legal in its context, and then it is the oldest word and leaves the queue; on an empty queue timeout 0 gives osOK, a finite thread timeout osEventTimeout, osWaitForever suspends (iff); from an ISR a nonzero timeout gives osErrorParameter |
| MsgQueueModel.MessageCreate | CMSIS/RTOS/Validation/Source/RV_MsgQueue.c:338 | a NULL definition or an ISR caller gets NULL (also line 360); otherwise a fresh empty queue of the defined size |
| MsgQueueModel.MessagePut | CMSIS/RTOS/Validation/Source/RV_MsgQueue.c:342 | a NULL queue gives osErrorParameter; otherwise the put behaves as PutStep on the queue's content, and the queue keeps at most its defined number of words |
| MsgQueueModel.MessageGet | CMSIS/RTOS/Validation/Source/RV_MsgQueue.c:340 | a NULL queue gives osErrorParameter; otherwise the get behaves as GetStep on the queue's content, and the queue keeps at most its defined number of words |
| MsgQueueModel.Range | CMSIS/RTOS/Validation/Source/RV_MsgQueue.c:223-225 | the words a counting producer puts: length hi - lo, element i is lo + i |
| MsgQueueModel.RangeGrow | CMSIS/RTOS/Validation/Source/RV_MsgQueue.c:184-188 | putting the producer's next count extends the queued range at its top |
| MsgQueueModel.RangeShrink | CMSIS/RTOS/Validation/Source/RV_MsgQueue.c:165-169 | the oldest word of a nonempty queued range is its bottom, and taking it leaves the range above |
| MsgQueueModel.PutAllAppends | CMSIS/RTOS/Validation/Source/RV_MsgQueue.c:223-225 | a run of timeout-0 puts that fits succeeds at every put and appends the words in order |
| MsgQueueModel.GetAllTakes | CMSIS/RTOS/Validation/Source/RV_MsgQueue.c:232-240 | k timeout-0 gets deliver the k oldest words, in queue order, and leave the rest |
| MsgQueueModel.FillThenDrain | CMSIS/RTOS/Validation/Source/RV_MsgQueue.c:217-245 | FIFO round trip: filling an empty queue with any words that fit and draining it returns exactly those words in put order and leaves it empty |
| RvMsgQueue.TimerSignalRaised | CMSIS/RTOS/Validation/Source/RV_MsgQueue.c:105-110 | once the timer sets SIGNAL_TIMER_TOUT the flag is up and the flags stay in range |
| RvMsgQueue.TimerSignalTaken | CMSIS/RTOS/Validation/Source/RV_MsgQueue.c:456 | `osSignalWait(SIGNAL_TIMER_TOUT, 1)` is signalled iff the timer's flag is up |
| RvMsgQueue.TimerFlagUsable | CMSIS/RTOS/Validation/Source/RV_MsgQueue.c:108 | SIGNAL_TIMER_TOUT (0x04) is a usable flag when osFeature_Signals >= 3 |
| RvMsgQueue.ProduceStep | CMSIS/RTOS/Validation/Source/RV_MsgQueue.c:181-193 | the producer's step of a stream: a timeout-0 put of the count, which advances the count when the word is queued and otherwise raises the `== osErrorResource` assert (also lines 443-452) |
| RvMsgQueue.ConsumeStep | CMSIS/RTOS/Validation/Source/RV_MsgQueue.c:161-175 | the consumer's step of a stream: a timeout-0 get, whose message must equal the count, which then advances, and which otherwise raises the `== osOK` assert (also lines 509-520) |
| RvMsgQueue.ProduceKeepsStream | CMSIS/RTOS/Validation/Source/RV_MsgQueue.c:181-193 | on a queue holding the producer's outstanding range, a put either succeeds and counts, or finds the queue full and raises a passing assert; the queue holds the range again |
| RvMsgQueue.ConsumeKeepsStream | CMSIS/RTOS/Validation/Source/RV_MsgQueue.c:161-175 | on a queue holding the range above the consumer's count, a get either receives exactly that count and advances it, or finds the queue empty with osOK; the asserts pass and the queue holds the range again |
| RvMsgQueue.TimerCreate | CMSIS/RTOS/Validation/Source/RV_MsgQueue.c:434 | osTimerCreate of the periodic timer returns a fresh, stopped timer |
| RvMsgQueue.TimerStart | CMSIS/RTOS/Validation/Source/RV_MsgQueue.c:438-439 | osTimerStart returns osOK and the timer runs |
| RvMsgQueue.TimerDelete | CMSIS/RTOS/Validation/Source/RV_MsgQueue.c:460 | osTimerDelete returns osOK and the timer stops |
| RvMsgQueue.TicksFrom | CMSIS/RTOS/Validation/Source/RV_MsgQueue.c:445-456 | the timer firings a schedule allows split into those of its first pass and the rest |
| RvMsgQueue.MsgQueueSuite.MsgQueueIrqHandler | CMSIS/RTOS/Validation/Source/RV_MsgQueue.c:71-92 | case 0 creates (NULL from an ISR); cases 1, 2, 5 put and cases 3, 4, 6 get on MsgQId_Isr as the kernel model says for the ISR context; case 7 receives and case 8 sends one stream message on MsgQ_Id; each case writes only its own capture variable, the counter changes only in cases 7 and 8, and only the queue a case names changes its contents (MsgQ_Id is kept in cases 0-6, MsgQId_Isr in cases 7-8) |
| RvMsgQueue.MsgQueueSuite.IsrMsgReceive | CMSIS/RTOS/Validation/Source/RV_MsgQueue.c:161-175 | one consumer step of the stream, from the ISR, on MsgQ_Id and G_MsgQ_Counter |
| RvMsgQueue.MsgQueueSuite.IsrMsgSend | CMSIS/RTOS/Validation/Source/RV_MsgQueue.c:181-193 | one producer step of the stream, from the ISR |
| RvMsgQueue.MsgQueueSuite.MsgQTimerCallback | CMSIS/RTOS/Validation/Source/RV_MsgQueue.c:98-111 | while time remains the timeout drops by the period and the pended handler runs one stream step; once it is up the callback sets SIGNAL_TIMER_TOUT on the thread and changes nothing else |
| RvMsgQueue.MsgQueueSuite.TimerTick | CMSIS/RTOS/Validation/Source/RV_MsgQueue.c:98-111 | one firing keeps the stream invariant with passing asserts, counts the time down to 0 and then raises the timer flag, which stays up |
| RvMsgQueue.MsgQueueSuite.TimerTicks | CMSIS/RTOS/Validation/Source/RV_MsgQueue.c:98-111 | k firings keep the stream invariant; the timeout is old - period * k, or 0 and the flag is up once k exceeds the remaining firings |
| RvMsgQueue.MsgQueueSuite.CreateMessageQueue | CMSIS/RTOS/Validation/Source/RV_MsgQueue.c:117-121 | MsgQ_Id becomes a fresh empty queue of MSGQ_SZ words; its assert passes |
| RvMsgQueue.MsgQueueSuite.FillQueue | CMSIS/RTOS/Validation/Source/RV_MsgQueue.c:223-225 | MSGQ_SZ puts all pass and the queue holds 0 .. MSGQ_SZ-1 |
| RvMsgQueue.MsgQueueSuite.FullQueueRefuses | CMSIS/RTOS/Validation/Source/RV_MsgQueue.c:227-229 | both puts on the full queue fail as asserted, and the queue is unchanged |
| RvMsgQueue.MsgQueueSuite.DrainInOrder | CMSIS/RTOS/Validation/Source/RV_MsgQueue.c:232-240 | the gets deliver 0 .. MSGQ_SZ-1 in order, all 2*MSGQ_SZ asserts pass, the queue ends empty |
| RvMsgQueue.MsgQueueSuite.EmptyQueueAnswers | CMSIS/RTOS/Validation/Source/RV_MsgQueue.c:242-243 | an empty queue answers osOK with no wait and osEventTimeout with a wait |
| RvMsgQueue.MsgQueueSuite.MsgQBasic | CMSIS/RTOS/Validation/Source/RV_MsgQueue.c:217-245 | TC_MsgQBasic passes with its 3*MSGQ_SZ+4 asserts when the queue exists, and leaves it empty |
| RvMsgQueue.MsgQueueSuite.MsgQWait | CMSIS/RTOS/Validation/Source/RV_MsgQueue.c:258-275 | TC_MsgQWait with Th_MsgQWait (lines 126-145): the waiter counts, suspends on the empty queue, is woken by the put and returns the count; all six asserts pass |
| RvMsgQueue.MsgQueueSuite.MsgQParam | CMSIS/RTOS/Validation/Source/RV_MsgQueue.c:335-343 | the three NULL-parameter calls fail as asserted |
| RvMsgQueue.MsgQueueSuite.IsrCreateRefused | CMSIS/RTOS/Validation/Source/RV_MsgQueue.c:357-360 | osMessageCreate from the ISR overwrites the preset with NULL; MsgQ_Id and G_MsgQ_Counter are untouched |
| RvMsgQueue.MsgQueueSuite.IsrNoWaitCalls | CMSIS/RTOS/Validation/Source/RV_MsgQueue.c:367-380 | from the ISR a put with no wait succeeds and a get with no wait receives it; MsgQ_Id and G_MsgQ_Counter are untouched |
| RvMsgQueue.MsgQueueSuite.IsrWaitsRefused | CMSIS/RTOS/Validation/Source/RV_MsgQueue.c:382-395 | from the ISR every put or get with a timeout gives osErrorParameter; MsgQ_Id and G_MsgQ_Counter are untouched |
| RvMsgQueue.MsgQueueSuite.MsgQInterrupts | CMSIS/RTOS/Validation/Source/RV_MsgQueue.c:351-401 | TC_MsgQInterrupts passes with its 8 asserts, leaves the IRQ disabled, and leaves MsgQ_Id's contents and G_MsgQ_Counter as they were |
| RvMsgQueue.MsgQueueSuite.DrainQueue | CMSIS/RTOS/Validation/Source/RV_MsgQueue.c:425-428 | the get-until-osOK loop ends with the queue empty |
| RvMsgQueue.MsgQueueSuite.ProducerPass | CMSIS/RTOS/Validation/Source/RV_MsgQueue.c:445-456 | one pass of the thread's put loop, with any number of timer firings around its put and its wait, keeps the stream invariant with passing asserts; if not signalled, the firings are charged to the timeout |
| RvMsgQueue.MsgQueueSuite.ConsumerPass | CMSIS/RTOS/Validation/Source/RV_MsgQueue.c:510-522 | the same for one pass of the thread's get loop |
| RvMsgQueue.MsgQueueSuite.ThreadToIsrStream | CMSIS/RTOS/Validation/Source/RV_MsgQueue.c:443-456 | for every schedule with more firings than the timeout allows, the put loop ends and every assert of the thread and the ISR passes |
| RvMsgQueue.MsgQueueSuite.MsgFromThreadToIsr | CMSIS/RTOS/Validation/Source/RV_MsgQueue.c:410-464 | TC_MsgFromThreadToISR passes for every interleaving of timer and thread, and leaves the IRQ disabled |
| RvMsgQueue.MsgQueueSuite.IsrToThreadStream | CMSIS/RTOS/Validation/Source/RV_MsgQueue.c:508-523 | for every schedule the get loop ends; every message received carries the expected count |
| RvMsgQueue.MsgQueueSuite.MsgFromIsrToThread | CMSIS/RTOS/Validation/Source/RV_MsgQueue.c:474-530 | TC_MsgFromISRToThread passes for every interleaving, and leaves the IRQ disabled |
| SignalModel.SignalSet | CMSIS/RTOS/Validation/Source/RV_Signal.c:498 | a NULL thread gives 0x80000000; otherwise the call behaves as the set specification |
| SignalModel.SignalClear | CMSIS/RTOS/Validation/Source/RV_Signal.c:499 | a NULL thread gives 0x80000000; otherwise the call behaves as the clear specification |
| SignalModel.SignalWait | CMSIS/RTOS/Validation/Source/RV_Signal.c:502 | from an ISR the wait gives osErrorISR and keeps the flags; otherwise it behaves as the wait specification |
| SignalModel.SetSpec | CMSIS/RTOS/Validation/Source/RV_Signal.c:137-147 | osSignalSet on flags `flags`: with usable signals it returns `flags` and ORs the signals in; a signal outside SIG_FLAG_MSK (the reserved 0x80000000 among them) gives 0x80000000 and keeps the flags, from threads and ISRs alike (also lines 508, 542) |
| SignalModel.ClearSpec | CMSIS/RTOS/Validation/Source/RV_Signal.c:150-157 | osSignalClear: from a thread with usable signals it returns the flags and clears the signals; from an ISR, or with signals outside SIG_FLAG_MSK, it gives 0x80000000 and keeps the flags (also lines 541-546) |
| SignalModel.WaitSpec | CMSIS/RTOS/Validation/Source/RV_Signal.c:390-423 | osSignalWait: osErrorISR from an ISR whatever the timeout, osErrorValue for a mask outside SIG_FLAG_MSK, osEventSignal with the mask when every flag of a nonzero mask is set (clearing just those), osEventSignal with all flags for the zero mask when any is set (clearing them), and otherwise osOK for timeout 0, suspension for osWaitForever and osEventTimeout for a finite timeout (also lines 358-362, 502, 548-561) |
| SignalModel.FlagMaskValid | CMSIS/RTOS/Validation/Source/RV_Signal.c:28 | SIG_FLAG_MSK is a low mask that leaves out the reserved top bit |
| SignalModel.BitShape | CMSIS/RTOS/Validation/Source/RV_Signal.c:65 | each single flag is a power of two |
| SignalModel.LowBitsShape | CMSIS/RTOS/Validation/Source/RV_Signal.c:141 | the accumulated flags are one below the next flag, and form a low mask |
| SignalModel.BitMono | CMSIS/RTOS/Validation/Source/RV_Signal.c:142-144 | a higher flag is a larger word, so `set <<= 1` walks upward until it passes the mask |
| SignalModel.PowerBelowMask | CMSIS/RTOS/Validation/Source/RV_Signal.c:76 | a single flag lies within a low mask iff it is at most the mask, which the source tests as `(uint32_t)flag <= SIG_FLAG_MSK` |
| SignalModel.BelowLowMask | CMSIS/RTOS/Validation/Source/RV_Signal.c:314 | any word at most a low mask lies within it |
| SignalModel.SmallMasks | CMSIS/RTOS/Validation/Source/RV_Signal.c:358 | flags 1 (and 2, 3 when there are at least two flags) are usable; 0x80000000 never is |
| SignalModel.BitBelowMask | CMSIS/RTOS/Validation/Source/RV_Signal.c:257 | flag i is at most SIG_FLAG_MSK iff i < osFeature_Signals |
| SignalModel.BitInRange | CMSIS/RTOS/Validation/Source/RV_Signal.c:253 | flag i is a usable flag iff i < osFeature_Signals |
| SignalModel.LowBitsGrow | CMSIS/RTOS/Validation/Source/RV_Signal.c:253-255 | adding flag i to the first i flags gives the first i+1, which is `(flags << 1) \| 1`, and `set << 1` is the next flag |
| SignalModel.LowBitsShrink | CMSIS/RTOS/Validation/Source/RV_Signal.c:263 | clearing the top flag of the first j flags leaves the first j-1 |
| SignalModel.LowBitsHalve | CMSIS/RTOS/Validation/Source/RV_Signal.c:265 | `flags >>= 1` on the first j flags gives the first j-1 |
| SignalModel.BitShiftDown | CMSIS/RTOS/Validation/Source/RV_Signal.c:264 | `clr >>= 1` moves to the flag below, and to 0 after flag 0 |
| SignalModel.SetAccumulates | CMSIS/RTOS/Validation/Source/RV_Signal.c:253 | setting flag i on the first i flags returns them and leaves the first i+1 set |
| SignalModel.ClearFromTop | CMSIS/RTOS/Validation/Source/RV_Signal.c:263 | clearing the top flag of the first j flags returns them and leaves the first j-1 |
| SignalModel.ClearRounds | CMSIS/RTOS/Validation/Source/RV_Signal.c:262-267 | one round of the clear loop: the flag is nonzero, the clear returns the expected flags, and both shifts step down one flag |
| SignalModel.ReservedBitRejected | CMSIS/RTOS/Validation/Source/RV_Signal.c:508 | setting 0x80000000 returns 0x80000000 and keeps the flags; usable flags are never 0x80000000 |
| SignalModel.SetStaysInRange | CMSIS/RTOS/Validation/Source/RV_Signal.c:123 | a set keeps the flag word within the usable bits |
| SignalModel.ClearStaysInRange | CMSIS/RTOS/Validation/Source/RV_Signal.c:247 | a clear keeps the flag word within the usable bits |
| SignalModel.WaitStaysInRange | CMSIS/RTOS/Validation/Source/RV_Signal.c:70 | a wait keeps the flag word within the usable bits |
| SignalModel.WaitAllOf | CMSIS/RTOS/Validation/Source/RV_Signal.c:410 | a nonzero-mask wait is signalled iff all mask flags are set, and then returns the mask and clears exactly those flags; otherwise the flags are kept |
| SignalModel.WaitAnyOf | CMSIS/RTOS/Validation/Source/RV_Signal.c:393-395 | a zero-mask wait is signalled iff some flag is set, and then returns all of them and clears them; otherwise the flags are kept |
| SignalModel.WaitUnsatisfied | CMSIS/RTOS/Validation/Source/RV_Signal.c:393-399 | an unsatisfied wait gives osOK with no timeout, osEventTimeout with a finite one, and suspends with osWaitForever |
| SignalModel.WaitSuspends | CMSIS/RTOS/Validation/Source/RV_Signal.c:86 | a wait suspends iff it is a thread's osWaitForever wait on a valid, unsatisfied mask; an invalid mask gives osErrorValue (line 502) |
| SignalModel.ClearAll | CMSIS/RTOS/Validation/Source/RV_Signal.c:390 | clearing SIG_FLAG_MSK returns the flags and leaves none |
| SignalModel.IsrRules | CMSIS/RTOS/Validation/Source/RV_Signal.c:111-114 | from an ISR a clear returns 0x80000000 and every wait gives osErrorISR, both keeping the flags |
| SignalModel.RelayShape | CMSIS/RTOS/Validation/Source/RV_Signal.c:180-181 | the children's next mask is `flags << 1` with bit 0 set iff it was clear before |
| SignalModel.RelayIncreases | CMSIS/RTOS/Validation/Source/RV_Signal.c:180-183 | the children's mask strictly grows, so their loops end |
| SignalModel.RelayMaskSteps | CMSIS/RTOS/Validation/Source/RV_Signal.c:170-181 | the children's masks start at 1 and follow the alternating pattern round by round |
| SignalModel.RelayMaskBounds | CMSIS/RTOS/Validation/Source/RV_Signal.c:183 | the mask of round i has top flag i |
| SignalModel.RelayMaskBelowMask | CMSIS/RTOS/Validation/Source/RV_Signal.c:183 | the mask of round i is at most SIG_FLAG_MSK iff i < osFeature_Signals |
| SignalModel.RelayRounds | CMSIS/RTOS/Validation/Source/RV_Signal.c:171-183 | one round of the children's loop: its mask is usable and nonzero while i < osFeature_Signals, and the next mask is that of round i+1 |
| SignalModel.FlagRounds | CMSIS/RTOS/Validation/Source/RV_Signal.c:311-324 | one round of the main thread's flag loop: the flag is usable while i < osFeature_Signals, and `flag <<= 1` gives the next |
| SignalModel.TopFlagBelowMask | CMSIS/RTOS/Validation/Source/RV_Signal.c:183 | a word whose top flag is i is at most SIG_FLAG_MSK iff i < osFeature_Signals |
| RvSignal.SetWalk | CMSIS/RTOS/Validation/Source/RV_Signal.c:250-257 | the set loop raises osFeature_Signals passing asserts and ends with every usable flag set |
| RvSignal.ClearWalk | CMSIS/RTOS/Validation/Source/RV_Signal.c:260-267 | the clear loop raises osFeature_Signals passing asserts and ends with no flag set |
| RvSignal.ThChildSignals | CMSIS/RTOS/Validation/Source/RV_Signal.c:129-159 | Th_ChildSignals passes its 2*osFeature_Signals+2 asserts and leaves its flags clear |
| RvSignal.SendAndReceive | CMSIS/RTOS/Validation/Source/RV_Signal.c:68-74 | a flag sent to a waiting thread is received with osEventSignal and consumed |
| RvSignal.ReplyAccepted | CMSIS/RTOS/Validation/Source/RV_Signal.c:78 | the child's reply to the main thread is accepted: it does not return 0x80000000 |
| RvSignal.WokenRound | CMSIS/RTOS/Validation/Source/RV_Signal.c:68-80 | in one woken pass of Th_Sig, the wait for `flag` on a word holding just `flag` returns osEventSignal with it and empties the word, `(signals & flag) != 0` holds, and the reply on the main thread returns its flags, not 0x80000000 |
| RvSignal.ReplyReceived | CMSIS/RTOS/Validation/Source/RV_Signal.c:315-319 | the main thread receives the reply flag and keeps its other flags |
| RvSignal.EndlessWait | CMSIS/RTOS/Validation/Source/RV_Signal.c:86 | the child's final wait on SIG_FLAG_MSK with no flags suspends it |
| RvSignal.ChildrenPost | CMSIS/RTOS/Validation/Source/RV_Signal.c:358-362 | after both children post 0x02 and 0x01, the main thread's wait on 0x03 is signalled with 0x03 |
| RvSignal.WaitTimeoutScript | CMSIS/RTOS/Validation/Source/RV_Signal.c:393-423 | the waits of TC_SignalWaitTimeout give osOK, osEventTimeout, osOK, osEventTimeout on no flags, and osEventSignal after the setters post 3 and 5 |
| RvSignal.InterruptScript | CMSIS/RTOS/Validation/Source/RV_Signal.c:533-546 | the ISR's set is received by the main thread; the ISR's clear is refused and the thread's clear returns 1 |
| RvSignal.SignalSuite.SignalIrqHandler | CMSIS/RTOS/Validation/Source/RV_Signal.c:108-116 | case 0 sets flag 1 on Var_ThreadId, case 1 returns 0x80000000, cases 2-4 give osErrorISR; each case writes only its own capture variable and only case 0 changes flags |
| RvSignal.SignalSuite.SignalMainThread | CMSIS/RTOS/Validation/Source/RV_Signal.c:239-269 | TC_SignalMainThread passes its 2*osFeature_Signals+1 asserts and leaves no flag set |
| RvSignal.SignalSuite.SignalChildThread | CMSIS/RTOS/Validation/Source/RV_Signal.c:284-286 | TC_SignalChildThread's create assert and the child's 2*osFeature_Signals+2 asserts all pass, and the child's flags end clear (the child's asserts are counted here; see ## Left out) |
| RvSignal.SignalSuite.SignalParam | CMSIS/RTOS/Validation/Source/RV_Signal.c:495-510 | the invalid-parameter calls fail as asserted and leave the main thread's flags unchanged |
| RvSignal.SignalSuite.ThSignalSet | CMSIS/RTOS/Validation/Source/RV_Signal.c:121-124 | Th_SignalSet sets its argument's flags on Var_ThreadId |
| RvSignal.SignalSuite.WaitWithoutFlags | CMSIS/RTOS/Validation/Source/RV_Signal.c:393-399 | the four waits with no flags set pass their asserts and leave no flag |
| RvSignal.SignalSuite.WaitForSetter | CMSIS/RTOS/Validation/Source/RV_Signal.c:402-424 | the waits for the setter threads' flags are signalled |
| RvSignal.SignalSuite.SignalWaitTimeout | CMSIS/RTOS/Validation/Source/RV_Signal.c:381-428 | TC_SignalWaitTimeout passes its 9 asserts and leaves no flag set |
| RvSignal.SignalSuite.ThSigStep | CMSIS/RTOS/Validation/Source/RV_Signal.c:68-81 | one round of Th_Sig: it receives the flag, replies with it to the main thread and moves to the next flag |
| RvSignal.SignalSuite.ChildToParentRound | CMSIS/RTOS/Validation/Source/RV_Signal.c:311-323 | one round of TC_SignalChildToParent with the child's reply passes its 6 asserts |
| RvSignal.SignalSuite.MainReceives | CMSIS/RTOS/Validation/Source/RV_Signal.c:315-320 | the main thread's wait for the reply passes both asserts |
| RvSignal.SignalSuite.SignalChildToParent | CMSIS/RTOS/Validation/Source/RV_Signal.c:295-329 | TC_SignalChildToParent passes its 6*osFeature_Signals+3 asserts, the last on osThreadTerminate, and leaves the child suspended in its final wait |
| RvSignal.SignalSuite.SigChildEnds | CMSIS/RTOS/Validation/Source/RV_Signal.c:83-86 | Th_Sig leaves its loop and suspends in its final wait |
| RvSignal.SignalSuite.RelayRound | CMSIS/RTOS/Validation/Source/RV_Signal.c:171-212 | one round of the two children's relay passes its 4 asserts and leaves both flag words clear |
| RvSignal.SignalSuite.SignalChildToChild | CMSIS/RTOS/Validation/Source/RV_Signal.c:343-368 | TC_SignalChildToChild with both children passes its 4*osFeature_Signals+5 asserts |
| RvSignal.SignalSuite.ChildrenToMain | CMSIS/RTOS/Validation/Source/RV_Signal.c:185 | the children's final posts satisfy the main thread's wait on 0x03 (lines 215, 358-362) |
| RvSignal.SignalSuite.IsrSetsFlag | CMSIS/RTOS/Validation/Source/RV_Signal.c:533-539 | the ISR's set returns 0 and the main thread receives flag 1 |
| RvSignal.SignalSuite.IsrClearRefused | CMSIS/RTOS/Validation/Source/RV_Signal.c:541-546 | the ISR's clear returns 0x80000000 and the flag survives until the thread clears it |
| RvSignal.SignalSuite.IsrWaitRefused | CMSIS/RTOS/Validation/Source/RV_Signal.c:548-561 | a wait pended from the ISR gives osErrorISR and changes no flags |
| RvSignal.SignalSuite.SignalInterrupts | CMSIS/RTOS/Validation/Source/RV_Signal.c:518-567 | TC_SignalInterrupts passes its 10 asserts, leaves the IRQ disabled and no flag set |
| WaitModel.Delay | CMSIS/RTOS/Validation/Source/RV_GenWait.c:56 | osDelay gives osErrorISR iff it is called from an ISR, and osEventTimeout from a thread (line 25) |
| WaitModel.WaitEvent | CMSIS/RTOS/Validation/Source/RV_GenWait.c:58 | osWait with no event to wake it is a delay: osErrorISR iff it is called from an ISR, and osEventTimeout from a thread (line 27) |
| RvGenWait.HandlerResult | CMSIS/RTOS/Validation/Source/RV_GenWait.c:22-30 | a case the handler dispatches gives osErrorISR; any other case leaves Stat_Isr as it was |
| RvGenWait.GenWaitSuite.GenWaitIrqHandler | CMSIS/RTOS/Validation/Source/RV_GenWait.c:22-30 | the handler stores the result of the dispatched case, osDelay for 0 and osWait for 1 when osFeatureWait is defined |
| RvGenWait.GenWaitSuite.GenWaitBasic | CMSIS/RTOS/Validation/Source/RV_GenWait.c:55-60 | TC_GenWaitBasic passes with 1 assert, or 2 when osFeatureWait is defined |
| RvGenWait.GenWaitSuite.PendWith | CMSIS/RTOS/Validation/Source/RV_GenWait.c:74-83 | pending the IRQ with a dispatched case leaves osErrorISR in Stat_Isr |
| RvGenWait.GenWaitSuite.GenWaitInterrupts | CMSIS/RTOS/Validation/Source/RV_GenWait.c:68-87 | TC_GenWaitInterrupts passes with 1 or 2 asserts and leaves the IRQ disabled |
| NnArith.Pow2 | CMSIS/NN/Source/ConvolutionFunctions/arm_convolve_CHW_q15_basic_nonsquare.c:192 | `1 << s` is positive |
| NnArith.Shr | CMSIS/NN/Source/ConvolutionFunctions/arm_convolve_CHW_q15_basic_nonsquare.c:215 | the arithmetic `sum >> out_shift` rounds toward minus infinity: 2^s * r <= x < 2^s * (r + 1) |
| NnArith.SatMaxValues | CMSIS/NN/Source/ConvolutionFunctions/arm_nn_CHW_mat_mult_kernel_q7_q15.c:135 | the `__SSAT` bounds are 127 for 8 bits and 32767 for 16 bits |
| NnArith.Ssat | CMSIS/NN/Source/ConvolutionFunctions/arm_convolve_CHW_q15_basic_nonsquare.c:215 | `__SSAT(v, bits)` lies in the signed range, is v inside it, and clamps to the nearer bound outside it |
| NnArith.Smlad | CMSIS/NN/Source/ConvolutionFunctions/arm_nn_CHW_mat_mult_kernel_q7_q15.c:106-117 | `__SMLAD(x, y, acc)` is acc plus the product of the low signed 16-bit halves plus the product of the high halves (also arm_convolve_CHW_q15_basic_nonsquare.c lines 202-203) |
| NnArith.ReadAndPad | CMSIS/NN/Source/ConvolutionFunctions/arm_nn_CHW_mat_mult_kernel_q7_q15.c:102-103 | `read_and_pad` at k gives q7 weights k, k+1 as the first pair of halves and k+2, k+3 as the second, each sign-extended |
| NnArith.DotExtend | CMSIS/NN/Source/ConvolutionFunctions/arm_convolve_CHW_q15_basic_nonsquare.c:208-214 | one remainder step `sum += inA1 * inB1` extends the dot product by one term |
| NnArith.DotExtend4 | CMSIS/NN/Source/ConvolutionFunctions/arm_convolve_CHW_q15_basic_nonsquare.c:195-206 | two `__SMLAD`s on four elements extend the dot product by those four terms |
| NnArith.ChwBounds | CMSIS/NN/Source/ConvolutionFunctions/arm_convolve_CHW_q15_basic_nonsquare.c:144-148 | a CHW index of an in-range element lies inside the tensor |
| NnArith.ChwNextPlane | CMSIS/NN/Source/ConvolutionFunctions/arm_convolve_CHW_q15_basic_nonsquare.c:148-149 | advancing by a plane (`pSrc += single_in_map_size`, `pDest += kernel_size_2d`) moves to the next channel |
| NnArith.ChwInjective | CMSIS/NN/Source/ConvolutionFunctions/arm_convolve_CHW_q15_basic_nonsquare.c:216 | distinct in-range (channel, row, column) triples have distinct CHW positions |
| NnArith.ChwSplit | CMSIS/NN/Source/ConvolutionFunctions/arm_convolve_CHW_q15_basic_nonsquare.c:131-132 | every position of a CHW buffer is the CHW index of exactly one in-range triple |
| ConvolveChwQ15.Column | CMSIS/NN/Source/ConvolutionFunctions/arm_convolve_CHW_q15_basic_nonsquare.c:121-151 | the im2col column of an output pixel has ch_im_in * kernel_size_2d entries |
| ConvolveChwQ15.ColumnAt | CMSIS/NN/Source/ConvolutionFunctions/arm_convolve_CHW_q15_basic_nonsquare.c:131-151 | column entry (c, dy, dx) is the input element under the kernel tap, or 0 where the tap falls in the padding |
| ConvolveChwQ15.Row | CMSIS/NN/Source/ConvolutionFunctions/arm_convolve_CHW_q15_basic_nonsquare.c:181 | output channel i's weights are the i-th run of ch_im_in * kernel_size_2d weights |
| ConvolveChwQ15.Int16 | CMSIS/NN/Source/ConvolutionFunctions/arm_convolve_CHW_q15_basic_nonsquare.c:104 | storing a product in an int16_t such as `single_in_map_size` or `map_size_out` (line 183) keeps the value in [-2^15, 2^15) congruent to it modulo 2^16, and leaves a value already in range unchanged |
| ConvolveChwQ15.SrcAsWritten | CMSIS/NN/Source/ConvolutionFunctions/arm_convolve_CHW_q15_basic_nonsquare.c:144-148 | the Im_in offset the im2col copy reads for channel c of input pixel (iy, ix), as written: the pixel's offset iy·dim_im_in_x + ix plus c steps of the int16_t `single_in_map_size` (line 104) |
| ConvolveChwQ15.SrcAsWrittenFits | CMSIS/NN/Source/ConvolutionFunctions/arm_convolve_CHW_q15_basic_nonsquare.c:144-148 | while the input plane has at most 2^15 - 1 pixels, advancing pSrc by `single_in_map_size` per channel reaches the CHW position of the tap |
| ConvolveChwQ15.PlaneStrideWraps | CMSIS/NN/Source/ConvolutionFunctions/arm_convolve_CHW_q15_basic_nonsquare.c:104 | for a two-channel 200 x 200 input the copy as written reads channel 1 of pixel (0, 0) at offset -25536, outside Im_in, where the CHW position is 40000 (lines 144-148) |
| ConvolveChwQ15.OutAsWritten | CMSIS/NN/Source/ConvolutionFunctions/arm_convolve_CHW_q15_basic_nonsquare.c:182-183 | the Im_out offset filter i of output pixel (oy, ox) is stored at, as written: the pixel's index plus i steps of the int16_t `map_size_out` (line 216) |
| ConvolveChwQ15.OutAsWrittenFits | CMSIS/NN/Source/ConvolutionFunctions/arm_convolve_CHW_q15_basic_nonsquare.c:182-183 | while the output plane has at most 2^15 - 1 pixels, advancing pOut by `map_size_out` per filter reaches the CHW position of the result (line 216) |
| ConvolveChwQ15.OutStrideWraps | CMSIS/NN/Source/ConvolutionFunctions/arm_convolve_CHW_q15_basic_nonsquare.c:183 | for a 200 x 200 output with two filters (one input channel, 1 x 1 kernel, stride 1, no padding) the shape passes ShapeFits and the store as written puts filter 1 of pixel (0, 0) at offset -25536, before Im_out, where the CHW position is 40000 (line 216) |
| ConvolveChwQ15.FillTap | CMSIS/NN/Source/ConvolutionFunctions/arm_convolve_CHW_q15_basic_nonsquare.c:131-151 | the channel loop of one kernel tap fills that tap's entry for every channel and changes no other entry of bufferA |
| ConvolveChwQ15.FillPatchRow | CMSIS/NN/Source/ConvolutionFunctions/arm_convolve_CHW_q15_basic_nonsquare.c:126-152 | one kernel row's taps are filled in addition to the earlier rows' |
| ConvolveChwQ15.FilledIsColumn | CMSIS/NN/Source/ConvolutionFunctions/arm_convolve_CHW_q15_basic_nonsquare.c:124-153 | once every tap is filled, bufferA's prefix is the im2col column |
| ConvolveChwQ15.Im2col | CMSIS/NN/Source/ConvolutionFunctions/arm_convolve_CHW_q15_basic_nonsquare.c:121-153 | the im2col loops leave the pixel's column in bufferA, and nothing beyond it changes |
| ConvolveChwQ15.FilterSum | CMSIS/NN/Source/ConvolutionFunctions/arm_convolve_CHW_q15_basic_nonsquare.c:188-214 | the `__SMLAD` loop over groups of four and the `& 0x3` remainder loop compute init plus the dot product of the weight row and the column |
| ConvolveChwQ15.FilterOutput | CMSIS/NN/Source/ConvolutionFunctions/arm_convolve_CHW_q15_basic_nonsquare.c:184-215 | the value stored for channel i is the reference output: bias term, dot product, shift, 16-bit saturation |
| ConvolveChwQ15.PixelOutputs | CMSIS/NN/Source/ConvolutionFunctions/arm_convolve_CHW_q15_basic_nonsquare.c:181-217 | every channel of the pixel gets its reference output at its CHW position, one whole output plane per filter as recorded under ## Findings; no other output changes |
| ConvolveChwQ15.ConvolveRow | CMSIS/NN/Source/ConvolutionFunctions/arm_convolve_CHW_q15_basic_nonsquare.c:116-222 | one output row is complete in addition to the earlier rows, nothing beyond the output tensor changes, and bufferA starts with the column of the row's last pixel |
| ConvolveChwQ15.ConvolveChwQ15BasicNonsquare | CMSIS/NN/Source/ConvolutionFunctions/arm_convolve_CHW_q15_basic_nonsquare.c:76-227 | returns ARM_MATH_SUCCESS with every output `Im_out[i][oy][ox]` equal to the saturated, shifted dot product of weight row i and the zero-padded patch, plus the bias term; nothing beyond the output tensor or the column changes, and bufferA is left holding the column of the last output pixel (untouched when the output is empty) |
| MatMultKernelChwQ7Q15.WeightRow | CMSIS/NN/Source/ConvolutionFunctions/arm_nn_CHW_mat_mult_kernel_q7_q15.c:79 | row r of A is numCol_A weights, the second row of a pair starting numCol_A after the first |
| MatMultKernelChwQ7Q15.InColumn | CMSIS/NN/Source/ConvolutionFunctions/arm_nn_CHW_mat_mult_kernel_q7_q15.c:75-76 | the two im2col columns of the buffer are numCol_A entries each, the second right after the first |
| MatMultKernelChwQ7Q15.PairSums | CMSIS/NN/Source/ConvolutionFunctions/arm_nn_CHW_mat_mult_kernel_q7_q15.c:88-134 | the four accumulators of a row pair end as their bias terms plus the dot products of each row with each column |
| MatMultKernelChwQ7Q15.RowSums | CMSIS/NN/Source/ConvolutionFunctions/arm_nn_CHW_mat_mult_kernel_q7_q15.c:155-188 | the two accumulators of the left-over row end as its bias term plus its dot products with both columns |
| MatMultKernelChwQ7Q15.RowPairOutputs | CMSIS/NN/Source/ConvolutionFunctions/arm_nn_CHW_mat_mult_kernel_q7_q15.c:70-138 | the four values stored for row pair iRow are the reference outputs of rows 2*iRow and 2*iRow+1 on both columns |
| MatMultKernelChwQ7Q15.LastRowOutputs | CMSIS/NN/Source/ConvolutionFunctions/arm_nn_CHW_mat_mult_kernel_q7_q15.c:145-191 | the two values stored for the left-over row are its reference outputs |
| MatMultKernelChwQ7Q15.OutPosWritten | CMSIS/NN/Source/ConvolutionFunctions/arm_nn_CHW_mat_mult_kernel_q7_q15.c:71-72 | output (r, j) lies at `pOut_base + r * out_stride + j`, one of the written positions |
| MatMultKernelChwQ7Q15.EarlierRowsBefore | CMSIS/NN/Source/ConvolutionFunctions/arm_nn_CHW_mat_mult_kernel_q7_q15.c:71 | the outputs of earlier rows lie before the current row's, so a later store never overwrites them |
| MatMultKernelChwQ7Q15.StorePair | CMSIS/NN/Source/ConvolutionFunctions/arm_nn_CHW_mat_mult_kernel_q7_q15.c:135-138 | storing row r's two outputs completes rows up to r and keeps every position the kernel does not write |
| MatMultKernelChwQ7Q15.MatMultKernel | CMSIS/NN/Source/ConvolutionFunctions/arm_nn_CHW_mat_mult_kernel_q7_q15.c:50-196 | returns `pOut + 2`, with output (r, j) at `pOut + r * out_stride + j` equal to the 8-bit saturated, shifted bias-plus-dot-product of weight row r and column j, for every row including an odd last one; every other position of the output is unchanged |

## Left out

- TC_MsgQCheckTimeout and TC_SignalCheckTimeout (with Th_MsgQWakeup and Th_Sig_Wakeup): they measure elapsed ticks against timing windows. Time, the scheduler and thread priorities are not modelled.
- Blocking is modelled by its outcome only. An unsatisfied finite wait runs to its deadline at once, and an unsatisfied osWaitForever suspends the caller. Cross-thread tests are scripted in the order the priorities in the source give, except TC_SignalChildThread (below).
- osThreadCreate, osThreadGetId and osThreadTerminate always succeed. Their asserts are counted as passing; thread termination has no further effect.
- Th_Sig's `TST_SIG_ISR` busy loop (RV_Signal.c:89-91) is not used by any test case here and is not modelled.
- RvSignal.SignalSuite.SignalChildThread: Th_ChildSignals has osPriorityNormal (RV_Signal.c:24), the default priority of the main thread, so osThreadCreate does not switch to it. The child runs only once the main thread blocks in a later test case, and its 2*osFeature_Signals+2 asserts are raised during that test case. The model runs the child at once and counts its asserts in TC_SignalChildThread. The child touches only its own flags, so no other test's outcome changes.
- RvSignal.SignalSuite.ThSigStep: models only the woken path of Th_Sig's round. The timeout branch cannot happen once the main thread has sent the flag.
- RvMsgQueue.MsgQueueSuite.MsgQWait: models Th_MsgQWait's loop for its first pass only. With a non-NULL argument it returns after the first message.
- RvMsgQueue.MsgQueueSuite.MsgQTimerCallback: stated only for ISR cases 7 and 8, the only ones the stream tests install.
- The streaming tests require a schedule with more timer firings than the timeout allows (`Ticks(schedule) > 25`). A kernel that never runs the timer is not modelled. Firings after the thread's loop has ended and before the timer is deleted are not modelled.
- osTimerCreate, osTimerStart and osTimerDelete always succeed; the timer's own timing is the schedule.
- The signal tests require osFeature_Signals >= 2 (TC_SignalWaitTimeout, TC_SignalChildToChild use flag 2). The stream tests require osFeature_Signals >= 3 for SIGNAL_TIMER_TOUT.
- osFeatureWait is the suite parameter `featureWait`. Whether the kernel defines it is kernel configuration, which is not part of this model.
- The floating-point kernel arm_convolve_CHW_f32_basic_nonsquare.c and the `#else` HWC-column branch of the q15 convolution (lines 154-178) are not modelled; the source defines USE_CHW_IN_COL just before.
- NnArith.Smlad and all accumulators: q31 accumulators are unbounded integers. The 32-bit wrap-around of `__SMLAD` and `+=` on overflow is not modelled.
- NnArith.ReadAndPad: modelled as the in-order pairs (k, k+1) and (k+2, k+3), sign-extended to q15. Its body is not part of this model.
- NN_ROUND(out_shift) is the parameter `nnRound` of Scaling. Its definition depends on a build option that is not part of this model.
- ConvolveChwQ15.ConvolveChwQ15BasicNonsquare: requires the shape to fit the int16_t/uint16_t locals of the source (ShapeFits) and both shifts below 32 (ScalingFits). Wrap-around of those locals is not modelled. The exceptions are `single_in_map_size` and `map_size_out`: the model advances by the whole input plane and the whole output plane, as the Findings below explain.
- ConvolveChwQ15.ConvolveChwQ15BasicNonsquare: Im_in and wt are values, and bufferA and Im_out are distinct arrays. Aliasing between inputs and buffers is not modelled. bufferB is unused by the source and is not written.
- MatMultKernelChwQ7Q15.MatMultKernel: requires out_stride >= 2, so that the two outputs of a row never overlap the next row's. Overlapping output layouts are not modelled.
- MatMultKernelChwQ7Q15.MatMultKernel: requires a non-NULL bias of ch_im_out entries, because the source reads it unconditionally. pA and pInBuffer are values.

## Findings

| source | as written | input that shows it | evidently intended | confidence | as-written member | corrected member |
|---|---|---|---|---|---|---|
| CMSIS/NN/Source/ConvolutionFunctions/arm_convolve_CHW_q15_basic_nonsquare.c:104 | `single_in_map_size` is an int16_t, so `dim_im_in_x * dim_im_in_y` wraps once the plane exceeds 32767 pixels; `pSrc += single_in_map_size` (line 148) then steps to a wrong channel offset | ch_im_in = 2 with a 200 x 200 input (1 x 1 kernel, stride 2, 100 x 100 output): channel 1 of pixel (0, 0) is read at offset -25536, outside Im_in, instead of 40000 | the documentation (lines 72-73) says the function works for any input tensor and weight dimension, so each channel step should be the whole plane | medium: the conversion to int16_t is implementation-defined in C, and Arm compilers wrap; not executed | ConvolveChwQ15.PlaneStrideWraps | ConvolveChwQ15.FillTap |
| CMSIS/NN/Source/ConvolutionFunctions/arm_convolve_CHW_q15_basic_nonsquare.c:183 | `map_size_out` is an int16_t, so `dim_im_out_x * dim_im_out_y` wraps once the output plane exceeds 32767 pixels; `pOut += map_size_out` (line 216) then steps to a wrong filter offset | ch_im_in = 1, ch_im_out = 2, a 200 x 200 input and output, 1 x 1 kernel, stride 1, no padding: filter 1 of pixel (0, 0) is written at offset -25536, before the start of Im_out, instead of 40000 | each filter's result should go one whole output plane further, the CHW layout the documentation (lines 72-73) promises for any dimension | medium: the conversion to int16_t is implementation-defined in C, and Arm compilers wrap; not executed | ConvolveChwQ15.OutStrideWraps | ConvolveChwQ15.PixelOutputs |

With a single input channel the wrapped input step is added only after the
last read, so such inputs read correctly even as written; likewise a single
filter never uses the wrapped output step. The corrected model steps by the
whole input plane and the whole output plane, and `ShapeFits` places no
bound on either plane size.
