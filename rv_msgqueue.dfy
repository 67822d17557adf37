/*
 * The message queue test cases of RV_MsgQueue.c, run against the message
 * queue model.
 *
 * The file's globals (G_MsgQ_ThreadId, G_MsgQ_TimerId, the timer's timeout
 * and period, G_MsgQ_Counter, MsgQ_Id, MsgWaitCnt, MsgQId_Isr, MsgQSt_Isr,
 * MsgQEv_Isr, and the framework's ISR_ExNum / TST_IRQHandler) are the fields
 * of MsgQueueSuite. Every ASSERT_TRUE contributes its condition to
 * `report`, and each test case is proved to pass. SetPendingIRQ is a
 * synchronous call of the installed handler in ISR context; an ASSERT_TRUE
 * raised in the handler is returned to the code that pended it.
 *
 * The two stream tests run a thread loop against a periodic timer whose
 * callback pends the IRQ. The timer may fire any number of times between
 * two kernel calls of the thread: a `Gap` says how often it fires before
 * the thread's put or get and before its osSignalWait, and a schedule of
 * gaps is any interleaving of the thread and the timer.
 */
module RvMsgQueue {
  import opened RtosTypes
  import opened Wrappers
  import opened MsgQueueModel
  import opened SignalModel

  /** MSGQ_SZ: the capacity of both queues. */
  const MsgQSz: nat := 16

  /** SIGNAL_TIMER_TOUT: the flag the timer raises on G_MsgQ_ThreadId once its time is up. */
  const SignalTimerTout: bv32 := 0x04

  /** MSG_THREAD_TO_ISR_PERIOD and MSG_ISR_TO_THREAD_PERIOD, in ms. */
  const StreamPeriod: int := 2

  /** MSG_THREAD_TO_ISR_TIMEOUT and MSG_ISR_TO_THREAD_TIMEOUT, in ms. */
  const StreamTimeout: int := 50

  /** The timer has raised SIGNAL_TIMER_TOUT in the flags `f`. */
  predicate TimerFlagUp(f: bv32)
  {
    f & SignalTimerTout != 0
  }

  /** The timer's flag raised on flags `f` is up afterwards, and stays a usable flag. */
  lemma TimerSignalRaised(msk: bv32, f: bv32)
    requires InRange(msk, SignalTimerTout) && InRange(msk, f)
    ensures InRange(msk, SetSpec(msk, f, SignalTimerTout).flags)
    ensures TimerFlagUp(SetSpec(msk, f, SignalTimerTout).flags)
  {
  }

  /**
   * osSignalWait(SIGNAL_TIMER_TOUT, 1) is signalled exactly when the timer's
   * flag is up; otherwise it times out. The flags stay usable.
   */
  lemma TimerSignalTaken(msk: bv32, f: bv32)
    requires InRange(msk, SignalTimerTout) && InRange(msk, f)
    ensures IsSignalled(WaitSpec(msk, f, SignalTimerTout, 1, Thread).outcome) <==> TimerFlagUp(f)
    ensures InRange(msk, WaitSpec(msk, f, SignalTimerTout, 1, Thread).flags)
  {
  }

  /** The timer's flag is usable when the kernel has at least three signal flags. */
  lemma TimerFlagUsable(n: SignalCount)
    requires 3 <= n
    ensures InRange(FlagMask(n), SignalTimerTout)
  {
    BitInRange(n, 2);
  }

  // ---------------------------------------------------------------------
  // Message streams
  // ---------------------------------------------------------------------

  /** One side of a message stream after a step: the queue, that side's counter, and the ASSERT_TRUEs it raised. */
  datatype StreamStep = StreamStep(items: seq<Word>, count: Word, rep: seq<bool>)

  /**
   * The producer's step of a stream (Isr_MsgSend, and the put of
   * TC_MsgFromThreadToISR's loop): put the counter with no wait; count the
   * message when it is queued, otherwise check that the queue was full.
   */
  function ProduceStep(items: seq<Word>, capacity: nat, count: Word, ctx: Context): StreamStep
  {
    var s := PutStep(items, capacity, count, 0, ctx);
    if s.outcome == Returns(OK) then StreamStep(s.items, Inc32(count), [])
    else StreamStep(s.items, count, [s.outcome == Returns(ErrorResource)])
  }

  /**
   * The consumer's step of a stream (Isr_MsgReceive, and the get of
   * TC_MsgFromISRToThread's loop): get with no wait; a message must carry
   * the counter, which then advances, and otherwise the get must report an
   * empty queue.
   */
  function ConsumeStep(items: seq<Word>, count: Word, ctx: Context): StreamStep
  {
    var s := GetStep(items, 0, ctx);
    if s.outcome.Returns? && s.outcome.value.status == EventMessage then
      StreamStep(s.items, Inc32(count), [s.outcome.value.v == count])
    else
      StreamStep(s.items, count, [s.outcome.Returns? && s.outcome.value.status == OK])
  }

  /**
   * The stream invariant, producer side: on a queue holding exactly the
   * words `[lo, hi)` of the producer's count `hi`, a put either succeeds and
   * advances the count to `hi + 1`, or finds the queue full and fails with
   * osErrorResource; either way the queue holds `[lo, count)` again.
   */
  lemma ProduceKeepsStream(lo: Word, hi: Word, capacity: nat, ctx: Context)
    requires lo <= hi < 0xFFFF_FFFF && hi - lo <= capacity
    ensures var s := ProduceStep(Range(lo, hi), capacity, hi, ctx);
      Passed(s.rep) && s.items == Range(lo, s.count)
      && s.count == if hi - lo < capacity then hi + 1 else hi
  {
    if hi - lo < capacity {
      RangeGrow(lo, hi);
    }
  }

  /**
   * The stream invariant, consumer side: on a queue holding exactly the
   * words `[lo, hi)` with the consumer's count at `lo`, a get either
   * receives `lo` itself and advances the count, or finds the queue empty
   * and reports osOK; either way the queue holds `[count, hi)` again.
   */
  lemma ConsumeKeepsStream(lo: Word, hi: Word, ctx: Context)
    requires lo <= hi
    ensures var s := ConsumeStep(Range(lo, hi), lo, ctx);
      Passed(s.rep) && s.items == Range(s.count, hi)
      && s.count == if lo < hi then lo + 1 else lo
  {
    if lo < hi {
      RangeShrink(lo, hi);
    }
  }

  /** The timer firings of a thread's pass: before its put or get, and before its osSignalWait. */
  datatype Gap = Gap(beforeCall: nat, beforeWait: nat)

  /** The timer firings a schedule allows in all. */
  function Ticks(schedule: seq<Gap>): nat
  {
    if schedule == [] then 0 else schedule[0].beforeCall + schedule[0].beforeWait + Ticks(schedule[1..])
  }

  /** The timer firings of a schedule are those of its first gap and of the rest. */
  lemma TicksFrom(schedule: seq<Gap>, k: nat)
    requires k < |schedule|
    ensures Ticks(schedule[k..]) == schedule[k].beforeCall + schedule[k].beforeWait + Ticks(schedule[k + 1..])
  {
    assert schedule[k..][1..] == schedule[k + 1..];
  }

  // ---------------------------------------------------------------------
  // Kernel timers, as far as the stream tests use them
  // ---------------------------------------------------------------------

  /** A timer object of the kernel: created stopped, then started. */
  class Timer {
    var running: bool

    constructor ()
      ensures !running
    {
      running := false;
    }
  }

  /** osTimerCreate(timer_def, osTimerPeriodic, NULL) from a thread. */
  method TimerCreate() returns (t: Timer?)
    ensures t != null && fresh(t) && !t.running
  {
    t := new Timer();
  }

  /** osTimerStart(timer_id, millisec) on a created timer. */
  method TimerStart(t: Timer, millisec: Word) returns (s: Status)
    modifies t
    ensures s == OK && t.running
  {
    t.running := true;
    s := OK;
  }

  /** osTimerDelete(timer_id) on a created timer: it stops for good. */
  method TimerDelete(t: Timer) returns (s: Status)
    modifies t
    ensures s == OK && !t.running
  {
    t.running := false;
    s := OK;
  }

  /** The word osMessagePut from the ISR puts, for handler cases 1, 2 and 5. */
  function IsrInfo(sel: int): Word
  {
    if sel == 1 then 1 else 2
  }

  /** The timeout of the ISR's osMessagePut or osMessageGet, for handler cases 1 to 6. */
  function IsrTimeout(sel: int): Word
  {
    if sel == 1 || sel == 3 then 0 else if sel == 2 || sel == 4 then 10 else WaitForever
  }

  /** The globals of RV_MsgQueue.c and the thread running the test cases. */
  class MsgQueueSuite {
    /** osFeature_Signals */
    const n: SignalCount
    /** the main thread, which osThreadGetId() returns in the test cases */
    const main: OsThread
    var threadId: OsThread?
    var timerId: Timer?
    var timerTimeout: int
    var timerPeriod: int
    var counter: Word
    var msgQId: MessageQueue?
    var msgWaitCnt: Word
    var msgQIdIsr: MessageQueue?
    var msgQStIsr: Status
    var msgQEvIsr: MsgEvent
    var isrExNum: int
    var tstIrqHandler: Handler
    var irqEnabled: bool
    var report: seq<bool>

    constructor (n: SignalCount, main: OsThread)
      ensures this.n == n && this.main == main
      ensures threadId == null && timerId == null && msgQId == null && msgQIdIsr == null
      ensures !irqEnabled && tstIrqHandler == NoHandler && report == []
    {
      this.n := n;
      this.main := main;
      threadId := null;
      timerId := null;
      timerTimeout := 0;
      timerPeriod := 0;
      counter := 0;
      msgQId := null;
      msgWaitCnt := 0;
      msgQIdIsr := null;
      msgQStIsr := OK;
      msgQEvIsr := MsgEvent(OK, 0);
      isrExNum := 0;
      tstIrqHandler := NoHandler;
      irqEnabled := false;
      report := [];
    }

    /** SIG_FLAG_MSK */
    function Msk(): bv32
    {
      FlagMask(n)
    }

    /**
     * MsgQueue_IRQHandler: selector 0 creates a queue (refused in ISR
     * context), 1, 2 and 5 put into MsgQId_Isr, 3, 4 and 6 get from it, each
     * capturing its result; 7 and 8 run one step of the ISR side of a stream
     * on MsgQ_Id; any other selector does nothing.
     */
    method MsgQueueIrqHandler() returns (rep: seq<bool>)
      requires irqEnabled && tstIrqHandler == MsgQueueHandler
      requires 7 <= isrExNum <= 8 ==> msgQId != null && msgQId.Valid()
      requires 1 <= isrExNum <= 6 && msgQIdIsr != null ==> msgQIdIsr.Valid()
      modifies this`msgQIdIsr, this`msgQStIsr, this`msgQEvIsr, this`counter, msgQIdIsr, msgQId
      ensures isrExNum == 0 ==> msgQIdIsr == null
      ensures 1 <= isrExNum <= 6 && msgQIdIsr != null ==> msgQIdIsr.Valid()
      ensures 7 <= isrExNum <= 8 ==> msgQId.Valid()
      ensures isrExNum != 0 ==> msgQIdIsr == old(msgQIdIsr)
      ensures isrExNum in {1, 2, 5} ==>
        if msgQIdIsr == null then msgQStIsr == ErrorParameter
        else
          var s := PutStep(old(msgQIdIsr.items), msgQIdIsr.capacity, IsrInfo(isrExNum), IsrTimeout(isrExNum), Isr);
          Returns(msgQStIsr) == s.outcome && msgQIdIsr.items == s.items
      ensures isrExNum in {3, 4, 6} ==>
        if msgQIdIsr == null then msgQEvIsr == MsgEvent(ErrorParameter, 0)
        else
          var s := GetStep(old(msgQIdIsr.items), IsrTimeout(isrExNum), Isr);
          Returns(msgQEvIsr) == s.outcome && msgQIdIsr.items == s.items
      ensures isrExNum == 7 ==>
        var s := ConsumeStep(old(msgQId.items), old(counter), Isr);
        msgQId.items == s.items && counter == s.count && rep == s.rep
      ensures isrExNum == 8 ==>
        var s := ProduceStep(old(msgQId.items), msgQId.capacity, old(counter), Isr);
        msgQId.items == s.items && counter == s.count && rep == s.rep
      // each call writes its own captured result and no other
      ensures !(isrExNum in {1, 2, 5}) ==> msgQStIsr == old(msgQStIsr)
      ensures !(isrExNum in {3, 4, 6}) ==> msgQEvIsr == old(msgQEvIsr)
      ensures !(7 <= isrExNum <= 8) ==> counter == old(counter) && rep == []
      // each call changes only the queue it names
      ensures !(7 <= isrExNum <= 8) && msgQId != null && msgQId != old(msgQIdIsr) ==> msgQId.items == old(msgQId.items)
      ensures !(1 <= isrExNum <= 6) && old(msgQIdIsr) != null && old(msgQIdIsr) != msgQId ==>
        old(msgQIdIsr).items == old(msgQIdIsr.items)
    {
      rep := [];
      if isrExNum == 0 {
        msgQIdIsr := MessageCreate(Some(QueueDef(MsgQSz)), Isr);
      } else if isrExNum == 1 {
        var r := MessagePut(msgQIdIsr, 0x01, 0, Isr);
        msgQStIsr := r.value;
      } else if isrExNum == 2 {
        var r := MessagePut(msgQIdIsr, 0x02, 10, Isr);
        msgQStIsr := r.value;
      } else if isrExNum == 3 {
        var r := MessageGet(msgQIdIsr, 0, Isr);
        msgQEvIsr := r.value;
      } else if isrExNum == 4 {
        var r := MessageGet(msgQIdIsr, 10, Isr);
        msgQEvIsr := r.value;
      } else if isrExNum == 5 {
        var r := MessagePut(msgQIdIsr, 0x02, WaitForever, Isr);
        msgQStIsr := r.value;
      } else if isrExNum == 6 {
        var r := MessageGet(msgQIdIsr, WaitForever, Isr);
        msgQEvIsr := r.value;
      } else if isrExNum == 7 {
        rep := IsrMsgReceive();
      } else if isrExNum == 8 {
        rep := IsrMsgSend();
      }
    }

    /** Isr_MsgReceive: the ISR's get of TC_MsgFromThreadToISR, checked against G_MsgQ_Counter. */
    method IsrMsgReceive() returns (rep: seq<bool>)
      requires msgQId != null && msgQId.Valid()
      modifies this`counter, msgQId
      ensures msgQId.Valid()
      ensures var s := ConsumeStep(old(msgQId.items), old(counter), Isr);
        msgQId.items == s.items && counter == s.count && rep == s.rep
    {
      var evt := MessageGet(msgQId, 0, Isr);
      if evt.Returns? && evt.value.status == EventMessage {
        rep := [evt.value.v == counter];
        counter := Inc32(counter);
      } else {
        rep := [evt.Returns? && evt.value.status == OK];
      }
    }

    /** Isr_MsgSend: the ISR's put of TC_MsgFromISRToThread, counted in G_MsgQ_Counter. */
    method IsrMsgSend() returns (rep: seq<bool>)
      requires msgQId != null && msgQId.Valid()
      modifies this`counter, msgQId
      ensures msgQId.Valid()
      ensures var s := ProduceStep(old(msgQId.items), msgQId.capacity, old(counter), Isr);
        msgQId.items == s.items && counter == s.count && rep == s.rep
    {
      var stat := MessagePut(msgQId, counter, 0, Isr);
      if stat == Returns(OK) {
        counter := Inc32(counter);
        rep := [];
      } else {
        rep := [stat == Returns(ErrorResource)];
      }
    }

    /**
     * MsgQ_TimerCallback: while time is left it counts one period down and
     * pends the IRQ, whose handler runs the ISR side of the stream;
     * afterwards it raises SIGNAL_TIMER_TOUT on G_MsgQ_ThreadId, if set.
     */
    method MsgQTimerCallback() returns (rep: seq<bool>)
      requires irqEnabled && tstIrqHandler == MsgQueueHandler && msgQId != null && msgQId.Valid()
      requires isrExNum == 7 || isrExNum == 8
      modifies this`timerTimeout, this`msgQIdIsr, this`msgQStIsr, this`msgQEvIsr, this`counter, msgQIdIsr, msgQId, threadId
      ensures msgQIdIsr == old(msgQIdIsr) && msgQId.Valid()
      ensures old(timerTimeout) > 0 ==> timerTimeout == old(timerTimeout) - timerPeriod
      ensures old(timerTimeout) > 0 && isrExNum == 7 ==>
        var s := ConsumeStep(old(msgQId.items), old(counter), Isr);
        msgQId.items == s.items && counter == s.count && rep == s.rep
      ensures old(timerTimeout) > 0 && isrExNum == 8 ==>
        var s := ProduceStep(old(msgQId.items), msgQId.capacity, old(counter), Isr);
        msgQId.items == s.items && counter == s.count && rep == s.rep
      ensures old(timerTimeout) > 0 && threadId != null ==> threadId.signals == old(threadId.signals)
      ensures old(timerTimeout) <= 0 ==>
        timerTimeout == old(timerTimeout) && counter == old(counter) && rep == []
        && msgQId.items == old(msgQId.items)
      ensures old(timerTimeout) <= 0 && threadId != null ==>
        threadId.signals == SetSpec(Msk(), old(threadId.signals), SignalTimerTout).flags
    {
      if timerTimeout > 0 {
        timerTimeout := timerTimeout - timerPeriod;
        // SetPendingIRQ(0)
        rep := MsgQueueIrqHandler();
      } else {
        rep := [];
        if threadId != null {
          var r := SignalSet(threadId, Msk(), SignalTimerTout);
        }
      }
    }

    /** The timer of a stream test: period 2 ms, its timeout counted down from 50 ms in whole periods. */
    ghost predicate Countdown()
      reads this
    {
      timerPeriod == StreamPeriod && 0 <= timerTimeout <= StreamTimeout && timerTimeout % StreamPeriod == 0
    }

    /**
     * The state a stream test runs in: the handler runs case `isrExNum` on
     * MsgQ_Id, the timer counts down, and the timer signals the main thread.
     */
    ghost predicate StreamSetup()
      reads this, msgQId, main
    {
      irqEnabled && tstIrqHandler == MsgQueueHandler && (isrExNum == 7 || isrExNum == 8)
      && msgQId != null && msgQId.capacity == MsgQSz && threadId == main && Countdown()
      && InRange(Msk(), main.signals) && InRange(Msk(), SignalTimerTout)
    }

    /**
     * The stream invariant with the thread's counter at `cnt`: in
     * TC_MsgFromThreadToISR (case 7) MsgQ_Id holds exactly the words from
     * the ISR's G_MsgQ_Counter up to `cnt`; in TC_MsgFromISRToThread
     * (case 8) exactly those from `cnt` up to the ISR's G_MsgQ_Counter.
     */
    ghost predicate Stream(cnt: Word)
      reads this, msgQId
    {
      msgQId != null &&
      if isrExNum == 7 then counter <= cnt <= counter + MsgQSz && msgQId.items == Range(counter, cnt)
      else cnt <= counter <= cnt + MsgQSz && msgQId.items == Range(cnt, counter)
    }

    /**
     * One firing of the timer during a stream test: with time left it is one
     * ISR step of the stream, which keeps the stream invariant and moves
     * G_MsgQ_Counter at most one up; once the time is up it raises the
     * timer's flag.
     */
    method TimerTick(cnt: Word) returns (rep: seq<bool>)
      requires StreamSetup() && Stream(cnt)
      requires isrExNum == 8 ==> counter + timerTimeout / StreamPeriod < 0xFFFF_FFFF
      modifies this`timerTimeout, this`msgQIdIsr, this`msgQStIsr, this`msgQEvIsr, this`counter, msgQIdIsr, msgQId, main
      ensures StreamSetup() && Stream(cnt) && Passed(rep) && msgQIdIsr == old(msgQIdIsr)
      ensures timerTimeout == if old(timerTimeout) > 0 then old(timerTimeout) - StreamPeriod else 0
      ensures old(counter) <= counter <= old(counter) + (old(timerTimeout) - timerTimeout) / StreamPeriod
      ensures old(timerTimeout) == 0 ==> TimerFlagUp(main.signals)
      ensures TimerFlagUp(old(main.signals)) ==> TimerFlagUp(main.signals)
    {
      if timerTimeout > 0 {
        if isrExNum == 7 {
          ConsumeKeepsStream(counter, cnt, Isr);
        } else {
          ProduceKeepsStream(cnt, counter, MsgQSz, Isr);
        }
      } else {
        TimerSignalRaised(Msk(), main.signals);
      }
      rep := MsgQTimerCallback();
    }

    /**
     * The timer fires `k` times during a stream test while the thread is
     * between two calls: G_MsgQ_Counter moves at most one up per firing with
     * time left, and once the time is up the timer's flag is raised.
     */
    method TimerTicks(k: nat, cnt: Word) returns (rep: seq<bool>)
      requires StreamSetup() && Stream(cnt)
      requires isrExNum == 8 ==> counter + timerTimeout / StreamPeriod < 0xFFFF_FFFF
      modifies this`timerTimeout, this`msgQIdIsr, this`msgQStIsr, this`msgQEvIsr, this`counter, msgQIdIsr, msgQId, main
      ensures StreamSetup() && Stream(cnt) && Passed(rep) && msgQIdIsr == old(msgQIdIsr)
      ensures timerTimeout == if k <= old(timerTimeout) / StreamPeriod then old(timerTimeout) - StreamPeriod * k else 0
      ensures old(counter) <= counter <= old(counter) + (old(timerTimeout) - timerTimeout) / StreamPeriod
      ensures k > old(timerTimeout) / StreamPeriod ==> TimerFlagUp(main.signals)
      ensures TimerFlagUp(old(main.signals)) ==> TimerFlagUp(main.signals)
    {
      rep := [];
      var j := 0;
      while j < k
        invariant j <= k && StreamSetup() && Stream(cnt) && Passed(rep) && msgQIdIsr == old(msgQIdIsr)
        invariant timerTimeout == if j <= old(timerTimeout) / StreamPeriod then old(timerTimeout) - StreamPeriod * j else 0
        invariant old(counter) <= counter <= old(counter) + (old(timerTimeout) - timerTimeout) / StreamPeriod
        invariant j > old(timerTimeout) / StreamPeriod ==> TimerFlagUp(main.signals)
        invariant TimerFlagUp(old(main.signals)) ==> TimerFlagUp(main.signals)
      {
        var fired := TimerTick(cnt);
        rep := rep + fired;
        j := j + 1;
      }
    }

    // -------------------------------------------------------------------
    // Test cases
    // -------------------------------------------------------------------

    /** CreateMessageQueue: the main queue is created empty, with room for MSGQ_SZ words. */
    method CreateMessageQueue()
      modifies this`msgQId, this`report
      ensures Passed(report) && |report| == 1
      ensures msgQId != null && fresh(msgQId) && msgQId.capacity == MsgQSz && msgQId.items == []
    {
      msgQId := MessageCreate(Some(QueueDef(MsgQSz)), Thread);
      report := [msgQId != null];
    }

    /** TC_MsgQBasic, first loop: the puts of 0 .. 15 with no wait all succeed. */
    method FillQueue() returns (rep: seq<bool>)
      requires msgQId != null && msgQId.capacity == MsgQSz && msgQId.items == []
      modifies msgQId
      ensures Passed(rep) && |rep| == MsgQSz
      ensures msgQId.items == Range(0, MsgQSz)
    {
      rep := [];
      var txi: Word := 0;
      var i := 0;
      while i < MsgQSz
        invariant i <= MsgQSz && txi == i
        invariant msgQId.items == Range(0, i)
        invariant Passed(rep) && |rep| == i
      {
        RangeGrow(0, i);
        var r := MessagePut(msgQId, txi, 0, Thread);
        rep := rep + [r == Returns(OK)];
        i := i + 1;
        txi := txi + 1;
      }
    }

    /** TC_MsgQBasic: on the full queue a put fails with osErrorResource, or with osErrorTimeoutResource after waiting. */
    method FullQueueRefuses() returns (rep: seq<bool>)
      requires msgQId != null && |msgQId.items| == msgQId.capacity
      modifies msgQId
      ensures Passed(rep) && |rep| == 2
      ensures msgQId.items == old(msgQId.items)
    {
      var txi: Word := MsgQSz;
      var noWait := MessagePut(msgQId, txi, 0, Thread);
      var timed := MessagePut(msgQId, txi, 10, Thread);
      rep := [noWait == Returns(ErrorResource), timed == Returns(ErrorTimeoutResource)];
    }

    /** TC_MsgQBasic, second loop: the gets deliver 0 .. 15, in put order. */
    method DrainInOrder() returns (rep: seq<bool>)
      requires msgQId != null && msgQId.Valid() && msgQId.items == Range(0, MsgQSz)
      modifies msgQId
      ensures Passed(rep) && |rep| == 2 * MsgQSz
      ensures msgQId.items == []
    {
      rep := [];
      var txi: Word := 0;
      var i := 0;
      while i < MsgQSz
        invariant i <= MsgQSz && txi == i
        invariant msgQId.items == Range(i, MsgQSz)
        invariant Passed(rep) && |rep| == 2 * i
      {
        RangeShrink(i, MsgQSz);
        var evt := MessageGet(msgQId, 0, Thread);
        rep := rep + [evt.Returns? && evt.value.status == EventMessage];
        if evt.Returns? && evt.value.status == EventMessage {
          var rxi := evt.value.v;
          rep := rep + [rxi == txi];
        }
        i := i + 1;
        txi := txi + 1;
      }
    }

    /** TC_MsgQBasic: on the empty queue a get reports osOK with no wait, and osEventTimeout after waiting. */
    method EmptyQueueAnswers() returns (rep: seq<bool>)
      requires msgQId != null && msgQId.items == []
      modifies msgQId
      ensures Passed(rep) && |rep| == 2
      ensures msgQId.items == []
    {
      var noWait := MessageGet(msgQId, 0, Thread);
      var timed := MessageGet(msgQId, 10, Thread);
      rep := [noWait.Returns? && noWait.value.status == OK, timed.Returns? && timed.value.status == EventTimeout];
    }

    /**
     * TC_MsgQBasic: fill the queue with 0 .. 15, fail to put more, get the
     * words back in put order, and fail to get more.
     */
    method MsgQBasic()
      requires msgQId != null ==> msgQId.capacity == MsgQSz && msgQId.items == []
      modifies this`report, msgQId
      ensures Passed(report)
      ensures msgQId != null ==> |report| == 3 * MsgQSz + 4 && msgQId.items == []
    {
      report := [];
      if msgQId != null {
        var fill := FillQueue();
        var full := FullQueueRefuses();
        var drain := DrainInOrder();
        var empty := EmptyQueueAnswers();
        report := fill + full + drain + empty;
      }
    }

    /**
     * TC_MsgQWait with its Th_MsgQWait thread: the new thread counts and
     * blocks in its get on the empty queue; the main thread's put hands it
     * the word 2, so the blocked get returns it, the thread counts again and
     * returns the word through `cnt`.
     */
    method MsgQWait()
      requires msgQId != null ==> msgQId.capacity >= 1 && msgQId.items == []
      modifies this`msgWaitCnt, this`report, msgQId
      ensures Passed(report)
      ensures msgQId != null ==> |report| == 6 && msgQId.items == []
    {
      var cnt: Word := 0;
      report := [];
      if msgQId != null {
        msgWaitCnt := 0;
        // osThreadCreate(Th_MsgQWait, &cnt): the new thread runs at once, counts, and blocks
        var th: OsThread? := new OsThread();
        var created := th != null;
        msgWaitCnt := msgWaitCnt + 1;
        var evt := MessageGet(msgQId, WaitForever, Thread);
        var countedOnce := msgWaitCnt == 1;
        // the main thread's put wakes the blocked get, which then returns the word
        var r := MessagePut(msgQId, 2, WaitForever, Thread);
        evt := MessageGet(msgQId, WaitForever, Thread);
        var received := evt.Returns? && evt.value.status == EventMessage;
        msgWaitCnt := msgWaitCnt + 1;
        if received {
          cnt := evt.value.v;
        }
        report := [created, countedOnce, received, r == Returns(OK), msgWaitCnt == 2, msgWaitCnt == cnt];
      }
    }

    /** TC_MsgQParam: a NULL definition gives no queue, and a NULL queue refuses gets and puts. */
    method MsgQParam()
      modifies this`report
      ensures Passed(report) && |report| == 3
    {
      var info: Word := 0;
      var q := MessageCreate(None, Thread);
      var evt := MessageGet(null, 0, Thread);
      var r := MessagePut(null, info, 0, Thread);
      report := [q == null, evt.Returns? && evt.value.status == ErrorParameter, r == Returns(ErrorParameter)];
    }

    /** TC_MsgQInterrupts, case 0: osMessageCreate from the ISR overwrites the preset handle with NULL. */
    method IsrCreateRefused() returns (rep: seq<bool>)
      requires irqEnabled && tstIrqHandler == MsgQueueHandler
      modifies this`isrExNum, this`msgQIdIsr, this`msgQStIsr, this`msgQEvIsr, this`counter, msgQId
      ensures Passed(rep) && |rep| == 1 && msgQIdIsr == null
      ensures counter == old(counter) && (msgQId != null ==> msgQId.items == old(msgQId.items))
    {
      isrExNum := 0;
      // (osMessageQId)(-1): a handle that is not NULL
      msgQIdIsr := new MessageQueue(0);
      var fired := MsgQueueIrqHandler();
      rep := [msgQIdIsr == null];
    }

    /** TC_MsgQInterrupts, cases 1 to 3: from the ISR, a put and a get with no wait work, a put with a timeout is refused. */
    method IsrNoWaitCalls() returns (rep: seq<bool>)
      requires irqEnabled && tstIrqHandler == MsgQueueHandler
      requires msgQIdIsr != null && msgQIdIsr.capacity == MsgQSz && msgQIdIsr.items == []
      modifies this`isrExNum, this`msgQIdIsr, this`msgQStIsr, this`msgQEvIsr, this`counter, msgQIdIsr, msgQId
      ensures Passed(rep) && |rep| == 3
      ensures msgQIdIsr == old(msgQIdIsr) && msgQIdIsr.items == []
      ensures counter == old(counter) && (msgQId != null && msgQId != msgQIdIsr ==> msgQId.items == old(msgQId.items))
    {
      isrExNum := 1;
      msgQStIsr := ErrorOS;
      var fired := MsgQueueIrqHandler();
      var put := msgQStIsr == OK;
      isrExNum := 2;
      msgQStIsr := OK;
      fired := MsgQueueIrqHandler();
      var putWait := msgQStIsr == ErrorParameter;
      isrExNum := 3;
      msgQEvIsr := msgQEvIsr.(status := OK);
      fired := MsgQueueIrqHandler();
      var get := msgQEvIsr.status == EventMessage;
      rep := [put, putWait, get];
    }

    /** TC_MsgQInterrupts, cases 4 to 6: from the ISR, a get with a timeout and both endless waits are refused. */
    method IsrWaitsRefused() returns (rep: seq<bool>)
      requires irqEnabled && tstIrqHandler == MsgQueueHandler && msgQIdIsr != null && msgQIdIsr.Valid()
      modifies this`isrExNum, this`msgQIdIsr, this`msgQStIsr, this`msgQEvIsr, this`counter, msgQIdIsr, msgQId
      ensures Passed(rep) && |rep| == 3
      ensures msgQIdIsr == old(msgQIdIsr)
      ensures counter == old(counter) && (msgQId != null && msgQId != msgQIdIsr ==> msgQId.items == old(msgQId.items))
    {
      isrExNum := 4;
      msgQEvIsr := msgQEvIsr.(status := OK);
      var fired := MsgQueueIrqHandler();
      var getWait := msgQEvIsr.status == ErrorParameter;
      isrExNum := 5;
      msgQStIsr := OK;
      fired := MsgQueueIrqHandler();
      var putForever := msgQStIsr == ErrorParameter;
      isrExNum := 6;
      msgQEvIsr := msgQEvIsr.(status := OK);
      fired := MsgQueueIrqHandler();
      var getForever := msgQEvIsr.status == ErrorParameter;
      rep := [getWait, putForever, getForever];
    }

    /** TC_MsgQInterrupts: every queue call made from the ISR. */
    method MsgQInterrupts()
      modifies this`tstIrqHandler, this`irqEnabled, this`isrExNum, this`msgQIdIsr, this`msgQStIsr, this`msgQEvIsr
      modifies this`counter, this`report, msgQId
      ensures Passed(report) && |report| == 8
      ensures !irqEnabled
      ensures counter == old(counter) && (msgQId != null ==> msgQId.items == old(msgQId.items))
    {
      tstIrqHandler := MsgQueueHandler;
      irqEnabled := true;
      var rep := IsrCreateRefused();
      if msgQIdIsr == null {
        msgQIdIsr := MessageCreate(Some(QueueDef(MsgQSz)), Thread);
        rep := rep + [msgQIdIsr != null];
        if msgQIdIsr != null {
          var noWait := IsrNoWaitCalls();
          var waits := IsrWaitsRefused();
          rep := rep + noWait + waits;
        }
      }
      irqEnabled := false;
      report := rep;
    }

    /** The "ensure message queue is empty" loop of both stream tests: get until a get reports osOK. */
    method DrainQueue()
      requires msgQId != null && msgQId.Valid()
      modifies msgQId
      ensures msgQId.items == []
    {
      var emptied := false;
      while !emptied
        invariant msgQId.Valid()
        invariant emptied ==> msgQId.items == []
        decreases |msgQId.items| + if emptied then 0 else 1
      {
        var evt := MessageGet(msgQId, 0, Thread);
        emptied := evt.Returns? && evt.value.status == OK;
      }
    }

    /**
     * One pass of TC_MsgFromThreadToISR's loop: the thread puts its counter,
     * counting it when it is queued, and waits 1 ms for the timer's flag;
     * the timer fires as `gap` says. Unless the wait is signalled, the
     * timer had time left for all of the gap's firings.
     */
    method ProducerPass(gap: Gap, cnt: Word) returns (rep: seq<bool>, cntNext: Word, signalled: bool)
      requires StreamSetup() && isrExNum == 7 && Stream(cnt)
      requires counter + timerTimeout / StreamPeriod <= StreamTimeout / StreamPeriod
      modifies this`timerTimeout, this`msgQIdIsr, this`msgQStIsr, this`msgQEvIsr, this`counter, msgQIdIsr, msgQId, main
      ensures StreamSetup() && isrExNum == 7 && Stream(cntNext) && Passed(rep) && msgQIdIsr == old(msgQIdIsr)
      ensures counter + timerTimeout / StreamPeriod <= StreamTimeout / StreamPeriod
      ensures !signalled ==>
        gap.beforeCall + gap.beforeWait <= old(timerTimeout) / StreamPeriod
        && timerTimeout == old(timerTimeout) - StreamPeriod * (gap.beforeCall + gap.beforeWait)
    {
      var before := TimerTicks(gap.beforeCall, cnt);
      ProduceKeepsStream(counter, cnt, MsgQSz, Thread);
      var stat := MessagePut(msgQId, cnt, 0, Thread);
      rep := before;
      cntNext := cnt;
      if stat == Returns(OK) {
        cntNext := Inc32(cnt);
      } else {
        rep := rep + [stat == Returns(ErrorResource)];
      }
      var after := TimerTicks(gap.beforeWait, cntNext);
      rep := rep + after;
      TimerSignalTaken(Msk(), main.signals);
      var evt := SignalWait(main, Msk(), SignalTimerTout, 1, Thread);
      signalled := IsSignalled(evt);
    }

    /**
     * One pass of TC_MsgFromISRToThread's loop: the thread gets a word,
     * which must carry its counter, or finds the queue empty, and waits 1 ms
     * for the timer's flag; the timer fires as `gap` says.
     */
    method ConsumerPass(gap: Gap, cnt: Word) returns (rep: seq<bool>, cntNext: Word, signalled: bool)
      requires StreamSetup() && isrExNum == 8 && Stream(cnt)
      requires counter + timerTimeout / StreamPeriod <= StreamTimeout / StreamPeriod
      modifies this`timerTimeout, this`msgQIdIsr, this`msgQStIsr, this`msgQEvIsr, this`counter, msgQIdIsr, msgQId, main
      ensures StreamSetup() && isrExNum == 8 && Stream(cntNext) && Passed(rep) && msgQIdIsr == old(msgQIdIsr)
      ensures counter + timerTimeout / StreamPeriod <= StreamTimeout / StreamPeriod
      ensures !signalled ==>
        gap.beforeCall + gap.beforeWait <= old(timerTimeout) / StreamPeriod
        && timerTimeout == old(timerTimeout) - StreamPeriod * (gap.beforeCall + gap.beforeWait)
    {
      var before := TimerTicks(gap.beforeCall, cnt);
      ConsumeKeepsStream(cnt, counter, Thread);
      var evt := MessageGet(msgQId, 0, Thread);
      rep := before;
      cntNext := cnt;
      if evt.Returns? && evt.value.status == EventMessage {
        rep := rep + [evt.value.v == cnt];
        cntNext := Inc32(cnt);
      } else {
        rep := rep + [evt.Returns? && evt.value.status == OK];
      }
      var after := TimerTicks(gap.beforeWait, cntNext);
      rep := rep + after;
      TimerSignalTaken(Msk(), main.signals);
      var sig := SignalWait(main, Msk(), SignalTimerTout, 1, Thread);
      signalled := IsSignalled(sig);
    }

    /**
     * The stream of TC_MsgFromThreadToISR once the timer runs: the timer may
     * fire `lead` times before the counters are reset, finding the queue
     * empty; then the thread's loop runs its passes as `schedule` says until
     * its wait for the timer's flag is signalled.
     */
    method ThreadToIsrStream(lead: nat, schedule: seq<Gap>) returns (rep: seq<bool>)
      requires StreamSetup() && isrExNum == 7 && msgQId.items == [] && timerTimeout == StreamTimeout
      requires Ticks(schedule) > StreamTimeout / StreamPeriod
      modifies this`timerTimeout, this`msgQIdIsr, this`msgQStIsr, this`msgQEvIsr, this`counter, msgQIdIsr, msgQId, main
      ensures Passed(rep) && msgQIdIsr == old(msgQIdIsr)
    {
      rep := TimerTicks(lead, counter);
      counter := 0;
      var cnt: Word := 0;
      var k := 0;
      var signalled := false;
      // a do-while loop in the source
      while !signalled
        invariant k <= |schedule|
        invariant StreamSetup() && isrExNum == 7 && Stream(cnt) && msgQIdIsr == old(msgQIdIsr)
        invariant counter + timerTimeout / StreamPeriod <= StreamTimeout / StreamPeriod
        invariant !signalled ==> Ticks(schedule[k..]) > timerTimeout / StreamPeriod
        invariant Passed(rep)
        decreases |schedule| - k
      {
        TicksFrom(schedule, k);
        var pass;
        pass, cnt, signalled := ProducerPass(schedule[k], cnt);
        rep := rep + pass;
        k := k + 1;
      }
    }

    /**
     * TC_MsgFromThreadToISR: the thread puts 0, 1, 2, ... into MsgQ_Id while
     * the timer's IRQ takes the words out and checks them against
     * G_MsgQ_Counter, until the timer's time is up. The timer fires `lead`
     * times before the counters are reset and as `schedule` says during the
     * loop, any number of times between two calls; it must run out within
     * the schedule, which is what ends the loop.
     */
    method MsgFromThreadToIsr(lead: nat, schedule: seq<Gap>)
      requires 3 <= n && InRange(Msk(), main.signals)
      requires msgQId != null && msgQId.capacity == MsgQSz && msgQId.Valid()
      requires Ticks(schedule) > StreamTimeout / StreamPeriod
      modifies this`threadId, this`timerId, this`timerPeriod, this`timerTimeout, this`counter, this`isrExNum
      modifies this`tstIrqHandler, this`irqEnabled, this`report, this`msgQIdIsr, this`msgQStIsr, this`msgQEvIsr
      modifies msgQIdIsr, msgQId, main
      ensures Passed(report) && !irqEnabled
    {
      TimerFlagUsable(n);
      tstIrqHandler := MsgQueueHandler;
      isrExNum := 7;
      irqEnabled := true;
      threadId := main;
      var rep := [threadId != null];
      if threadId != null {
        DrainQueue();
        timerPeriod := StreamPeriod;
        timerTimeout := StreamTimeout;
        timerId := TimerCreate();
        rep := rep + [timerId != null];
        if timerId != null {
          var stat := TimerStart(timerId, StreamPeriod);
          rep := rep + [stat == OK];
          if stat == OK {
            var stream := ThreadToIsrStream(lead, schedule);
            rep := rep + stream;
          }
          stat := TimerDelete(timerId);
          rep := rep + [stat == OK];
        }
      }
      irqEnabled := false;
      report := rep;
    }

    /**
     * The stream of TC_MsgFromISRToThread once the timer runs: the thread's
     * loop runs its passes as `schedule` says until its wait for the timer's
     * flag is signalled.
     */
    method IsrToThreadStream(schedule: seq<Gap>) returns (rep: seq<bool>)
      requires StreamSetup() && isrExNum == 8 && msgQId.items == [] && counter == 0 && timerTimeout == StreamTimeout
      requires Ticks(schedule) > StreamTimeout / StreamPeriod
      modifies this`timerTimeout, this`msgQIdIsr, this`msgQStIsr, this`msgQEvIsr, this`counter, msgQIdIsr, msgQId, main
      ensures Passed(rep) && msgQIdIsr == old(msgQIdIsr)
    {
      rep := [];
      var cnt: Word := 0;
      var k := 0;
      var signalled := false;
      // a do-while loop in the source
      while !signalled
        invariant k <= |schedule|
        invariant StreamSetup() && isrExNum == 8 && Stream(cnt) && msgQIdIsr == old(msgQIdIsr)
        invariant counter + timerTimeout / StreamPeriod <= StreamTimeout / StreamPeriod
        invariant !signalled ==> Ticks(schedule[k..]) > timerTimeout / StreamPeriod
        invariant Passed(rep)
        decreases |schedule| - k
      {
        TicksFrom(schedule, k);
        var pass;
        pass, cnt, signalled := ConsumerPass(schedule[k], cnt);
        rep := rep + pass;
        k := k + 1;
      }
    }

    /**
     * TC_MsgFromISRToThread: the timer's IRQ puts 0, 1, 2, ... into MsgQ_Id
     * while the thread takes the words out and checks them against its
     * counter, until the timer's time is up. The timer fires as `schedule`
     * says, any number of times between two calls of the thread; it must
     * run out within the schedule, which is what ends the loop.
     */
    method MsgFromIsrToThread(schedule: seq<Gap>)
      requires 3 <= n && InRange(Msk(), main.signals)
      requires msgQId != null && msgQId.capacity == MsgQSz && msgQId.Valid()
      requires Ticks(schedule) > StreamTimeout / StreamPeriod
      modifies this`threadId, this`timerId, this`timerPeriod, this`timerTimeout, this`counter, this`isrExNum
      modifies this`tstIrqHandler, this`irqEnabled, this`report, this`msgQIdIsr, this`msgQStIsr, this`msgQEvIsr
      modifies msgQIdIsr, msgQId, main
      ensures Passed(report) && !irqEnabled
    {
      TimerFlagUsable(n);
      tstIrqHandler := MsgQueueHandler;
      isrExNum := 8;
      irqEnabled := true;
      threadId := main;
      var rep := [threadId != null];
      if threadId != null {
        DrainQueue();
        timerPeriod := StreamPeriod;
        timerTimeout := StreamTimeout;
        timerId := TimerCreate();
        rep := rep + [timerId != null];
        if timerId != null {
          counter := 0;
          var stat := TimerStart(timerId, StreamPeriod);
          rep := rep + [stat == OK];
          if stat == OK {
            var stream := IsrToThreadStream(schedule);
            rep := rep + stream;
          }
          stat := TimerDelete(timerId);
          rep := rep + [stat == OK];
        }
      }
      irqEnabled := false;
      report := rep;
    }
  }
}
