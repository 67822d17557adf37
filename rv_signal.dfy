/*
 * The signal test cases of RV_Signal.c, run against the signal model.
 *
 * The file's globals (Var_ThreadId, Sign_Isr, Evnt_Isr, and the framework's
 * ISR_ExNum / TST_IRQHandler) are the fields of SignalSuite; every ASSERT_TRUE
 * appends its condition to `report`, and each test case is proved to pass.
 * SetPendingIRQ is a synchronous call of the installed handler in ISR
 * context. Tests with several threads follow a fixed interleaving: when a
 * thread blocks in a wait that another thread satisfies within the timeout,
 * the other thread's calls are made first and the wait then returns at once,
 * which is what the waiting thread observes.
 */
module RvSignal {
  import opened RtosTypes
  import opened SignalModel

  /**
   * The set walk of TC_SignalMainThread and Th_ChildSignals: on a thread
   * without flags, set flag 1, 2, 4, ... up to SIG_FLAG_MSK, checking that
   * each set reports the flags raised before it.
   */
  method SetWalk(t: OsThread, n: SignalCount) returns (rep: seq<bool>)
    requires t.signals == 0
    modifies t
    ensures Passed(rep) && |rep| == n
    ensures t.signals == FlagMask(n)
  {
    rep := [];
    var flags: bv32 := 0;
    var setMask: bv32 := 1;
    ghost var i: nat := 0;
    // a do-while loop in the source; its guard holds on entry (1 <= SIG_FLAG_MSK)
    while setMask <= FlagMask(n)
      invariant i <= n && setMask == Bit(i) && flags == LowBits(i) && t.signals == flags
      invariant Passed(rep) && |rep| == i
      decreases n - i
    {
      BitBelowMask(n, i);
      SetAccumulates(n, i);
      var r := SignalSet(t, FlagMask(n), setMask);
      rep := rep + [r == flags];
      LowBitsGrow(i);
      flags := (flags << 1) | 1;
      setMask := setMask << 1;
      i := i + 1;
    }
    BitBelowMask(n, i);
  }

  /**
   * The clear walk of TC_SignalMainThread and Th_ChildSignals: on a thread
   * holding all flags, clear the top flag, then the next, ..., checking that
   * each clear reports `SIG_FLAG_MSK >> k`.
   */
  method ClearWalk(t: OsThread, n: SignalCount) returns (rep: seq<bool>)
    requires t.signals == FlagMask(n)
    modifies t
    ensures Passed(rep) && |rep| == n
    ensures t.signals == 0
  {
    rep := [];
    var flags := FlagMask(n);
    var clr: bv32 := (1 as bv32) << (n - 1);
    ghost var j: nat := n;
    while clr != 0
      invariant j <= n && flags == LowBits(j) && t.signals == flags
      invariant clr == if j == 0 then 0 else Bit(j - 1)
      invariant Passed(rep) && |rep| == n - j
      decreases j
    {
      ClearRounds(n, j);
      var r := SignalClear(t, FlagMask(n), clr, Thread);
      rep := rep + [r == flags];
      clr := clr >> 1;
      flags := flags >> 1;
      j := j - 1;
    }
    if j > 0 {
      ClearRounds(n, j);
    }
  }

  /**
   * Th_ChildSignals, the body of the thread TC_SignalChildThread creates: on
   * its own fresh thread it raises every flag, fails to raise the reserved
   * flag, and clears every flag again.
   */
  method ThChildSignals(n: SignalCount) returns (report: seq<bool>, self: OsThread)
    ensures Passed(report) && |report| == 2 * n + 2
    ensures self.signals == 0
  {
    self := new OsThread();
    var tId: OsThread? := self;
    report := [tId != null];
    var rep := SetWalk(self, n);
    report := report + rep;
    FlagMaskValid(n);
    ReservedBitRejected(FlagMask(n), self.signals);
    var r := SignalSet(tId, FlagMask(n), SignalError);
    report := report + [r == SignalError];
    rep := ClearWalk(self, n);
    report := report + rep;
  }

  // ---------------------------------------------------------------------
  // The outcome of every kernel call a test case makes, in the state the
  // test case has reached at that point
  // ---------------------------------------------------------------------

  /** A thread without flags is sent `x`, and its wait for `x` takes it back at once. */
  lemma SendAndReceive(msk: bv32, x: bv32)
    requires InRange(msk, x) && x != 0
    ensures SetSpec(msk, 0, x) == SigStep(0, x)
    ensures WaitSpec(msk, x, x, 100, Thread) == WaitStep(Returns(SigEvent(EventSignal, x)), 0)
  {
  }

  /** The child's reply: flag `flag` is raised on the main thread's flags `m`, which report themselves. */
  lemma ReplyAccepted(msk: bv32, flag: bv32, m: bv32)
    requires InRange(msk, flag) && InRange(msk, m) && !InRange(msk, SignalError)
    ensures SetSpec(msk, m, flag) == SigStep(m, m | flag) && m != SignalError
  {
  }

  /**
   * One woken pass of Th_Sig's loop: the child's wait for `flag` on a word
   * holding just `flag` is signalled with it and empties the word, the
   * received flag passes the `& flag` test, and the reply raises `flag` on the
   * main thread's flags `m`, reporting them rather than the error word.
   */
  lemma WokenRound(msk: bv32, flag: bv32, m: bv32)
    requires InRange(msk, flag) && InRange(msk, m) && flag != 0 && !InRange(msk, SignalError)
    ensures WaitSpec(msk, flag, flag, 100, Thread) == WaitStep(Returns(SigEvent(EventSignal, flag)), 0)
    ensures flag & flag != 0
    ensures SetSpec(msk, m, flag) == SigStep(m, m | flag) && m != SignalError
  {
    SendAndReceive(msk, flag);
    ReplyAccepted(msk, flag, m);
  }

  /** The main thread's wait for the replied flag takes exactly that flag. */
  lemma ReplyReceived(msk: bv32, flag: bv32, m: bv32)
    requires InRange(msk, flag) && InRange(msk, m) && flag != 0
    ensures WaitSpec(msk, m | flag, flag, 100, Thread) == WaitStep(Returns(SigEvent(EventSignal, flag)), (m | flag) & !flag)
    ensures InRange(msk, (m | flag) & !flag) && flag & flag != 0
  {
  }

  /** Th_Sig's last call: a wait for every flag on a thread without flags never returns. */
  lemma EndlessWait(msk: bv32)
    requires msk != 0
    ensures WaitSpec(msk, 0, msk, WaitForever, Thread) == WaitStep(Suspends, 0)
  {
  }

  /** The end of TC_SignalChildToChild: the children post 0x02 and 0x01, and the main thread's wait for both is signalled. */
  lemma ChildrenPost(msk: bv32, m: bv32)
    requires InRange(msk, 3) && InRange(msk, m)
    ensures var f := SetSpec(msk, SetSpec(msk, m, 2).flags, 1).flags;
      WaitSpec(msk, f, 3, 100, Thread).outcome == Returns(SigEvent(EventSignal, 3))
  {
  }

  /** The calls of TC_SignalWaitTimeout, from a main thread without flags. */
  lemma WaitTimeoutScript(msk: bv32)
    requires msk != 0 && InRange(msk, 3)
    ensures WaitSpec(msk, 0, 0, 0, Thread) == WaitStep(Returns(SigEvent(OK, 0)), 0)
    ensures WaitSpec(msk, 0, 0, 5, Thread) == WaitStep(Returns(SigEvent(EventTimeout, 0)), 0)
    ensures WaitSpec(msk, 0, msk, 0, Thread) == WaitStep(Returns(SigEvent(OK, 0)), 0)
    ensures WaitSpec(msk, 0, msk, 5, Thread) == WaitStep(Returns(SigEvent(EventTimeout, 0)), 0)
    ensures SetSpec(msk, 0, 3) == SigStep(0, 3)
    ensures WaitSpec(msk, 3, 1, 10, Thread) == WaitStep(Returns(SigEvent(EventSignal, 1)), 2)
    ensures var w := WaitSpec(msk, SetSpec(msk, 2, 5).flags, 2, 10, Thread);
      IsSignalled(w.outcome) && InRange(msk, w.flags)
  {
  }

  /** The calls of TC_SignalInterrupts on a main thread without flags. */
  lemma InterruptScript(msk: bv32)
    requires InRange(msk, 1)
    ensures SetSpec(msk, 0, 1) == SigStep(0, 1)
    ensures WaitSpec(msk, 1, 1, 100, Thread) == WaitStep(Returns(SigEvent(EventSignal, 1)), 0)
    ensures ClearSpec(msk, 1, 1, Isr) == SigStep(SignalError, 1)
    ensures ClearSpec(msk, 1, 1, Thread) == SigStep(1, 0)
  {
  }

  /** The globals of RV_Signal.c and the thread running the test cases. */
  class SignalSuite {
    /** osFeature_Signals */
    const n: SignalCount
    /** the main thread, which osThreadGetId() returns in the test cases */
    const main: OsThread
    var varThreadId: OsThread?
    var signIsr: bv32
    var evntIsr: SigEvent
    var isrExNum: int
    var tstIrqHandler: Handler
    var irqEnabled: bool
    var report: seq<bool>

    constructor (n: SignalCount, main: OsThread)
      ensures this.n == n && this.main == main
      ensures varThreadId == null && !irqEnabled && tstIrqHandler == NoHandler && report == []
    {
      this.n := n;
      this.main := main;
      varThreadId := null;
      signIsr := 0;
      evntIsr := SigEvent(OK, 0);
      isrExNum := 0;
      tstIrqHandler := NoHandler;
      irqEnabled := false;
      report := [];
    }

    /** SIG_FLAG_MSK */
    function Msk(): bv32
    {
      FlagMask(n)
    }

    /**
     * Signal_IRQHandler: selector 0 sets flag 1 of Var_ThreadId, 1 clears
     * it, 2..4 wait for it with timeout 0, 100 and osWaitForever; each call
     * is made in ISR context and its result captured.
     */
    method SignalIrqHandler()
      requires irqEnabled && tstIrqHandler == SignalHandler
      modifies this`signIsr, this`evntIsr, varThreadId
      ensures isrExNum == 0 ==>
        if varThreadId == null then signIsr == SignalError
        else
          var s := SetSpec(Msk(), old(varThreadId.signals), 1);
          signIsr == s.ret && varThreadId.signals == s.flags
      ensures isrExNum == 1 ==> signIsr == SignalError
      ensures isrExNum != 0 && varThreadId != null ==> varThreadId.signals == old(varThreadId.signals)
      ensures 2 <= isrExNum <= 4 ==> evntIsr == SigEvent(ErrorISR, 0)
      ensures !(0 <= isrExNum <= 1) ==> signIsr == old(signIsr)
      ensures !(2 <= isrExNum <= 4) ==> evntIsr == old(evntIsr)
    {
      if isrExNum == 0 {
        signIsr := SignalSet(varThreadId, Msk(), 1);
      } else if isrExNum == 1 {
        signIsr := SignalClear(varThreadId, Msk(), 1, Isr);
      } else if 2 <= isrExNum <= 4 {
        var millisec: Word := if isrExNum == 2 then 0 else if isrExNum == 3 then 100 else WaitForever;
        var r := SignalWait(null, Msk(), 1, millisec, Isr);
        evntIsr := r.value;
      }
    }

    /** TC_SignalMainThread: clear, then the set walk and the clear walk on the main thread. */
    method SignalMainThread()
      requires InRange(Msk(), main.signals)
      modifies this`report, main
      ensures Passed(report) && |report| == 2 * n + 1
      ensures main.signals == 0
    {
      var tId: OsThread? := main;
      var found := tId != null;
      ClearAll(Msk(), main.signals);
      var prior := SignalClear(tId, Msk(), Msk(), Thread);
      var setRep := SetWalk(main, n);
      var clearRep := ClearWalk(main, n);
      report := [found] + setRep + clearRep;
    }

    /**
     * TC_SignalChildThread: the created thread runs Th_ChildSignals on its own
     * flags. The child's asserts are counted here, although a child of the
     * main thread's priority runs only once the main thread blocks.
     */
    method SignalChildThread() returns (child: OsThread)
      modifies this`report
      ensures Passed(report) && |report| == 2 * n + 3
      ensures child.signals == 0
    {
      var childRep;
      childRep, child := ThChildSignals(n);
      var created: OsThread? := child;
      report := [created != null] + childRep;
    }

    /** TC_SignalParam: NULL threads and the reserved flag are refused. */
    method SignalParam()
      modifies this`report, main
      ensures Passed(report) && |report| == 5
      ensures main.signals == old(main.signals)
    {
      SmallMasks(n);
      WaitSuspends(Msk(), main.signals, SignalError, 0, Thread);
      var r := SignalSet(null, Msk(), 0);
      var setNull := r == SignalError;
      r := SignalClear(null, Msk(), 0, Thread);
      var clearNull := r == SignalError;
      var evt := SignalWait(main, Msk(), SignalError, 0, Thread);
      var id: OsThread? := main;
      r := SignalSet(id, Msk(), SignalError);
      report := [setNull, clearNull, HasStatus(evt, ErrorValue), id != null, r == SignalError];
    }

    /** Th_SignalSet: raise `flags` on Var_ThreadId. */
    method ThSignalSet(flags: bv32)
      modifies varThreadId
      ensures varThreadId != null ==> varThreadId.signals == SetSpec(Msk(), old(varThreadId.signals), flags).flags
    {
      var r := SignalSet(varThreadId, Msk(), flags);
    }

    /** TC_SignalWaitTimeout, first part: with no flags, every wait returns at once or times out. */
    method WaitWithoutFlags() returns (rep: seq<bool>)
      requires main.signals == 0 && Msk() != 0 && InRange(Msk(), 3)
      modifies main
      ensures Passed(rep) && |rep| == 4 && main.signals == 0
    {
      WaitTimeoutScript(Msk());
      var anyNow := SignalWait(main, Msk(), 0, 0, Thread);
      var anyLater := SignalWait(main, Msk(), 0, 5, Thread);
      var allNow := SignalWait(main, Msk(), Msk(), 0, Thread);
      var allLater := SignalWait(main, Msk(), Msk(), 5, Thread);
      rep := [HasStatus(anyNow, OK), HasStatus(anyLater, EventTimeout), HasStatus(allNow, OK), HasStatus(allLater, EventTimeout)];
    }

    /**
     * TC_SignalWaitTimeout, second part: a Th_SignalSet thread raises flags 3
     * while the main thread is in osDelay(5), and the wait for flag 1 is
     * signalled; then flags 5 are raised, which needs three flags, and the
     * wait for flag 2 is signalled whatever that did, flag 2 being left from
     * flags 3.
     */
    method WaitForSetter() returns (rep: seq<bool>)
      requires varThreadId == main && main.signals == 0 && Msk() != 0 && InRange(Msk(), 3)
      modifies main
      ensures Passed(rep) && |rep| == 4 && InRange(Msk(), main.signals)
    {
      WaitTimeoutScript(Msk());
      var id: OsThread? := new OsThread();
      var created := id != null;
      ThSignalSet(3);
      var first := SignalWait(main, Msk(), 1, 10, Thread);
      id := new OsThread();
      var createdAgain := id != null;
      ThSignalSet(5);
      var second := SignalWait(main, Msk(), 2, 10, Thread);
      rep := [created, IsSignalled(first), createdAgain, IsSignalled(second)];
    }

    /** TC_SignalWaitTimeout. */
    method SignalWaitTimeout()
      requires n >= 2
      requires InRange(Msk(), main.signals)
      modifies this`varThreadId, this`report, main
      ensures Passed(report) && |report| == 9
      ensures main.signals == 0
    {
      SmallMasks(n);
      FlagMaskValid(n);
      varThreadId := main;
      var found := varThreadId != null;
      ClearAll(Msk(), main.signals);
      var r := SignalClear(varThreadId, Msk(), Msk(), Thread);
      var waits := WaitWithoutFlags();
      var setter := WaitForSetter();
      ClearAll(Msk(), main.signals);
      r := SignalClear(varThreadId, Msk(), Msk(), Thread);
      report := [found] + waits + setter;
    }

    /**
     * One pass of Th_Sig's TST_SIG_CHILD loop on thread `self`, woken in its
     * osSignalWait(flag, 100) by the main thread's `flag`: check the flag and
     * send it back to Var_ThreadId. Returns the child's next flag.
     */
    method ThSigStep(self: OsThread, flag: bv32) returns (rep: seq<bool>, next: bv32)
      requires varThreadId != null && self != varThreadId
      requires flag != 0 && flag <= Msk() && InRange(Msk(), flag) && InRange(Msk(), varThreadId.signals)
      requires self.signals == flag
      modifies self, varThreadId
      ensures Passed(rep) && |rep| == 3
      ensures self.signals == 0
      ensures varThreadId.signals == old(varThreadId.signals) | flag
      ensures next == flag << 1
    {
      SmallMasks(n);
      WokenRound(Msk(), flag, varThreadId.signals);
      var evt := SignalWait(self, Msk(), flag, 100, Thread);
      assert evt == Returns(SigEvent(EventSignal, flag));
      rep := [IsSignalled(evt)];
      next := flag;
      if IsSignalled(evt) {
        rep := rep + [evt.value.signals & flag != 0];
        if flag <= Msk() {
          var r := SignalSet(varThreadId, Msk(), flag);
          rep := rep + [r != SignalError];
          next := flag << 1;
        }
      }
    }

    /**
     * One pass of TC_SignalChildToParent's loop: the main thread sends `flag`
     * to the child, the child sends it back, and the main thread's wait for
     * it is signalled.
     */
    method ChildToParentRound(child: OsThread, flag: bv32) returns (rep: seq<bool>, childNext: bv32)
      requires varThreadId == main && child != main && child.signals == 0
      requires flag != 0 && flag <= Msk() && InRange(Msk(), flag) && InRange(Msk(), main.signals)
      modifies child, main
      ensures Passed(rep) && |rep| == 6
      ensures child.signals == 0 && InRange(Msk(), main.signals)
      ensures childNext == flag << 1
    {
      ghost var m := main.signals;
      SendAndReceive(Msk(), flag);
      var thIdSig: OsThread? := child;
      var r := SignalSet(thIdSig, Msk(), flag);
      var childRep;
      childRep, childNext := ThSigStep(child, flag);
      rep := [r != SignalError] + childRep;
      if flag <= Msk() {
        var back := MainReceives(flag, m);
        rep := rep + back;
      }
    }

    /**
     * The main thread's osSignalWait(flag, 100) in TC_SignalChildToParent,
     * after the child has sent `flag` back on top of the flags `m`: the wait
     * is signalled with `flag` set, and only `flag` is consumed.
     */
    method MainReceives(flag: bv32, ghost m: bv32) returns (rep: seq<bool>)
      requires flag != 0 && InRange(Msk(), flag) && InRange(Msk(), m)
      requires main.signals == m | flag
      modifies main
      ensures Passed(rep) && |rep| == 2
      ensures InRange(Msk(), main.signals)
    {
      ReplyReceived(Msk(), flag, m);
      var evt := SignalWait(main, Msk(), flag, 100, Thread);
      rep := [IsSignalled(evt)];
      if IsSignalled(evt) {
        rep := rep + [evt.value.signals & flag != 0];
      }
    }

    /**
     * TC_SignalChildToParent: the main thread sends flags 1, 2, 4, ... to a
     * Th_Sig thread, which sends each back; every wait on either side is
     * signalled. Th_Sig ends blocked in its endless wait for SIG_FLAG_MSK.
     */
    method SignalChildToParent() returns (childEnd: Call<SigEvent>)
      requires InRange(Msk(), main.signals)
      modifies this`varThreadId, this`report, main
      ensures Passed(report) && |report| == 6 * n + 3
      ensures childEnd == Suspends
    {
      varThreadId := main;
      var rep := [varThreadId != null];
      // ThId_Sig: a Th_Sig thread started with TST_SIG_CHILD
      var child := new OsThread();
      var thIdSig: OsThread? := child;
      rep := rep + [thIdSig != null];
      var flag: bv32 := 1;
      var childFlag: bv32 := 1;
      ghost var i: nat := 0;
      // a do-while loop in the source; its guard holds on entry
      while flag <= Msk()
        invariant i <= n && flag == Bit(i) && childFlag == flag
        invariant varThreadId == main && child != main
        invariant child.signals == 0 && InRange(Msk(), main.signals)
        invariant Passed(rep) && |rep| == 6 * i + 2
        decreases n - i
      {
        FlagRounds(n, i);
        var round;
        round, childFlag := ChildToParentRound(child, flag);
        rep := rep + round;
        flag := flag << 1;
        i := i + 1;
      }
      FlagRounds(n, i);
      childEnd := SigChildEnds(child);
      // osThreadTerminate(ThId_Sig) on the suspended child
      var terminated: Status := OK;
      report := rep + [terminated == OK];
    }

    /** Th_Sig, after its loop with its flag past SIG_FLAG_MSK: osSignalWait(SIG_FLAG_MSK, osWaitForever) blocks. */
    method SigChildEnds(child: OsThread) returns (childEnd: Call<SigEvent>)
      requires child.signals == 0
      modifies child
      ensures childEnd == Suspends
    {
      FlagMaskValid(n);
      EndlessWait(Msk());
      childEnd := SignalWait(child, Msk(), Msk(), WaitForever, Thread);
    }

    /**
     * One pass of the loops of Th_Sig_Child_0 and Th_Sig_Child_1 on the
     * relay mask `x`: child 0 sends it to child 1, whose wait is signalled
     * with exactly `x`; child 1 sends it back, and child 0's wait is
     * signalled with exactly `x`.
     */
    method RelayRound(id0: OsThread, id1: OsThread, x: bv32) returns (rep: seq<bool>)
      requires id0 != id1 && id0.signals == 0 && id1.signals == 0
      requires x != 0 && InRange(Msk(), x)
      modifies id0, id1
      ensures Passed(rep) && |rep| == 4
      ensures id0.signals == 0 && id1.signals == 0
    {
      SendAndReceive(Msk(), x);
      var flags0 := x;
      var flags1 := x;
      // Th_Sig_Child_0 sends its mask to Th_Sig_Child_1 and waits for it back
      var r := SignalSet(id1, Msk(), flags0);
      // Th_Sig_Child_1 is woken, checks the mask and sends it back
      var evt1 := SignalWait(id1, Msk(), flags1, 100, Thread);
      rep := [IsSignalled(evt1)];
      if IsSignalled(evt1) {
        rep := rep + [evt1.value.signals == flags1];
      }
      r := SignalSet(id0, Msk(), flags1);
      // Th_Sig_Child_0 is woken
      var evt0 := SignalWait(id0, Msk(), flags0, 100, Thread);
      rep := rep + [IsSignalled(evt0)];
      if IsSignalled(evt0) {
        rep := rep + [evt0.value.signals == flags0];
      }
    }

    /**
     * TC_SignalChildToChild: Th_Sig_Child_0 and Th_Sig_Child_1 pass the relay
     * masks 1, 2, 5, 10, ... back and forth until the mask passes
     * SIG_FLAG_MSK, after exactly `n` rounds; they then post 0x02 and 0x01 to
     * the main thread, whose wait for both is signalled.
     */
    method SignalChildToChild()
      requires n >= 2
      requires InRange(Msk(), main.signals)
      modifies this`varThreadId, this`report, main
      ensures Passed(report) && |report| == 4 * n + 5
    {
      LowBitsShape(n);
      varThreadId := main;
      var rep := [varThreadId != null];
      var id0 := new OsThread();
      var id1 := new OsThread();
      var created0: OsThread? := id0;
      var created1: OsThread? := id1;
      rep := rep + [created0 != null, created1 != null];
      var flags0: bv32 := 1;
      var flags1: bv32 := 1;
      ghost var i: nat := 0;
      // both children's do-while loops run in step; their guards hold on entry
      while flags0 <= Msk()
        invariant i <= n && flags0 == RelayMask(i) && flags1 == flags0
        invariant id0.signals == 0 && id1.signals == 0
        invariant varThreadId == main && InRange(Msk(), main.signals)
        invariant Passed(rep) && |rep| == 4 * i + 3
        decreases n - i
      {
        RelayRounds(n, i);
        var round := RelayRound(id0, id1, flags0);
        rep := rep + round;
        flags1 := RelayNext(flags1);
        flags0 := RelayNext(flags0);
        i := i + 1;
      }
      RelayRounds(n, i);
      var fromMain := ChildrenToMain();
      report := rep + fromMain;
    }

    /** The end of TC_SignalChildToChild: the children post 0x02 and 0x01, and the main thread's wait for both is signalled. */
    method ChildrenToMain() returns (rep: seq<bool>)
      requires n >= 2 && varThreadId == main && InRange(Msk(), main.signals)
      modifies main
      ensures Passed(rep) && |rep| == 2
    {
      SmallMasks(n);
      ChildrenPost(Msk(), main.signals);
      // Th_Sig_Child_1 leaves its loop first and posts 0x02, then Th_Sig_Child_0 posts 0x01
      var r := SignalSet(varThreadId, Msk(), 0x02);
      r := SignalSet(varThreadId, Msk(), 0x01);
      var evt := SignalWait(main, Msk(), 0x03, 100, Thread);
      rep := [IsSignalled(evt)];
      if IsSignalled(evt) {
        rep := rep + [evt.value.signals & 0x03 == 0x03];
      }
    }

    /** TC_SignalInterrupts, first part: the ISR raises flag 1 of the main thread, whose wait for it is signalled. */
    method IsrSetsFlag() returns (rep: seq<bool>)
      requires irqEnabled && tstIrqHandler == SignalHandler && varThreadId == main
      requires main.signals == 0 && InRange(Msk(), 1)
      modifies this`isrExNum, this`signIsr, this`evntIsr, main
      ensures Passed(rep) && |rep| == 3 && main.signals == 0
    {
      InterruptScript(Msk());
      isrExNum := 0;
      signIsr := 0xFFFF_FFFF;
      SignalIrqHandler();
      var event := SignalWait(main, Msk(), 1, 100, Thread);
      rep := [IsSignalled(event), event.Returns? && event.value.signals == 1, signIsr == 0];
    }

    /** TC_SignalInterrupts, second part: the ISR cannot clear flag 1; the main thread can. */
    method IsrClearRefused() returns (rep: seq<bool>)
      requires irqEnabled && tstIrqHandler == SignalHandler && varThreadId == main
      requires main.signals == 0 && InRange(Msk(), 1)
      modifies this`isrExNum, this`signIsr, this`evntIsr, main
      ensures Passed(rep) && |rep| == 3 && main.signals == 0
    {
      InterruptScript(Msk());
      isrExNum := 1;
      var r := SignalSet(varThreadId, Msk(), 1);
      var setOk := r == 0;
      signIsr := 0;
      SignalIrqHandler();
      var refused := signIsr == SignalError;
      r := SignalClear(varThreadId, Msk(), 1, Thread);
      rep := [setOk, refused, r == 1];
    }

    /** TC_SignalInterrupts, last parts: a wait from the ISR, with selector `sel`, fails with osErrorISR. */
    method IsrWaitRefused(sel: int) returns (ok: bool)
      requires irqEnabled && tstIrqHandler == SignalHandler && 2 <= sel <= 4
      modifies this`isrExNum, this`signIsr, this`evntIsr, varThreadId
      ensures ok
      ensures varThreadId != null ==> varThreadId.signals == old(varThreadId.signals)
    {
      isrExNum := sel;
      evntIsr := evntIsr.(status := OK);
      SignalIrqHandler();
      ok := evntIsr.status == ErrorISR;
    }

    /**
     * TC_SignalInterrupts: from the ISR, osSignalSet wakes the main thread's
     * wait, osSignalClear is refused without clearing, and osSignalWait fails
     * with osErrorISR for every timeout.
     */
    method SignalInterrupts()
      requires InRange(Msk(), main.signals)
      modifies this, main
      ensures Passed(report) && |report| == 10
      ensures !irqEnabled && main.signals == 0
    {
      SmallMasks(n);
      tstIrqHandler := SignalHandler;
      varThreadId := main;
      var found := varThreadId != null;
      ClearAll(Msk(), main.signals);
      var r := SignalClear(varThreadId, Msk(), Msk(), Thread);
      irqEnabled := true;
      var fromSet := IsrSetsFlag();
      var fromClear := IsrClearRefused();
      var noWait := IsrWaitRefused(2);
      var shortWait := IsrWaitRefused(3);
      var endlessWait := IsrWaitRefused(4);
      irqEnabled := false;
      report := [found] + fromSet + fromClear + [noWait, shortWait, endlessWait];
    }
  }
}
