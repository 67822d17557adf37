/*
 * Reference model of the CMSIS-RTOS message queue that RV_MsgQueue.c
 * validates: a bounded FIFO of 32-bit words, created with osMessageCreate
 * and used with osMessagePut / osMessageGet, from a thread or from an ISR.
 *
 * The kernel itself is not part of this model's sources: its contract is
 * the one the validation file's assertions pin down. A wait with a finite
 * timeout that nothing can satisfy is modelled as running to its deadline;
 * a wait with osWaitForever that nothing satisfies suspends the caller.
 */
module MsgQueueModel {
  import opened RtosTypes
  import opened Wrappers

  /** osMessageQDef(name, queue_sz, type): the static definition a queue is created from. */
  datatype QueueDef = QueueDef(queueSz: nat)

  /** The osEvent that osMessageGet returns: a status and, for osEventMessage, the word. */
  datatype MsgEvent = MsgEvent(status: Status, v: Word)

  /** A message queue object of the kernel; `items` is its content, oldest first. */
  class MessageQueue {
    const capacity: nat
    var items: seq<Word>

    ghost predicate Valid()
      reads this
    {
      |items| <= capacity
    }

    constructor (capacity: nat)
      ensures this.capacity == capacity && items == []
      ensures Valid()
    {
      this.capacity := capacity;
      items := [];
    }
  }

  /** The result of one put or get on a queue: the call's outcome and the new content. */
  datatype QueueStep<T> = QueueStep(outcome: Call<T>, items: seq<Word>)

  /** osMessagePut on a queue holding `items`. */
  function PutStep(items: seq<Word>, capacity: nat, info: Word, millisec: Word, ctx: Context): (r: QueueStep<Status>)
    // the call completes at once in every case but a thread's endless wait on a full queue
    ensures r.outcome == Suspends <==> ctx.Thread? && |items| >= capacity && millisec == WaitForever
    // a put succeeds exactly when there is room and the call is legal in its context
    ensures r.outcome == Returns(OK) <==> |items| < capacity && (ctx.Thread? || millisec == 0)
    // a successful put appends at the tail; every other outcome leaves the queue as it was
    ensures r.items == if r.outcome == Returns(OK) then items + [info] else items
    // from an ISR only the zero timeout is allowed
    ensures ctx.Isr? && millisec != 0 ==> r.outcome == Returns(ErrorParameter)
    // on a full queue: no wait gives osErrorResource, a finite wait osErrorTimeoutResource
    ensures |items| >= capacity && millisec == 0 ==> r.outcome == Returns(ErrorResource)
    ensures |items| >= capacity && ctx.Thread? && 0 < millisec < WaitForever ==> r.outcome == Returns(ErrorTimeoutResource)
  {
    if ctx.Isr? && millisec != 0 then QueueStep(Returns(ErrorParameter), items)
    else if |items| < capacity then QueueStep(Returns(OK), items + [info])
    else if millisec == 0 then QueueStep(Returns(ErrorResource), items)
    else if millisec == WaitForever then QueueStep(Suspends, items)
    else QueueStep(Returns(ErrorTimeoutResource), items)
  }

  /** osMessageGet on a queue holding `items`. */
  function GetStep(items: seq<Word>, millisec: Word, ctx: Context): (r: QueueStep<MsgEvent>)
    ensures r.outcome == Suspends <==> ctx.Thread? && items == [] && millisec == WaitForever
    // a message is delivered exactly when one is queued and the call is legal in its context
    ensures (r.outcome.Returns? && r.outcome.value.status == EventMessage) <==> items != [] && (ctx.Thread? || millisec == 0)
    // the delivered message is the oldest one, and it leaves the queue
    ensures r.outcome.Returns? && r.outcome.value.status == EventMessage ==> r.outcome.value.v == items[0] && r.items == items[1..]
    ensures !(r.outcome.Returns? && r.outcome.value.status == EventMessage) ==> r.items == items
    ensures ctx.Isr? && millisec != 0 ==> r.outcome == Returns(MsgEvent(ErrorParameter, 0))
    // on an empty queue: no wait gives osOK (no message), a finite wait osEventTimeout
    ensures items == [] && millisec == 0 ==> r.outcome == Returns(MsgEvent(OK, 0))
    ensures items == [] && ctx.Thread? && 0 < millisec < WaitForever ==> r.outcome == Returns(MsgEvent(EventTimeout, 0))
  {
    if ctx.Isr? && millisec != 0 then QueueStep(Returns(MsgEvent(ErrorParameter, 0)), items)
    else if items != [] then QueueStep(Returns(MsgEvent(EventMessage, items[0])), items[1..])
    else if millisec == 0 then QueueStep(Returns(MsgEvent(OK, 0)), items)
    else if millisec == WaitForever then QueueStep(Suspends, items)
    else QueueStep(Returns(MsgEvent(EventTimeout, 0)), items)
  }

  /** osMessageCreate(queue_def, thread_id): NULL from an ISR or for a NULL definition. */
  method MessageCreate(def: Option<QueueDef>, ctx: Context) returns (q: MessageQueue?)
    ensures ctx.Isr? || def == None ==> q == null
    ensures ctx.Thread? && def.Some? ==> q != null && fresh(q) && q.Valid() && q.capacity == def.value.queueSz && q.items == []
  {
    if ctx.Isr? || def == None {
      q := null;
    } else {
      q := new MessageQueue(def.value.queueSz);
    }
  }

  /** osMessagePut(queue_id, info, millisec): osErrorParameter for a NULL queue. */
  method MessagePut(q: MessageQueue?, info: Word, millisec: Word, ctx: Context) returns (r: Call<Status>)
    requires q != null ==> q.Valid()
    modifies q
    ensures q != null ==> q.Valid()
    ensures q == null ==> r == Returns(ErrorParameter)
    ensures q != null ==>
      var s := PutStep(old(q.items), q.capacity, info, millisec, ctx);
      r == s.outcome && q.items == s.items
  {
    if q == null {
      r := Returns(ErrorParameter);
    } else {
      var s := PutStep(q.items, q.capacity, info, millisec, ctx);
      r := s.outcome;
      q.items := s.items;
    }
  }

  /** osMessageGet(queue_id, millisec): osErrorParameter for a NULL queue. */
  method MessageGet(q: MessageQueue?, millisec: Word, ctx: Context) returns (r: Call<MsgEvent>)
    requires q != null ==> q.Valid()
    modifies q
    ensures q != null ==> q.Valid()
    ensures q == null ==> r == Returns(MsgEvent(ErrorParameter, 0))
    ensures q != null ==>
      var s := GetStep(old(q.items), millisec, ctx);
      r == s.outcome && q.items == s.items
  {
    if q == null {
      r := Returns(MsgEvent(ErrorParameter, 0));
    } else {
      var s := GetStep(q.items, millisec, ctx);
      r := s.outcome;
      q.items := s.items;
    }
  }

  // ---------------------------------------------------------------------
  // Sequences of calls: filling and draining a queue
  // ---------------------------------------------------------------------

  /** The words `lo, lo + 1, ..., hi - 1`, as put by a counting producer. */
  function Range(lo: nat, hi: nat): (r: seq<Word>)
    requires lo <= hi <= 0x1_0000_0000
    ensures |r| == hi - lo && forall i :: 0 <= i < |r| ==> r[i] == lo + i
  {
    seq(hi - lo, i requires 0 <= i < hi - lo => lo + i)
  }

  /** The next word of a counting producer extends the range at its top. */
  lemma RangeGrow(lo: nat, hi: nat)
    requires lo <= hi < 0x1_0000_0000
    ensures Range(lo, hi) + [hi] == Range(lo, hi + 1)
  {
    assert forall i :: 0 <= i < hi + 1 - lo ==> (Range(lo, hi) + [hi])[i] == Range(lo, hi + 1)[i];
  }

  /** The oldest word of a nonempty range is its bottom, and taking it leaves the range above. */
  lemma RangeShrink(lo: nat, hi: nat)
    requires lo < hi <= 0x1_0000_0000
    ensures Range(lo, hi)[0] == lo && Range(lo, hi)[1..] == Range(lo + 1, hi)
  {
    assert forall i :: 0 <= i < hi - lo - 1 ==> Range(lo, hi)[1..][i] == Range(lo + 1, hi)[i];
  }

  /** The outcomes of a run of calls, in call order, and the queue content after the last. */
  datatype Trace<T> = Trace(outcomes: seq<Call<T>>, items: seq<Word>)

  /** Puts every word of `xs`, in order, from a thread with timeout 0. */
  function PutAll(items: seq<Word>, capacity: nat, xs: seq<Word>): Trace<Status>
    decreases |xs|
  {
    if xs == [] then Trace([], items)
    else
      var s := PutStep(items, capacity, xs[0], 0, Thread);
      var rest := PutAll(s.items, capacity, xs[1..]);
      Trace([s.outcome] + rest.outcomes, rest.items)
  }

  /** Gets `k` times, from a thread with timeout 0. */
  function GetAll(items: seq<Word>, k: nat): Trace<MsgEvent>
  {
    if k == 0 then Trace([], items)
    else
      var s := GetStep(items, 0, Thread);
      var rest := GetAll(s.items, k - 1);
      Trace([s.outcome] + rest.outcomes, rest.items)
  }

  /** Every put into a queue with room for all of `xs` succeeds, and `xs` lands at the tail in order. */
  lemma {:induction false} PutAllAppends(items: seq<Word>, capacity: nat, xs: seq<Word>)
    requires |items| + |xs| <= capacity
    ensures PutAll(items, capacity, xs).items == items + xs
    ensures PutAll(items, capacity, xs).outcomes == seq(|xs|, _ => Returns(OK))
    decreases |xs|
  {
    if xs != [] {
      PutAllAppends(items + [xs[0]], capacity, xs[1..]);
      assert items + [xs[0]] + xs[1..] == items + xs;
      assert [Returns(OK)] + seq(|xs| - 1, _ => Returns(OK)) == seq(|xs|, _ => Returns(OK));
    }
  }

  /** Getting `k` times delivers the `k` oldest words in queue order and leaves the rest. */
  lemma {:induction false} GetAllTakes(items: seq<Word>, k: nat)
    requires k <= |items|
    ensures GetAll(items, k).items == items[k..]
    ensures GetAll(items, k).outcomes == seq(k, i requires 0 <= i < k => Returns(MsgEvent(EventMessage, items[i])))
  {
    if k > 0 {
      GetAllTakes(items[1..], k - 1);
      assert items[1..][k - 1..] == items[k..];
      var tail := seq(k - 1, i requires 0 <= i < k - 1 => Returns(MsgEvent(EventMessage, items[1..][i])));
      assert [Returns(MsgEvent(EventMessage, items[0]))] + tail
          == seq(k, i requires 0 <= i < k => Returns(MsgEvent(EventMessage, items[i])));
    }
  }

  /**
   * FIFO round trip: on an empty queue of capacity `capacity`, putting any
   * `xs` that fits succeeds for every word, and as many gets then return
   * exactly `xs`, in put order, leaving the queue empty.
   */
  lemma FillThenDrain(capacity: nat, xs: seq<Word>)
    requires |xs| <= capacity
    ensures PutAll([], capacity, xs).outcomes == seq(|xs|, _ => Returns(OK))
    ensures PutAll([], capacity, xs).items == xs
    ensures GetAll(xs, |xs|).outcomes == seq(|xs|, i requires 0 <= i < |xs| => Returns(MsgEvent(EventMessage, xs[i])))
    ensures GetAll(xs, |xs|).items == []
  {
    PutAllAppends([], capacity, xs);
    assert [] + xs == xs;
    GetAllTakes(xs, |xs|);
  }
}
