/** The kernel's primitives as functions of its state, up to the context
    switch, and the proof that each keeps the scheduling invariant. */
module KernelOps {
  import opened Words
  import opened RunQueues
  import opened TimerQueue
  import opened KernelState

  function SetThread(s: Kernel, t: Tid, th: Thread): Kernel {
    s.(threads := s.threads[t := th])
  }

  function SetCont(s: Kernel, k: Cont): Kernel
    requires s.current in s.threads
  {
    SetThread(s, s.current, s.threads[s.current].(cont := k))
  }

  /** enter_critical_section: the first level masks interrupts. */
  function Enter(s: Kernel): Kernel {
    s.(cs := s.cs + 1, masked := if s.cs + 1 == 1 then true else s.masked)
  }

  /** exit_critical_section: leaving the last level unmasks them. */
  function Exit(s: Kernel): Kernel {
    s.(cs := s.cs - 1, masked := if s.cs - 1 == 0 then false else s.masked)
  }

  /** Make `t` READY and put it at the head or the tail of its run queue. */
  function MakeReady(s: Kernel, t: Tid, head: bool): Kernel
    requires t in s.threads && s.threads[t].priority < |s.rq.queue|
  {
    var th := s.threads[t].(state := Ready);
    s.(threads := s.threads[t := th],
       rq := if head then PushHead(s.rq, th.priority, t) else PushTail(s.rq, th.priority, t))
  }

  /** Threads that were not READY before a change and are not after it leave the run queues as they are. */
  lemma QueuesFrame(queue: seq<seq<Tid>>, threads: map<Tid, Thread>, t: Tid, th: Thread)
    requires QueuesOk(queue, threads) && !th.state.Ready?
    requires t in threads ==> !threads[t].state.Ready?
    ensures QueuesOk(queue, threads[t := th])
  {
  }

  lemma QueuesPush(queue: seq<seq<Tid>>, threads: map<Tid, Thread>, t: Tid, th: Thread, q: seq<Tid>)
    requires QueuesOk(queue, threads) && th.state.Ready? && th.priority < NUM_PRIORITIES
    requires t in threads ==> !threads[t].state.Ready?
    requires q == [t] + queue[th.priority] || q == queue[th.priority] + [t]
    ensures QueuesOk(queue[th.priority := q], threads[t := th])
  {
    var p := th.priority;
    assert t !in queue[p];
    assert forall u :: u in q <==> u == t || u in queue[p];
    assert QueueOk(q, p, threads[t := th]);
    var queue' := queue[p := q];
    forall r | 0 <= r < NUM_PRIORITIES
      ensures QueueOk(queue'[r], r, threads[t := th])
    {
      assert r != p ==> QueueOk(queue[r], r, threads);
    }
  }

  lemma QueuesPop(queue: seq<seq<Tid>>, threads: map<Tid, Thread>, p: nat, th: Thread)
    requires QueuesOk(queue, threads) && p < NUM_PRIORITIES && queue[p] != []
    requires !th.state.Ready?
    ensures QueuesOk(queue[p := queue[p][1..]], threads[queue[p][0] := th])
  {
    var t := queue[p][0];
    var q := queue[p][1..];
    assert queue[p] == [t] + q;
    assert QueueOk(queue[p], p, threads);
    assert t !in q;
    assert forall u :: u in queue[p] <==> u == t || u in q;
    var queue' := queue[p := q];
    forall r | 0 <= r < NUM_PRIORITIES
      ensures QueueOk(queue'[r], r, threads[t := th])
    {
      assert QueueOk(queue[r], r, threads);
    }
  }

  /** A change to a thread that is not BLOCKED before or after leaves the wait queues as they are. */
  lemma WaitsFrame(waits: map<WaitId, WaitQueue>, threads: map<Tid, Thread>, t: Tid, th: Thread)
    requires WaitsOk(waits, threads) && !th.state.Blocked? && th.blockedOn.None?
    requires t in threads ==> !threads[t].state.Blocked?
    ensures WaitsOk(waits, threads[t := th])
  {
    forall w | w in waits ensures WaitOk(waits[w], w, threads[t := th]) {
      assert WaitOk(waits[w], w, threads);
    }
  }

  lemma WaitsRemove(waits: map<WaitId, WaitQueue>, threads: map<Tid, Thread>, w: WaitId, i: nat, th: Thread)
    requires WaitsOk(waits, threads) && w in waits && i < |waits[w].list|
    requires !th.state.Blocked? && th.blockedOn.None?
    ensures WaitsOk(waits[w := WaitQueue(waits[w].list[..i] + waits[w].list[i+1..], waits[w].count - 1)],
                    threads[waits[w].list[i] := th])
  {
    var q := waits[w].list;
    var t := q[i];
    assert WaitOk(waits[w], w, threads);
    RemoveAt(q, i);
    var waits' := waits[w := WaitQueue(q[..i] + q[i+1..], waits[w].count - 1)];
    forall v | v in waits' ensures WaitOk(waits'[v], v, threads[t := th]) {
      assert WaitOk(waits[v], v, threads);
    }
  }

  lemma WaitsAppend(waits: map<WaitId, WaitQueue>, threads: map<Tid, Thread>, w: WaitId, t: Tid, th: Thread)
    requires WaitsOk(waits, threads) && w in waits
    requires th.state.Blocked? && th.blockedOn == Some(w)
    requires t in threads ==> !threads[t].state.Blocked?
    ensures WaitsOk(waits[w := WaitQueue(waits[w].list + [t], waits[w].count + 1)], threads[t := th])
  {
    var q := waits[w].list;
    assert WaitOk(waits[w], w, threads);
    assert t !in q;
    assert forall u :: u in q + [t] <==> u == t || u in q;
    var waits' := waits[w := WaitQueue(q + [t], waits[w].count + 1)];
    forall v | v in waits' ensures WaitOk(waits'[v], v, threads[t := th]) {
      assert WaitOk(waits[v], v, threads);
    }
  }

  lemma MakeReadyCore(s: Kernel, t: Tid, head: bool)
    requires Core(s) && t in s.threads
    requires !s.threads[t].state.Ready? && !s.threads[t].state.Blocked?
    ensures Core(MakeReady(s, t, head))
  {
    var th := s.threads[t].(state := Ready);
    PushKeepsIndex(s.rq, th.priority, t);
    QueuesPush(s.rq.queue, s.threads, t, th, MakeReady(s, t, head).rq.queue[th.priority]);
    WaitsFrame(s.waits, s.threads, t, th);
  }

  /** Take `list[i]` off wait queue `w`, give it its return code and make it
      READY at the head of its run queue. */
  function Release(s: Kernel, w: WaitId, i: nat, code: int): Kernel
    requires w in s.waits && i < |s.waits[w].list|
    requires s.waits[w].list[i] in s.threads
    requires s.threads[s.waits[w].list[i]].priority < |s.rq.queue|
  {
    var q := s.waits[w];
    var t := q.list[i];
    var q' := WaitQueue(q.list[..i] + q.list[i+1..], q.count - 1);
    var th := s.threads[t].(blockedOn := None, blockRet := code);
    MakeReady(s.(waits := s.waits[w := q'], threads := s.threads[t := th]), t, true)
  }

  lemma ReleaseCore(s: Kernel, w: WaitId, i: nat, code: int)
    requires Core(s) && w in s.waits && i < |s.waits[w].list|
    ensures WaitOk(s.waits[w], w, s.threads)
    ensures Core(Release(s, w, i, code))
  {
    assert WaitOk(s.waits[w], w, s.threads);
    var t := s.waits[w].list[i];
    assert t in s.threads && s.threads[t].state.Blocked?;
    var th := s.threads[t].(blockedOn := None, blockRet := code, state := Ready);
    var s' := Release(s, w, i, code);
    assert s'.threads == s.threads[t := th];
    PushKeepsIndex(s.rq, th.priority, t);
    QueuesPush(s.rq.queue, s.threads, t, th, [t] + s.rq.queue[th.priority]);
    WaitsRemove(s.waits, s.threads, w, i, th);
  }

  lemma RemoveAt(q: seq<Tid>, i: nat)
    requires i < |q| && NoDup(q)
    ensures NoDup(q[..i] + q[i+1..])
    ensures q[i] !in q[..i] + q[i+1..]
    ensures forall u :: u in q[..i] + q[i+1..] <==> u in q && u != q[i]
  {
    var r := q[..i] + q[i+1..];
    forall u | u in q && u != q[i] ensures u in r {
      var j :| 0 <= j < |q| && q[j] == u;
      assert r[if j < i then j else j - 1] == u;
    }
  }

  /** thread_resched finds a thread: the bitmap names a queue with a live head. */
  predicate CanResched(s: Kernel) {
    && s.current in s.threads
    && 0 <= NextQueue(s.rq) < |s.rq.queue|
    && s.rq.queue[NextQueue(s.rq)] != []
    && s.rq.queue[NextQueue(s.rq)][0] in s.threads
  }

  function Next(s: Kernel): Tid
    requires CanResched(s)
  {
    s.rq.queue[NextQueue(s.rq)][0]
  }

  /** thread_resched, up to the switch. Without a ready thread the source's
      assertions fail; `ReschedAssertions` shows that never happens. */
  function Resched(s: Kernel): Kernel {
    if !CanResched(s) then s else
    var t := Next(s);
    var s1 := s.(rq := PopFrom(s.rq, NextQueue(s.rq)),
                 threads := s.threads[t := s.threads[t].(state := Running)]);
    if t == s.current then s1 else
    var incoming := s1.threads[t].(quantum := if s1.threads[t].quantum <= 0 then 5 else s1.threads[t].quantum);
    var outgoing := s1.threads[s.current].(savedCs := s.cs);
    s1.(threads := s1.threads[t := incoming][s.current := outgoing], current := t, cs := incoming.savedCs)
  }

  /** What thread_resched needs: a READY thread, and a current thread that has left the CPU. */
  ghost predicate MayResched(s: Kernel) {
    && Core(s)
    && (exists t | t in s.threads :: s.threads[t].state.Ready?)
    && !s.threads[s.current].state.Running?
  }

  lemma ReschedAssertions(s: Kernel)
    requires MayResched(s)
    ensures s.rq.bitmap != 0
    ensures CanResched(s)
    ensures s.threads[Next(s)].state.Ready? && s.threads[Next(s)].priority == NextQueue(s.rq)
    ensures forall t | t in s.threads && s.threads[t].state.Ready? ::
      s.threads[t].priority <= s.threads[Next(s)].priority
  {
    var t :| t in s.threads && s.threads[t].state.Ready?;
    assert s.rq.queue[s.threads[t].priority] != [];
    BitmapChoiceIsLinearScan(s.rq);
    forall u | u in s.threads && s.threads[u].state.Ready?
      ensures s.threads[u].priority <= NextQueue(s.rq)
    {
      assert u in s.rq.queue[s.threads[u].priority];
    }
  }

  /** The chosen thread has left its run queue and is running. */
  function Chosen(s: Kernel): Kernel
    requires CanResched(s)
  {
    s.(rq := PopFrom(s.rq, NextQueue(s.rq)),
       threads := s.threads[Next(s) := s.threads[Next(s)].(state := Running)],
       current := Next(s))
  }

  lemma ChosenCore(s: Kernel)
    requires MayResched(s) && CanResched(s) && s.threads[Next(s)].state.Ready?
    requires s.threads[Next(s)].priority == NextQueue(s.rq)
    ensures Core(Chosen(s))
  {
    hide NextQueue;
    var p := NextQueue(s.rq);
    var th := s.threads[Next(s)].(state := Running);
    PopKeepsIndex(s.rq, p);
    QueuesPop(s.rq.queue, s.threads, p, th);
    WaitsFrame(s.waits, s.threads, Next(s), th);
  }

  lemma ReschedCore(s: Kernel)
    requires MayResched(s)
    ensures CanResched(s)
    ensures Core(Resched(s)) && Resched(s).current == Next(s)
    ensures Resched(s).threads[Resched(s).current].state.Running?
  {
    hide QueuesOk, WaitsOk, NextQueue, PopFrom, Indexed;
    ReschedAssertions(s);
    ChosenCore(s);
    CoreFrame(Chosen(s), Resched(s));
  }

  /** The part of wait_queue_block that puts the current thread on `w`. */
  function Enqueue(s: Kernel, w: WaitId): Kernel
    requires w in s.waits && s.current in s.threads
  {
    var q := s.waits[w];
    var th := s.threads[s.current].(state := Blocked, blockedOn := Some(w), blockRet := NO_ERROR);
    s.(waits := s.waits[w := WaitQueue(q.list + [s.current], q.count + 1)],
       threads := s.threads[s.current := th])
  }

  /** Core looks at a thread's priority, state and blocking queue only. */
  ghost predicate SameForCore(a: Thread, b: Thread) {
    a.priority == b.priority && a.state == b.state && a.blockedOn == b.blockedOn
  }

  lemma CoreFrame(s: Kernel, s': Kernel)
    requires Core(s) && s'.rq == s.rq && s'.waits == s.waits && s'.current == s.current
    requires s'.threads.Keys == s.threads.Keys
    requires forall t | t in s.threads :: SameForCore(s.threads[t], s'.threads[t])
    ensures Core(s')
  {
    forall p | 0 <= p < NUM_PRIORITIES ensures QueueOk(s.rq.queue[p], p, s'.threads) {
      assert QueueOk(s.rq.queue[p], p, s.threads);
    }
    forall w | w in s.waits ensures WaitOk(s.waits[w], w, s'.threads) {
      assert WaitOk(s.waits[w], w, s.threads);
    }
    assert forall t | t in s'.threads :: SameForCore(s.threads[t], s'.threads[t]);
  }
}
