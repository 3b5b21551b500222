/** The 32 priority run queues and the bitmap that indexes them. */
module RunQueues {
  import opened Bits

  /** A thread, named by the address of its structure. */
  type Tid = nat

  const NUM_PRIORITIES: nat := 32
  const HIGHEST_PRIORITY: nat := 31
  const LOWEST_PRIORITY: nat := 0

  datatype RunQueue = RunQueue(queue: seq<seq<Tid>>, bitmap: nat)

  ghost predicate NoDup<T>(s: seq<T>) {
    forall i, j | 0 <= i < j < |s| :: s[i] != s[j]
  }

  /** Bit p of the 32-bit map is set exactly when queue p is non-empty. */
  ghost predicate Indexed(r: RunQueue) {
    && |r.queue| == NUM_PRIORITIES
    && r.bitmap < Pow2(NUM_PRIORITIES)
    && forall p | 0 <= p < NUM_PRIORITIES :: Bit(r.bitmap, p) <==> r.queue[p] != []
  }

  predicate Nonempty(r: RunQueue) {
    exists p | 0 <= p < |r.queue| :: r.queue[p] != []
  }

  /** The reference choice: scan the queues downwards from priority `p`. */
  function ScanFrom(queue: seq<seq<Tid>>, p: nat): (r: nat)
    requires p < |queue|
    ensures r <= p
  {
    if p == 0 || queue[p] != [] then p else ScanFrom(queue, p - 1)
  }

  function PushHead(r: RunQueue, p: nat, t: Tid): (r': RunQueue)
    requires p < |r.queue|
  {
    RunQueue(r.queue[p := [t] + r.queue[p]], SetBit(r.bitmap, p))
  }

  function PushTail(r: RunQueue, p: nat, t: Tid): (r': RunQueue)
    requires p < |r.queue|
  {
    RunQueue(r.queue[p := r.queue[p] + [t]], SetBit(r.bitmap, p))
  }

  /** The queue `thread_resched` picks from the bitmap. */
  function NextQueue(r: RunQueue): (p: int) {
    HIGHEST_PRIORITY - Clz(r.bitmap, 32) - (32 - NUM_PRIORITIES)
  }

  /** Remove the head of queue `p`, clearing its bit when that leaves it empty. */
  function PopFrom(r: RunQueue, p: nat): (r': RunQueue)
    requires p < |r.queue| && r.queue[p] != []
  {
    var rest := r.queue[p][1..];
    RunQueue(r.queue[p := rest], if rest == [] then ClearBit(r.bitmap, p) else r.bitmap)
  }

  lemma PushKeepsIndex(r: RunQueue, p: nat, t: Tid)
    requires Indexed(r) && p < NUM_PRIORITIES
    ensures Indexed(PushHead(r, p, t)) && Indexed(PushTail(r, p, t))
  {
    SetBitBound(r.bitmap, p, NUM_PRIORITIES);
    forall q | 0 <= q < NUM_PRIORITIES
      ensures Bit(SetBit(r.bitmap, p), q) <==> q == p || r.queue[q] != []
    {
      SetBitBits(r.bitmap, p, q);
    }
  }

  lemma PopKeepsIndex(r: RunQueue, p: nat)
    requires Indexed(r) && p < NUM_PRIORITIES && r.queue[p] != []
    ensures Indexed(PopFrom(r, p))
  {
    ClearBitBound(r.bitmap, p);
    forall q | 0 <= q < NUM_PRIORITIES
      ensures Bit(ClearBit(r.bitmap, p), q) <==> q != p && r.queue[q] != []
    {
      ClearBitBits(r.bitmap, p, q);
    }
  }

  /** The bitmap choice is the linear highest-to-lowest scan: it finds the
      highest non-empty queue exactly when some queue is non-empty, which is
      also exactly when the bitmap is non-zero. */
  lemma BitmapChoiceIsLinearScan(r: RunQueue)
    requires Indexed(r)
    ensures r.bitmap != 0 <==> Nonempty(r)
    ensures Nonempty(r) ==>
      && 0 <= NextQueue(r) < NUM_PRIORITIES
      && NextQueue(r) == ScanFrom(r.queue, HIGHEST_PRIORITY)
      && r.queue[NextQueue(r)] != []
      && forall q | NextQueue(r) < q < NUM_PRIORITIES :: r.queue[q] == []
  {
    ZeroIffNoBit(r.bitmap, 32);
    if Nonempty(r) {
      var p :| 0 <= p < |r.queue| && r.queue[p] != [];
      assert Bit(r.bitmap, p);
      ScanIs(r.queue, HIGHEST_PRIORITY, NextQueue(r));
    }
  }

  lemma {:induction false} ScanIs(queue: seq<seq<Tid>>, from: nat, p: nat)
    requires p <= from < |queue| && queue[p] != []
    requires forall q | p < q <= from :: queue[q] == []
    ensures ScanFrom(queue, from) == p
  {
    if p < from {
      ScanIs(queue, from - 1, p);
    }
  }
}
