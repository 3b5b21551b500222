/** How the mutex, event and deferred-call invariants move when the waiters do. */
module KernelSide {
  import opened Words
  import opened RunQueues
  import opened KernelState
  import opened KernelInv
  import opened KernelSteps

  // ---- mutexes ------------------------------------------------------------

  /** A waiter of another queue joins, leaves or is released. */
  lemma MutexOther(mx: Mutex, m: nat, W: map<Tid, Waiter>, W': map<Tid, Waiter>)
    requires MutexOk(mx, m, W)
    requires forall t :: (t in W && W[t].w == OfMutex(m)) <==> (t in W' && W'[t].w == OfMutex(m))
    requires forall t | t in W && W[t].w == OfMutex(m) :: W'[t] == W[t]
    ensures MutexOk(mx, m, W')
  {
    assert Acquirers(W', m) == Acquirers(W, m);
    assert Handoffs(W', m) == Handoffs(W, m);
  }

  /** A free mutex with count zero has nobody inside acquire. */
  lemma MutexTake(mx: Mutex, m: nat, W: map<Tid, Waiter>, t: Tid)
    requires MutexOk(mx, m, W) && mx.count == 0
    ensures mx.holder.None? && Acquirers(W, m) == {}
    ensures MutexOk(Mutex(1, Some(t)), m, W)
  {
    assert Handoffs(W, m) <= Acquirers(W, m);
  }

  lemma MutexJoin(mx: Mutex, m: nat, W: map<Tid, Waiter>, t: Tid, timed: bool)
    requires MutexOk(mx, m, W) && t !in W
    ensures MutexOk(mx.(count := mx.count + 1), m, W[t := Waiter(OfMutex(m), timed, true, NO_ERROR)])
  {
    var W' := W[t := Waiter(OfMutex(m), timed, true, NO_ERROR)];
    assert Acquirers(W', m) == Acquirers(W, m) + {t};
    assert Handoffs(W', m) == Handoffs(W, m);
  }

  lemma MutexDrop(mx: Mutex, m: nat, W: map<Tid, Waiter>)
    requires MutexOk(mx, m, W) && mx.holder.Some?
    ensures MutexOk(Mutex(mx.count - 1, None), m, W)
    ensures Handoffs(W, m) == {}
  {
  }

  /** A waiter of `m` is released while nobody owns it: it is handed the mutex, or it has timed out. */
  lemma MutexGrant(mx: Mutex, m: nat, W: map<Tid, Waiter>, t: Tid, code: int)
    requires MutexOk(mx, m, W) && t in W && W[t].w == OfMutex(m) && W[t].blocked
    requires code == NO_ERROR ==> mx.holder.None? && Handoffs(W, m) == {}
    ensures MutexOk(mx, m, W[t := W[t].(blocked := false, ret := code)])
  {
    var W' := W[t := W[t].(blocked := false, ret := code)];
    assert Acquirers(W', m) == Acquirers(W, m);
    assert Handoffs(W', m) == if code == NO_ERROR then Handoffs(W, m) + {t} else Handoffs(W, m);
  }

  lemma MutexLeave(mx: Mutex, m: nat, W: map<Tid, Waiter>, t: Tid)
    requires MutexOk(mx, m, W) && t in W && W[t].w == OfMutex(m) && !W[t].blocked
    ensures W[t].ret == NO_ERROR ==> MutexOk(mx.(holder := Some(t)), m, W - {t})
    ensures W[t].ret != NO_ERROR ==> MutexOk(mx.(count := mx.count - 1), m, W - {t})
  {
    var W' := W - {t};
    assert Acquirers(W', m) == Acquirers(W, m) - {t};
    assert Handoffs(W', m) == Handoffs(W, m) - {t};
    if W[t].ret == NO_ERROR {
      assert t in Handoffs(W, m);
      assert Handoffs(W', m) == {};
    }
  }

  /** Only waiters of `w` change. */
  ghost predicate OnlyAt(W: map<Tid, Waiter>, W': map<Tid, Waiter>, w: WaitId) {
    && (forall t | t in W && W[t].w != w :: t in W' && W'[t] == W[t])
    && (forall t | t in W' && W'[t].w != w :: t in W)
    && (forall t | t in W && W[t].w == w && t in W' :: W'[t].w == w)
  }

  lemma MutexesOther(mutexes: map<nat, Mutex>, mutexes': map<nat, Mutex>, W: map<Tid, Waiter>, W': map<Tid, Waiter>, w: WaitId)
    requires MutexesOk(mutexes, W) && OnlyAt(W, W', w)
    requires forall m | m in mutexes' && w != OfMutex(m) :: m in mutexes && mutexes'[m] == mutexes[m]
    requires forall m | m in mutexes' && w == OfMutex(m) :: MutexOk(mutexes'[m], m, W')
    ensures MutexesOk(mutexes', W')
  {
    forall m | m in mutexes' ensures MutexOk(mutexes'[m], m, W') {
      if w != OfMutex(m) {
        MutexOther(mutexes[m], m, W, W');
      }
    }
  }

  // ---- frames -------------------------------------------------------------

  /** The same objects seen with the same view of the threads. */
  lemma LayersFrame(s: Kernel, s': Kernel)
    requires Layers(s) && ViewOf(s'.threads) == ViewOf(s.threads)
    requires s'.mutexes == s.mutexes && s'.events == s.events && s'.waits == s.waits
    requires s'.dpcs == s.dpcs && s'.dpcPc == s.dpcPc
    ensures Layers(s')
  {
  }

  lemma SideFrame(s: Kernel, s': Kernel)
    requires Side(s) && ViewOf(s'.threads) == ViewOf(s.threads)
    requires s'.mutexes == s.mutexes && s'.events == s.events && s'.waits == s.waits
    requires s'.dpcs == s.dpcs && s'.dpcPc == s.dpcPc
    ensures Side(s')
  {
    LayersFrame(s, s');
  }

  /** A release keeps the layers' invariants when the mutexes allow it. */
  lemma LayersRelease(s: Kernel, s': Kernel, w: WaitId, t: Tid, code: int)
    requires Layers(s) && Released(s, s', t, code) && s.threads[t].cont.InWait? && s.threads[t].cont.w == w
    requires forall v | v in s'.waits && s'.waits[v].list != [] :: v in s.waits && s.waits[v].list != []
    requires w.OfMutex? && code == NO_ERROR && w.m in s.mutexes ==>
      s.mutexes[w.m].holder.None? && Handoffs(ViewOf(s.threads).waiters, w.m) == {}
    ensures Layers(s')
  {
    ReleasedView(s, s', t, code);
    var W := ViewOf(s.threads).waiters;
    var W' := W[t := W[t].(blocked := false, ret := code)];
    if w.OfMutex? && w.m in s.mutexes {
      MutexGrant(s.mutexes[w.m], w.m, W, t, code);
    }
    MutexesOther(s.mutexes, s.mutexes, W, W', w);
  }
}
