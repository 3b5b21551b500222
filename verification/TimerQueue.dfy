/** The time-ordered queue that timers wait in, under wrap-around time. */
module TimerQueue {
  import opened Words

  /** A queued timer: when it is due, and what it is for. */
  datatype Entry<T> = Entry(when: Word, body: T)

  /** The index of the first entry strictly later than `when`. */
  function Position<T>(q: seq<Entry<T>>, when: Word): (i: nat)
    ensures i <= |q|
    ensures i < |q| ==> TimeGt(q[i].when, when)
    ensures forall j | 0 <= j < i :: !TimeGt(q[j].when, when)
  {
    if q == [] || TimeGt(q[0].when, when) then 0 else 1 + Position(q[1..], when)
  }

  lemma {:induction false} PositionIs<T>(q: seq<Entry<T>>, when: Word, i: nat)
    requires i <= |q| && (i < |q| ==> TimeGt(q[i].when, when))
    requires forall j | 0 <= j < i :: !TimeGt(q[j].when, when)
    ensures Position(q, when) == i
  {
  }

  /** Insert before the first entry that is strictly later. */
  function Insert<T>(q: seq<Entry<T>>, e: Entry<T>): (r: seq<Entry<T>>) {
    var i := Position(q, e.when);
    q[..i] + [e] + q[i..]
  }

  // ---- half the time range ------------------------------------------------

  /** How far `w` lies after `base`. */
  function Off(base: Word, w: Word): (r: Word) {
    if w >= base then w - base else w - base + WORD
  }

  /** `w` lies in the half range that starts at `base`. */
  predicate Near(base: Word, w: Word) {
    Off(base, w) < HALF
  }

  /** Inside half the range the wrap-around comparisons are those of the distances from its start. */
  lemma OrderInHalf(base: Word, a: Word, b: Word)
    requires Near(base, a) && Near(base, b)
    ensures TimeGt(a, b) <==> Off(base, a) > Off(base, b)
    ensures TimeLt(a, b) <==> Off(base, a) < Off(base, b)
  {
  }

  lemma AddInHalf(base: Word, a: Word, d: Word)
    requires Off(base, a) + d < HALF
    ensures Near(base, Add(a, d)) && Off(base, Add(a, d)) == Off(base, a) + d
  {
    if a + d >= WORD {
      assert (a + d - WORD) % WORD == (a + d) % WORD;
    }
  }

  /** Just when a delay puts a timer into the future. */
  lemma LaterExactlyWhen(now: Word, d: Word)
    ensures TimeLt(now, Add(now, d)) <==> 0 < d <= HALF
  {
    if now + d >= WORD {
      assert (now + d - WORD) % WORD == (now + d) % WORD;
    }
  }

  ghost predicate Fits<T>(q: seq<Entry<T>>, base: Word) {
    forall i | 0 <= i < |q| :: Near(base, q[i].when)
  }

  ghost predicate Sorted<T>(q: seq<Entry<T>>) {
    forall i, j | 0 <= i < j < |q| :: !TimeGt(q[i].when, q[j].when)
  }

  // ---- insertion keeps the queue sorted and stable ------------------------

  /** From the place found on, everything is strictly later. */
  lemma LaterOnes<T>(q: seq<Entry<T>>, when: Word, base: Word, k: nat)
    requires Fits(q, base) && Sorted(q) && Near(base, when) && Position(q, when) <= k < |q|
    ensures TimeGt(q[k].when, when)
  {
    var i := Position(q, when);
    OrderInHalf(base, q[k].when, when);
    OrderInHalf(base, q[i].when, when);
    OrderInHalf(base, q[i].when, q[k].when);
  }

  /** While the times fit in half the range the queue stays in time order. */
  lemma InsertSorted<T>(q: seq<Entry<T>>, e: Entry<T>, base: Word)
    requires Fits(q, base) && Sorted(q) && Near(base, e.when)
    ensures Sorted(Insert(q, e)) && Fits(Insert(q, e), base)
  {
    hide TimeGt, Near;
    var i := Position(q, e.when);
    var r := Insert(q, e);
    forall j, k | 0 <= j < k < |r| ensures !TimeGt(r[j].when, r[k].when) {
      if j < i {
        assert r[j] == q[j];
      } else if j > i {
        assert r[j] == q[j - 1];
      }
      if k > i {
        assert r[k] == q[k - 1];
        LaterOnes(q, e.when, base, k - 1);
        GtAsymmetric(base, q[k - 1].when, e.when);
      }
    }
  }

  lemma GtAsymmetric(base: Word, a: Word, b: Word)
    requires Near(base, a) && Near(base, b) && TimeGt(a, b)
    ensures !TimeGt(b, a) && a != b
  {
  }

  /** The entries of time `t`, in queue order. */
  function SameTime<T>(q: seq<Entry<T>>, t: Word): seq<Entry<T>> {
    if q == [] then [] else (if q[0].when == t then [q[0]] else []) + SameTime(q[1..], t)
  }

  lemma {:induction false} SameTimeConcat<T>(a: seq<Entry<T>>, b: seq<Entry<T>>, t: Word)
    ensures SameTime(a + b, t) == SameTime(a, t) + SameTime(b, t)
    decreases |a|
  {
    if a == [] {
      assert a + b == b;
    } else {
      var first := if a[0].when == t then [a[0]] else [];
      assert (a + b)[1..] == a[1..] + b && (a + b)[0] == a[0];
      SameTimeConcat(a[1..], b, t);
      assert SameTime(a + b, t) == first + SameTime(a[1..] + b, t);
    }
  }

  lemma {:induction false} SameTimeNone<T>(q: seq<Entry<T>>, t: Word)
    requires forall i | 0 <= i < |q| :: q[i].when != t
    ensures SameTime(q, t) == []
    decreases |q|
  {
    if q != [] {
      SameTimeNone(q[1..], t);
    }
  }

  lemma SameTimeInsert<T>(a: seq<Entry<T>>, e: Entry<T>, b: seq<Entry<T>>, t: Word)
    ensures SameTime(a + [e] + b, t) == SameTime(a, t) + (if e.when == t then [e] else []) + SameTime(b, t)
  {
    SameTimeConcat(a + [e], b, t);
    SameTimeConcat(a, [e], t);
    assert SameTime([e], t) == if e.when == t then [e] else [];
  }

  /** Timers due at the same time keep the order in which they were set. */
  lemma InsertIsStable<T>(q: seq<Entry<T>>, e: Entry<T>, t: Word, base: Word)
    requires Fits(q, base) && Sorted(q) && Near(base, e.when)
    ensures SameTime(Insert(q, e), t) == SameTime(q, t) + if e.when == t then [e] else []
  {
    hide TimeGt, Near, Sorted, Fits, SameTime;
    var i := Position(q, e.when);
    SameTimeInsert(q[..i], e, q[i..], t);
    SameTimeConcat(q[..i], q[i..], t);
    assert q == q[..i] + q[i..];
    if e.when == t {
      forall k | 0 <= k < |q[i..]| ensures q[i..][k].when != t {
        LaterOnes(q, t, base, i + k);
        LaterDiffers(q[i + k].when, t);
      }
      SameTimeNone(q[i..], t);
    }
  }

  lemma LaterDiffers(a: Word, b: Word)
    requires TimeGt(a, b)
    ensures a != b
  {
  }
}
