/** The timer service: one-shot and periodic timers, with callbacks that may set
    and cancel timers while the tick runs. */
module Timers {
  import opened Words
  import opened TimerQueue

  type Id = nat

  /** A timer's period, zero for a one-shot, and whether it has a callback. Its
      time is kept with its place in the queue. */
  datatype Timer = Timer(period: Word, armed: bool)

  datatype Queue = Queue(timers: map<Id, Timer>, line: seq<Entry<Id>>)

  /** What a callback may do; `at` is the clock it reads. */
  datatype Op =
    | Oneshot(id: Id, delay: Word, at: Word)
    | Periodic(id: Id, every: Word, at: Word)
    | Cancel(id: Id)

  datatype Option<T> = None | Some(value: T)

  /** The fields of a timer; one never set is all zero. */
  function Get(q: Queue, id: Id): Timer {
    if id in q.timers then q.timers[id] else Timer(0, false)
  }

  /** list_in_list. */
  predicate Queued(line: seq<Entry<Id>>, id: Id) {
    exists i | 0 <= i < |line| :: line[i].body == id
  }

  // ---- operations ---------------------------------------------------------

  /** timer_set, for a timer that is not queued. */
  function Set(q: Queue, id: Id, delay: Word, period: Word, at: Word): Queue {
    Queue(q.timers[id := Timer(period, true)], Insert(q.line, Entry(Add(at, delay), id)))
  }

  function AtLeastOne(d: Word): Word {
    if d == 0 then 1 else d
  }

  function Without(line: seq<Entry<Id>>, id: Id): (r: seq<Entry<Id>>)
    ensures |r| <= |line| && !Queued(r, id)
    ensures forall x | x in r :: x in line
    ensures forall x | x in line && x.body != id :: x in r
  {
    if line == [] then []
    else if line[0].body == id then Without(line[1..], id)
    else [line[0]] + Without(line[1..], id)
  }

  /** timer_cancel. */
  function CancelTimer(q: Queue, id: Id): Queue {
    Queue(q.timers[id := Timer(0, false)], Without(q.line, id))
  }

  /** One operation; setting a queued timer panics. */
  function Do(q: Queue, op: Op): Option<Queue> {
    match op
    case Oneshot(id, delay, at) => if Queued(q.line, id) then None else Some(Set(q, id, AtLeastOne(delay), 0, at))
    case Periodic(id, every, at) =>
      if Queued(q.line, id) then None else Some(Set(q, id, AtLeastOne(every), AtLeastOne(every), at))
    case Cancel(id) => Some(CancelTimer(q, id))
  }

  function DoAll(q: Queue, ops: seq<Op>): Option<Queue>
    decreases |ops|
  {
    if ops == [] then Some(q) else
    match Do(q, ops[0])
    case None => None
    case Some(q1) => DoAll(q1, ops[1..])
  }

  predicate DueAt(e: Entry<Id>, now: Word) {
    !TimeLt(now, e.when)
  }

  /** One turn of the loop of timer_tick: the head leaves the queue, its
      callback does `ops`, and a timer that is still periodic and not requeued
      goes back in. */
  function Fire(q: Queue, now: Word, ops: seq<Op>): Option<Queue>
    requires q.line != []
  {
    var id := q.line[0].body;
    match DoAll(q.(line := q.line[1..]), ops)
    case None => None
    case Some(q1) =>
      if Get(q, id).period > 0 && !Queued(q1.line, id) && Get(q1, id).period > 0 then
        Some(q1.(line := Insert(q1.line, Entry(Add(now, Get(q1, id).period), id))))
      else Some(q1)
  }

  // ---- what the service relies on -----------------------------------------

  ghost predicate Distinct(line: seq<Entry<Id>>) {
    forall i, j | 0 <= i < j < |line| :: line[i].body != line[j].body
  }

  /** The queue fits the half range from `base`, each timer once, in time order. */
  ghost predicate Good(line: seq<Entry<Id>>, base: Word) {
    Fits(line, base) && Distinct(line) && Sorted(line)
  }

  /** A timer's new time is ahead of `now` and inside the half range. */
  ghost predicate Ahead(base: Word, now: Word, at: Word, d: Word) {
    d > 0 && Off(base, now) <= Off(base, at) && Off(base, at) + d < HALF
  }

  /** The operation, and the requeueing that a period leads to, stay ahead of `now`. */
  ghost predicate OpFits(base: Word, now: Word, op: Op) {
    match op
    case Oneshot(_, delay, at) => Ahead(base, now, at, AtLeastOne(delay))
    case Periodic(_, every, at) =>
      Ahead(base, now, at, AtLeastOne(every)) && Ahead(base, now, now, AtLeastOne(every))
    case Cancel(_) => true
  }

  ghost predicate PeriodsFit(q: Queue, base: Word, now: Word) {
    forall id | id in q.timers && q.timers[id].period > 0 :: Ahead(base, now, now, q.timers[id].period)
  }

  // ---- operations keep the queue in order ---------------------------------

  lemma InsertDistinct(line: seq<Entry<Id>>, e: Entry<Id>)
    requires Distinct(line) && !Queued(line, e.body)
    ensures Distinct(Insert(line, e))
  {
    var i := Position(line, e.when);
    var r := Insert(line, e);
    forall j, k | 0 <= j < k < |r| ensures r[j].body != r[k].body {
      assert j < i ==> r[j] == line[j];
      assert j > i ==> r[j] == line[j - 1];
      assert k < i ==> r[k] == line[k];
      assert k > i ==> r[k] == line[k - 1];
    }
  }

  lemma InsertGood(line: seq<Entry<Id>>, e: Entry<Id>, base: Word)
    requires Good(line, base) && !Queued(line, e.body) && Near(base, e.when)
    ensures Good(Insert(line, e), base)
  {
    InsertDistinct(line, e);
    InsertSorted(line, e, base);
  }

  lemma {:induction false} WithoutSorted(line: seq<Entry<Id>>, id: Id)
    requires Sorted(line)
    ensures Sorted(Without(line, id))
    decreases |line|
  {
    hide TimeGt;
    if line != [] {
      WithoutSorted(line[1..], id);
      var r := Without(line[1..], id);
      forall j | 0 <= j < |r| ensures !TimeGt(line[0].when, r[j].when) {
        assert r[j] in line[1..];
      }
    }
  }

  lemma WithoutGood(line: seq<Entry<Id>>, id: Id, base: Word)
    requires Good(line, base)
    ensures Good(Without(line, id), base)
  {
    hide TimeGt, Near, Without;
    WithoutSorted(line, id);
    WithoutDistinct(line, id);
    var r := Without(line, id);
    forall i | 0 <= i < |r| ensures Near(base, r[i].when) {
      assert r[i] in line;
    }
  }

  lemma InsertHolds(line: seq<Entry<Id>>, e: Entry<Id>, x: Entry<Id>)
    ensures x in Insert(line, e) <==> x == e || x in line
  {
    var i := Position(line, e.when);
    assert line == line[..i] + line[i..];
  }

  /** What an operation comes to: setting a queued timer panics; a one-shot, or a
      periodic timer, is queued for the delay after the clock it reads, at least
      one; a cancelled timer is in the queue no more, and will not be put back. */
  lemma OperationOutcome(q: Queue, op: Op)
    ensures Do(q, op).None? <==> !op.Cancel? && Queued(q.line, op.id)
    ensures Do(q, op).Some? ==>
      var q' := Do(q, op).value;
      && (forall id | id != op.id :: Get(q', id) == Get(q, id))
      && (match op
          case Oneshot(id, delay, at) =>
            && Get(q', id).period == 0
            && (forall x :: x in q'.line <==> x in q.line || x == Entry(Add(at, if delay == 0 then 1 else delay), id))
          case Periodic(id, every, at) =>
            && Get(q', id).period == (if every == 0 then 1 else every)
            && (forall x :: x in q'.line <==> x in q.line || x == Entry(Add(at, if every == 0 then 1 else every), id))
          case Cancel(id) =>
            && Get(q', id).period == 0
            && (forall x :: x in q'.line <==> x in q.line && x.body != id))
  {
    hide Insert, Add;
    match op
    case Oneshot(id, delay, at) =>
      forall x { InsertHolds(q.line, Entry(Add(at, AtLeastOne(delay)), id), x); }
    case Periodic(id, every, at) =>
      forall x { InsertHolds(q.line, Entry(Add(at, AtLeastOne(every)), id), x); }
    case Cancel(id) =>
  }

  // ---- which timers a tick fires ------------------------------------------

  /** The due timers, in queue order. */
  function DueOf(line: seq<Entry<Id>>, now: Word): (r: seq<Entry<Id>>)
    ensures forall x | x in r :: x in line && DueAt(x, now)
    ensures forall x | x in line && DueAt(x, now) :: x in r
  {
    if line == [] then [] else (if DueAt(line[0], now) then [line[0]] else []) + DueOf(line[1..], now)
  }

  lemma {:induction false} DueConcat(a: seq<Entry<Id>>, b: seq<Entry<Id>>, now: Word)
    ensures DueOf(a + b, now) == DueOf(a, now) + DueOf(b, now)
    decreases |a|
  {
    if a == [] {
      assert a + b == b;
    } else {
      assert (a + b)[1..] == a[1..] + b;
      DueConcat(a[1..], b, now);
    }
  }

  lemma {:induction false} DueWithout(line: seq<Entry<Id>>, id: Id, now: Word)
    ensures DueOf(Without(line, id), now) == Without(DueOf(line, now), id)
    decreases |line|
  {
    if line != [] {
      DueWithout(line[1..], id, now);
      var due := DueOf(line[1..], now);
      assert ([line[0]] + due)[1..] == due && [] + due == due;
      assert ([line[0]] + Without(line[1..], id))[1..] == Without(line[1..], id);
    }
  }

  /** A timer that is not yet due joins without changing what is due. */
  lemma InsertDue(line: seq<Entry<Id>>, e: Entry<Id>, now: Word)
    requires !DueAt(e, now)
    ensures DueOf(Insert(line, e), now) == DueOf(line, now)
  {
    hide DueAt;
    var i := Position(line, e.when);
    DueConcat(line[..i] + [e], line[i..], now);
    DueConcat(line[..i], [e], now);
    DueConcat(line[..i], line[i..], now);
    assert line == line[..i] + line[i..];
    assert DueOf([e], now) == [];
  }

  /** The timers a list of operations cancels drop out of `due`. */
  function Spared(due: seq<Entry<Id>>, ops: seq<Op>): (r: seq<Entry<Id>>)
    ensures |r| <= |due|
    ensures forall x | x in r :: x in due
    decreases |ops|
  {
    if ops == [] then due
    else if ops[0].Cancel? then Spared(Without(due, ops[0].id), ops[1..])
    else Spared(due, ops[1..])
  }

  /** A time ahead of `now` is in the half range and not due. */
  lemma AheadNotDue(base: Word, now: Word, at: Word, d: Word, id: Id)
    requires Near(base, now) && Ahead(base, now, at, d)
    ensures Near(base, Add(at, d)) && !DueAt(Entry(Add(at, d), id), now)
  {
    AddInHalf(base, at, d);
    OrderInHalf(base, now, Add(at, d));
  }

  lemma SetKeeps(q: Queue, id: Id, delay: Word, period: Word, at: Word, base: Word, now: Word)
    requires Good(q.line, base) && !Queued(q.line, id) && Near(base, now) && Ahead(base, now, at, delay)
    ensures
      var q' := Set(q, id, delay, period, at);
      Good(q'.line, base) && DueOf(q'.line, now) == DueOf(q.line, now)
  {
    AheadNotDue(base, now, at, delay, id);
    InsertGood(q.line, Entry(Add(at, delay), id), base);
    InsertDue(q.line, Entry(Add(at, delay), id), now);
  }

  lemma DoKeeps(q: Queue, op: Op, base: Word, now: Word)
    requires Good(q.line, base) && Near(base, now) && OpFits(base, now, op) && Do(q, op).Some?
    ensures
      var q' := Do(q, op).value;
      && Good(q'.line, base) && (PeriodsFit(q, base, now) ==> PeriodsFit(q', base, now))
      && DueOf(q'.line, now) == Spared(DueOf(q.line, now), [op])
  {
    hide Good, DueOf;
    match op
    case Oneshot(id, delay, at) => SetKeeps(q, id, AtLeastOne(delay), 0, at, base, now);
    case Periodic(id, every, at) => SetKeeps(q, id, AtLeastOne(every), AtLeastOne(every), at, base, now);
    case Cancel(id) =>
      WithoutGood(q.line, id, base);
      DueWithout(q.line, id, now);
  }

  lemma {:induction false} DoAllKeeps(q: Queue, ops: seq<Op>, base: Word, now: Word)
    requires Good(q.line, base) && Near(base, now)
    requires forall i | 0 <= i < |ops| :: OpFits(base, now, ops[i])
    requires DoAll(q, ops).Some?
    ensures
      var q' := DoAll(q, ops).value;
      && Good(q'.line, base) && (PeriodsFit(q, base, now) ==> PeriodsFit(q', base, now))
      && DueOf(q'.line, now) == Spared(DueOf(q.line, now), ops)
    decreases |ops|
  {
    hide Good, OpFits, PeriodsFit, DueOf;
    if ops != [] {
      DoKeeps(q, ops[0], base, now);
      DoAllKeeps(Do(q, ops[0]).value, ops[1..], base, now);
    }
  }

  /** One turn of the loop: the head of the due timers has fired, those its
      callback cancelled are gone, and none has become due. */
  lemma FireKeeps(q: Queue, now: Word, ops: seq<Op>, base: Word)
    requires Good(q.line, base) && Near(base, now) && PeriodsFit(q, base, now)
    requires forall i | 0 <= i < |ops| :: OpFits(base, now, ops[i])
    requires q.line != [] && DueAt(q.line[0], now) && Fire(q, now, ops).Some?
    ensures
      var q' := Fire(q, now, ops).value;
      && Good(q'.line, base) && PeriodsFit(q', base, now)
      && DueOf(q.line, now) != [] && DueOf(q.line, now)[0] == q.line[0]
      && DueOf(q'.line, now) == Spared(DueOf(q.line, now)[1..], ops)
  {
    var id := q.line[0].body;
    var popped := q.(line := q.line[1..]);
    DoAllKeeps(popped, ops, base, now);
    var q1 := DoAll(popped, ops).value;
    if Get(q, id).period > 0 && !Queued(q1.line, id) && Get(q1, id).period > 0 {
      var period := Get(q1, id).period;
      AheadNotDue(base, now, now, period, id);
      InsertGood(q1.line, Entry(Add(now, period), id), base);
      InsertDue(q1.line, Entry(Add(now, period), id), now);
    }
  }

  // ---- timer_tick ---------------------------------------------------------

  /** Callback `i` of the tick does `script[i]`; beyond its end callbacks do nothing. */
  function First(script: seq<seq<Op>>): seq<Op> {
    if script == [] then [] else script[0]
  }

  function Rest(script: seq<seq<Op>>): seq<seq<Op>> {
    if script == [] then [] else script[1..]
  }

  ghost predicate ScriptFits(script: seq<seq<Op>>, base: Word, now: Word) {
    forall i, j | 0 <= i < |script| && 0 <= j < |script[i]| :: OpFits(base, now, script[i][j])
  }

  /** What timer_tick needs: all times, with those the callbacks ask for, within half the range. */
  ghost predicate Tickable(q: Queue, now: Word, script: seq<seq<Op>>, base: Word) {
    Good(q.line, base) && Near(base, now) && PeriodsFit(q, base, now) && ScriptFits(script, base, now)
  }

  datatype Outcome = Panic | Done(queue: Queue, fired: seq<Id>)

  /** timer_tick: it ends because fewer timers are due after each turn. */
  ghost function Tick(q: Queue, now: Word, script: seq<seq<Op>>, base: Word): Outcome
    requires Tickable(q, now, script, base)
    decreases |DueOf(q.line, now)|
  {
    if q.line == [] || !DueAt(q.line[0], now) then Done(q, []) else
    match Fire(q, now, First(script))
    case None => Panic
    case Some(q1) =>
      FireKeeps(q, now, First(script), base);
      match Tick(q1, now, Rest(script), base)
      case Panic => Panic
      case Done(q2, fired) => Done(q2, [q.line[0].body] + fired)
  }

  /** The reference: run down the timers that were due when the tick began,
      leaving out those that a callback has cancelled by then. */
  function RunDown(due: seq<Entry<Id>>, script: seq<seq<Op>>): seq<Id>
    decreases |due|
  {
    if due == [] then [] else [due[0].body] + RunDown(Spared(due[1..], First(script)), Rest(script))
  }

  lemma HeadIsFirst(line: seq<Entry<Id>>, base: Word, now: Word)
    requires Good(line, base) && Near(base, now) && (line == [] || !DueAt(line[0], now))
    ensures DueOf(line, now) == []
    ensures forall i | 0 <= i < |line| :: TimeGt(line[i].when, now)
  {
    forall i | 0 <= i < |line| ensures TimeGt(line[i].when, now) && !DueAt(line[i], now) {
      OrderInHalf(base, now, line[i].when);
      OrderInHalf(base, line[i].when, now);
      OrderInHalf(base, now, line[0].when);
      OrderInHalf(base, line[0].when, line[i].when);
    }
    if DueOf(line, now) != [] {
      assert DueOf(line, now)[0] in DueOf(line, now);
    }
  }

  /** timer_tick fires exactly the timers that were due, in order, except those
      cancelled before their turn; afterwards every queued timer lies in the
      future, and the queue is sorted as before. */
  lemma {:induction false} TickFiresWhatIsDue(q: Queue, now: Word, script: seq<seq<Op>>, base: Word)
    requires Tickable(q, now, script, base) && Tick(q, now, script, base).Done?
    ensures
      var done := Tick(q, now, script, base);
      && done.fired == RunDown(DueOf(q.line, now), script)
      && (forall i | 0 <= i < |done.queue.line| :: TimeGt(done.queue.line[i].when, now))
      && Good(done.queue.line, base)
    decreases |DueOf(q.line, now)|
  {
    if q.line == [] || !DueAt(q.line[0], now) {
      HeadIsFirst(q.line, base, now);
    } else {
      FireKeeps(q, now, First(script), base);
      TickFiresWhatIsDue(Fire(q, now, First(script)).value, now, Rest(script), base);
    }
  }

  // ---- what the reference says --------------------------------------------

  lemma {:induction false} WithoutDistinct(line: seq<Entry<Id>>, id: Id)
    requires Distinct(line)
    ensures Distinct(Without(line, id))
    decreases |line|
  {
    if line != [] {
      WithoutDistinct(line[1..], id);
      var r := Without(line[1..], id);
      forall j | 0 <= j < |r| ensures line[0].body != r[j].body {
        assert r[j] in line[1..];
      }
    }
  }

  lemma {:induction false} SparedDistinct(due: seq<Entry<Id>>, ops: seq<Op>)
    requires Distinct(due)
    ensures Distinct(Spared(due, ops))
    decreases |ops|
  {
    if ops != [] {
      if ops[0].Cancel? {
        WithoutDistinct(due, ops[0].id);
        SparedDistinct(Without(due, ops[0].id), ops[1..]);
      } else {
        SparedDistinct(due, ops[1..]);
      }
    }
  }

  lemma {:induction false} RunDownSubset(due: seq<Entry<Id>>, script: seq<seq<Op>>)
    ensures forall x | x in RunDown(due, script) :: Queued(due, x)
    decreases |due|
  {
    if due != [] {
      var rest := Spared(due[1..], First(script));
      RunDownSubset(rest, Rest(script));
      forall x | Queued(rest, x) ensures Queued(due, x) {
        var i :| 0 <= i < |rest| && rest[i].body == x;
        assert rest[i] in due[1..];
      }
      assert due[0].body == due[0].body;
    }
  }

  /** No timer fires twice in a tick. */
  lemma {:induction false} FiredOnce(due: seq<Entry<Id>>, script: seq<seq<Op>>)
    requires Distinct(due)
    ensures forall i, j | 0 <= i < j < |RunDown(due, script)| :: RunDown(due, script)[i] != RunDown(due, script)[j]
    decreases |due|
  {
    if due != [] {
      SparedDistinct(due[1..], First(script));
      var rest := Spared(due[1..], First(script));
      FiredOnce(rest, Rest(script));
      RunDownSubset(rest, Rest(script));
      var r := RunDown(due, script);
      forall j | 0 < j < |r| ensures r[j] != r[0] {
        assert r[j] in RunDown(rest, Rest(script));
        var k :| 0 <= k < |rest| && rest[k].body == r[j];
        assert rest[k] in due[1..];
      }
    }
  }

  predicate Cancels(script: seq<seq<Op>>, id: Id) {
    exists i, j | 0 <= i < |script| && 0 <= j < |script[i]| :: script[i][j] == Cancel(id)
  }

  lemma {:induction false} SparedUnlessCancelled(due: seq<Entry<Id>>, ops: seq<Op>, e: Entry<Id>)
    requires e in due && forall j | 0 <= j < |ops| :: ops[j] != Cancel(e.body)
    ensures e in Spared(due, ops)
    decreases |ops|
  {
    if ops != [] {
      if ops[0].Cancel? {
        SparedUnlessCancelled(Without(due, ops[0].id), ops[1..], e);
      } else {
        SparedUnlessCancelled(due, ops[1..], e);
      }
    }
  }

  /** A due timer that no callback cancels does fire. */
  lemma {:induction false} FiredUnlessCancelled(due: seq<Entry<Id>>, script: seq<seq<Op>>, e: Entry<Id>)
    requires e in due && !Cancels(script, e.body)
    ensures e.body in RunDown(due, script)
    decreases |due|
  {
    if due[0] != e {
      forall j | 0 <= j < |First(script)| ensures First(script)[j] != Cancel(e.body) {
        assert script[0][j] == First(script)[j];
      }
      SparedUnlessCancelled(due[1..], First(script), e);
      forall i, j | 0 <= i < |Rest(script)| && 0 <= j < |Rest(script)[i]|
        ensures Rest(script)[i][j] != Cancel(e.body)
      {
        assert script[i + 1][j] == Rest(script)[i][j];
      }
      FiredUnlessCancelled(Spared(due[1..], First(script)), Rest(script), e);
    }
  }

  /** With a period of more than half the range the requeued timer is due at
      once, so the number of due timers does not fall. */
  lemma LongPeriodStaysDue(q: Queue, now: Word, id: Id)
    requires |q.line| == 1 && q.line[0].body == id && DueAt(q.line[0], now)
    requires id in q.timers && q.timers[id].period > HALF
    ensures
      var q' := Fire(q, now, []);
      && q'.Some? && q'.value.timers == q.timers
      && |q'.value.line| == 1 && q'.value.line[0].body == id && DueAt(q'.value.line[0], now)
  {
    LaterExactlyWhen(now, q.timers[id].period);
  }

  // ---- the timer queue as the source keeps it -----------------------------

  lemma {:induction false} WithoutAbsent(line: seq<Entry<Id>>, id: Id)
    requires !Queued(line, id)
    ensures Without(line, id) == line
    decreases |line|
  {
    if line != [] {
      assert line[0].body != id;
      forall i | 0 <= i < |line[1..]| ensures line[1..][i].body != id {
        assert line[i + 1].body != id;
      }
      WithoutAbsent(line[1..], id);
    }
  }

  lemma {:induction false} WithoutAt(line: seq<Entry<Id>>, id: Id, i: nat)
    requires Distinct(line) && i < |line| && line[i].body == id
    ensures Without(line, id) == line[..i] + line[i+1..]
    decreases i
  {
    if i == 0 {
      WithoutAbsent(line[1..], id);
    } else {
      WithoutAt(line[1..], id, i - 1);
    }
  }

  /** An operation keeps the queue free of repetitions. */
  lemma DoDistinct(q: Queue, op: Op)
    requires Distinct(q.line) && Do(q, op).Some?
    ensures Distinct(Do(q, op).value.line)
  {
    hide Distinct;
    match op
    case Oneshot(id, delay, at) => InsertDistinct(q.line, Entry(Add(at, AtLeastOne(delay)), id));
    case Periodic(id, every, at) => InsertDistinct(q.line, Entry(Add(at, AtLeastOne(every)), id));
    case Cancel(id) => WithoutDistinct(q.line, id);
  }

  /** One turn of timer_tick, and what remains of it. */
  lemma TickTurn(q: Queue, now: Word, script: seq<seq<Op>>, base: Word)
    requires Tickable(q, now, script, base) && q.line != [] && DueAt(q.line[0], now)
    ensures Fire(q, now, First(script)).None? ==> Tick(q, now, script, base) == Panic
    ensures Fire(q, now, First(script)).Some? ==>
      var q1 := Fire(q, now, First(script)).value;
      && Tickable(q1, now, Rest(script), base) && |DueOf(q1.line, now)| < |DueOf(q.line, now)|
      && Tick(q, now, script, base) == (match Tick(q1, now, Rest(script), base)
                                        case Panic => Panic
                                        case Done(q2, fired) => Done(q2, [q.line[0].body] + fired))
  {
    hide Fits, Sorted, Distinct, PeriodsFit, Fire;
    if Fire(q, now, First(script)).Some? {
      FireKeeps(q, now, First(script), base);
    }
  }

  class TimerService {
    var timers: map<Id, Timer>
    var line: seq<Entry<Id>>

    function State(): Queue
      reads this
    {
      Queue(timers, line)
    }

    constructor ()
      ensures State() == Queue(map[], [])
    {
      timers, line := map[], [];
    }

    method InsertTimerInQueue(when: Word, id: Id)
      modifies this`line
      ensures line == Insert(old(line), Entry(when, id))
    {
      var i := 0;
      while i < |line| && !TimeGt(line[i].when, when)
        invariant i <= |line|
        invariant forall j | 0 <= j < i :: !TimeGt(line[j].when, when)
      {
        i := i + 1;
      }
      PositionIs(line, when, i);
      line := line[..i] + [Entry(when, id)] + line[i..];
    }

    /** Where a timer is in the queue, or the queue's length. */
    method Find(id: Id) returns (i: nat)
      ensures i <= |line| && (i < |line| <==> Queued(line, id))
      ensures i < |line| ==> line[i].body == id
    {
      i := 0;
      while i < |line| && line[i].body != id
        invariant i <= |line|
        invariant forall j | 0 <= j < i :: line[j].body != id
      {
        i := i + 1;
      }
    }

    /** The result tells whether the call returned; setting a queued timer panics. */
    method TimerSet(id: Id, delay: Word, period: Word, at: Word) returns (ok: bool)
      modifies this
      ensures ok == !Queued(old(line), id)
      ensures State() == if ok then Set(old(State()), id, delay, period, at) else old(State())
    {
      var i := Find(id);
      if i < |line| {
        return false;
      }
      timers := timers[id := Timer(period, true)];
      InsertTimerInQueue(Add(at, delay), id);
      ok := true;
    }

    method TimerCancel(id: Id)
      requires Distinct(line)
      modifies this
      ensures State() == CancelTimer(old(State()), id)
    {
      var i := Find(id);
      if i < |line| {
        WithoutAt(line, id, i);
        line := line[..i] + line[i+1..];
      } else {
        WithoutAbsent(line, id);
      }
      timers := timers[id := Timer(0, false)];
    }

    method Perform(op: Op) returns (ok: bool)
      requires Distinct(line)
      modifies this
      ensures ok == Do(old(State()), op).Some?
      ensures ok ==> State() == Do(old(State()), op).value && Distinct(line)
    {
      hide Set, CancelTimer, Distinct, Queued;
      ghost var q := State();
      match op {
        case Oneshot(id, delay, at) => ok := TimerSet(id, if delay == 0 then 1 else delay, 0, at);
        case Periodic(id, every, at) =>
          var p: Word := if every == 0 then 1 else every;
          ok := TimerSet(id, p, p, at);
        case Cancel(id) =>
          TimerCancel(id);
          ok := true;
      }
      if ok {
        DoDistinct(q, op);
      }
    }

    method Callback(ops: seq<Op>) returns (ok: bool)
      requires Distinct(line)
      modifies this
      ensures ok == DoAll(old(State()), ops).Some?
      ensures ok ==> State() == DoAll(old(State()), ops).value && Distinct(line)
    {
      ghost var q := State();
      var i := 0;
      while i < |ops|
        invariant i <= |ops| && Distinct(line)
        invariant DoAll(State(), ops[i..]) == DoAll(q, ops)
      {
        assert ops[i..][0] == ops[i] && ops[i..][1..] == ops[i+1..];
        ok := Perform(ops[i]);
        if !ok {
          return;
        }
        i := i + 1;
      }
      ok := true;
    }

    /** One turn of the loop of timer_tick. */
    method FireHead(now: Word, ops: seq<Op>) returns (ok: bool)
      requires line != [] && Distinct(line)
      modifies this
      ensures ok == Fire(old(State()), now, ops).Some?
      ensures ok ==> State() == Fire(old(State()), now, ops).value
    {
      var id := line[0].body;
      line := line[1..];
      var periodic := Get(State(), id).period > 0;
      ok := Callback(ops);
      if !ok {
        return;
      }
      var i := Find(id);
      if periodic && i == |line| && Get(State(), id).period > 0 {
        InsertTimerInQueue(Add(now, Get(State(), id).period), id);
      }
    }

    /** timer_tick. The callbacks do what `script` says; `fired` lists the timers in firing order. */
    method TimerTick(now: Word, script: seq<seq<Op>>, ghost base: Word) returns (ok: bool, fired: seq<Id>)
      requires Tickable(State(), now, script, base)
      modifies this
      ensures ok == old(Tick(State(), now, script, base)).Done?
      ensures ok ==> old(Tick(State(), now, script, base)) == Done(State(), fired)
    {
      hide Fits, Sorted, Distinct, PeriodsFit, ScriptFits, DueOf, Fire, Spared;
      ghost var whole := Tick(State(), now, script, base);
      fired := [];
      var rest := script;
      while line != [] && !TimeLt(now, line[0].when)
        invariant Tickable(State(), now, rest, base)
        invariant match Tick(State(), now, rest, base)
                  case Panic => whole == Panic
                  case Done(q, more) => whole == Done(q, fired + more)
        decreases |DueOf(line, now)|
      {
        TickTurn(State(), now, rest, base);
        var id := line[0].body;
        ok := FireHead(now, First(rest));
        if !ok {
          return;
        }
        fired := fired + [id];
        rest := Rest(rest);
      }
      ok := true;
    }
  }
}
