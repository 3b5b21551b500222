/** Just when the loop of timer_tick ends. */
module TickEnds {
  import opened Words
  import opened TimerQueue
  import opened Timers

  /** What the callbacks of a tick do, turn by turn. */
  type Script = nat -> seq<Op>

  /** The guard of the loop is false. */
  predicate Idle(q: Queue, now: Word) {
    q.line == [] || !DueAt(q.line[0], now)
  }

  /** The queue after `n` turns of the loop of timer_tick, or after its last; None is a panic. */
  function At(q: Queue, now: Word, script: Script, n: nat): Option<Queue> {
    if n == 0 then Some(q) else
    match At(q, now, script, n - 1)
    case None => None
    case Some(p) => if Idle(p, now) then Some(p) else Fire(p, now, script(n - 1))
  }

  /** No callback panics. */
  ghost predicate Calm(q: Queue, now: Word, script: Script) {
    forall n: nat :: At(q, now, script, n).Some?
  }

  /** The loop comes to its end, after some number of turns. */
  ghost predicate Ends(q: Queue, now: Word, script: Script) {
    exists n: nat :: At(q, now, script, n).Some? && Idle(At(q, now, script, n).value, now)
  }

  /** The time that an operation asks for is not after `now`. */
  predicate Late(now: Word, op: Op) {
    match op
    case Oneshot(id, delay, at) => DueAt(Entry(Add(at, AtLeastOne(delay)), id), now)
    case Periodic(id, every, at) => DueAt(Entry(Add(at, AtLeastOne(every)), id), now)
    case Cancel(_) => false
  }

  /** With the clock still at `now`, these are the delays and periods above half the range. */
  lemma LateExactlyWhen(now: Word, id: Id, d: Word)
    ensures Late(now, Oneshot(id, d, now)) <==> d > HALF
    ensures Late(now, Periodic(id, d, now)) <==> d > HALF
  {
    LaterExactlyWhen(now, AtLeastOne(d));
  }

  /** The times a tick can put into the queue lie in the half range, on either side of `now`. */
  ghost predicate OpNear(base: Word, now: Word, op: Op) {
    match op
    case Oneshot(_, delay, at) => Near(base, Add(at, AtLeastOne(delay)))
    case Periodic(_, every, at) =>
      Near(base, Add(at, AtLeastOne(every))) && (Late(now, op) ==> Near(base, Add(now, AtLeastOne(every))))
    case Cancel(_) => true
  }

  ghost predicate RequeueNear(q: Queue, base: Word, now: Word) {
    forall x | x in q.line && DueAt(x, now) && Get(q, x.body).period > 0 :: Near(base, Add(now, Get(q, x.body).period))
  }

  ghost predicate InHalf(q: Queue, base: Word, now: Word) {
    Good(q.line, base) && Near(base, now) && RequeueNear(q, base, now)
  }

  ghost predicate OpsNear(ops: seq<Op>, base: Word, now: Word) {
    forall j | 0 <= j < |ops| :: OpNear(base, now, ops[j])
  }

  ghost predicate ScriptNear(script: Script, base: Word, now: Word) {
    forall i: nat :: OpsNear(script(i), base, now)
  }

  /** The timer is due and its period is more than half the range. */
  ghost predicate LongDue(q: Queue, now: Word, id: Id) {
    Get(q, id).period > HALF && exists x | x in q.line :: x.body == id && DueAt(x, now)
  }

  /** No due timer has a period of more than half the range. */
  ghost predicate DueShort(q: Queue, now: Word) {
    forall id :: !LongDue(q, now, id)
  }

  // ---- one turn -----------------------------------------------------------

  /** A sorted queue that holds a due timer has one at its head. */
  lemma DueHead(line: seq<Entry<Id>>, base: Word, now: Word, x: Entry<Id>)
    requires Good(line, base) && Near(base, now) && x in line && DueAt(x, now)
    ensures DueAt(line[0], now)
  {
    if !DueAt(line[0], now) {
      HeadIsFirst(line, base, now);
      assert false;
    }
  }

  /** The operations from `q` to `q'` leave timer `id` as it is. */
  ghost predicate SameTimer(q: Queue, q': Queue, id: Id) {
    Get(q', id) == Get(q, id) && forall x: Entry<Id> | x.body == id :: x in q'.line <==> x in q.line
  }

  /** A timer that an operation was about is queued or no longer periodic. */
  ghost predicate Settled(q: Queue, id: Id) {
    Timers.Queued(q.line, id) || Get(q, id).period == 0
  }

  lemma SetNear(q: Queue, id: Id, delay: Word, period: Word, at: Word, base: Word, now: Word)
    requires InHalf(q, base, now) && !Timers.Queued(q.line, id) && Near(base, Add(at, delay))
    requires period > 0 && DueAt(Entry(Add(at, delay), id), now) ==> Near(base, Add(now, period))
    ensures
      var q' := Set(q, id, delay, period, at);
      && InHalf(q', base, now) && Settled(q', id)
      && (forall other | other != id :: SameTimer(q, q', other))
      && (LongDue(q', now, id) ==> period > HALF && DueAt(Entry(Add(at, delay), id), now))
  {
    hide Good, Near, DueAt;
    var e := Entry(Add(at, delay), id);
    InsertGood(q.line, e, base);
    forall x ensures x in Insert(q.line, e) <==> x == e || x in q.line {
      InsertHolds(q.line, e, x);
    }
    assert Insert(q.line, e)[Position(q.line, e.when)] == e;
  }

  /** An operation that makes a timer long and due. */
  predicate AsksLong(now: Word, op: Op) {
    op.Periodic? && Late(now, op) && AtLeastOne(op.every) > HALF
  }

  lemma DoNear(q: Queue, op: Op, base: Word, now: Word)
    requires InHalf(q, base, now) && OpNear(base, now, op) && Do(q, op).Some?
    ensures
      var q' := Do(q, op).value;
      && InHalf(q', base, now) && Settled(q', op.id)
      && (forall other | other != op.id :: SameTimer(q, q', other))
      && (LongDue(q', now, op.id) ==> AsksLong(now, op))
  {
    hide Good, Near, DueAt;
    match op
    case Oneshot(id, delay, at) => SetNear(q, id, AtLeastOne(delay), 0, at, base, now);
    case Periodic(id, every, at) => SetNear(q, id, AtLeastOne(every), AtLeastOne(every), at, base, now);
    case Cancel(id) => WithoutGood(q.line, id, base);
  }

  /** No operation is about `id`. */
  predicate Spares(ops: seq<Op>, id: Id) {
    forall j | 0 <= j < |ops| :: ops[j].id != id
  }

  /** No operation makes a timer long and due. */
  predicate NoneAsksLong(ops: seq<Op>, now: Word) {
    forall j | 0 <= j < |ops| :: !AsksLong(now, ops[j])
  }

  lemma SameStays(q: Queue, q': Queue, now: Word, id: Id)
    requires SameTimer(q, q', id)
    ensures Settled(q, id) ==> Settled(q', id)
    ensures LongDue(q', now, id) <==> LongDue(q, now, id)
  {
    hide DueAt;
    if Timers.Queued(q.line, id) {
      var i :| 0 <= i < |q.line| && q.line[i].body == id;
      assert q.line[i] in q'.line;
    }
  }

  lemma {:induction false} DoAllNear(q: Queue, ops: seq<Op>, id: Id, base: Word, now: Word)
    requires InHalf(q, base, now) && DoAll(q, ops).Some? && OpsNear(ops, base, now)
    ensures
      var q' := DoAll(q, ops).value;
      && InHalf(q', base, now)
      && (if Spares(ops, id) then SameTimer(q, q', id) else
          Settled(q', id) && (NoneAsksLong(ops, now) ==> !LongDue(q', now, id)))
    decreases |ops|
  {
    hide InHalf, OpNear, AsksLong, LongDue, Settled;
    if ops != [] {
      var q1 := Do(q, ops[0]).value;
      DoNear(q, ops[0], base, now);
      DoAllNear(q1, ops[1..], id, base, now);
      var q' := DoAll(q, ops).value;
      if Spares(ops[1..], id) {
        SameStays(q1, q', now, id);
        if ops[0].id != id {
          assert SameTimer(q, q1, id);
          assert forall j | 0 < j < |ops| :: ops[j] == ops[1..][j - 1];
        }
      } else {
        assert forall j | 0 <= j < |ops[1..]| :: ops[1..][j] == ops[j + 1];
      }
    }
  }

  lemma PopKeeps(q: Queue, base: Word, now: Word)
    requires InHalf(q, base, now) && q.line != [] && DueAt(q.line[0], now)
    ensures InHalf(q.(line := q.line[1..]), base, now)
    ensures Get(q, q.line[0].body).period > 0 ==> Near(base, Add(now, Get(q, q.line[0].body).period))
    ensures forall x | x in q.line && x != q.line[0] :: x.body != q.line[0].body
    ensures forall x | x in q.line[1..] :: x.body != q.line[0].body
  {
  }

  /** The timer that fired goes back in, with the period it had. */
  lemma RequeueKeeps(q: Queue, e: Entry<Id>, base: Word, now: Word)
    requires InHalf(q, base, now) && !Timers.Queued(q.line, e.body) && Near(base, e.when)
    requires e.when == Add(now, Get(q, e.body).period)
    ensures InHalf(q.(line := Insert(q.line, e)), base, now)
    ensures forall x :: x in Insert(q.line, e) <==> x == e || x in q.line
  {
    hide Good, Near, DueAt;
    InsertGood(q.line, e, base);
    forall x ensures x in Insert(q.line, e) <==> x == e || x in q.line {
      InsertHolds(q.line, e, x);
    }
  }

  /** The loop requeues the timer that fired. */
  predicate Requeues(q: Queue, q1: Queue) {
    && q.line != []
    && Get(q, q.line[0].body).period > 0 && !Timers.Queued(q1.line, q.line[0].body) && Get(q1, q.line[0].body).period > 0
  }

  /** One turn in its parts: the callback, and the requeueing of a timer that no operation was about. */
  lemma FireParts(q: Queue, now: Word, ops: seq<Op>, base: Word)
    requires InHalf(q, base, now) && !Idle(q, now) && Fire(q, now, ops).Some? && OpsNear(ops, base, now)
    ensures
      var e := q.line[0];
      var popped := q.(line := q.line[1..]);
      && InHalf(popped, base, now) && DoAll(popped, ops).Some?
      && (var q1 := DoAll(popped, ops).value;
          var q' := Fire(q, now, ops).value;
          var again := Entry(Add(now, Get(q, e.body).period), e.body);
          && InHalf(q1, base, now) && InHalf(q', base, now)
          && (Requeues(q, q1) ==> Spares(ops, e.body) && q' == q1.(line := Insert(q1.line, again)))
          && (!Requeues(q, q1) ==> q' == q1))
  {
    hide Near, DueAt, OpNear, Good, AsksLong, LongDue;
    var e := q.line[0];
    var popped := q.(line := q.line[1..]);
    PopKeeps(q, base, now);
    DoAllNear(popped, ops, e.body, base, now);
    var q1 := DoAll(popped, ops).value;
    if Requeues(q, q1) {
      assert Spares(ops, e.body);
      RequeueKeeps(q1, Entry(Add(now, Get(q, e.body).period), e.body), base, now);
    }
  }

  lemma LongStaysDue(now: Word, p: Word, id: Id)
    requires p > 0
    ensures DueAt(Entry(Add(now, p), id), now) <==> p > HALF
  {
    LaterExactlyWhen(now, p);
  }

  /** A long due timer that the callback leaves alone is long and due after the turn. */
  lemma FireKeepsLong(q: Queue, now: Word, ops: seq<Op>, base: Word, id: Id)
    requires InHalf(q, base, now) && !Idle(q, now) && Fire(q, now, ops).Some? && OpsNear(ops, base, now)
    requires LongDue(q, now, id) && Spares(ops, id)
    ensures LongDue(Fire(q, now, ops).value, now, id)
  {
    hide DueAt, OpNear, InHalf, AsksLong, Add;
    var e := q.line[0];
    var popped := q.(line := q.line[1..]);
    FireParts(q, now, ops, base);
    PopOthers(q, base, now);
    DoAllNear(popped, ops, id, base, now);
    var q1 := DoAll(popped, ops).value;
    var q' := Fire(q, now, ops).value;
    var again := Entry(Add(now, Get(q, e.body).period), e.body);
    InsertHolds(q1.line, again, again);
    var x :| x in q.line && x.body == id && DueAt(x, now);
    if x.body == e.body {
      assert !Timers.Queued(q1.line, id);
      assert Requeues(q, q1);
      LongStaysDue(now, Get(q, id).period, id);
      assert again in q'.line;
    } else {
      assert x in q1.line;
      InsertHolds(q1.line, again, x);
      assert x in q'.line;
    }
  }

  lemma PopOthers(q: Queue, base: Word, now: Word)
    requires InHalf(q, base, now) && q.line != []
    ensures forall x | x in q.line[1..] :: x in q.line && x.body != q.line[0].body
    ensures forall x | x in q.line && x.body != q.line[0].body :: x in q.line[1..]
  {
  }

  /** A timer that is long and due after a turn was so before it, and was left alone. */
  lemma FireMakesNoLong(q: Queue, now: Word, ops: seq<Op>, base: Word, id: Id)
    requires InHalf(q, base, now) && !Idle(q, now) && Fire(q, now, ops).Some? && OpsNear(ops, base, now)
    requires NoneAsksLong(ops, now) && LongDue(Fire(q, now, ops).value, now, id)
    ensures LongDue(q, now, id) && Spares(ops, id)
  {
    hide DueAt, OpNear, InHalf, AsksLong, Add;
    var e := q.line[0];
    var popped := q.(line := q.line[1..]);
    FireParts(q, now, ops, base);
    PopOthers(q, base, now);
    DoAllNear(popped, ops, id, base, now);
    var q1 := DoAll(popped, ops).value;
    var q' := Fire(q, now, ops).value;
    var again := Entry(Add(now, Get(q, e.body).period), e.body);
    var x :| x in q'.line && x.body == id && DueAt(x, now);
    InsertHolds(q1.line, again, x);
    if x in q1.line {
      assert LongDue(q1, now, id);
      assert x in q.line;
    } else {
      assert q.line[0] in q.line;
    }
  }

  // ---- counting what is due -----------------------------------------------

  /** How many operations ask for a time that is not after `now`. */
  function Asks(ops: seq<Op>, now: Word): nat {
    if ops == [] then 0 else (if Late(now, ops[0]) then 1 else 0) + Asks(ops[1..], now)
  }

  predicate CancelFree(ops: seq<Op>) {
    forall j | 0 <= j < |ops| :: !ops[j].Cancel?
  }

  lemma InsertCounts(line: seq<Entry<Id>>, e: Entry<Id>, now: Word)
    ensures |DueOf(Insert(line, e), now)| == |DueOf(line, now)| + if DueAt(e, now) then 1 else 0
  {
    hide DueAt;
    var i := Position(line, e.when);
    DueConcat(line[..i] + [e], line[i..], now);
    DueConcat(line[..i], [e], now);
    DueConcat(line[..i], line[i..], now);
    assert line == line[..i] + line[i..];
    assert DueOf([e], now) == if DueAt(e, now) then [e] else [];
  }

  lemma DoCounts(q: Queue, op: Op, now: Word)
    requires Do(q, op).Some?
    ensures
      var n := |DueOf(Do(q, op).value.line, now)|;
      var most := |DueOf(q.line, now)| + if Late(now, op) then 1 else 0;
      n <= most && (!op.Cancel? ==> n == most)
  {
    hide DueAt, DueOf;
    match op
    case Oneshot(id, delay, at) => InsertCounts(q.line, Entry(Add(at, AtLeastOne(delay)), id), now);
    case Periodic(id, every, at) => InsertCounts(q.line, Entry(Add(at, AtLeastOne(every)), id), now);
    case Cancel(id) => DueWithout(q.line, id, now);
  }

  lemma {:induction false} DoAllCounts(q: Queue, ops: seq<Op>, now: Word)
    requires DoAll(q, ops).Some?
    ensures
      var n := |DueOf(DoAll(q, ops).value.line, now)|;
      var most := |DueOf(q.line, now)| + Asks(ops, now);
      n <= most && (CancelFree(ops) ==> n == most)
    decreases |ops|
  {
    hide Do, DueOf, Late;
    if ops != [] {
      DoCounts(q, ops[0], now);
      DoAllCounts(Do(q, ops[0]).value, ops[1..], now);
    }
  }

  /** With short periods a turn takes one due timer away and adds those asked for. */
  lemma FireCounts(q: Queue, now: Word, ops: seq<Op>, base: Word)
    requires InHalf(q, base, now) && DueShort(q, now) && !Idle(q, now) && Fire(q, now, ops).Some? && OpsNear(ops, base, now)
    ensures
      var n := |DueOf(Fire(q, now, ops).value.line, now)|;
      var most := |DueOf(q.line, now)| - 1 + Asks(ops, now);
      n <= most && (CancelFree(ops) ==> n == most)
  {
    hide DueAt, OpNear, InHalf, Add, Asks;
    var e := q.line[0];
    var popped := q.(line := q.line[1..]);
    FireParts(q, now, ops, base);
    DoAllCounts(popped, ops, now);
    var q1 := DoAll(popped, ops).value;
    if Requeues(q, q1) {
      assert Get(q, e.body).period <= HALF by {
        assert e in q.line && !LongDue(q, now, e.body);
      }
      LongStaysDue(now, Get(q, e.body).period, e.body);
      InsertCounts(q1.line, Entry(Add(now, Get(q, e.body).period), e.body), now);
    }
  }

  // ---- the whole loop -----------------------------------------------------

  lemma {:induction false} AtNear(q: Queue, now: Word, script: Script, base: Word, n: nat)
    requires InHalf(q, base, now) && ScriptNear(script, base, now) && At(q, now, script, n).Some?
    ensures InHalf(At(q, now, script, n).value, base, now)
    decreases n
  {
    hide InHalf, Idle, OpsNear, Fire;
    if n > 0 {
      AtNear(q, now, script, base, n - 1);
      var p := At(q, now, script, n - 1).value;
      if !Idle(p, now) {
        FireParts(p, now, script(n - 1), base);
      }
    }
  }

  lemma LongIsNotIdle(q: Queue, now: Word, base: Word, id: Id)
    requires InHalf(q, base, now) && LongDue(q, now, id)
    ensures !Idle(q, now)
  {
    var x :| x in q.line && x.body == id && DueAt(x, now);
    DueHead(q.line, base, now, x);
  }

  lemma {:induction false} StaysIdle(q: Queue, now: Word, script: Script, k: nat, n: nat)
    requires k <= n && At(q, now, script, k).Some? && Idle(At(q, now, script, k).value, now)
    ensures At(q, now, script, n) == At(q, now, script, k)
    decreases n
  {
    hide Idle, Fire;
    if k < n {
      StaysIdle(q, now, script, k, n - 1);
    }
  }

  /** From turn `k` on, no callback is about `id`. */
  ghost predicate LeftAlone(script: Script, id: Id, k: nat) {
    forall i: nat | i >= k :: Spares(script(i), id)
  }

  lemma {:induction false} LongStays(q: Queue, now: Word, script: Script, base: Word, id: Id, k: nat, n: nat)
    requires InHalf(q, base, now) && ScriptNear(script, base, now) && k <= n && LeftAlone(script, id, k)
    requires At(q, now, script, k).Some? && LongDue(At(q, now, script, k).value, now, id)
    requires At(q, now, script, n).Some?
    ensures LongDue(At(q, now, script, n).value, now, id) && !Idle(At(q, now, script, n).value, now)
    decreases n
  {
    hide InHalf, Idle, OpsNear, Fire, LongDue, Spares;
    if k < n {
      LongStays(q, now, script, base, id, k, n - 1);
      AtNear(q, now, script, base, n - 1);
      FireKeepsLong(At(q, now, script, n - 1).value, now, script(n - 1), base, id);
    }
    AtNear(q, now, script, base, n);
    LongIsNotIdle(At(q, now, script, n).value, now, base, id);
  }

  /** The loop never ends once a due timer has a period of more than half the
      range and no later callback cancels or sets that timer. */
  lemma LongPeriodNeverEnds(q: Queue, now: Word, script: Script, base: Word, id: Id, k: nat)
    requires InHalf(q, base, now) && ScriptNear(script, base, now) && LeftAlone(script, id, k)
    requires At(q, now, script, k).Some? && LongDue(At(q, now, script, k).value, now, id)
    ensures !Ends(q, now, script)
  {
    hide InHalf, Idle, ScriptNear, Fire, LongDue, LeftAlone, At;
    forall n: nat | At(q, now, script, n).Some? ensures !Idle(At(q, now, script, n).value, now) {
      if n >= k {
        LongStays(q, now, script, base, id, k, n);
      } else {
        LongStays(q, now, script, base, id, k, k);
        if Idle(At(q, now, script, n).value, now) {
          StaysIdle(q, now, script, n, k);
        }
      }
    }
  }

  lemma {:induction false} DoAllSplit(q: Queue, a: seq<Op>, b: seq<Op>)
    requires DoAll(q, a + b).Some?
    ensures DoAll(q, a).Some? && DoAll(q, a + b) == DoAll(DoAll(q, a).value, b)
    decreases |a|
  {
    hide Do;
    if a == [] {
      assert a + b == b;
    } else {
      assert (a + b)[0] == a[0] && (a + b)[1..] == a[1..] + b;
      DoAllSplit(Do(q, a[0]).value, a[1..], b);
    }
  }

  /** A callback that sets a period of more than half the range, due at once,
      keeps the loop going, unless that timer is cancelled or set again. */
  lemma LongAskNeverEnds(q: Queue, now: Word, script: Script, base: Word, k: nat, j: nat)
    requires InHalf(q, base, now) && ScriptNear(script, base, now)
    requires At(q, now, script, k + 1).Some? && !Idle(At(q, now, script, k).value, now)
    requires j < |script(k)| && AsksLong(now, script(k)[j])
    requires Spares(script(k)[j + 1..], script(k)[j].id) && LeftAlone(script, script(k)[j].id, k + 1)
    ensures !Ends(q, now, script)
  {
    hide InHalf, ScriptNear, LeftAlone, Idle, Fire;
    AtNear(q, now, script, base, k);
    var p := At(q, now, script, k).value;
    OpsOf(script, base, now, k);
    LongAskIsLong(p, now, script(k), base, j);
    LongPeriodNeverEnds(q, now, script, base, script(k)[j].id, k + 1);
  }

  lemma OpsOf(script: Script, base: Word, now: Word, i: nat)
    requires ScriptNear(script, base, now)
    ensures OpsNear(script(i), base, now)
  {
  }

  lemma LongAskIsLong(q: Queue, now: Word, ops: seq<Op>, base: Word, j: nat)
    requires InHalf(q, base, now) && !Idle(q, now) && Fire(q, now, ops).Some? && OpsNear(ops, base, now)
    requires j < |ops| && AsksLong(now, ops[j]) && Spares(ops[j + 1..], ops[j].id)
    ensures LongDue(Fire(q, now, ops).value, now, ops[j].id)
  {
    hide InHalf, OpNear, DueAt, Add;
    var id := ops[j].id;
    var popped := q.(line := q.line[1..]);
    FireParts(q, now, ops, base);
    var q1 := DoAll(popped, ops).value;
    assert ops == ops[..j] + ops[j..];
    DoAllSplit(popped, ops[..j], ops[j..]);
    var a := DoAll(popped, ops[..j]).value;
    DoAllNear(popped, ops[..j], id, base, now);
    assert ops[j..][0] == ops[j] && ops[j..][1..] == ops[j + 1..];
    AskIsLong(a, ops[j], now);
    var b := Do(a, ops[j]).value;
    DoNear(a, ops[j], base, now);
    DoAllNear(b, ops[j + 1..], id, base, now);
    SameStays(b, q1, now, id);
    InsertKeepsLong(q1, q, now, id);
  }

  lemma AskIsLong(q: Queue, op: Op, now: Word)
    requires Do(q, op).Some? && AsksLong(now, op)
    ensures LongDue(Do(q, op).value, now, op.id)
  {
    hide DueAt, Add;
    var e := Entry(Add(op.at, AtLeastOne(op.every)), op.id);
    InsertHolds(q.line, e, e);
    assert e in Do(q, op).value.line;
  }

  /** Requeueing keeps a long due timer long and due. */
  lemma InsertKeepsLong(q1: Queue, q: Queue, now: Word, id: Id)
    requires q.line != [] && LongDue(q1, now, id)
    ensures
      var e := Entry(Add(now, Get(q, q.line[0].body).period), q.line[0].body);
      LongDue(q1.(line := Insert(q1.line, e)), now, id)
  {
    hide DueAt, Add;
    var e := Entry(Add(now, Get(q, q.line[0].body).period), q.line[0].body);
    var x :| x in q1.line && x.body == id && DueAt(x, now);
    InsertHolds(q1.line, e, x);
  }

  // ---- callbacks that ask for later times ---------------------------------

  /** From turn `k` on, no callback asks for a time that is not after `now`. */
  ghost predicate AsksLater(script: Script, now: Word, k: nat) {
    forall i: nat | i >= k :: Asks(script(i), now) == 0
  }

  lemma {:induction false} NoAskNoLong(ops: seq<Op>, now: Word)
    requires Asks(ops, now) == 0
    ensures NoneAsksLong(ops, now)
    decreases |ops|
  {
    hide Late;
    if ops != [] {
      NoAskNoLong(ops[1..], now);
      assert forall j | 0 < j < |ops| :: ops[j] == ops[1..][j - 1];
    }
  }

  lemma {:induction false} LongComesFrom(q: Queue, now: Word, script: Script, base: Word, id: Id, k: nat, n: nat)
    requires InHalf(q, base, now) && ScriptNear(script, base, now) && k <= n && At(q, now, script, n).Some?
    requires forall i: nat | k <= i < n :: NoneAsksLong(script(i), now)
    requires LongDue(At(q, now, script, n).value, now, id)
    ensures At(q, now, script, k).Some? && LongDue(At(q, now, script, k).value, now, id)
    ensures forall i: nat | k <= i < n :: Spares(script(i), id)
    decreases n
  {
    hide InHalf, Idle, OpsNear, Fire, LongDue, Spares, NoneAsksLong;
    if k < n {
      AtNear(q, now, script, base, n - 1);
      AtNear(q, now, script, base, n);
      var p := At(q, now, script, n - 1).value;
      LongIsNotIdle(At(q, now, script, n).value, now, base, id);
      FireMakesNoLong(p, now, script(n - 1), base, id);
      LongComesFrom(q, now, script, base, id, k, n - 1);
    }
  }

  /** With short periods and later times the loop ends. */
  lemma {:induction false} ShortEnds(q: Queue, now: Word, script: Script, base: Word, n: nat)
    requires InHalf(q, base, now) && ScriptNear(script, base, now) && Calm(q, now, script) && AsksLater(script, now, n)
    requires DueShort(At(q, now, script, n).value, now)
    ensures Ends(q, now, script)
    decreases |DueOf(At(q, now, script, n).value.line, now)|
  {
    hide InHalf, Idle, OpsNear, Fire, LongDue, DueOf, Asks;
    var p := At(q, now, script, n).value;
    if !Idle(p, now) {
      var p' := At(q, now, script, n + 1).value;
      AtNear(q, now, script, base, n);
      FireCounts(p, now, script(n), base);
      NoAskNoLong(script(n), now);
      forall id ensures !LongDue(p', now, id) {
        if LongDue(p', now, id) {
          FireMakesNoLong(p, now, script(n), base, id);
        }
      }
      ShortEnds(q, now, script, base, n + 1);
    }
  }

  /** By turn `N` every timer of the queue that some callback from turn `k` on is about has had one. */
  lemma {:induction false} AllTouchedBy(line: seq<Entry<Id>>, script: Script, k: nat) returns (N: nat)
    ensures N >= k
    ensures forall x | x in line && !LeftAlone(script, x.body, k) ::
      exists i: nat :: k <= i < N && !Spares(script(i), x.body)
    decreases |line|
  {
    hide Spares;
    N := k;
    if line != [] {
      var m := AllTouchedBy(line[1..], script, k);
      N := m;
      if !LeftAlone(script, line[0].body, k) {
        var i: nat :| i >= k && !Spares(script(i), line[0].body);
        N := if i < m then m else i + 1;
        assert k <= i < N && !Spares(script(i), line[0].body);
      }
      forall x | x in line && !LeftAlone(script, x.body, k)
        ensures exists i: nat :: k <= i < N && !Spares(script(i), x.body)
      {
        if x != line[0] {
          assert x in line[1..];
          var i: nat :| k <= i < m && !Spares(script(i), x.body);
          assert k <= i < N;
        }
      }
    }
  }

  /** When the callbacks from turn `k` on ask for later times only, timer_tick ends
      exactly when each timer that is due by then with a period of more than half
      the range is cancelled or set again by one of them. */
  lemma TickEndsExactlyWhen(q: Queue, now: Word, script: Script, base: Word, k: nat)
    requires InHalf(q, base, now) && ScriptNear(script, base, now) && Calm(q, now, script) && AsksLater(script, now, k)
    ensures Ends(q, now, script) <==>
      forall id | LongDue(At(q, now, script, k).value, now, id) :: !LeftAlone(script, id, k)
  {
    hide InHalf, Idle, ScriptNear, Fire, LongDue, LeftAlone, At, AsksLater;
    var p := At(q, now, script, k).value;
    if id :| LongDue(p, now, id) && LeftAlone(script, id, k) {
      LongPeriodNeverEnds(q, now, script, base, id, k);
    } else {
      var N := AllTouchedBy(p.line, script, k);
      var f := At(q, now, script, N).value;
      forall id ensures !LongDue(f, now, id) {
        if LongDue(f, now, id) {
          Untouched(q, now, script, base, id, k, N);
          LongIsQueued(p, now, id);
        }
      }
      LaterStill(script, now, k, N);
      ShortEnds(q, now, script, base, N);
    }
  }

  lemma LaterStill(script: Script, now: Word, k: nat, n: nat)
    requires AsksLater(script, now, k) && k <= n
    ensures AsksLater(script, now, n)
    ensures forall i: nat | k <= i < n :: NoneAsksLong(script(i), now)
  {
    forall i: nat | k <= i < n ensures NoneAsksLong(script(i), now) {
      NoAskNoLong(script(i), now);
    }
  }

  lemma Untouched(q: Queue, now: Word, script: Script, base: Word, id: Id, k: nat, n: nat)
    requires InHalf(q, base, now) && ScriptNear(script, base, now) && k <= n && At(q, now, script, n).Some?
    requires AsksLater(script, now, k) && LongDue(At(q, now, script, n).value, now, id)
    ensures At(q, now, script, k).Some? && LongDue(At(q, now, script, k).value, now, id)
    ensures forall i: nat | k <= i < n :: Spares(script(i), id)
  {
    hide InHalf, ScriptNear, AsksLater, LongDue, At, Spares, NoneAsksLong;
    LaterStill(script, now, k, n);
    LongComesFrom(q, now, script, base, id, k, n);
  }

  lemma LongIsQueued(q: Queue, now: Word, id: Id)
    requires LongDue(q, now, id)
    ensures exists x :: x in q.line && x.body == id
  {
  }

  // ---- callbacks that leave the timers alone ------------------------------

  /** Callbacks that leave the timers alone cannot panic. */
  lemma {:induction false} QuietIsCalm(q: Queue, now: Word, script: Script, n: nat)
    requires forall i: nat :: script(i) == []
    ensures At(q, now, script, n).Some?
    decreases n
  {
    hide Idle;
    if n > 0 {
      QuietIsCalm(q, now, script, n - 1);
    }
  }

  /** With callbacks that leave the timers alone, the tick ends exactly when no due
      timer has a period of more than half the range. */
  lemma QuietTickEndsExactlyWhen(q: Queue, now: Word, script: Script, base: Word)
    requires InHalf(q, base, now) && forall i: nat :: script(i) == []
    ensures Ends(q, now, script) <==> DueShort(q, now)
  {
    hide InHalf, LongDue, Ends;
    forall n: nat ensures At(q, now, script, n).Some? {
      QuietIsCalm(q, now, script, n);
    }
    TickEndsExactlyWhen(q, now, script, base, 0);
    assert At(q, now, script, 0) == Some(q);
    forall id ensures LeftAlone(script, id, 0) {
      assert forall i: nat :: Spares(script(i), id);
    }
    if !DueShort(q, now) {
      var id :| LongDue(q, now, id);
      assert LeftAlone(script, id, 0);
    }
  }

  // ---- callbacks that ask for times that are not later --------------------

  /** How many such times the first `n` callbacks ask for. */
  function Asked(script: Script, now: Word, n: nat): nat {
    if n == 0 then 0 else Asked(script, now, n - 1) + Asks(script(n - 1), now)
  }

  /** No callback cancels, and none makes a timer long and due. */
  ghost predicate OnlyAsks(script: Script, now: Word) {
    forall i: nat :: CancelFree(script(i)) && NoneAsksLong(script(i), now)
  }

  /** Until the loop ends, each turn takes one due timer away. */
  lemma {:induction false} DueAfter(q: Queue, now: Word, script: Script, base: Word, n: nat)
    requires InHalf(q, base, now) && ScriptNear(script, base, now) && Calm(q, now, script) && OnlyAsks(script, now)
    requires DueShort(q, now) && forall i: nat | i < n :: !Idle(At(q, now, script, i).value, now)
    ensures DueShort(At(q, now, script, n).value, now)
    ensures |DueOf(At(q, now, script, n).value.line, now)| == |DueOf(q.line, now)| + Asked(script, now, n) - n
    decreases n
  {
    hide InHalf, Idle, OpsNear, Fire, LongDue, DueOf, Asks, CancelFree, NoneAsksLong;
    if n > 0 {
      DueAfter(q, now, script, base, n - 1);
      AtNear(q, now, script, base, n - 1);
      var p := At(q, now, script, n - 1).value;
      var p' := At(q, now, script, n).value;
      FireCounts(p, now, script(n - 1), base);
      forall id ensures !LongDue(p', now, id) {
        if LongDue(p', now, id) {
          FireMakesNoLong(p, now, script(n - 1), base, id);
        }
      }
    }
  }

  /** The turn after which the loop ends. */
  lemma {:induction false} FirstIdle(q: Queue, now: Word, script: Script, n: nat) returns (m: nat)
    requires Calm(q, now, script) && Idle(At(q, now, script, n).value, now)
    ensures m <= n && Idle(At(q, now, script, m).value, now)
    ensures forall i: nat | i < m :: !Idle(At(q, now, script, i).value, now)
    decreases n
  {
    hide Idle, At;
    m := n;
    if i: nat :| i < n && Idle(At(q, now, script, i).value, now) {
      m := FirstIdle(q, now, script, i);
    }
  }

  lemma IdleIsDone(q: Queue, base: Word, now: Word)
    requires InHalf(q, base, now)
    ensures Idle(q, now) <==> DueOf(q.line, now) == []
  {
    hide DueAt;
    if Idle(q, now) {
      HeadIsFirst(q.line, base, now);
    }
  }

  /** When periods are short and callbacks may ask for times that are not later,
      timer_tick ends exactly when at some turn there have been no more timers
      due at its start and asked for since than turns. */
  lemma AskingTickEndsExactlyWhen(q: Queue, now: Word, script: Script, base: Word)
    requires InHalf(q, base, now) && ScriptNear(script, base, now) && Calm(q, now, script) && OnlyAsks(script, now)
    requires DueShort(q, now)
    ensures Ends(q, now, script) <==> exists n: nat :: |DueOf(q.line, now)| + Asked(script, now, n) <= n
  {
    hide InHalf, Idle, ScriptNear, DueShort, DueOf, OnlyAsks, At;
    if Ends(q, now, script) {
      var n: nat :| Idle(At(q, now, script, n).value, now);
      var m := FirstIdle(q, now, script, n);
      DueAfter(q, now, script, base, m);
      AtNear(q, now, script, base, m);
      IdleIsDone(At(q, now, script, m).value, base, now);
      assert |DueOf(q.line, now)| + Asked(script, now, m) <= m;
    }
    if n: nat :| |DueOf(q.line, now)| + Asked(script, now, n) <= n {
      if forall i: nat | i < n :: !Idle(At(q, now, script, i).value, now) {
        DueAfter(q, now, script, base, n);
        AtNear(q, now, script, base, n);
        IdleIsDone(At(q, now, script, n).value, base, now);
      }
    }
  }

  // ---- two ticks that do not end ------------------------------------------

  /** The queue holds one timer, a one-shot that is due. */
  predicate JustDue(q: Queue, now: Word, id: Id) {
    |q.line| == 1 && q.line[0].body == id && DueAt(q.line[0], now) && Get(q, id).period == 0
  }

  lemma Rearms(q: Queue, now: Word, id: Id, delay: Word)
    requires JustDue(q, now, id) && delay > HALF
    ensures
      var q' := Fire(q, now, [Oneshot(id, delay, now)]);
      q'.Some? && JustDue(q'.value, now, id)
  {
    LateExactlyWhen(now, id, delay);
    var popped := q.(line := []);
    assert q.line[1..] == [];
    var op := Oneshot(id, delay, now);
    assert Do(popped, op) == Some(Set(popped, id, delay, 0, now));
    assert DoAll(popped, [op]) == Do(popped, op) by {
      assert [op][1..] == [];
    }
    assert Set(popped, id, delay, 0, now).line == [Entry(Add(now, delay), id)];
  }

  lemma {:induction false} RearmedAt(q: Queue, now: Word, script: Script, id: Id, delay: Word, n: nat)
    requires JustDue(q, now, id) && delay > HALF && forall i: nat :: script(i) == [Oneshot(id, delay, now)]
    ensures At(q, now, script, n).Some? && JustDue(At(q, now, script, n).value, now, id)
    decreases n
  {
    hide Fire, DueAt;
    if n > 0 {
      RearmedAt(q, now, script, id, delay, n - 1);
      Rearms(At(q, now, script, n - 1).value, now, id, delay);
    }
  }

  /** A one-shot timer that sets itself again with a delay of more than half the range. */
  lemma RearmingNeverEnds(q: Queue, now: Word, script: Script, id: Id, delay: Word)
    requires JustDue(q, now, id) && delay > HALF && forall i: nat :: script(i) == [Oneshot(id, delay, now)]
    ensures DueShort(q, now) && Calm(q, now, script) && !Ends(q, now, script)
  {
    hide Fire, DueAt, At;
    forall n: nat ensures At(q, now, script, n).Some? && !Idle(At(q, now, script, n).value, now) {
      RearmedAt(q, now, script, id, delay, n);
    }
  }

  /** A one-shot timer whose callback sets a period of more than half the range for another. */
  lemma LongAskExample(now: Word, script: Script)
    requires script(0) == [Periodic(1, HALF + 1, now)] && forall i: nat | i > 0 :: script(i) == []
    ensures
      var q := Queue(map[0 := Timer(0, true)], [Entry(now, 0)]);
      DueShort(q, now) && !Ends(q, now, script)
  {
    var q := Queue(map[0 := Timer(0, true)], [Entry(now, 0)]);
    var base := Add(now, HALF + 1);
    LateExactlyWhen(now, 1, HALF + 1);
    assert Near(base, now);
    assert InHalf(q, base, now);
    assert forall i: nat :: OpsNear(script(i), base, now);
    assert At(q, now, script, 0) == Some(q);
    LongAskFires(q, now);
    LongAskNeverEnds(q, now, script, base, 0, 0);
  }

  lemma LongAskFires(q: Queue, now: Word)
    requires q.line == [Entry(now, 0)]
    ensures Fire(q, now, [Periodic(1, HALF + 1, now)]).Some?
  {
    var op := Periodic(1, HALF + 1, now);
    assert q.line[1..] == [] && [op][1..] == [];
    assert Do(q.(line := []), op).Some?;
    assert DoAll(q.(line := []), [op]) == Do(q.(line := []), op);
  }
}
