/** The remote spin lock that two processors share, one load or store at a time
    under sequential consistency. Each processor runs the same code with the
    two flags and the turn value mirrored. */
module SpinLock {
  type Cpu = p: nat | p < 2

  /** The next load or store of a processor. */
  datatype Pc =
    | Idle          // outside the lock
    | Request       // store own flag
    | LoadOther     // the outer while
    | LoadTurn      // whose turn it is
    | SpinOther     // the inner while
    | RequestAgain  // store own flag again
    | StoreTurn     // the lock is taken; note the turn
    | Holding       // between lock and unlock; the next store lowers the flag

  datatype Lock = Lock(flag: seq<bool>, turn: nat, pc: seq<Pc>)

  predicate WellFormed(s: Lock) {
    |s.flag| == 2 && |s.pc| == 2
  }

  function Other(p: Cpu): Cpu {
    1 - p
  }

  function Goto(s: Lock, p: Cpu, pc: Pc): Lock
    requires WellFormed(s)
  {
    s.(pc := s.pc[p := pc])
  }

  function Raise(s: Lock, p: Cpu, up: bool): Lock
    requires WellFormed(s)
  {
    s.(flag := s.flag[p := up])
  }

  /** One step of processor `p`; an idle one asks for the lock. */
  function Step(s: Lock, p: Cpu): (s': Lock)
    requires WellFormed(s)
    ensures WellFormed(s')
  {
    match s.pc[p]
    case Idle => Goto(s, p, Request)
    case Request => Goto(Raise(s, p, true), p, LoadOther)
    case LoadOther => Goto(s, p, if s.flag[Other(p)] then LoadTurn else StoreTurn)
    case LoadTurn => Goto(s, p, if s.turn == p then SpinOther else RequestAgain)
    case SpinOther => Goto(s, p, if s.flag[Other(p)] then SpinOther else RequestAgain)
    case RequestAgain => Goto(Raise(s, p, true), p, LoadOther)
    case StoreTurn => Goto(s.(turn := p), p, Holding)
    case Holding => Goto(Raise(s, p, false), p, Idle)
  }

  function Run(s: Lock, schedule: seq<Cpu>): (s': Lock)
    requires WellFormed(s)
    ensures WellFormed(s')
    decreases |schedule|
  {
    if schedule == [] then s else Run(Step(s, schedule[0]), schedule[1..])
  }

  function Start(turn: nat): Lock {
    Lock([false, false], turn, [Idle, Idle])
  }

  // ---- mutual exclusion ---------------------------------------------------

  predicate Has(pc: Pc) {
    pc.StoreTurn? || pc.Holding?
  }

  predicate Waits(pc: Pc) {
    pc.LoadOther? || pc.LoadTurn? || pc.SpinOther? || pc.RequestAgain?
  }

  /** A flag is up exactly while its processor waits for the lock or has it. */
  predicate FlagsOk(s: Lock)
    requires WellFormed(s)
  {
    && (s.flag[0] <==> Waits(s.pc[0]) || Has(s.pc[0]))
    && (s.flag[1] <==> Waits(s.pc[1]) || Has(s.pc[1]))
  }

  predicate Safe(s: Lock) {
    WellFormed(s) && FlagsOk(s) && !(Has(s.pc[0]) && Has(s.pc[1]))
  }

  lemma StepSafe(s: Lock, p: Cpu)
    requires Safe(s)
    ensures Safe(Step(s, p))
  {
  }

  lemma {:induction false} RunSafe(s: Lock, schedule: seq<Cpu>)
    requires Safe(s)
    ensures Safe(Run(s, schedule))
    decreases |schedule|
  {
    if schedule != [] {
      StepSafe(s, schedule[0]);
      RunSafe(Step(s, schedule[0]), schedule[1..]);
    }
  }

  /** Under every interleaving the two processors never both hold the lock. */
  lemma MutualExclusion(turn: nat, schedule: seq<Cpu>)
    ensures
      var s := Run(Start(turn), schedule);
      !(s.pc[0].Holding? && s.pc[1].Holding?)
  {
    RunSafe(Start(turn), schedule);
  }

  /** Whoever holds the lock has noted its turn; the other cannot overwrite that. */
  ghost predicate TurnNoted(s: Lock)
    requires WellFormed(s)
  {
    (s.pc[0].Holding? ==> s.turn == 0) && (s.pc[1].Holding? ==> s.turn == 1)
  }

  lemma {:induction false} TurnNotedAlongRuns(s: Lock, schedule: seq<Cpu>)
    requires Safe(s) && TurnNoted(s)
    ensures TurnNoted(Run(s, schedule))
    decreases |schedule|
  {
    if schedule != [] {
      StepSafe(s, schedule[0]);
      TurnNotedAlongRuns(Step(s, schedule[0]), schedule[1..]);
    }
  }

  /** Under every interleaving the turn names the processor that holds the lock. */
  lemma HolderNotesTurn(turn: nat, schedule: seq<Cpu>, p: Cpu)
    ensures
      var s := Run(Start(turn), schedule);
      s.pc[p].Holding? ==> s.turn == p
  {
    TurnNotedAlongRuns(Start(turn), schedule);
  }

  // ---- progress -----------------------------------------------------------

  /** Both wait, with both flags up: neither ever lowers its own while it waits. */
  predicate Stuck(s: Lock)
    requires WellFormed(s)
  {
    Waits(s.pc[0]) && Waits(s.pc[1]) && s.flag[0] && s.flag[1]
  }

  lemma {:induction false} StuckForever(s: Lock, schedule: seq<Cpu>)
    requires WellFormed(s) && Stuck(s)
    ensures Stuck(Run(s, schedule))
    decreases |schedule|
  {
    if schedule != [] {
      StuckForever(Step(s, schedule[0]), schedule[1..]);
    }
  }

  /** Some schedule lets processor `p` hold the lock. */
  ghost predicate CanHold(s: Lock, p: Cpu)
    requires WellFormed(s)
  {
    exists schedule: seq<Cpu> :: Run(s, schedule).pc[p].Holding?
  }

  lemma HoldAfter(s: Lock, r: Cpu, p: Cpu)
    requires WellFormed(s) && CanHold(Step(s, r), p)
    ensures CanHold(s, p)
  {
    var schedule: seq<Cpu> :| Run(Step(s, r), schedule).pc[p].Holding?;
    var longer: seq<Cpu> := [r] + schedule;
    assert longer[1..] == schedule;
    assert Run(s, longer) == Run(Step(s, r), schedule);
  }

  lemma HoldsNow(s: Lock, p: Cpu)
    requires WellFormed(s) && s.pc[p].Holding?
    ensures CanHold(s, p)
  {
    var none: seq<Cpu> := [];
    assert Run(s, none) == s;
  }

  /** How far a processor is from the lock while the other flag is down. */
  function Distance(pc: Pc): nat {
    match pc
    case Holding => 0
    case StoreTurn => 1
    case LoadOther => 2
    case RequestAgain => 3
    case Request => 3
    case SpinOther => 4
    case Idle => 4
    case LoadTurn => 5
  }

  lemma {:induction false} AloneGetsIt(s: Lock, p: Cpu)
    requires Safe(s) && (!s.flag[Other(p)] || Has(s.pc[p]))
    ensures CanHold(s, p)
    decreases Distance(s.pc[p])
  {
    if s.pc[p].Holding? {
      HoldsNow(s, p);
    } else {
      StepSafe(s, p);
      AloneGetsIt(Step(s, p), p);
      HoldAfter(s, p, p);
    }
  }

  /** Unless the two wait for each other, each can have its turn: the other takes
      the lock, if it must, and lets it go. */
  lemma {:induction false} EachGetsIt(s: Lock, p: Cpu)
    requires Safe(s) && !Stuck(s)
    ensures CanHold(s, p)
    decreases Distance(s.pc[Other(p)])
  {
    if !s.flag[Other(p)] || Has(s.pc[p]) {
      AloneGetsIt(s, p);
    } else {
      StepSafe(s, Other(p));
      if s.pc[Other(p)].Holding? {
        AloneGetsIt(Step(s, Other(p)), p);
      } else {
        EachGetsIt(Step(s, Other(p)), p);
      }
      HoldAfter(s, Other(p), p);
    }
  }

  /** A processor can still get the lock exactly when the two do not wait for each other. */
  lemma ProgressExactlyWhen(s: Lock, p: Cpu)
    requires Safe(s)
    ensures CanHold(s, p) <==> !Stuck(s)
  {
    if Stuck(s) {
      if CanHold(s, p) {
        var schedule: seq<Cpu> :| Run(s, schedule).pc[p].Holding?;
        StuckForever(s, schedule);
      }
    } else {
      EachGetsIt(s, p);
    }
  }

  /** If both raise their flags before either looks, they wait for ever. */
  lemma BothAskAtOnce(turn: nat, schedule: seq<Cpu>)
    ensures Stuck(Run(Start(turn), [0, 1, 0, 1] + schedule))
  {
    var s := Start(turn);
    var r1: seq<Cpu> := [1] + schedule;
    var r2: seq<Cpu> := [0] + r1;
    var r3: seq<Cpu> := [1] + r2;
    var r4: seq<Cpu> := [0] + r3;
    assert r4 == [0, 1, 0, 1] + schedule;
    assert r4[1..] == r3 && r3[1..] == r2 && r2[1..] == r1 && r1[1..] == schedule;
    var s1 := Step(s, 0);
    var s2 := Step(s1, 1);
    var s3 := Step(s2, 0);
    var s4 := Step(s3, 1);
    assert Run(s, r4) == Run(s1, r3);
    assert Run(s1, r3) == Run(s2, r2);
    assert Run(s2, r2) == Run(s3, r1);
    StuckForever(s4, schedule);
  }
}
