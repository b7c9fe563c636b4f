/** fiber_mutex at the granularity of its atomic operations, for any number of fibers that
    interleave lock, unlock, spin_lock and spin_unlock.  A fiber's program counter says which
    atomic operation it has completed last; state is the one shared counter. */
module FiberMutexProtocol {
  import opened Wrappers
  import AbstractMutex

  type Fid = AbstractMutex.Fid

  datatype Pc =
    | Outside      // neither inside lock or unlock nor holding
    | Retrying     // inside lock, about to add one again
    | Enqueueing   // lock saw 1: about to put itself on the wait list
    | Linked       // on the wait list, still running on its thread
    | SwitchedOut  // the parent runs; its decrement is still to come
    | Asleep       // on the wait list, the parent's decrement done
    | Woken        // moved to a thread's wake list
    | Spinning     // lock saw more than 1: about to take its increment back
    | Holding
    | Unlocking    // moved the counter from 1 to 2, wait list not handed over yet
    | Releasing    // wait list handed over, counter not back to 0 yet
    | SpinHolding

  datatype State = State(state: int, waiters: seq<Fid>, pc: map<Fid, Pc>)

  // The share of the counter a fiber accounts for.
  datatype Kind = Nothing | One | Two | Enqueuer | Spinner

  function KindOf(p: Pc): Kind {
    match p
    case Holding => One
    case Unlocking | Releasing | SpinHolding => Two
    case Enqueueing | Linked | SwitchedOut => Enqueuer
    case Spinning => Spinner
    case _ => Nothing
  }

  ghost function Those(s: State, k: Kind): set<Fid> {
    set f | f in s.pc && KindOf(s.pc[f]) == k
  }

  predicate OnList(p: Pc) {
    p.Linked? || p.SwitchedOut? || p.Asleep?
  }

  // --- the atomic steps ---

  ghost predicate Init(s: State) {
    s.state == 0 && s.waiters == [] && forall f | f in s.pc :: s.pc[f] == Outside
  }

  ghost predicate Moves(s: State, s': State, f: Fid, from: set<Pc>, to: Pc, state: int) {
    f in s.pc && s.pc[f] in from && s' == s.(state := state, pc := s.pc[f := to])
  }

  // state_.fetch_add(1) and the switch on the old value
  ghost predicate TryLock(s: State, s': State, f: Fid) {
    Moves(s, s', f, {Outside, Retrying, Woken},
          if s.state == 0 then Holding else if s.state == 1 then Enqueueing else Spinning, s.state + 1)
  }

  ghost predicate TakeBack(s: State, s': State, f: Fid) {
    Moves(s, s', f, {Spinning}, Retrying, s.state - 1)
  }

  ghost predicate Link(s: State, s': State, f: Fid) {
    Moves(s, s'.(waiters := s.waiters), f, {Enqueueing}, Linked, s.state) && s'.waiters == [f] + s.waiters
  }

  ghost predicate SwitchOut(s: State, s': State, f: Fid) {
    Moves(s, s', f, {Linked}, SwitchedOut, s.state)
  }

  // the parent, handling oc_mutex_suspend for f
  ghost predicate ParentDecrement(s: State, s': State, f: Fid) {
    Moves(s, s', f, {SwitchedOut}, Asleep, s.state - 1)
  }

  ghost predicate BeginUnlock(s: State, s': State, f: Fid) {
    s.state == 1 && Moves(s, s', f, {Holding}, Unlocking, 2)
  }

  ghost predicate WakeSleepers(s: State, s': State, f: Fid) {
    && f in s.pc && s.pc[f] == Unlocking
    && s' == State(s.state, [], map g | g in s.pc ::
                       if g == f then Releasing else if g in s.waiters then Woken else s.pc[g])
  }

  ghost predicate EndUnlock(s: State, s': State, f: Fid) {
    s.state == 2 && Moves(s, s', f, {Releasing}, Outside, 0)
  }

  ghost predicate SpinLock(s: State, s': State, f: Fid) {
    s.state == 0 && Moves(s, s', f, {Outside}, SpinHolding, 2)
  }

  ghost predicate SpinUnlock(s: State, s': State, f: Fid) {
    s.state == 2 && Moves(s, s', f, {SpinHolding}, Outside, 0)
  }

  // A compare-exchange that fails, spuriously or not, leaves everything as it was.
  ghost predicate Step(s: State, s': State, f: Fid) {
    || s' == s
    || TryLock(s, s', f) || TakeBack(s, s', f)
    || Link(s, s', f) || SwitchOut(s, s', f) || ParentDecrement(s, s', f)
    || BeginUnlock(s, s', f) || WakeSleepers(s, s', f) || EndUnlock(s, s', f)
    || SpinLock(s, s', f) || SpinUnlock(s, s', f)
  }

  ghost predicate Advances(s: State, s': State) {
    exists f :: Step(s, s', f)
  }

  ghost predicate Run(run: seq<State>) {
    && run != [] && Init(run[0])
    && forall i | 0 < i < |run| :: Advances(run[i - 1], run[i])
  }

  // --- the invariant ---

  ghost function Count(s: State, k: Kind): nat {
    |Those(s, k)|
  }

  ghost predicate Counted(s: State) {
    var one, two, enq, spin := Count(s, One), Count(s, Two), Count(s, Enqueuer), Count(s, Spinner);
    && s.state == one + 2 * two + enq + spin
    && one + two <= 1
    && enq + two <= 1
    && (one + two == 0 ==> enq == spin == 0)
  }

  ghost predicate ListExact(s: State) {
    && Distinct(s.waiters)
    && (forall f :: f in s.waiters <==> f in s.pc && OnList(s.pc[f]))
  }

  // No one sleeps on a mutex that no one will unlock.
  ghost predicate Guarded(s: State) {
    && (Count(s, One) + Count(s, Two) == 0 ==> s.waiters == [])
    && (forall f | f in s.pc && (s.pc[f].Releasing? || s.pc[f].SpinHolding?) :: s.waiters == [])
  }

  ghost predicate Inv(s: State) {
    Counted(s) && ListExact(s) && Guarded(s)
  }

  lemma OthersStay(s: State, s': State, f: Fid, k: Kind)
    requires f in s.pc && f in s'.pc && s'.pc == s.pc[f := s'.pc[f]]
    ensures Those(s, k) - {f} == Those(s', k) - {f}
  {
    forall g | g != f
      ensures g in Those(s, k) <==> g in Those(s', k)
    {
    }
  }

  lemma CountOthers(s: State, f: Fid, k: Kind)
    requires f in s.pc
    ensures Count(s, k) == |Those(s, k) - {f}| + (if KindOf(s.pc[f]) == k then 1 else 0)
  {
    if KindOf(s.pc[f]) == k {
      assert f in Those(s, k);
    } else {
      assert Those(s, k) - {f} == Those(s, k);
    }
  }

  // How many of kind k there are once f has moved on.
  lemma MoveCount(s: State, s': State, f: Fid, k: Kind)
    requires f in s.pc && f in s'.pc && s'.pc == s.pc[f := s'.pc[f]]
    ensures Count(s', k) == Count(s, k) - (if KindOf(s.pc[f]) == k then 1 else 0)
                            + (if KindOf(s'.pc[f]) == k then 1 else 0)
  {
    OthersStay(s, s', f, k);
    CountOthers(s, f, k);
    CountOthers(s', f, k);
  }

  lemma MoveCounts(s: State, s': State, f: Fid)
    requires f in s.pc && f in s'.pc && s'.pc == s.pc[f := s'.pc[f]]
    ensures Count(s', One) == Count(s, One) - (if KindOf(s.pc[f]) == One then 1 else 0) + (if KindOf(s'.pc[f]) == One then 1 else 0)
    ensures Count(s', Two) == Count(s, Two) - (if KindOf(s.pc[f]) == Two then 1 else 0) + (if KindOf(s'.pc[f]) == Two then 1 else 0)
    ensures Count(s', Enqueuer) == Count(s, Enqueuer) - (if KindOf(s.pc[f]) == Enqueuer then 1 else 0) + (if KindOf(s'.pc[f]) == Enqueuer then 1 else 0)
    ensures Count(s', Spinner) == Count(s, Spinner) - (if KindOf(s.pc[f]) == Spinner then 1 else 0) + (if KindOf(s'.pc[f]) == Spinner then 1 else 0)
  {
    MoveCount(s, s', f, One);
    MoveCount(s, s', f, Two);
    MoveCount(s, s', f, Enqueuer);
    MoveCount(s, s', f, Spinner);
  }

  lemma Counts(s: State, f: Fid)
    requires f in s.pc
    ensures Count(s, KindOf(s.pc[f])) >= 1
  {
    assert f in Those(s, KindOf(s.pc[f]));
  }

  lemma Same(s: State, f: Fid, g: Fid)
    requires f in s.pc && g in s.pc && KindOf(s.pc[f]) == KindOf(s.pc[g]) && Count(s, KindOf(s.pc[f])) <= 1
    ensures f == g
  {
    var those := Those(s, KindOf(s.pc[f]));
    assert f in those && g in those;
    assert |those - {f}| == |those| - 1;
  }

  // Two fibers that both hold, or both work on the wait list, are the same fiber.
  lemma Exclusive(s: State, f: Fid, g: Fid)
    requires Inv(s) && f in s.pc && g in s.pc
    requires || (KindOf(s.pc[f]) in {One, Two} && KindOf(s.pc[g]) in {One, Two})
             || (KindOf(s.pc[f]) in {Enqueuer, Two} && KindOf(s.pc[g]) in {Enqueuer, Two})
    ensures f == g
  {
    Counts(s, f);
    Counts(s, g);
    Same(s, f, g);
  }

  // While someone is unlocking, every fiber on the wait list has been switched out for good.
  lemma UnlockerSeesSleepers(s: State, f: Fid)
    requires Inv(s) && f in s.pc && KindOf(s.pc[f]) == Two
    ensures forall g | g in s.waiters :: g in s.pc && s.pc[g] == Asleep
  {
    forall g | g in s.waiters
      ensures g in s.pc && s.pc[g] == Asleep
    {
      if s.pc[g] != Asleep {
        Exclusive(s, f, g);
      }
    }
  }

  // f keeps its place on or off the wait list and neither starts nor ends as an unlocker.
  lemma ListKept(s: State, s': State, f: Fid)
    requires ListExact(s) && f in s.pc && f in s'.pc && s'.waiters == s.waiters && s'.pc == s.pc[f := s'.pc[f]]
    requires OnList(s'.pc[f]) == OnList(s.pc[f])
    ensures ListExact(s')
  {
  }

  lemma LockPreserves(s: State, s': State, f: Fid)
    requires Inv(s) && (TryLock(s, s', f) || TakeBack(s, s', f))
    ensures Inv(s')
  {
    MoveCounts(s, s', f);
    Counts(s, f);
    ListKept(s, s', f);
  }

  lemma SuspendPreserves(s: State, s': State, f: Fid)
    requires Inv(s) && (SwitchOut(s, s', f) || ParentDecrement(s, s', f))
    ensures Inv(s')
  {
    MoveCounts(s, s', f);
    Counts(s, f);
    ListKept(s, s', f);
  }

  lemma UnlockPreserves(s: State, s': State, f: Fid)
    requires Inv(s) && (BeginUnlock(s, s', f) || EndUnlock(s, s', f) || SpinLock(s, s', f) || SpinUnlock(s, s', f))
    ensures Inv(s')
  {
    MoveCounts(s, s', f);
    Counts(s, f);
    ListKept(s, s', f);
  }

  lemma LinkPreserves(s: State, s': State, f: Fid)
    requires Inv(s) && Link(s, s', f)
    ensures Inv(s')
  {
    MoveCounts(s, s', f);
    Counts(s, f);
    assert Counted(s');
    forall g | g in s'.pc && (s'.pc[g].Releasing? || s'.pc[g].SpinHolding?)
      ensures false
    {
      Exclusive(s, f, g);
    }
  }

  lemma WakePreserves(s: State, s': State, f: Fid)
    requires Inv(s) && WakeSleepers(s, s', f)
    ensures Inv(s')
  {
    UnlockerSeesSleepers(s, f);
    assert Those(s', One) == Those(s, One);
    assert Those(s', Two) == Those(s, Two);
    assert Those(s', Enqueuer) == Those(s, Enqueuer);
    assert Those(s', Spinner) == Those(s, Spinner);
    Counts(s, f);
    forall g | g in s'.pc
      ensures !OnList(s'.pc[g])
    {
      if g !in s.waiters && g != f && OnList(s.pc[g]) {
        assert false;
      }
    }
  }

  lemma StepPreserves(s: State, s': State, f: Fid)
    requires Inv(s) && Step(s, s', f)
    ensures Inv(s')
  {
    if Link(s, s', f) {
      LinkPreserves(s, s', f);
    } else if WakeSleepers(s, s', f) {
      WakePreserves(s, s', f);
    } else if TryLock(s, s', f) || TakeBack(s, s', f) {
      LockPreserves(s, s', f);
    } else if SwitchOut(s, s', f) || ParentDecrement(s, s', f) {
      SuspendPreserves(s, s', f);
    } else if s' != s {
      UnlockPreserves(s, s', f);
    }
  }

  lemma InitHolds(s: State)
    requires Init(s)
    ensures Inv(s)
  {
    assert Those(s, One) == {} && Those(s, Two) == {} && Those(s, Enqueuer) == {} && Those(s, Spinner) == {};
  }

  /** The invariant holds at every point of every run of any number of fibers. */
  lemma {:induction false} RunSafe(run: seq<State>, i: nat)
    requires Run(run) && i < |run|
    ensures Inv(run[i])
  {
    if i == 0 {
      InitHolds(run[0]);
    } else {
      RunSafe(run, i - 1);
      assert Advances(run[i - 1], run[i]);
      var f :| Step(run[i - 1], run[i], f);
      StepPreserves(run[i - 1], run[i], f);
    }
  }

  // --- what the comments in the code promise ---

  /** The counter is the holder's share plus one per enqueueing fiber plus one per spinning
      fiber. */
  lemma CounterExact(run: seq<State>, i: nat)
    requires Run(run) && i < |run|
    ensures var s := run[i];
            s.state == |Those(s, One)| + 2 * |Those(s, Two)| + |Those(s, Enqueuer)| + |Those(s, Spinner)|
    ensures var s := run[i];
            Those(s, One) + Those(s, Two) == {} ==> s.state == 0 && Those(s, Enqueuer) + Those(s, Spinner) == {}
  {
    RunSafe(run, i);
    var s := run[i];
    if Those(s, One) + Those(s, Two) == {} {
      assert Those(s, One) == {} && Those(s, Two) == {};
      assert Those(s, Enqueuer) == {} && Those(s, Spinner) == {};
    }
  }

  /** At most one fiber holds the mutex, and at most one fiber works on the wait list, be it
      to add itself, to empty the list or to keep others off it. */
  lemma MutualExclusion(run: seq<State>, i: nat, f: Fid, g: Fid)
    requires Run(run) && i < |run| && f in run[i].pc && g in run[i].pc
    ensures KindOf(run[i].pc[f]) in {One, Two} && KindOf(run[i].pc[g]) in {One, Two} ==> f == g
    ensures KindOf(run[i].pc[f]) in {Enqueuer, Two} && KindOf(run[i].pc[g]) in {Enqueuer, Two} ==> f == g
  {
    RunSafe(run, i);
    if KindOf(run[i].pc[f]) in {One, Two} && KindOf(run[i].pc[g]) in {One, Two} {
      Exclusive(run[i], f, g);
    }
    if KindOf(run[i].pc[f]) in {Enqueuer, Two} && KindOf(run[i].pc[g]) in {Enqueuer, Two} {
      Exclusive(run[i], f, g);
    }
  }

  // Someone who has not started releasing yet holds whenever the wait list is not empty.
  lemma SleeperHasHolder(s: State) returns (h: Fid)
    requires Inv(s) && s.waiters != []
    ensures h in s.pc && (s.pc[h].Holding? || s.pc[h].Unlocking?)
  {
    if Count(s, One) != 0 {
      h :| h in Those(s, One);
    } else {
      h :| h in Those(s, Two);
    }
  }

  /** No lost wake-up: when the counter is zero no fiber is on the wait list, and a fiber on
      the wait list always has a holder that will empty it. */
  lemma NoLostWakeup(run: seq<State>, i: nat)
    requires Run(run) && i < |run|
    ensures run[i].state == 0 ==> run[i].waiters == [] && forall f | f in run[i].pc :: !OnList(run[i].pc[f])
    ensures run[i].waiters != [] ==> exists h :: h in run[i].pc && (run[i].pc[h].Holding? || run[i].pc[h].Unlocking?)
  {
    RunSafe(run, i);
    if run[i].waiters != [] {
      var h := SleeperHasHolder(run[i]);
      Counts(run[i], h);
    }
  }

  /** No early wake-up: a fiber that wake_sleepers moves to a wake list has completed its
      switch to the parent, and the parent has taken its increment back; and no sleeper is
      left behind. */
  lemma NoEarlyWakeup(run: seq<State>, i: nat, f: Fid)
    requires Run(run) && i + 1 < |run| && WakeSleepers(run[i], run[i + 1], f)
    ensures forall g | g in run[i].waiters :: g in run[i].pc && run[i].pc[g] == Asleep && run[i + 1].pc[g] == Woken
    ensures forall g | g in run[i].pc && run[i].pc[g] == Asleep :: run[i + 1].pc[g] == Woken
  {
    RunSafe(run, i);
    UnlockerSeesSleepers(run[i], f);
  }

  predicate InsideLock(p: Pc) {
    p.Retrying? || p.Enqueueing? || p.Linked? || p.SwitchedOut? || p.Asleep? || p.Woken? || p.Spinning?
  }

  // What any step, of whichever fiber, can do to fiber g.
  lemma WhereItGoes(s: State, s': State, f: Fid, g: Fid)
    requires Inv(s) && Step(s, s', f) && g in s.pc
    ensures g in s'.pc
    ensures InsideLock(s.pc[g]) ==> InsideLock(s'.pc[g]) || (s'.pc[g].Holding? && s.state == 0)
    ensures s'.pc[g].Outside? && !s.pc[g].Outside? ==> s.pc[g].Releasing? || s.pc[g].SpinHolding?
    ensures s'.pc[g].Holding? && !s.pc[g].Holding? ==> s.state == 0 && s'.state == 1
    ensures s.pc[g].Holding? && !s'.pc[g].Holding? ==> s'.pc[g].Unlocking?
  {
    if WakeSleepers(s, s', f) {
      UnlockerSeesSleepers(s, f);
    }
  }

  /** lock returns only to the holder: a fiber inside lock stays inside, spinning, asleep or trying
      again, or comes to hold the mutex when the counter was 0; and a fiber is outside again only
      after it has unlocked. */
  lemma LockEndsHolding(run: seq<State>, i: nat, g: Fid)
    requires Run(run) && i + 1 < |run| && g in run[i].pc
    ensures g in run[i + 1].pc
    ensures InsideLock(run[i].pc[g]) ==> InsideLock(run[i + 1].pc[g]) || (run[i + 1].pc[g].Holding? && run[i].state == 0)
    ensures run[i + 1].pc[g].Outside? && !run[i].pc[g].Outside? ==> run[i].pc[g].Releasing? || run[i].pc[g].SpinHolding?
    ensures run[i + 1].pc[g].Holding? && !run[i].pc[g].Holding? ==> run[i].state == 0 && run[i + 1].state == 1
    ensures run[i].pc[g].Holding? && !run[i + 1].pc[g].Holding? ==> run[i + 1].pc[g].Unlocking?
  {
    RunSafe(run, i);
    assert Advances(run[i + 1 - 1], run[i + 1]);
    var f :| Step(run[i], run[i + 1], f);
    WhereItGoes(run[i], run[i + 1], f, g);
  }

  // --- refinement ---

  predicate Owns(p: Pc) {
    p.Holding? || p.Unlocking? || p.SpinHolding?
  }

  predicate Enqueues(p: Pc) {
    p.Linked? || p.SwitchedOut?
  }

  ghost predicate Refines(s: State, m: AbstractMutex.Mutex) {
    && m.waiters == s.waiters
    && (m.holder.Some? ==> m.holder.value in s.pc && Owns(s.pc[m.holder.value]))
    && (forall f | f in s.pc && Owns(s.pc[f]) :: m.holder == Some(f))
    && (m.enqueuer.Some? ==> m.enqueuer.value in s.pc && Enqueues(s.pc[m.enqueuer.value]))
    && (forall f | f in s.pc && Enqueues(s.pc[f]) :: m.enqueuer == Some(f))
  }

  lemma TryLockRefines(s: State, s': State, f: Fid, m: AbstractMutex.Mutex) returns (m': AbstractMutex.Mutex)
    requires Inv(s) && Refines(s, m) && (TryLock(s, s', f) || SpinLock(s, s', f))
    ensures Refines(s', m') && (m' == m || AbstractMutex.Step(m, m'))
  {
    m' := m;
    if s.state == 0 {
      if m.holder.Some? {
        Counts(s, m.holder.value);
      }
      m' := m.(holder := Some(f));
      assert AbstractMutex.Acquire(m, m', f);
    }
  }

  lemma LinkRefines(s: State, s': State, f: Fid, m: AbstractMutex.Mutex) returns (m': AbstractMutex.Mutex)
    requires Inv(s) && Refines(s, m) && Link(s, s', f)
    ensures Refines(s', m') && AbstractMutex.Step(m, m')
  {
    Counts(s, f);
    assert Those(s, One) != {};
    var h :| h in Those(s, One);
    if m.enqueuer.Some? {
      Exclusive(s, f, m.enqueuer.value);
    }
    m' := m.(enqueuer := Some(f), waiters := [f] + m.waiters);
    assert AbstractMutex.Link(m, m', f);
  }

  lemma ReleaseRefines(s: State, s': State, f: Fid, m: AbstractMutex.Mutex) returns (m': AbstractMutex.Mutex)
    requires Inv(s) && Refines(s, m) && (WakeSleepers(s, s', f) || SpinUnlock(s, s', f))
    ensures Refines(s', m') && AbstractMutex.Step(m, m')
  {
    m' := AbstractMutex.FREE;
    if m.enqueuer.Some? {
      Exclusive(s, f, m.enqueuer.value);
    }
    UnlockerSeesSleepers(s, f);
    assert AbstractMutex.Release(m, m', f);
    forall g | g in s'.pc
      ensures !Owns(s'.pc[g]) && !Enqueues(s'.pc[g])
    {
      if g != f && (Owns(s.pc[g]) || Enqueues(s.pc[g])) {
        Exclusive(s, f, g);
      }
    }
  }

  lemma ParkRefines(s: State, s': State, f: Fid, m: AbstractMutex.Mutex) returns (m': AbstractMutex.Mutex)
    requires Inv(s) && Refines(s, m) && ParentDecrement(s, s', f)
    ensures Refines(s', m') && AbstractMutex.Step(m, m')
  {
    m' := m.(enqueuer := None);
    assert AbstractMutex.Park(m, m', f);
    forall g | g in s'.pc
      ensures !Enqueues(s'.pc[g])
    {
      if g != f && Enqueues(s.pc[g]) {
        Exclusive(s, f, g);
      }
    }
  }

  // These steps change nothing a client can see.
  lemma QuietRefines(s: State, s': State, f: Fid, m: AbstractMutex.Mutex)
    requires Refines(s, m)
    requires TakeBack(s, s', f) || SwitchOut(s, s', f) || BeginUnlock(s, s', f) || EndUnlock(s, s', f)
    ensures Refines(s', m)
  {
  }

  /** Every atomic step of the counter protocol is one step of the abstract mutex or changes
      nothing a client can see. */
  lemma StepRefines(s: State, s': State, f: Fid, m: AbstractMutex.Mutex) returns (m': AbstractMutex.Mutex)
    requires Inv(s) && Refines(s, m) && Step(s, s', f)
    ensures Refines(s', m') && (m' == m || AbstractMutex.Step(m, m'))
  {
    m' := m;
    if TryLock(s, s', f) || SpinLock(s, s', f) {
      m' := TryLockRefines(s, s', f, m);
    } else if Link(s, s', f) {
      m' := LinkRefines(s, s', f, m);
    } else if ParentDecrement(s, s', f) {
      m' := ParkRefines(s, s', f, m);
    } else if WakeSleepers(s, s', f) || SpinUnlock(s, s', f) {
      m' := ReleaseRefines(s, s', f, m);
    } else if s' != s {
      QuietRefines(s, s', f, m);
    }
  }

  ghost predicate AbstractRun(ms: seq<AbstractMutex.Mutex>) {
    && ms != [] && ms[0] == AbstractMutex.FREE
    && forall i | 0 < i < |ms| :: ms[i] == ms[i - 1] || AbstractMutex.Step(ms[i - 1], ms[i])
  }

  lemma InitRefines(s: State)
    requires Init(s)
    ensures Refines(s, AbstractMutex.FREE)
  {
  }

  /** Every run of the counter protocol is a run of the abstract mutex. */
  lemma {:induction false} RunRefines(run: seq<State>) returns (ms: seq<AbstractMutex.Mutex>)
    requires Run(run)
    ensures |ms| == |run| && AbstractRun(ms)
    ensures forall i | 0 <= i < |run| :: Refines(run[i], ms[i])
  {
    var n := |run| - 1;
    if n == 0 {
      ms := [AbstractMutex.FREE];
      InitRefines(run[0]);
    } else {
      var before := RunRefines(run[..n]);
      RunSafe(run, n - 1);
      assert Advances(run[n - 1], run[n]);
      var f :| Step(run[n - 1], run[n], f);
      var m := StepRefines(run[n - 1], run[n], f, before[n - 1]);
      ms := before + [m];
      RunExtends(before, m);
    }
  }

  lemma RunExtends(ms: seq<AbstractMutex.Mutex>, m: AbstractMutex.Mutex)
    requires AbstractRun(ms) && (m == ms[|ms| - 1] || AbstractMutex.Step(ms[|ms| - 1], m))
    ensures AbstractRun(ms + [m])
  {
  }
}
