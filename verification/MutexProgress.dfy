/** That fiber_mutex gets stuck nowhere: from wherever the fibers have come to, those that are inside
    can all go on until each has had the mutex and is out again, without any help from outside. */
module MutexProgress {
  import opened Wrappers
  import opened FiberMutexProtocol

  // How many steps a fiber has before it at most, if it is let through.
  function Left(p: Pc): (n: nat)
    ensures n <= 8 && (n == 0 <==> p.Outside?)
  {
    match p
    case Outside => 0
    case SpinHolding | Releasing => 1
    case Unlocking => 2
    case Holding => 3
    case Retrying | Woken => 4
    case Spinning | Asleep => 5
    case SwitchedOut => 6
    case Linked => 7
    case Enqueueing => 8
  }

  ghost function AtLeast(s: State, k: nat): set<Fid> {
    set f | f in s.pc && Left(s.pc[f]) >= k
  }

  // The steps before all of them, counted level by level.
  ghost function Before(s: State, k: nat): nat {
    if k == 0 then 0 else |AtLeast(s, k)| + Before(s, k - 1)
  }

  lemma FewerAtLeast(s: State, s': State, k: nat)
    requires AtLeast(s', k) <= AtLeast(s, k)
    ensures |AtLeast(s', k)| <= |AtLeast(s, k)|
    ensures AtLeast(s', k) != AtLeast(s, k) ==> |AtLeast(s', k)| < |AtLeast(s, k)|
  {
    var gone := AtLeast(s, k) - AtLeast(s', k);
    assert AtLeast(s, k) == AtLeast(s', k) + gone;
  }

  // One fiber gets nearer to the end, and none farther from it.
  ghost predicate Nearer(s: State, s': State, f: Fid) {
    && s'.pc.Keys == s.pc.Keys && f in s.pc && Left(s'.pc[f]) < Left(s.pc[f])
    && forall g | g in s.pc :: Left(s'.pc[g]) <= Left(s.pc[g])
  }

  lemma {:induction false} NearerIsBefore(s: State, s': State, f: Fid, k: nat)
    requires Nearer(s, s', f)
    ensures Before(s', k) <= Before(s, k)
    ensures k >= Left(s.pc[f]) ==> Before(s', k) < Before(s, k)
  {
    if k > 0 {
      NearerIsBefore(s, s', f, k - 1);
      FewerAtLeast(s, s', k);
      if k == Left(s.pc[f]) {
        assert f in AtLeast(s, k) && f !in AtLeast(s', k);
      }
    }
  }

  lemma MoveIsNearer(s: State, s': State, f: Fid)
    requires f in s.pc && f in s'.pc && s'.pc == s.pc[f := s'.pc[f]] && Left(s'.pc[f]) < Left(s.pc[f])
    ensures Nearer(s, s', f)
  {
  }

  // Whoever is about to take its increment back, or on its way to sleep, can go on.
  lemma TransientMoves(s: State, f: Fid) returns (s': State)
    requires f in s.pc && s.pc[f] in {Spinning, Enqueueing, Linked, SwitchedOut}
    ensures Step(s, s', f) && Nearer(s, s', f)
  {
    match s.pc[f] {
      case Spinning => s' := s.(state := s.state - 1, pc := s.pc[f := Retrying]);
      case Enqueueing => s' := s.(waiters := [f] + s.waiters, pc := s.pc[f := Linked]);
      case Linked => s' := s.(pc := s.pc[f := SwitchedOut]);
      case SwitchedOut => s' := s.(state := s.state - 1, pc := s.pc[f := Asleep]);
    }
    if s.pc[f].Enqueueing? {
      assert Link(s, s', f);
    }
    MoveIsNearer(s, s', f);
  }

  ghost predicate NoneTransient(s: State) {
    forall f | f in s.pc :: s.pc[f] !in {Spinning, Enqueueing, Linked, SwitchedOut}
  }

  // Then the counter is exactly the holder's.
  lemma CounterSettled(s: State)
    requires Inv(s) && NoneTransient(s)
    ensures s.state == Count(s, One) + 2 * Count(s, Two)
  {
    assert Those(s, Enqueuer) == {} && Those(s, Spinner) == {};
  }

  lemma HolderMoves(s: State, f: Fid) returns (s': State)
    requires Inv(s) && NoneTransient(s) && f in s.pc && s.pc[f] in {Holding, Unlocking, Releasing, SpinHolding}
    ensures Step(s, s', f) && Nearer(s, s', f)
  {
    CounterSettled(s);
    Counts(s, f);
    match s.pc[f] {
      case Holding => s' := s.(state := 2, pc := s.pc[f := Unlocking]);
      case Unlocking =>
        s' := State(s.state, [], map g | g in s.pc :: if g == f then Releasing else if g in s.waiters then Woken else s.pc[g]);
        UnlockerSeesSleepers(s, f);
        assert WakeSleepers(s, s', f);
      case Releasing | SpinHolding => s' := s.(state := 0, pc := s.pc[f := Outside]);
    }
    if !s.pc[f].Unlocking? {
      MoveIsNearer(s, s', f);
    }
  }

  ghost predicate NoneHolds(s: State) {
    forall f | f in s.pc :: KindOf(s.pc[f]) !in {One, Two}
  }

  // A free mutex has nobody asleep on it, and whoever tries gets it.
  lemma TakerMoves(s: State, f: Fid) returns (s': State)
    requires Inv(s) && NoneTransient(s) && NoneHolds(s) && f in s.pc && !s.pc[f].Outside?
    ensures Step(s, s', f) && Nearer(s, s', f)
  {
    CounterSettled(s);
    assert Those(s, One) == {} && Those(s, Two) == {};
    assert f !in s.waiters;
    s' := s.(state := 1, pc := s.pc[f := Holding]);
    assert TryLock(s, s', f);
    MoveIsNearer(s, s', f);
  }

  /** In every reachable state in which any fiber is inside, one that is inside can take a step that
      brings it nearer to being out and no fiber farther from it. */
  lemma SomeoneMoves(s: State) returns (f: Fid, s': State)
    requires Inv(s) && exists g :: g in s.pc && !s.pc[g].Outside?
    ensures Step(s, s', f) && Nearer(s, s', f)
  {
    if !NoneTransient(s) {
      f :| f in s.pc && s.pc[f] in {Spinning, Enqueueing, Linked, SwitchedOut};
      s' := TransientMoves(s, f);
    } else if !NoneHolds(s) {
      f :| f in s.pc && KindOf(s.pc[f]) in {One, Two};
      s' := HolderMoves(s, f);
    } else {
      f :| f in s.pc && !s.pc[f].Outside?;
      s' := TakerMoves(s, f);
    }
  }

  // Steps of fibers that are inside, from one state to one in which no fiber is.
  ghost predicate GetsOut(rest: seq<State>, s: State) {
    && rest != [] && rest[0] == s
    && (forall i | 0 < i < |rest| :: MovesInside(rest[i - 1], rest[i]))
    && AllOut(rest[|rest| - 1])
  }

  ghost predicate MovesInside(s: State, s': State) {
    exists f :: f in s.pc && !s.pc[f].Outside? && Step(s, s', f)
  }

  ghost predicate AllOut(s: State) {
    forall f | f in s.pc :: s.pc[f].Outside?
  }

  lemma OneMoreInFront(s: State, s': State, rest: seq<State>)
    requires GetsOut(rest, s') && MovesInside(s, s')
    ensures GetsOut([s] + rest, s)
  {
    var all := [s] + rest;
    forall i | 0 < i < |all|
      ensures MovesInside(all[i - 1], all[i])
    {
      if i > 1 {
        assert MovesInside(rest[i - 2], rest[i - 1]);
      }
    }
  }

  lemma {:induction false} WayOut(s: State) returns (rest: seq<State>)
    requires Inv(s)
    ensures GetsOut(rest, s)
    decreases Before(s, 8)
  {
    if AllOut(s) {
      rest := [s];
    } else {
      var f, s' := SomeoneMoves(s);
      StepPreserves(s, s', f);
      NearerIsBefore(s, s', f, 8);
      rest := WayOut(s');
      assert MovesInside(s, s');
      OneMoreInFront(s, s', rest);
      rest := [s] + rest;
    }
  }

  /** Wherever a run has come to, the fibers that are inside can take it on until all of them are out,
      the counter is zero and nobody waits: there is no deadlock, and nobody is left asleep. */
  lemma EveryoneGetsOut(run: seq<State>, i: nat) returns (rest: seq<State>)
    requires Run(run) && i < |run|
    ensures GetsOut(rest, run[i])
    ensures rest[|rest| - 1].state == 0 && rest[|rest| - 1].waiters == []
  {
    RunSafe(run, i);
    rest := WayOut(run[i]);
    WayKeeps(rest, run[i], |rest| - 1);
    var end := rest[|rest| - 1];
    CounterSettled(end);
    assert Those(end, One) == {} && Those(end, Two) == {};
  }

  lemma {:induction false} WayKeeps(rest: seq<State>, s: State, i: nat)
    requires GetsOut(rest, s) && Inv(s) && i < |rest|
    ensures Inv(rest[i])
  {
    if i > 0 {
      WayKeeps(rest, s, i - 1);
      assert MovesInside(rest[i - 1], rest[i]);
      var f :| f in rest[i - 1].pc && !rest[i - 1].pc[f].Outside? && Step(rest[i - 1], rest[i], f);
      StepPreserves(rest[i - 1], rest[i], f);
    }
  }

  /** And on the way out each of them that is inside lock comes to hold the mutex. */
  lemma {:induction false} EveryoneGetsIt(rest: seq<State>, s: State, i: nat, g: Fid) returns (k: nat)
    requires GetsOut(rest, s) && Inv(s) && i < |rest| && g in rest[i].pc && InsideLock(rest[i].pc[g])
    ensures i < k < |rest| && g in rest[k].pc && rest[k].pc[g].Holding?
    decreases |rest| - i
  {
    assert i + 1 < |rest| by {
      assert i == |rest| - 1 ==> AllOut(rest[i]);
    }
    WayKeeps(rest, s, i);
    assert MovesInside(rest[i], rest[i + 1]);
    var f :| f in rest[i].pc && !rest[i].pc[f].Outside? && Step(rest[i], rest[i + 1], f);
    WhereItGoes(rest[i], rest[i + 1], f, g);
    if rest[i + 1].pc[g].Holding? {
      k := i + 1;
    } else {
      k := EveryoneGetsIt(rest, s, i + 1, g);
    }
  }

  /** A fiber can take the mutex, with lock or with spin_lock, if and only if nobody has it: not while
      it is held, nor before an unlock has come to its end. */
  lemma TakenIfFree(run: seq<State>, i: nat, f: Fid)
    requires Run(run) && i < |run| && f in run[i].pc
    ensures var s := run[i];
            && (s.pc[f] in {Outside, Retrying, Woken} ==>
                ((exists s' :: TryLock(s, s', f) && s'.pc[f].Holding?) <==> NoneHolds(s)))
            && (s.pc[f].Outside? ==> ((exists s' :: SpinLock(s, s', f)) <==> NoneHolds(s)))
  {
    var s := run[i];
    RunSafe(run, i);
    CounterExact(run, i);
    if NoneHolds(s) {
      assert Those(s, One) == {} && Those(s, Two) == {};
      if s.pc[f] in {Outside, Retrying, Woken} {
        assert TryLock(s, s.(state := 1, pc := s.pc[f := Holding]), f);
      }
      if s.pc[f].Outside? {
        assert SpinLock(s, s.(state := 2, pc := s.pc[f := SpinHolding]), f);
      }
    } else {
      var h :| h in s.pc && KindOf(s.pc[h]) in {One, Two};
      Counts(s, h);
      assert s.state > 0;
    }
  }
}
