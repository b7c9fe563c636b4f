/** The run that shows that a pipe's time limit is enforced once: the fiber that the sweep has timed out
    blocks again, and the sweep no longer sees its pipe. */
module SecondLimit {
  import opened TimeoutSweep
  import opened Wrappers

  ghost predicate Ends(run: seq<State>, s: State) {
    Run(run) && run[|run| - 1] == s
  }

  ghost predicate Reached(s: State) {
    exists run :: Ends(run, s)
  }

  // Only what the steps of a run have in common matters here.
  lemma OneMore(run: seq<State>, s': State, next: (State, State) -> bool)
    requires run != [] && forall i | 0 < i < |run| :: next(run[i - 1], run[i])
    requires next(run[|run| - 1], s')
    ensures forall i | 0 < i < |run + [s']| :: next((run + [s'])[i - 1], (run + [s'])[i])
  {
  }

  lemma ReachedNext(s: State, s': State)
    requires Reached(s) && Advances(s, s')
    ensures Reached(s')
  {
    var run :| Ends(run, s);
    OneMore(run, s', Advances);
    assert Ends(run + [s'], s');
  }

  // One thread, one fiber and one pipe.
  function One(thread: Thread, place: Place, pipe: Pipe, sweep: Option<Sweep>, clock: nat): State {
    State([thread], [place], [pipe], sweep, clock)
  }

  function In(phase: Phase): Thread {
    Thread(phase, [], false, [])
  }

  lemma Blocks(pipe: Pipe, clock: nat, blocked: Pipe)
    requires pipe.fiber.None? && blocked == pipe.(fiber := Some(0), deadline := Some(clock + 1), way := Arming(0))
    requires Reached(One(In(Running(0)), Awake(0), pipe, None, clock))
    ensures Reached(One(In(Parked(0, 0)), OnPipe(0), blocked, None, clock))
  {
    var s, s' := One(In(Running(0)), Awake(0), pipe, None, clock), One(In(Parked(0, 0)), OnPipe(0), blocked, None, clock);
    assert Block(s, s', 0, 0, 0, 1) by {
      assert s'.threads == s.threads[0 := In(Parked(0, 0))] && s'.fibers == s.fibers[0 := OnPipe(0)] && s'.pipes == s.pipes[0 := blocked];
    }
    assert Step(s, s', 0, 0, 0, 1);
    ReachedNext(s, s');
  }

  lemma Arms(pipe: Pipe, clock: nat, armed: Pipe)
    requires armed == pipe.(attached := true, armed := true, way := Kernel)
    requires Reached(One(In(Parked(0, 0)), OnPipe(0), pipe, None, clock))
    ensures Reached(One(In(Looping), OnPipe(0), armed, None, clock))
  {
    var s, s' := One(In(Parked(0, 0)), OnPipe(0), pipe, None, clock), One(In(Looping), OnPipe(0), armed, None, clock);
    assert Arm(s, s', 0, 0, 0) by {
      assert s'.threads == s.threads[0 := In(Looping)] && s'.pipes == s.pipes[0 := armed];
    }
    assert Step(s, s', 0, 0, 0, 0);
    ReachedNext(s, s');
  }

  lemma Rests(place: Place, pipe: Pipe, clock: nat)
    requires Reached(One(In(Looping), place, pipe, None, clock))
    ensures Reached(One(In(Idle), place, pipe, None, clock))
  {
    var s, s' := One(In(Looping), place, pipe, None, clock), One(In(Idle), place, pipe, None, clock);
    assert EndLoop(s, s', 0) by {
      assert s'.threads == s.threads[0 := In(Idle)];
    }
    assert Step(s, s', 0, 0, 0, 0);
    ReachedNext(s, s');
  }

  lemma Ticks(s: State)
    requires Reached(s)
    ensures Reached(s.(clock := s.clock + 1))
  {
    assert Step(s, s.(clock := s.clock + 1), 0, 0, 0, 0);
    ReachedNext(s, s.(clock := s.clock + 1));
  }

  // The fiber runs, blocks on the pipe for one second, and two seconds pass.
  lemma BlocksForLong(pipe: Pipe, clock: nat) returns (s: State)
    requires pipe.fiber.None? && Reached(One(In(Running(0)), Awake(0), pipe, None, clock))
    ensures Reached(s)
    ensures s == One(In(Idle), OnPipe(0), Pipe(Some(0), Some(clock + 1), true, true, pipe.listed, Kernel), None, clock + 2)
  {
    var parked := pipe.(fiber := Some(0), deadline := Some(clock + 1), way := Arming(0));
    var armed := Pipe(Some(0), Some(clock + 1), true, true, pipe.listed, Kernel);
    Blocks(pipe, clock, parked);
    Arms(parked, clock, armed);
    Rests(OnPipe(0), armed, clock);
    Ticks(One(In(Idle), OnPipe(0), armed, None, clock));
    Ticks(One(In(Idle), OnPipe(0), armed, None, clock + 1));
    s := One(In(Idle), OnPipe(0), armed, None, clock + 2);
  }

  lemma WakesUp(pipe: Pipe)
    requires Reached(One(In(Idle), Asleep, pipe, None, 0))
    ensures Reached(One(In(Looping).(wakes := [0]), Queued(0), pipe, None, 0))
  {
    var s, s' := One(In(Idle), Asleep, pipe, None, 0), One(In(Looping).(wakes := [0]), Queued(0), pipe, None, 0);
    assert WakeFirst(s, s', 0, 0) by {
      assert [0] + [] == [0];
      assert s'.threads == s.threads[0 := In(Looping).(wakes := [0])] && s'.fibers == s.fibers[0 := Queued(0)];
    }
    assert Step(s, s', 0, 0, 0, 0);
    ReachedNext(s, s');
  }

  // wake_all switches to the fiber it takes off its list.
  lemma Switches(expired: bool, place: Place, pipe: Pipe, clock: nat, from: Thread, to: Thread)
    requires from == Thread(Looping, [0], expired, []) && to == Thread(Switched(0), [], expired, [])
    requires Reached(One(from, place, pipe, None, clock))
    ensures Reached(One(to, place, pipe, None, clock))
  {
    var s, s' := One(from, place, pipe, None, clock), One(to, place, pipe, None, clock);
    assert Pop(s, s', 0) by {
      assert [0][1..] == [];
      assert s'.threads == s.threads[0 := to];
    }
    assert Step(s, s', 0, 0, 0, 0);
    ReachedNext(s, s');
  }

  lemma Starts(pipe: Pipe)
    requires Reached(One(In(Switched(0)), Queued(0), pipe, None, 0))
    ensures Reached(One(In(Running(0)), Awake(0), pipe, None, 0))
  {
    var s, s' := One(In(Switched(0)), Queued(0), pipe, None, 0), One(In(Running(0)), Awake(0), pipe, None, 0);
    assert ResumeOther(s, s', 0, 0) by {
      assert s'.threads == s.threads[0 := In(Running(0))] && s'.fibers == s.fibers[0 := Awake(0)];
    }
    assert Step(s, s', 0, 0, 0, 0);
    ReachedNext(s, s');
  }

  lemma FirstRuns(pipe: Pipe)
    requires pipe == Pipe(None, None, false, false, true, Kernel)
    ensures Reached(One(In(Running(0)), Awake(0), pipe, None, 0))
  {
    var s := One(In(Idle), Asleep, pipe, None, 0);
    assert Ends([s], s);
    WakesUp(pipe);
    Switches(false, Queued(0), pipe, 0, In(Looping).(wakes := [0]), In(Switched(0)));
    Starts(pipe);
  }

  lemma Sweeps(pipe: Pipe, detached: Pipe)
    requires pipe == Pipe(Some(0), Some(1), true, true, true, Kernel) && detached == Pipe(Some(0), Some(1), false, false, true, AtRest)
    requires Reached(One(In(Idle), OnPipe(0), pipe, None, 2))
    ensures Reached(One(In(Idle), OnPipe(0), detached, Some(Sweep(2, {})), 2))
  {
    var s, s' := One(In(Idle), OnPipe(0), pipe, None, 2), One(In(Idle), OnPipe(0), detached, Some(Sweep(2, {})), 2);
    assert BeginSweep(s, s', 0) by {
      assert Detached(pipe, 2) == detached;
      assert s'.pipes == seq(|s.pipes|, p requires 0 <= p < |s.pipes| => Detached(s.pipes[p], s.clock));
    }
    assert Step(s, s', 0, 0, 0, 0);
    ReachedNext(s, s');
  }

  lemma ComesToTop(pipe: Pipe)
    requires Reached(One(In(Idle), OnPipe(0), pipe, Some(Sweep(2, {})), 2))
    ensures Reached(One(In(Idle), OnPipe(0), pipe, Some(Sweep(2, {0})), 2))
  {
    var s, s' := One(In(Idle), OnPipe(0), pipe, Some(Sweep(2, {})), 2), One(In(Idle), OnPipe(0), pipe, Some(Sweep(2, {0})), 2);
    assert Top(s, s', 0) by {
      var none: set<Tid> := {};
      assert none + {0} == {0};
    }
    assert Step(s, s', 0, 0, 0, 0);
    ReachedNext(s, s');
  }

  lemma Picks(pipe: Pipe, due: Pipe)
    requires pipe == Pipe(Some(0), Some(1), false, false, true, AtRest) && due == Pipe(Some(0), Some(1), false, false, false, Due(0))
    requires Reached(One(In(Idle), OnPipe(0), pipe, Some(Sweep(2, {0})), 2))
    ensures Reached(One(In(Looping).(due := [0]), OnPipe(0), due, None, 2))
  {
    var s, s' := One(In(Idle), OnPipe(0), pipe, Some(Sweep(2, {0})), 2), One(In(Looping).(due := [0]), OnPipe(0), due, None, 2);
    assert EndSweep(s, s', 0) by {
      assert TimesOut(s, 0, 2);
      assert TimedOut(s, 2, 1) == [0] + TimedOut(s, 2, 0) == [0];
      assert s'.threads == s.threads[0 := In(Looping).(due := [0])];
      assert s'.pipes == seq(|s.pipes|, p requires 0 <= p < |s.pipes| =>
                               if TimesOut(s, p, 2) then s.pipes[p].(listed := false, way := Due(0)) else s.pipes[p]);
    }
    assert Step(s, s', 0, 0, 0, 0);
    ReachedNext(s, s');
  }

  lemma TimesOutFirst(pipe: Pipe, woken: Pipe, to: Thread)
    requires pipe.fiber == Some(0) && woken == pipe.(way := Woken(0, true)) && to == Thread(Looping, [0], true, [])
    requires Reached(One(In(Looping).(due := [0]), OnPipe(0), pipe, None, 2))
    ensures Reached(One(to, OnPipe(0), woken, None, 2))
  {
    var s, s' := One(In(Looping).(due := [0]), OnPipe(0), pipe, None, 2), One(to, OnPipe(0), woken, None, 2);
    assert TimeOutNext(s, s', 0, 0) by {
      assert [0][1..] == [];
      assert s'.threads == s.threads[0 := to] && s'.pipes == s.pipes[0 := woken];
    }
    assert Step(s, s', 0, 0, 0, 0);
    ReachedNext(s, s');
  }

  lemma GoesOn(pipe: Pipe, after: Pipe, from: Thread)
    requires from == Thread(Switched(0), [], true, []) && after == pipe.(fiber := None, deadline := None)
    requires Reached(One(from, OnPipe(0), pipe, None, 2))
    ensures Reached(One(In(Running(0)), Awake(0), after, None, 2))
  {
    var s, s' := One(from, OnPipe(0), pipe, None, 2), One(In(Running(0)), Awake(0), after, None, 2);
    assert Resume(s, s', 0, 0, 0) by {
      assert s'.threads == s.threads[0 := In(Running(0))] && s'.fibers == s.fibers[0 := Awake(0)] && s'.pipes == s.pipes[0 := after];
    }
    assert Step(s, s', 0, 0, 0, 0);
    ReachedNext(s, s');
  }

  // A sweep times the fiber out.
  lemma IsTimedOut() returns (pipe: Pipe, thread: Thread)
    ensures pipe == Pipe(Some(0), Some(1), false, false, false, Woken(0, true)) && thread == Thread(Looping, [0], true, [])
    ensures Reached(One(thread, OnPipe(0), pipe, None, 2))
  {
    FirstRuns(Pipe(None, None, false, false, true, Kernel));
    var s := BlocksForLong(Pipe(None, None, false, false, true, Kernel), 0);
    var detached := Pipe(Some(0), Some(1), false, false, true, AtRest);
    var due := Pipe(Some(0), Some(1), false, false, false, Due(0));
    Sweeps(Pipe(Some(0), Some(1), true, true, true, Kernel), detached);
    ComesToTop(detached);
    Picks(detached, due);
    pipe, thread := Pipe(Some(0), Some(1), false, false, false, Woken(0, true)), Thread(Looping, [0], true, []);
    TimesOutFirst(due, pipe, thread);
  }

  // And it runs again.
  lemma RunsAgain() returns (pipe: Pipe)
    ensures pipe.fiber.None? && !pipe.listed && Reached(One(In(Running(0)), Awake(0), pipe, None, 2))
  {
    var woken, thread := IsTimedOut();
    var switched := Thread(Switched(0), [], true, []);
    Switches(true, OnPipe(0), woken, 2, thread, switched);
    pipe := woken.(fiber := None, deadline := None);
    GoesOn(woken, pipe, switched);
  }

  /** A fiber that was timed out blocks once more on the same pipe, for one second, and a sweep two
      seconds later leaves it blocked. */
  lemma SecondLimitIgnored() returns (s: State, s': State)
    ensures Reached(s) && BeginSweep(s, s', 0) && |s.pipes| == 1 && s.pipes[0].fiber == Some(0) && s.pipes[0].attached
    ensures s.pipes[0].deadline == Some(3) && s.clock == 4 && s'.pipes == s.pipes
  {
    var pipe := RunsAgain();
    s := BlocksForLong(pipe, 2);
    s' := s.(sweep := Some(Sweep(4, {})));
    assert s'.pipes == seq(|s.pipes|, p requires 0 <= p < |s.pipes| => Detached(s.pipes[p], s.clock));
  }
}
