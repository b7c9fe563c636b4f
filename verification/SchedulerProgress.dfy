/** That the threads get stuck nowhere in the code of the library: whenever one of them is in its loop,
    finishes something for a fiber, or runs one that is inside lock or wait, some such thread can go on. */
module SchedulerProgress {
  import opened Wrappers
  import AbstractMutex
  import opened FiberScheduler

  type Fid = AbstractMutex.Fid

  // Every thread, every mutex and the timer has its list.
  ghost predicate Built(s: State) {
    && OnTimer in s.lists && (forall t | t in s.threads :: OnWake(t) in s.lists) && (forall m | m in s.locks :: OnMutex(m) in s.lists)
  }

  // The mutex that a fiber wants is there.
  ghost predicate KnowsMutex(s: State, f: Fid) {
    f in s.fibers ==>
      && (s.fibers[f].pc.Locking? ==> s.fibers[f].pc.m in s.locks)
      && (s.fibers[f].pc.Waiting? ==> s.fibers[f].pc.c in s.mutexOf && s.mutexOf[s.fibers[f].pc.c] in s.locks)
  }

  lemma KeptByLinks(s: State, s': State, l: Label, f: Fid)
    requires Built(s) && KnowsMutex(s, f) && (LinkStep(s, s', l) || SwitchStep(s, s', l))
    ensures Built(s') && KnowsMutex(s', f)
  {
  }

  lemma KeptByLoops(s: State, s': State, l: Label, f: Fid)
    requires Built(s) && KnowsMutex(s, f) && (StartStep(s, s', l) || LoopStep(s, s', l))
    ensures Built(s') && KnowsMutex(s', f)
  {
  }

  lemma KeptByParents(s: State, s': State, l: Label, f: Fid)
    requires Built(s) && KnowsMutex(s, f) && HandleStep(s, s', l)
    ensures Built(s') && KnowsMutex(s', f)
  {
  }

  lemma KeptByWakes(s: State, s': State, l: Label, f: Fid)
    requires Built(s) && KnowsMutex(s, f) && (WakeStep(s, s', l) || ReleaseStep(s, s', l))
    ensures Built(s') && KnowsMutex(s', f)
  {
  }

  lemma {:induction false} RunKnows(run: seq<State>, labels: seq<Label>, i: nat, f: Fid)
    requires Run(run, labels) && i < |run| && Built(run[0])
    ensures Built(run[i]) && KnowsMutex(run[i], f)
  {
    if i > 0 {
      RunKnows(run, labels, i - 1, f);
      var s, s', l := run[i - 1], run[i - 1 + 1], labels[i - 1];
      assert Step(s, s', l);
      if LinkStep(s, s', l) || SwitchStep(s, s', l) {
        KeptByLinks(s, s', l, f);
      } else if WakeStep(s, s', l) || ReleaseStep(s, s', l) {
        KeptByWakes(s, s', l, f);
      } else if HandleStep(s, s', l) {
        KeptByParents(s, s', l, f);
      } else {
        KeptByLoops(s, s', l, f);
      }
    }
  }

  // In the code of the library: whatever its fiber is not doing for itself.
  ghost predicate Busy(s: State, t: Tid) {
    && t in s.threads && !s.threads[t].mode.Idle?
    && (s.threads[t].mode.Running? ==>
          var f := s.threads[t].mode.f; f in s.fibers && (s.fibers[f].place != Nowhere || s.fibers[f].pc != Free))
  }

  // A step of a thread that is busy.
  ghost predicate GoesOn(s: State, s': State, l: Label) {
    Step(s, s', l) && !l.Submitted? && Busy(s, l.t)
  }

  lemma LoopGoesOn(s: State, t: Tid) returns (s': State, l: Label)
    requires Inv(s) && Built(s) && t in s.threads && s.threads[t].mode.Loop?
    ensures GoesOn(s, s', l)
  {
    var wake, parents := s.lists[OnWake(t)], s.threads[t].parents;
    if wake != [] {
      var f := wake[0];
      assert Ok(s, View(f, OnWake(t)));
      l := Resumed(t, f);
      s' := s.(threads := s.threads[t := s.threads[t].(mode := Running(f))], lists := s.lists[OnWake(t) := wake[1..]],
               fibers := s.fibers[f := s.fibers[f].(exec := Runs(t), place := Nowhere, resumptions := s.fibers[f].resumptions + 1)]);
      assert LoopStep(s, s', l);
    } else if parents == [] {
      l := LoopEnded(t);
      s' := s.(threads := s.threads[t := Thread(Idle, [])]);
      assert LoopStep(s, s', l);
    } else {
      var g := parents[|parents| - 1];
      assert Ok(s, View(f := g, t := t));
      l := NestedLoopEnded(t, g);
      s' := s.(threads := s.threads[t := Thread(Running(g), parents[..|parents| - 1])],
               fibers := s.fibers[g := s.fibers[g].(exec := Runs(t))]);
      assert LoopStep(s, s', l);
    }
  }

  // What the invariant says of the fiber that a thread runs, or finishes something for.
  lemma OnItsThread(s: State, t: Tid)
    requires Inv(s) && t in s.threads && (s.threads[t].mode.Running? || s.threads[t].mode.Handling?)
    ensures var f := s.threads[t].mode.f;
            && f in s.fibers && Shape(s, s.fibers[f])
            && (s.threads[t].mode.Running? ==> s.fibers[f].exec == Runs(t))
            && (s.threads[t].mode.Handling? ==> s.fibers[f].exec == Leaves(t) && OpcodeFits(s.threads[t].mode.op, s.fibers[f]))
  {
    assert Ok(s, View(f := s.threads[t].mode.f, t := t));
  }

  lemma SuspendGoesOn(s: State, t: Tid, f: Fid, m: Mid) returns (s': State, l: Label)
    requires Inv(s) && Built(s) && t in s.threads && s.threads[t].mode == Handling(f, OcMutexSuspend(m))
    ensures GoesOn(s, s', l)
  {
    OnItsThread(s, t);
    assert Ok(s, View(f := f, m := m));
    var mu := MutexAt(s, m).(enqueuer := None);
    l := HandledMutexSuspend(t, m, f, mu);
    s' := SetMutex(LetGo(s, t, f), m, mu);
    assert HandleStep(s, s', l);
  }

  // Whoever works on a mutex's list is on some thread, and that thread can go on.
  lemma EnqueuerGoesOn(s: State, m: Mid) returns (s': State, l: Label)
    requires Inv(s) && Built(s) && m in s.locks && s.locks[m].enqueuer.Some?
    ensures GoesOn(s, s', l)
  {
    var g := s.locks[m].enqueuer.value;
    assert Ok(s, View(f := g, m := m));
    match s.fibers[g].exec {
      case Runs(t) =>
        assert Ok(s, View(f := g, t := t));
        l := SwitchedFromMutex(t, g);
        s' := SwitchOut(s, t, g, OcMutexSuspend(m));
        assert SwitchStep(s, s', l);
      case Leaves(t) =>
        assert Ok(s, View(f := g, t := t));
        assert s.threads[t].mode == Handling(g, OcMutexSuspend(m));
        s', l := SuspendGoesOn(s, t, g, m);
      case _ =>
        assert false;
    }
  }

  lemma WaitGoesOn(s: State, t: Tid, f: Fid, c: Cid) returns (s': State, l: Label)
    requires Inv(s) && Built(s) && t in s.threads && s.threads[t].mode == Handling(f, OcCondWait(c))
    ensures GoesOn(s, s', l)
  {
    OnItsThread(s, t);
    assert Ok(s, View(f := f, c := c));
    var m := s.mutexOf[c];
    if s.locks[m].enqueuer.Some? {
      s', l := EnqueuerGoesOn(s, m);
    } else {
      l := HandledCondWait(t, c, m, f);
      s' := Wake(SetMutex(LetGo(s, t, f), m, AbstractMutex.FREE), t, OnMutex(m), s.lists[OnMutex(m)], []);
      assert ReleaseStep(s, s', l);
    }
  }

  lemma HandlingGoesOn(s: State, t: Tid) returns (s': State, l: Label)
    requires Inv(s) && Built(s) && t in s.threads && s.threads[t].mode.Handling?
    ensures GoesOn(s, s', l)
  {
    var f := s.threads[t].mode.f;
    OnItsThread(s, t);
    match s.threads[t].mode.op {
      case OcIo(p) =>
        l, s' := HandledIo(t, p, f), LetGo(s, t, f).(armed := s.armed[p := true]);
        assert HandleStep(s, s', l);
      case OcMutexSuspend(m) => s', l := SuspendGoesOn(s, t, f, m);
      case OcCondWait(c) => s', l := WaitGoesOn(s, t, f, c);
      case OcSleep =>
        l := HandledSleep(t, f);
        s' := s.(threads := s.threads[t := s.threads[t].(mode := Loop)], lists := s.lists[OnTimer := s.lists[OnTimer] + [f]],
                 fibers := s.fibers[f := s.fibers[f].(exec := Off, place := OnTimer)]);
        assert HandleStep(s, s', l);
      case OcExitFiber =>
        l := HandledExit(t, f);
        s' := s.(threads := s.threads[t := s.threads[t].(mode := Loop)], fibers := s.fibers - {f}, numRunning := s.numRunning - 1);
        assert HandleStep(s, s', l);
    }
  }

  // A fiber that has come back into lock, or that wants its mutex at the end of wait.
  lemma WantsGoesOn(s: State, t: Tid, f: Fid, m: Mid) returns (s': State, l: Label)
    requires Inv(s) && Built(s) && Busy(s, t) && s.threads[t].mode == Running(f) && s.fibers[f].place == Nowhere
    requires m in s.locks && Wants(s, s.fibers[f].pc, m) && !Holds(s, f, m)
    ensures GoesOn(s, s', l)
  {
    if s.locks[m].holder.None? {
      var mu := MutexAt(s, m).(holder := Some(f));
      l := Locked(t, m, f, mu);
      s' := SetMutex(s, m, mu).(fibers := s.fibers[f := s.fibers[f].(pc := Free)]);
      assert LinkStep(s, s', l);
    } else if s.locks[m].enqueuer.None? {
      var mu := MutexAt(s, m).(enqueuer := Some(f), waiters := [f] + s.lists[OnMutex(m)]);
      l := LinkedMutex(t, m, f, mu);
      s' := SetMutex(s, m, mu).(fibers := s.fibers[f :=
              s.fibers[f].(place := OnMutex(m), pc := if s.fibers[f].pc == Free then Locking(m) else s.fibers[f].pc)]);
      assert LinkStep(s, s', l);
    } else {
      s', l := EnqueuerGoesOn(s, m);
    }
  }

  lemma RunningGoesOn(s: State, t: Tid) returns (s': State, l: Label)
    requires Inv(s) && Built(s) && Busy(s, t) && s.threads[t].mode.Running? && KnowsMutex(s, s.threads[t].mode.f)
    ensures GoesOn(s, s', l)
  {
    var f := s.threads[t].mode.f;
    OnItsThread(s, t);
    if s.fibers[f].place.OnMutex? {
      l, s' := SwitchedFromMutex(t, f), SwitchOut(s, t, f, OcMutexSuspend(s.fibers[f].place.m));
      assert SwitchStep(s, s', l);
    } else if s.fibers[f].place.OnCond? {
      l, s' := SwitchedFromCond(t, f), SwitchOut(s, t, f, OcCondWait(s.fibers[f].place.c));
      assert SwitchStep(s, s', l);
    } else if s.fibers[f].pc.Locking? {
      assert Ok(s, View(f := f, m := s.fibers[f].pc.m));
      s', l := WantsGoesOn(s, t, f, s.fibers[f].pc.m);
    } else {
      assert Ok(s, View(f := f, c := s.fibers[f].pc.c));
      s', l := WantsGoesOn(s, t, f, s.mutexOf[s.fibers[f].pc.c]);
    }
  }

  /** In every reachable state in which a thread is in the code of the library, one that is can take a
      step: no thread waits for another that waits for it, and none is left with nothing it can do. */
  lemma NeverStuck(run: seq<State>, labels: seq<Label>, i: nat, t: Tid) returns (s': State, l: Label)
    requires Run(run, labels) && Built(run[0]) && i < |run| && Busy(run[i], t)
    ensures Step(run[i], s', l) && !l.Submitted? && Busy(run[i], l.t)
  {
    var s := run[i];
    RunSafe(run, labels, i);
    RunKnows(run, labels, i, if s.threads[t].mode.Running? then s.threads[t].mode.f else 0);
    match s.threads[t].mode {
      case Loop => s', l := LoopGoesOn(s, t);
      case Handling(_, _) => s', l := HandlingGoesOn(s, t);
      case Running(_) => s', l := RunningGoesOn(s, t);
    }
  }

  // The thread has come out of epoll_wait and is about to resume the fiber.
  ghost predicate InLoopOf(s: State, t: Tid, f: Fid) {
    && t in s.threads && s.threads[t].mode == Loop
    && f in s.fibers && s.fibers[f].place == OnWake(t) && OnWake(t) in s.lists && s.lists[OnWake(t)] == [f]
  }

  /** Whoever waits for a pipe or for its time can be woken by any thread that is idle, once its switch
      is complete; and so can whoever was submitted be started. */
  lemma SleepersCanBeWoken(run: seq<State>, labels: seq<Label>, i: nat, f: Fid, t: Tid) returns (s': State, l: Label)
    requires Run(run, labels) && Built(run[0]) && i < |run| && t in run[i].threads && run[i].threads[t].mode.Idle?
    requires var s := run[i];
             f in s.pending || (f in s.fibers && s.fibers[f].exec == Off && (s.fibers[f].place.OnPipe? || s.fibers[f].place.OnTimer?))
    ensures Step(run[i], s', l) && InLoopOf(s', t, f)
  {
    var s := run[i];
    RunSafe(run, labels, i);
    RunKnows(run, labels, i, f);
    assert Ok(s, View(f := f, t := t));
    if f in s.pending {
      l := Started(t, f);
      s' := s.(pending := s.pending - {f}, threads := s.threads[t := s.threads[t].(mode := Loop)],
               lists := s.lists[OnWake(t) := [f] + s.lists[OnWake(t)]], fibers := s.fibers[f := Fiber(Off, OnWake(t), Free, 1, 0)]);
      assert StartStep(s, s', l);
    } else {
      var pl := s.fibers[f].place;
      assert Ok(s, View(f := f, pl := pl));
      if pl.OnPipe? {
        assert Ok(s, View(f := f, p := pl.p));
      }
      var k :| 0 <= k < |s.lists[pl]| && s.lists[pl][k] == f;
      l := Evented(t, pl, k);
      s' := Wake(s, t, pl, [f], s.lists[pl][..k] + s.lists[pl][k + 1..]).(
              threads := s.threads[t := s.threads[t].(mode := Loop)],
              armed := if pl.OnPipe? then s.armed[pl.p := false] else s.armed);
      assert WakeStep(s, s', l);
    }
  }

  /** Whoever holds the mutex of a condition can notify one fiber, which is the one that has waited
      longest, or all of them, in the order in which they have waited. */
  lemma NotifierCanWake(s: State, t: Tid, f: Fid, c: Cid, all: bool) returns (s': State)
    requires Runner(s, t, f) && HoldsFor(s, f, c) && OnCond(c) in s.lists && s.lists[OnCond(c)] != []
    ensures var waiting := s.lists[OnCond(c)];
            var k := if all then |waiting| else 1;
            && Step(s, s', Notified(t, c, k, f))
            && OnWake(t) in s'.lists && s'.lists[OnWake(t)] == waiting[..k] + s.lists[OnWake(t)]
            && OnCond(c) in s'.lists && s'.lists[OnCond(c)] == waiting[k..]
  {
    var waiting := s.lists[OnCond(c)];
    var k := if all then |waiting| else 1;
    s' := Wake(s, t, OnCond(c), waiting[..k], waiting[k..]);
    assert WakeStep(s, s', Notified(t, c, k, f));
  }
}
