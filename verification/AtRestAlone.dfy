/** Whether at-rest functions run while no other io thread handles an event: not if there is more
    than one io thread.  The run that shows it goes through one whole pause. */
module AtRestAlone {
  import opened PauseProtocol
  import opened Wrappers

  ghost predicate Reached(s: State) {
    exists run :: Run(run) && run[|run| - 1] == s
  }

  lemma ReachedNext(s: State, s': State, t: Tid)
    requires Reached(s) && Step(s, s', t)
    ensures Reached(s')
  {
    var run :| Run(run) && run[|run| - 1] == s;
    var longer := run + [s'];
    assert longer[|longer| - 1] == s';
    assert Advances(s, s');
    assert forall i | 0 < i < |longer| :: Advances(longer[i - 1], longer[i]);
  }

  // Thread 0, then k threads that are done with a phase, then those that are not.
  function Line(n: nat, first: Thread, k: nat, done: Thread, todo: Thread): (threads: seq<Thread>)
    ensures |threads| == n
  {
    seq(n, t => if t == 0 then first else if t <= k then done else todo)
  }

  lemma NextInLine(n: nat, first: Thread, k: nat, done: Thread, todo: Thread)
    requires k + 1 < n
    ensures Line(n, first, k, done, todo)[k + 1] == todo
    ensures Line(n, first, k, done, todo)[k + 1 := done] == Line(n, first, k + 1, done, todo)
  {
  }

  // All are through: the phase's line is that of the next phase.
  lemma WholeLine(n: nat, first: Thread, done: Thread, todo: Thread, next: Thread)
    requires n >= 1
    ensures Line(n, first, n - 1, done, todo) == Line(n, first, 0, next, done)
  {
  }

  lemma FirstInLine(n: nat, first: Thread, k: nat, done: Thread, todo: Thread, first': Thread)
    requires n >= 1
    ensures Line(n, first, k, done, todo)[0] == first
    ensures Line(n, first, k, done, todo)[0 := first'] == Line(n, first', k, done, todo)
  {
  }

  function Paused(s: State): (int, int, int, int) {
    (s.cmds, s.numPaused, s.numDone, s.threadCountdown)
  }

  // Every thread but the first comes to epoll_wait and owes nothing.
  lemma ToEpoll(s: State, first: Thread) returns (s': State)
    requires Reached(s) && |s.threads| >= 1 && s.threads == Line(|s.threads|, first, 0, Thread(Epoll, 0), Thread(Top, 0))
    ensures Reached(s') && s'.threads == Line(|s.threads|, first, 0, Thread(Epoll, 0), Thread(Epoll, 0))
    ensures s'.outer == s.outer && s'.com == s.com && Paused(s') == Paused(s)
  {
    var n, k := |s.threads|, 0;
    s' := s;
    while k + 1 < n
      invariant k < n && Reached(s') && s'.threads == Line(n, first, k, Thread(Epoll, 0), Thread(Top, 0))
      invariant s'.outer == s.outer && s'.com == s.com && Paused(s') == Paused(s)
    {
      NextInLine(n, first, k, Thread(Epoll, 0), Thread(Top, 0));
      var next := s'.(threads := s'.threads[k + 1 := Thread(Epoll, 0)], rest := SeenBy(s'.rest, k + 1));
      assert PayDown(s', next, k + 1);
      ReachedNext(s', next, k + 1);
      s', k := next, k + 1;
    }
    WholeLine(n, first, Thread(Epoll, 0), Thread(Top, 0), Thread(Epoll, 0));
  }

  // Every thread but the first comes to the wait of the pause.
  lemma ToWait(s: State, first: Thread) returns (s': State)
    requires Reached(s) && |s.threads| >= 1 && s.threads == Line(|s.threads|, first, 0, Thread(PauseWait, 0), Thread(Epoll, 0))
    requires s.com.None? && s.cmds == |s.threads| - 1 && s.numPaused == 1
    ensures Reached(s') && s'.threads == Line(|s.threads|, first, 0, Thread(Top, 1), Thread(PauseWait, 0))
    ensures s'.outer == s.outer && s'.com.None? && s'.cmds == 0 && s'.numPaused == |s.threads| && s'.threadCountdown == s.threadCountdown
  {
    var n, k := |s.threads|, 0;
    s' := s;
    while k + 1 < n
      invariant k < n && Reached(s') && s'.threads == Line(n, first, k, Thread(PauseWait, 0), Thread(Epoll, 0))
      invariant s'.outer == s.outer && s'.com.None? && s'.threadCountdown == s.threadCountdown
      invariant s'.cmds == n - 1 - k && s'.numPaused == 1 + k
    {
      NextInLine(n, first, k, Thread(PauseWait, 0), Thread(Epoll, 0));
      var got := Set(s', k + 1, GotPause).(cmds := s'.cmds - 1);
      assert TakePause(s', got, k + 1);
      ReachedNext(s', got, k + 1);
      var next := Set(got, k + 1, PauseWait).(numPaused := got.numPaused + 1);
      assert EnterPause(got, next, k + 1);
      ReachedNext(got, next, k + 1);
      s', k := next, k + 1;
    }
    WholeLine(n, first, Thread(PauseWait, 0), Thread(Epoll, 0), Thread(Top, 1));
  }

  // Every thread but the first leaves it.
  lemma ToTop(s: State, first: Thread) returns (s': State)
    requires Reached(s) && |s.threads| >= 1 && s.threads == Line(|s.threads|, first, 0, Thread(Top, 1), Thread(PauseWait, 0))
    requires s.com.None? && s.numPaused == 0 && s.numDone == 1
    ensures Reached(s') && s'.threads == Line(|s.threads|, first, 0, Thread(Epoll, 0), Thread(Top, 1))
    ensures s'.outer == s.outer && s'.com.None? && s'.numDone == |s.threads| && s'.threadCountdown == s.threadCountdown && s'.rest == s.rest
  {
    var n, k := |s.threads|, 0;
    s' := s;
    while k + 1 < n
      invariant k < n && Reached(s') && s'.threads == Line(n, first, k, Thread(Top, 1), Thread(PauseWait, 0))
      invariant s'.outer == s.outer && s'.com.None? && s'.threadCountdown == s.threadCountdown && s'.rest == s.rest
      invariant s'.numPaused == 0 && s'.numDone == 1 + k
    {
      NextInLine(n, first, k, Thread(Top, 1), Thread(PauseWait, 0));
      var next := Owe(Set(s', k + 1, Top), k + 1).(numDone := s'.numDone + 1);
      assert LeavePause(s', next, k + 1);
      ReachedNext(s', next, k + 1);
      s', k := next, k + 1;
    }
    WholeLine(n, first, Thread(Top, 1), Thread(PauseWait, 0), Thread(Epoll, 0));
  }

  // Every thread but the first pays what it owes, which leaves what the first owes.
  lemma AllButOnePay(s: State, first: Thread) returns (s': State)
    requires Reached(s) && |s.threads| >= 1 && s.threads == Line(|s.threads|, first, 0, Thread(Epoll, 0), Thread(Top, 1))
    requires s.com.None? && s.threadCountdown == |s.threads|
    ensures Reached(s') && s'.threads == Line(|s.threads|, first, 0, Thread(Epoll, 0), Thread(Epoll, 0))
    ensures s'.com.None? && s'.threadCountdown == 1 && |s'.rest| == |s.rest|
  {
    var n, k := |s.threads|, 0;
    s' := s;
    while k + 1 < n
      invariant k < n && Reached(s') && s'.threads == Line(n, first, k, Thread(Epoll, 0), Thread(Top, 1))
      invariant s'.com.None? && s'.threadCountdown == n - k && |s'.rest| == |s.rest|
    {
      NextInLine(n, first, k, Thread(Epoll, 0), Thread(Top, 1));
      var left := s'.threadCountdown - 1;
      var next := s'.(threads := s'.threads[k + 1 := Thread(Epoll, 0)], threadCountdown := left, rest := SeenBy(s'.rest, k + 1));
      assert PayDown(s', next, k + 1);
      ReachedNext(s', next, k + 1);
      s', k := next, k + 1;
    }
    WholeLine(n, first, Thread(Epoll, 0), Thread(Top, 1), Thread(Epoll, 0));
  }

  // A step of the first thread.
  lemma FirstSteps(s: State, s': State, first: Thread, first': Thread, k: nat, done: Thread, todo: Thread)
    requires Reached(s) && |s.threads| >= 1 && s.threads == Line(|s.threads|, first, k, done, todo)
    requires s'.threads == s.threads[0 := first'] && Step(s, s', 0)
    ensures Reached(s') && s'.threads == Line(|s.threads|, first', k, done, todo)
  {
    ReachedNext(s, s', 0);
    FirstInLine(|s.threads|, first, k, done, todo, first');
  }

  lemma Started(n: nat) returns (s: State)
    requires n >= 1
    ensures Reached(s) && s.threads == Line(n, Thread(Epoll, 0), 0, Thread(PauseWait, 0), Thread(Epoll, 0))
    ensures s.outer.None? && s.com.None? && s.cmds == 0 && s.threadCountdown == 0
  {
    var top, ep := Thread(Top, 0), Thread(Epoll, 0);
    var s0 := State(Line(n, top, 0, ep, top), None, None, 0, 0, 0, 0, [], 0, []);
    assert Run([s0]) && [s0][|[s0]| - 1] == s0;
    FirstInLine(n, top, 0, ep, top, ep);
    var s1 := s0.(threads := s0.threads[0 := ep], rest := SeenBy(s0.rest, 0));
    assert PayDown(s0, s1, 0);
    FirstSteps(s0, s1, top, ep, 0, ep, top);
    s := ToEpoll(s1, ep);
    WholeLine(n, ep, ep, ep, Thread(PauseWait, 0));
    assert Line(n, ep, 0, ep, ep) == Line(n, ep, 0, Thread(PauseWait, 0), ep);
  }

  // The first thread pauses the others and runs an f that returns a function.
  lemma RanF(n: nat) returns (s: State)
    requires n >= 1
    ensures Reached(s) && s.threads == Line(n, Thread(WaitDone, 1), 0, Thread(Top, 1), Thread(PauseWait, 0))
    ensures s.outer == Some(0) && s.com.None? && s.numPaused == 0 && s.numDone == 1 && s.threadCountdown == n && |s.rest| >= 1
  {
    var ep, pw := Thread(Epoll, 0), Thread(PauseWait, 0);
    var s1 := Started(n);
    FirstInLine(n, ep, 0, pw, ep, Thread(Busy, 0));
    FirstSteps(s1, Set(s1, 0, Busy), ep, Thread(Busy, 0), 0, pw, ep);
    var s2 := Set(s1, 0, Busy);
    FirstInLine(n, Thread(Busy, 0), 0, pw, ep, Thread(WantCom, 0));
    var s3 := Set(s2, 0, WantCom).(outer := Some(0));
    assert TryPause(s2, s3, 0);
    FirstSteps(s2, s3, Thread(Busy, 0), Thread(WantCom, 0), 0, pw, ep);
    FirstInLine(n, Thread(WantCom, 0), 0, pw, ep, Thread(WaitAll, 0));
    var s4 := Set(s3, 0, WaitAll).(numPaused := 1, cmds := s3.cmds + n - 1);
    assert BeginPause(s3, s4, 0);
    FirstSteps(s3, s4, Thread(WantCom, 0), Thread(WaitAll, 0), 0, pw, ep);
    var s5 := ToWait(s4, Thread(WaitAll, 0));
    s := RunsF(s5, n);
  }

  lemma RunsF(s: State, n: nat) returns (s': State)
    requires n >= 1 && Reached(s) && s.threads == Line(n, Thread(WaitAll, 0), 0, Thread(Top, 1), Thread(PauseWait, 0))
    requires s.outer == Some(0) && s.com.None? && s.numPaused == n && s.threadCountdown == 0
    ensures Reached(s') && s'.threads == Line(n, Thread(WaitDone, 1), 0, Thread(Top, 1), Thread(PauseWait, 0))
    ensures s'.outer == Some(0) && s'.com.None? && s'.numPaused == 0 && s'.numDone == 1 && s'.threadCountdown == n && |s'.rest| >= 1
  {
    var top, pw := Thread(Top, 1), Thread(PauseWait, 0);
    FirstInLine(n, Thread(WaitAll, 0), 0, top, pw, Thread(RunF, 0));
    var s1 := Set(s, 0, RunF).(com := Some(0));
    assert BeginF(s, s1, 0);
    FirstSteps(s, s1, Thread(WaitAll, 0), Thread(RunF, 0), 0, top, pw);
    FirstInLine(n, Thread(RunF, 0), 0, top, pw, Thread(WaitDone, 1));
    s' := Owe(Set(s1, 0, WaitDone), 0).(com := None, numPaused := 0, numDone := 1, threadCountdown := s1.threadCountdown + n,
            rest := [AtRest(s1.added, {})] + s1.rest, added := s1.added + 1);
    assert EndF(s1, s', 0, true);
    FirstSteps(s1, s', Thread(RunF, 0), Thread(WaitDone, 1), 0, top, pw);
  }

  // The pause ends, and all threads but the first are at rest.
  lemma OneLeft(n: nat) returns (s: State)
    requires n >= 1
    ensures Reached(s) && s.threads == Line(n, Thread(Top, 1), 0, Thread(Epoll, 0), Thread(Epoll, 0))
    ensures s.com.None? && s.threadCountdown == 1 && |s.rest| >= 1
  {
    var ep, top := Thread(Epoll, 0), Thread(Top, 1);
    var s1 := RanF(n);
    var s2 := ToTop(s1, Thread(WaitDone, 1));
    FirstInLine(n, Thread(WaitDone, 1), 0, ep, top, Thread(Busy, 1));
    var s3 := Set(s2, 0, Busy).(outer := None);
    assert EndPause(s2, s3, 0);
    FirstSteps(s2, s3, Thread(WaitDone, 1), Thread(Busy, 1), 0, ep, top);
    FirstInLine(n, Thread(Busy, 1), 0, ep, top, top);
    var s4 := Set(s3, 0, Top);
    assert FinishEvent(s3, s4, 0);
    FirstSteps(s3, s4, Thread(Busy, 1), top, 0, ep, top);
    s := AllButOnePay(s4, top);
  }

  /** With more than one io thread there is a run in which one thread runs an at-rest function while
      another handles an event. */
  lemma NotAlone(n: nat) returns (s: State)
    requires n >= 2
    ensures Reached(s) && |s.threads| == n && Is(s, 0, RunRest) && Is(s, 1, Busy) && s.rest != []
  {
    var s1 := OneLeft(n);
    var s2 := Set(s1, 1, Busy);
    assert TakeEvent(s1, s2, 1);
    ReachedNext(s1, s2, 1);
    var s3 := s2.(threads := s2.threads[0 := Thread(WantRest, 0)], threadCountdown := 0, rest := SeenBy(s2.rest, 0));
    assert PayDown(s2, s3, 0);
    ReachedNext(s2, s3, 0);
    s := Set(s3, 0, RunRest).(com := Some(0));
    assert BeginRest(s3, s, 0);
    ReachedNext(s3, s, 0);
  }

  // While a thread runs the at-rest functions no other handles an event.
  predicate Alone(s: State) {
    forall t: Tid, u: Tid | t < |s.threads| && u < |s.threads| && Is(s, t, RunRest) :: !Is(s, u, Busy)
  }

  /** At-rest functions run alone, in every run, if and only if there is one io thread. */
  lemma AloneIfOneThread(n: nat)
    ensures (forall s | Reached(s) && |s.threads| == n :: Alone(s)) <==> n <= 1
  {
    if n >= 2 {
      var s := NotAlone(n);
      assert !Alone(s);
    }
  }
}
