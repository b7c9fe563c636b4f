/** io_dispatch::while_paused2 and the at-rest functions: any number of io threads, any number
    of pauses, one after the other or contended.  A critical section of pause_com_mutex_ is one
    step, except for the two that run foreign code, f and the at-rest functions: those hold the
    mutex from one step to a later one. */
module PauseProtocol {
  import opened Wrappers

  type Tid = nat

  datatype Mode =
    | Top        // about to look at countdown_ at the top of epoll_loop
    | Epoll      // in epoll_wait
    | Busy       // inside a handler
    | GotPause   // has read a k_pause byte, not yet counted as paused
    | PauseWait  // counted, waits for num_paused_threads_ to become 0
    | WantCom    // inside while_paused2 with pause_outer_mutex_, wants pause_com_mutex_
    | WaitAll    // waits for every other thread to pause
    | RunF       // runs f
    | WaitDone   // waits for every other thread to leave its wait
    | WantRest   // brought thread_countdown_ to 0, wants pause_com_mutex_
    | RunRest    // runs the at-rest functions

  // countdown: the thread's tls_iod_params.countdown_
  datatype Thread = Thread(mode: Mode, countdown: nat)

  // seen: the threads that have been at the top of epoll_loop since the function was added
  datatype AtRest = AtRest(id: nat, seen: set<Tid>)

  datatype State = State(
    threads: seq<Thread>,
    outer: Option<Tid>,       // pause_outer_mutex_
    com: Option<Tid>,         // pause_com_mutex_ across f and the at-rest functions
    cmds: nat,                // k_pause bytes in the control pipe
    numPaused: int,
    numDone: int,
    threadCountdown: int,
    rest: seq<AtRest>,        // at_rest_functions_
    added: nat,               // how many were ever added
    ran: seq<nat>)            // those that have run, in order

  predicate Is(s: State, t: Tid, mode: Mode) {
    t < |s.threads| && s.threads[t].mode == mode
  }

  function Set(s: State, t: Tid, mode: Mode): State
    requires t < |s.threads|
  {
    s.(threads := s.threads[t := s.threads[t].(mode := mode)])
  }

  function Owe(s: State, t: Tid): State
    requires t < |s.threads|
  {
    s.(threads := s.threads[t := s.threads[t].(countdown := s.threads[t].countdown + 1)])
  }

  function SeenBy(rest: seq<AtRest>, t: Tid): (seen: seq<AtRest>)
    ensures |seen| == |rest|
  {
    seq(|rest|, i requires 0 <= i < |rest| => rest[i].(seen := rest[i].seen + {t}))
  }

  function Ids(rest: seq<AtRest>): (ids: seq<nat>)
    ensures |ids| == |rest|
  {
    seq(|rest|, i requires 0 <= i < |rest| => rest[i].id)
  }

  // --- the steps of thread t ---

  ghost predicate TakeEvent(s: State, s': State, t: Tid) {
    Is(s, t, Epoll) && s' == Set(s, t, Busy)
  }

  ghost predicate FinishEvent(s: State, s': State, t: Tid) {
    Is(s, t, Busy) && s' == Set(s, t, Top)
  }

  ghost predicate TakePause(s: State, s': State, t: Tid) {
    Is(s, t, Epoll) && s.cmds > 0 && s' == Set(s, t, GotPause).(cmds := s.cmds - 1)
  }

  ghost predicate EnterPause(s: State, s': State, t: Tid) {
    Is(s, t, GotPause) && s.com.None? && s' == Set(s, t, PauseWait).(numPaused := s.numPaused + 1)
  }

  ghost predicate LeavePause(s: State, s': State, t: Tid) {
    && Is(s, t, PauseWait) && s.com.None? && s.numPaused == 0
    && s' == Owe(Set(s, t, Top), t).(numDone := s.numDone + 1)
  }

  // try_to_lock; when it fails while_paused2 returns false and nothing has changed
  ghost predicate TryPause(s: State, s': State, t: Tid) {
    Is(s, t, Busy) && s' == if s.outer.None? then Set(s, t, WantCom).(outer := Some(t)) else s
  }

  ghost predicate BeginPause(s: State, s': State, t: Tid) {
    && Is(s, t, WantCom) && s.com.None?
    && s' == Set(s, t, WaitAll).(numPaused := 1, cmds := s.cmds + |s.threads| - 1)
  }

  ghost predicate BeginF(s: State, s': State, t: Tid) {
    && Is(s, t, WaitAll) && s.com.None? && s.numPaused == |s.threads|
    && s' == Set(s, t, RunF).(com := Some(t))
  }

  // f has returned an at-rest function, or has thrown
  ghost predicate EndF(s: State, s': State, t: Tid, returned: bool) {
    && Is(s, t, RunF)
    && s' == Owe(Set(s, t, WaitDone), t).(
               com := None, numPaused := 0, numDone := 1, threadCountdown := s.threadCountdown + |s.threads|,
               rest := if returned then [AtRest(s.added, {})] + s.rest else s.rest,
               added := if returned then s.added + 1 else s.added)
  }

  ghost predicate EndPause(s: State, s': State, t: Tid) {
    && Is(s, t, WaitDone) && s.com.None? && s.numDone == |s.threads|
    && s' == Set(s, t, Busy).(outer := None)
  }

  ghost predicate PayDown(s: State, s': State, t: Tid) {
    && Is(s, t, Top)
    && var left := s.threadCountdown - s.threads[t].countdown;
       s' == s.(threads := s.threads[t := Thread(if s.threads[t].countdown > 0 && left == 0 then WantRest else Epoll, 0)],
                threadCountdown := left, rest := SeenBy(s.rest, t))
  }

  ghost predicate BeginRest(s: State, s': State, t: Tid) {
    Is(s, t, WantRest) && s.com.None? && s' == Set(s, t, RunRest).(com := Some(t))
  }

  ghost predicate EndRest(s: State, s': State, t: Tid) {
    Is(s, t, RunRest) && s' == Set(s, t, Epoll).(com := None, rest := [], ran := s.ran + Ids(s.rest))
  }

  ghost predicate Step(s: State, s': State, t: Tid) {
    || TakeEvent(s, s', t) || FinishEvent(s, s', t)
    || TakePause(s, s', t) || EnterPause(s, s', t) || LeavePause(s, s', t)
    || TryPause(s, s', t) || BeginPause(s, s', t) || BeginF(s, s', t) || EndF(s, s', t, true) || EndF(s, s', t, false)
    || EndPause(s, s', t)
    || PayDown(s, s', t) || BeginRest(s, s', t) || EndRest(s, s', t)
  }

  ghost predicate Init(s: State) {
    && (forall t | 0 <= t < |s.threads| :: s.threads[t] == Thread(Top, 0))
    && s.outer.None? && s.com.None? && s.cmds == 0 && s.threadCountdown == 0
    && s.rest == [] && s.added == 0 && s.ran == []
  }

  ghost predicate Advances(s: State, s': State) {
    exists t :: Step(s, s', t)
  }

  ghost predicate Run(run: seq<State>) {
    run != [] && Init(run[0]) && forall i | 0 < i < |run| :: Advances(run[i - 1], run[i])
  }

  // --- counting threads ---

  datatype What = Unpaid | Waiting | Counted

  function Weight(th: Thread, w: What): nat {
    match w
    case Unpaid => th.countdown
    case Waiting => if th.mode == PauseWait then 1 else 0
    case Counted => if th.mode == GotPause then 1 else 0
  }

  function Total(threads: seq<Thread>, w: What): nat {
    if threads == [] then 0 else Weight(threads[0], w) + Total(threads[1..], w)
  }

  lemma {:induction false} TotalUpdate(threads: seq<Thread>, t: nat, th: Thread, w: What)
    requires t < |threads|
    ensures Total(threads[t := th], w) == Total(threads, w) - Weight(threads[t], w) + Weight(th, w)
  {
    if t == 0 {
      assert threads[t := th][1..] == threads[1..];
    } else {
      assert threads[t := th][1..] == threads[1..][t - 1 := th];
      TotalUpdate(threads[1..], t - 1, th, w);
    }
  }

  lemma {:induction false} InTotal(threads: seq<Thread>, t: nat, w: What)
    requires t < |threads|
    ensures Weight(threads[t], w) <= Total(threads, w)
  {
    if t > 0 {
      InTotal(threads[1..], t - 1, w);
    }
  }

  lemma {:induction false} TotalBound(threads: seq<Thread>, w: What)
    requires w != Unpaid
    ensures Total(threads, w) <= |threads|
  {
    if threads != [] {
      TotalBound(threads[1..], w);
    }
  }

  // If all threads but one are waiting, then it is every other thread that waits.
  lemma AllOthersWait(threads: seq<Thread>, t: Tid, u: Tid)
    requires t < |threads| && u < |threads| && t != u && threads[t].mode != PauseWait
    requires Total(threads, Waiting) == |threads| - 1
    ensures threads[u].mode == PauseWait
  {
    var waiting := Thread(PauseWait, 0);
    TotalUpdate(threads, t, waiting, Waiting);
    TotalUpdate(threads[t := waiting], u, waiting, Waiting);
    TotalBound(threads[t := waiting][u := waiting], Waiting);
  }

  // Conversely, if too few wait then some other thread does not.
  lemma {:induction false} SomeoneElse(threads: seq<Thread>, t: Tid) returns (u: Tid)
    requires t < |threads| && threads[t].mode != PauseWait && Total(threads, Waiting) < |threads| - 1
    ensures u < |threads| && u != t && threads[u].mode != PauseWait
  {
    if forall u | 0 <= u < |threads| && u != t :: threads[u].mode == PauseWait {
      AllWaiting(threads[t := Thread(PauseWait, 0)]);
      TotalUpdate(threads, t, Thread(PauseWait, 0), Waiting);
      assert false;
    }
    u :| 0 <= u < |threads| && u != t && threads[u].mode != PauseWait;
  }

  lemma {:induction false} AllWaiting(threads: seq<Thread>)
    requires forall u | 0 <= u < |threads| :: threads[u].mode == PauseWait
    ensures Total(threads, Waiting) == |threads|
  {
    if threads != [] {
      AllWaiting(threads[1..]);
    }
  }

  lemma {:induction false} FindOne(threads: seq<Thread>, w: What) returns (u: Tid)
    requires Total(threads, w) > 0
    ensures u < |threads| && Weight(threads[u], w) > 0
  {
    if Weight(threads[0], w) > 0 {
      u := 0;
    } else {
      u := FindOne(threads[1..], w);
      u := u + 1;
    }
  }

  lemma {:induction false} InitialTotals(threads: seq<Thread>, w: What)
    requires forall t | 0 <= t < |threads| :: threads[t] == Thread(Top, 0)
    ensures Total(threads, w) == 0
  {
    if threads != [] {
      InitialTotals(threads[1..], w);
    }
  }

  // --- the invariant ---

  predicate Pausing(mode: Mode) {
    mode == WantCom || mode == WaitAll || mode == RunF || mode == WaitDone
  }

  predicate Resting(mode: Mode) {
    mode == WantRest || mode == RunRest
  }

  ghost predicate LocksOk(s: State) {
    && (forall t | 0 <= t < |s.threads| :: Pausing(s.threads[t].mode) <==> s.outer == Some(t))
    && (forall t | 0 <= t < |s.threads| :: s.threads[t].mode == RunF || s.threads[t].mode == RunRest <==> s.com == Some(t))
    && (s.outer.Some? ==> s.outer.value < |s.threads|)
    && (s.com.Some? ==> s.com.value < |s.threads|)
  }

  // How the counters go with the phase of the current pause.
  ghost predicate PhaseOk(s: State) {
    var waiting, got := Total(s.threads, Waiting), Total(s.threads, Counted);
    var phase := if s.outer.Some? && s.outer.value < |s.threads| then s.threads[s.outer.value].mode else Top;
    match phase
    case WaitAll => s.numPaused == 1 + waiting && s.cmds + got + s.numPaused == |s.threads|
    case RunF => s.numPaused == |s.threads| == 1 + waiting && s.cmds == 0 && got == 0
    case WaitDone => s.numPaused == 0 && s.cmds == 0 && got == 0 && s.numDone + waiting == |s.threads|
    case _ => s.cmds == 0 && got == 0 && waiting == 0
  }

  // The threads that have still to leave the wait of the current pause.
  ghost function Unresumed(s: State): nat {
    if s.outer.Some? && Is(s, s.outer.value, WaitDone) then Total(s.threads, Waiting) else 0
  }

  ghost predicate CountdownOk(s: State) {
    && s.threadCountdown == Total(s.threads, Unpaid) + Unresumed(s)
    && (forall t | 0 <= t < |s.threads| && Resting(s.threads[t].mode) :: s.threadCountdown == 0)
  }

  // A thread that has not been at the top since e was added still has that visit to come, and
  // thread_countdown_ knows.
  ghost predicate Accounted(s: State, e: AtRest, t: Tid) {
    t < |s.threads| ==>
      || t in e.seen || s.threads[t].countdown > 0
      || (s.threads[t].mode == PauseWait && s.outer.Some? && Is(s, s.outer.value, WaitDone))
  }

  ghost predicate RestOk(s: State) {
    forall i, t | 0 <= i < |s.rest| :: Accounted(s, s.rest[i], t)
  }

  // Someone is on the way to run what is left to run.
  ghost predicate PendingOk(s: State) {
    s.rest != [] && s.threadCountdown == 0 ==> exists t :: 0 <= t < |s.threads| && Resting(s.threads[t].mode)
  }

  // Every function added is either still to run or has run, once.
  ghost predicate OnceOk(s: State) {
    && Distinct(s.ran) && Distinct(Ids(s.rest))
    && (forall id | id in s.ran :: id !in Ids(s.rest))
    && (forall id: nat :: id < s.added <==> id in s.ran || id in Ids(s.rest))
  }

  ghost predicate Inv(s: State) {
    LocksOk(s) && PhaseOk(s) && CountdownOk(s) && RestOk(s) && PendingOk(s) && OnceOk(s)
  }

  // --- every step keeps the invariant ---

  // What changing one thread does to the three totals.
  lemma Totals(s: State, s': State, t: Tid)
    requires t < |s.threads| && |s'.threads| == |s.threads| && s'.threads == s.threads[t := s'.threads[t]]
    ensures Total(s'.threads, Unpaid) == Total(s.threads, Unpaid) - s.threads[t].countdown + s'.threads[t].countdown
    ensures Total(s'.threads, Waiting) == Total(s.threads, Waiting) - Weight(s.threads[t], Waiting) + Weight(s'.threads[t], Waiting)
    ensures Total(s'.threads, Counted) == Total(s.threads, Counted) - Weight(s.threads[t], Counted) + Weight(s'.threads[t], Counted)
    ensures s.threads[t].countdown <= Total(s.threads, Unpaid)
    ensures Weight(s.threads[t], Waiting) <= Total(s.threads, Waiting)
    ensures Weight(s.threads[t], Counted) <= Total(s.threads, Counted)
  {
    forall w
      ensures Total(s'.threads, w) == Total(s.threads, w) - Weight(s.threads[t], w) + Weight(s'.threads[t], w)
      ensures Weight(s.threads[t], w) <= Total(s.threads, w)
    {
      TotalUpdate(s.threads, t, s'.threads[t], w);
      InTotal(s.threads, t, w);
    }
  }

  lemma EventKeepsPhase(s: State, s': State, t: Tid)
    requires LocksOk(s) && PhaseOk(s)
    requires TakeEvent(s, s', t) || FinishEvent(s, s', t)
    ensures LocksOk(s') && PhaseOk(s')
  {
    assert s'.threads == s.threads[t := s'.threads[t]];
    Totals(s, s', t);
  }

  lemma EventKeepsCountdown(s: State, s': State, t: Tid)
    requires LocksOk(s) && PhaseOk(s) && CountdownOk(s)
    requires TakeEvent(s, s', t) || FinishEvent(s, s', t)
    ensures CountdownOk(s')
  {
    assert s'.threads == s.threads[t := s'.threads[t]];
    Totals(s, s', t);
  }

  lemma EnterKeepsControl(s: State, s': State, t: Tid)
    requires LocksOk(s) && PhaseOk(s) && CountdownOk(s)
    requires TakePause(s, s', t) || EnterPause(s, s', t)
    ensures LocksOk(s') && PhaseOk(s') && CountdownOk(s')
  {
    assert s'.threads == s.threads[t := s'.threads[t]];
    Totals(s, s', t);
  }

  lemma LeaveKeepsControl(s: State, s': State, t: Tid)
    requires LocksOk(s) && PhaseOk(s) && CountdownOk(s)
    requires LeavePause(s, s', t)
    ensures LocksOk(s') && PhaseOk(s') && CountdownOk(s')
  {
    assert s'.threads == s.threads[t := s'.threads[t]];
    Totals(s, s', t);
  }

  lemma TryKeepsControl(s: State, s': State, t: Tid)
    requires LocksOk(s) && PhaseOk(s) && CountdownOk(s)
    requires TryPause(s, s', t) || BeginRest(s, s', t)
    ensures LocksOk(s') && PhaseOk(s') && CountdownOk(s')
  {
    assert s'.threads == s.threads[t := s'.threads[t]];
    Totals(s, s', t);
  }

  lemma PauseKeepsControl(s: State, s': State, t: Tid)
    requires LocksOk(s) && PhaseOk(s) && CountdownOk(s)
    requires BeginPause(s, s', t) || BeginF(s, s', t) || EndPause(s, s', t)
    ensures LocksOk(s') && PhaseOk(s') && CountdownOk(s')
  {
    assert s'.threads == s.threads[t := s'.threads[t]];
    Totals(s, s', t);
  }

  lemma EndFKeepsPhase(s: State, s': State, t: Tid, returned: bool)
    requires LocksOk(s) && PhaseOk(s)
    requires EndF(s, s', t, returned)
    ensures LocksOk(s') && PhaseOk(s')
  {
    assert s'.threads == s.threads[t := s'.threads[t]];
    Totals(s, s', t);
  }

  lemma EndFKeepsCountdown(s: State, s': State, t: Tid, returned: bool)
    requires LocksOk(s) && PhaseOk(s) && CountdownOk(s)
    requires EndF(s, s', t, returned)
    ensures CountdownOk(s')
  {
    assert s'.threads == s.threads[t := s'.threads[t]];
    Totals(s, s', t);
    forall u: Tid | u < |s.threads| && u != t
      ensures !Resting(s'.threads[u].mode)
    {
      AllOthersWait(s.threads, t, u);
    }
  }

  lemma PayDownKeepsControl(s: State, s': State, t: Tid)
    requires LocksOk(s) && PhaseOk(s) && CountdownOk(s)
    requires PayDown(s, s', t)
    ensures LocksOk(s') && PhaseOk(s') && CountdownOk(s')
  {
    assert s'.threads == s.threads[t := s'.threads[t]];
    Totals(s, s', t);
  }

  lemma EndRestKeepsControl(s: State, s': State, t: Tid)
    requires LocksOk(s) && PhaseOk(s) && CountdownOk(s)
    requires EndRest(s, s', t)
    ensures LocksOk(s') && PhaseOk(s') && CountdownOk(s')
  {
    assert s'.threads == s.threads[t := s'.threads[t]];
    Totals(s, s', t);
  }

  // If t leaves the countdown alone and has no part in running the functions, who was on the way
  // still is.
  lemma StillPending(s: State, s': State, t: Tid)
    requires t < |s.threads| == |s'.threads| && s'.threads == s.threads[t := s'.threads[t]]
    requires PendingOk(s) && s'.threadCountdown == s.threadCountdown && |s'.rest| == |s.rest|
    requires Resting(s.threads[t].mode) ==> Resting(s'.threads[t].mode)
    ensures PendingOk(s')
  {
    if s'.rest != [] && s'.threadCountdown == 0 {
      var u :| 0 <= u < |s.threads| && Resting(s.threads[u].mode);
      assert Resting(s'.threads[u].mode);
    }
  }

  lemma NewIdOk(s: State, s': State)
    requires OnceOk(s) && s'.ran == s.ran && s'.added == s.added + 1 && s'.rest == [AtRest(s.added, {})] + s.rest
    ensures OnceOk(s')
  {
    var ids, ids' := Ids(s.rest), Ids(s'.rest);
    assert ids' == [s.added] + ids;
    assert forall id :: id in ids' <==> id == s.added || id in ids;
    forall i, j | 0 <= i < j < |ids'|
      ensures ids'[i] != ids'[j]
    {
      assert ids'[j] == ids[j - 1] && ids[j - 1] in ids;
      if i > 0 {
        assert ids'[i] == ids[i - 1];
      }
    }
  }

  lemma AllRanOk(s: State, s': State)
    requires OnceOk(s) && s'.ran == s.ran + Ids(s.rest) && s'.added == s.added && s'.rest == []
    ensures OnceOk(s')
  {
    var ids := Ids(s.rest);
    assert Ids(s'.rest) == [];
    assert forall id :: id in s'.ran <==> id in s.ran || id in ids;
    forall i, j | 0 <= i < j < |s'.ran|
      ensures s'.ran[i] != s'.ran[j]
    {
      if i < |s.ran| <= j {
        assert s'.ran[i] in s.ran && s'.ran[j] == ids[j - |s.ran|] && ids[j - |s.ran|] in ids;
      }
    }
  }

  lemma EventKeepsRest(s: State, s': State, t: Tid)
    requires Inv(s)
    requires TakeEvent(s, s', t) || FinishEvent(s, s', t)
    ensures RestOk(s') && PendingOk(s') && OnceOk(s')
  {
    StillPending(s, s', t);
    forall i, u: Tid | 0 <= i < |s'.rest|
      ensures Accounted(s', s'.rest[i], u)
    {
      assert Accounted(s, s.rest[i], u);
    }
  }

  lemma EnterKeepsRest(s: State, s': State, t: Tid)
    requires Inv(s)
    requires TakePause(s, s', t) || EnterPause(s, s', t)
    ensures RestOk(s') && PendingOk(s') && OnceOk(s')
  {
    StillPending(s, s', t);
    forall i, u: Tid | 0 <= i < |s'.rest|
      ensures Accounted(s', s'.rest[i], u)
    {
      assert Accounted(s, s.rest[i], u);
    }
  }

  lemma LeaveKeepsRest(s: State, s': State, t: Tid)
    requires Inv(s)
    requires LeavePause(s, s', t)
    ensures RestOk(s') && PendingOk(s') && OnceOk(s')
  {
    InTotal(s.threads, t, Waiting);
    forall i, u: Tid | 0 <= i < |s'.rest|
      ensures Accounted(s', s'.rest[i], u)
    {
      assert Accounted(s, s.rest[i], u);
    }
  }

  lemma TryKeepsRest(s: State, s': State, t: Tid)
    requires Inv(s)
    requires TryPause(s, s', t) || BeginRest(s, s', t)
    ensures RestOk(s') && PendingOk(s') && OnceOk(s')
  {
    StillPending(s, s', t);
    forall i, u: Tid | 0 <= i < |s'.rest|
      ensures Accounted(s', s'.rest[i], u)
    {
      assert Accounted(s, s.rest[i], u);
    }
  }

  lemma PauseKeepsRest(s: State, s': State, t: Tid)
    requires Inv(s)
    requires BeginPause(s, s', t) || BeginF(s, s', t) || EndPause(s, s', t)
    ensures RestOk(s') && PendingOk(s') && OnceOk(s')
  {
    StillPending(s, s', t);
    forall i, u: Tid | 0 <= i < |s'.rest|
      ensures Accounted(s', s'.rest[i], u)
    {
      assert Accounted(s, s.rest[i], u);
      if u < |s.threads| {
        InTotal(s.threads, u, Waiting);
      }
    }
  }

  lemma EndFKeepsRest(s: State, s': State, t: Tid, returned: bool)
    requires Inv(s)
    requires EndF(s, s', t, returned)
    ensures RestOk(s') && PendingOk(s') && OnceOk(s')
  {
    forall i, u: Tid | 0 <= i < |s'.rest|
      ensures Accounted(s', s'.rest[i], u)
    {
      if returned && i == 0 {
        if u < |s.threads| && u != t {
          AllOthersWait(s.threads, t, u);
        }
      } else {
        assert Accounted(s, s.rest[if returned then i - 1 else i], u);
      }
    }
    if returned {
      NewIdOk(s, s');
    }
  }

  lemma PayDownKeepsRest(s: State, s': State, t: Tid)
    requires Inv(s)
    requires PayDown(s, s', t)
    ensures RestOk(s') && PendingOk(s') && OnceOk(s')
  {
    if s.threads[t].countdown > 0 {
      assert s'.threadCountdown == 0 ==> Resting(s'.threads[t].mode);
    } else {
      StillPending(s, s', t);
    }
    assert Ids(s'.rest) == Ids(s.rest);
    forall i, u: Tid | 0 <= i < |s'.rest|
      ensures Accounted(s', s'.rest[i], u)
    {
      assert Accounted(s, s.rest[i], u);
    }
  }

  lemma EndRestKeepsRest(s: State, s': State, t: Tid)
    requires Inv(s)
    requires EndRest(s, s', t)
    ensures RestOk(s') && PendingOk(s') && OnceOk(s')
  {
    AllRanOk(s, s');
  }

  lemma StepPreserves(s: State, s': State, t: Tid)
    requires Inv(s) && Step(s, s', t)
    ensures Inv(s')
  {
    if TakeEvent(s, s', t) || FinishEvent(s, s', t) {
      EventKeepsPhase(s, s', t);
      EventKeepsCountdown(s, s', t);
      EventKeepsRest(s, s', t);
    } else if TakePause(s, s', t) || EnterPause(s, s', t) {
      EnterKeepsControl(s, s', t);
      EnterKeepsRest(s, s', t);
    } else if LeavePause(s, s', t) {
      LeaveKeepsControl(s, s', t);
      LeaveKeepsRest(s, s', t);
    } else if TryPause(s, s', t) || BeginRest(s, s', t) {
      TryKeepsControl(s, s', t);
      TryKeepsRest(s, s', t);
    } else if BeginPause(s, s', t) || BeginF(s, s', t) || EndPause(s, s', t) {
      PauseKeepsControl(s, s', t);
      PauseKeepsRest(s, s', t);
    } else if PayDown(s, s', t) {
      PayDownKeepsControl(s, s', t);
      PayDownKeepsRest(s, s', t);
    } else if EndRest(s, s', t) {
      EndRestKeepsControl(s, s', t);
      EndRestKeepsRest(s, s', t);
    } else {
      var returned := EndF(s, s', t, true);
      EndFKeepsPhase(s, s', t, returned);
      EndFKeepsCountdown(s, s', t, returned);
      EndFKeepsRest(s, s', t, returned);
    }
  }

  lemma InitHolds(s: State)
    requires Init(s)
    ensures Inv(s)
  {
    InitialTotals(s.threads, Unpaid);
    InitialTotals(s.threads, Waiting);
    InitialTotals(s.threads, Counted);
    assert Ids(s.rest) == [];
  }

  // --- what holds in every reachable state ---

  lemma AdvancePreserves(s: State, s': State)
    requires Inv(s) && Advances(s, s')
    ensures Inv(s')
  {
    var t :| Step(s, s', t);
    StepPreserves(s, s', t);
  }

  lemma FirstSafe(run: seq<State>)
    requires Run(run)
    ensures Inv(run[0])
  {
    InitHolds(run[0]);
  }

  lemma NextSafe(run: seq<State>, i: nat)
    requires Run(run) && 0 < i < |run| && Inv(run[i - 1])
    ensures Inv(run[i])
  {
    AdvancePreserves(run[i - 1], run[i]);
  }

  lemma {:induction false} RunSafe(run: seq<State>, i: nat)
    requires Run(run) && i < |run|
    ensures Inv(run[i])
  {
    if i == 0 {
      FirstSafe(run);
    } else {
      RunSafe(run, i - 1);
      NextSafe(run, i);
    }
  }

  /** While one thread runs f, every other io thread is blocked in the k_pause wait. */
  lemma FRunsAlone(run: seq<State>, i: nat, t: Tid, u: Tid)
    requires Run(run) && i < |run|
    requires Is(run[i], t, RunF) && u < |run[i].threads| && u != t
    ensures Is(run[i], u, PauseWait) && run[i].outer == Some(t) && run[i].com == Some(t)
  {
    RunSafe(run, i);
    AllOthersWait(run[i].threads, t, u);
  }

  /** When a thread that holds pause_outer_mutex_ is about to start a pause, no k_pause byte is
      in the pipe and no thread is in, or on its way into, the wait of an earlier one. */
  lemma NothingLeftOver(run: seq<State>, i: nat, t: Tid, u: Tid)
    requires Run(run) && i < |run|
    requires Is(run[i], t, WantCom) && u < |run[i].threads|
    ensures run[i].cmds == 0
    ensures run[i].threads[u].mode != PauseWait && run[i].threads[u].mode != GotPause
  {
    RunSafe(run, i);
    InTotal(run[i].threads, u, Waiting);
    InTotal(run[i].threads, u, Counted);
  }

  /** thread_countdown_ is what the threads still owe, and one for each thread that has not left
      the wait of the pause whose f has run. */
  lemma CountdownExact(run: seq<State>, i: nat)
    requires Run(run) && i < |run|
    ensures run[i].threadCountdown == Total(run[i].threads, Unpaid) + Unresumed(run[i])
    ensures run[i].threadCountdown >= 0
  {
    RunSafe(run, i);
  }

  /** When the at-rest functions run, one thread runs them, and every io thread has been at the
      top of epoll_loop since each of them was added. */
  lemma AtRestAfterAll(run: seq<State>, i: nat, t: Tid, k: nat, u: Tid)
    requires Run(run) && i < |run|
    requires Is(run[i], t, RunRest) && k < |run[i].rest| && u < |run[i].threads|
    ensures u in run[i].rest[k].seen
    ensures Is(run[i], u, RunRest) <==> u == t
  {
    var s := run[i];
    RunSafe(run, i);
    assert Resting(s.threads[t].mode);
    InTotal(s.threads, u, Unpaid);
    InTotal(s.threads, u, Waiting);
    assert Accounted(s, s.rest[k], u);
  }

  /** Each at-rest function that was ever added has run once, or is waiting to run; and if none
      of the countdown is left then a thread is about to run those that wait. */
  lemma AtRestOnce(run: seq<State>, i: nat, id: nat)
    requires Run(run) && i < |run|
    ensures id < run[i].added <==> (id in run[i].ran || id in Ids(run[i].rest))
    ensures multiset(run[i].ran + Ids(run[i].rest))[id] <= 1
    ensures run[i].rest != [] && run[i].threadCountdown == 0 ==>
              exists t :: 0 <= t < |run[i].threads| && Resting(run[i].threads[t].mode)
  {
    RunSafe(run, i);
    var ids := run[i].ran + Ids(run[i].rest);
    AllRanOk(run[i], run[i].(ran := ids, rest := []));
    Multiplicity(ids, id);
  }

  lemma {:induction false} Multiplicity(ids: seq<nat>, id: nat)
    requires Distinct(ids)
    ensures multiset(ids)[id] <= 1
  {
    if ids != [] {
      assert ids == ids[..|ids| - 1] + [ids[|ids| - 1]];
      assert Distinct(ids[..|ids| - 1]);
      Multiplicity(ids[..|ids| - 1], id);
      if ids[|ids| - 1] == id {
        assert id !in ids[..|ids| - 1];
      }
    }
  }

  // The functions that wait, the last one added first.
  ghost predicate NewestFirst(s: State) {
    && (forall i, j | 0 <= i < j < |s.rest| :: s.rest[i].id > s.rest[j].id)
    && (forall i | 0 <= i < |s.rest| :: s.rest[i].id < s.added)
  }

  lemma StepKeepsNewestFirst(s: State, s': State, t: Tid)
    requires NewestFirst(s) && Step(s, s', t)
    ensures NewestFirst(s')
  {
  }

  lemma {:induction false} WaitNewestFirst(run: seq<State>, i: nat)
    requires Run(run) && i < |run|
    ensures NewestFirst(run[i])
  {
    if i > 0 {
      WaitNewestFirst(run, i - 1);
      assert Advances(run[i - 1], run[i]);
      var t :| Step(run[i - 1], run[i], t);
      StepKeepsNewestFirst(run[i - 1], run[i], t);
    }
  }

  lemma EndRestRuns(s: State, s': State, t: Tid)
    requires Step(s, s', t) && s'.ran != s.ran
    ensures EndRest(s, s', t)
  {
  }

  /** A step that runs at-rest functions runs all that wait, the last one added first. */
  lemma LastAddedRunsFirst(run: seq<State>, i: nat)
    requires Run(run) && i + 1 < |run| && run[i + 1].ran != run[i].ran
    ensures run[i + 1].rest == [] && |run[i + 1].ran| == |run[i].ran| + |run[i].rest| && run[i].ran <= run[i + 1].ran
    ensures forall id :: id in run[i + 1].ran[|run[i].ran|..] <==> id in Ids(run[i].rest)
    ensures var from, ran := |run[i].ran|, run[i + 1].ran; forall j, k | from <= j < k < |ran| :: ran[j] > ran[k]
  {
    WaitNewestFirst(run, i);
    assert Advances(run[i + 1 - 1], run[i + 1]);
    var t :| Step(run[i], run[i + 1], t);
    EndRestRuns(run[i], run[i + 1], t);
    assert run[i + 1].ran[|run[i].ran|..] == Ids(run[i].rest);
  }

  // --- every pause can come to its end ---

  // How far the thread that holds pause_outer_mutex_ is from giving it back.
  function Rank(s: State): nat {
    if s.outer.None? || s.outer.value >= |s.threads| then 0
    else match s.threads[s.outer.value].mode
      case WantCom => 4
      case WaitAll => 3
      case RunF => 2
      case WaitDone => 1
      case _ => 0
  }

  // How many steps of its own a thread is away from the wait of the pause, and from having left it.
  function Far(mode: Mode, leaving: bool): nat {
    match mode
    case PauseWait => if leaving then 7 else 0
    case GotPause => 1
    case Epoll => 2
    case RunRest => 3
    case WantRest => 4
    case Top => 5
    case Busy => 6
    case _ => 0
  }

  function AllFar(threads: seq<Thread>, leaving: bool): nat {
    if threads == [] then 0 else Far(threads[0].mode, leaving) + AllFar(threads[1..], leaving)
  }

  lemma {:induction false} AllFarUpdate(threads: seq<Thread>, t: nat, th: Thread, leaving: bool)
    requires t < |threads|
    ensures AllFar(threads[t := th], leaving) + Far(threads[t].mode, leaving) == AllFar(threads, leaving) + Far(th.mode, leaving)
  {
    if t == 0 {
      assert threads[t := th][1..] == threads[1..];
    } else {
      assert threads[t := th][1..] == threads[1..][t - 1 := th];
      AllFarUpdate(threads[1..], t - 1, th, leaving);
    }
  }

  function Distance(s: State): nat {
    AllFar(s.threads, Rank(s) == 1)
  }

  // The same pause, nearer to its end, or at its end.
  predicate Nearer(s: State, s': State) {
    && (s'.outer == s.outer || s'.outer.None?)
    && (Rank(s') < Rank(s) || (Rank(s') == Rank(s) && Distance(s') < Distance(s)))
  }

  ghost predicate GetsNearer(s: State) {
    exists u, s' :: Step(s, s', u) && Nearer(s, s')
  }

  lemma PauserSteps(s: State, s': State, t: Tid)
    requires s.outer == Some(t) && Step(s, s', t) && (s'.outer == s.outer || s'.outer.None?) && Rank(s') < Rank(s)
    ensures GetsNearer(s)
  {
  }

  lemma OtherSteps(s: State, s': State, t: Tid, u: Tid)
    requires s.outer == s'.outer == Some(t) && t < |s.threads| && u < |s.threads| == |s'.threads| && u != t
    requires s'.threads == s.threads[u := s'.threads[u]] && Step(s, s', u)
    requires Far(s'.threads[u].mode, Rank(s) == 1) < Far(s.threads[u].mode, Rank(s) == 1)
    ensures GetsNearer(s)
  {
    AllFarUpdate(s.threads, u, s'.threads[u], Rank(s) == 1);
    assert Rank(s') == Rank(s);
    assert Nearer(s, s');
  }

  lemma ComesToPause(s: State, t: Tid, u: Tid)
    requires s.outer == Some(t) && Is(s, t, WaitAll) && u < |s.threads| && u != t && s.cmds > 0 && s.com.None?
    requires var m := s.threads[u].mode; m in {Top, Epoll, Busy, WantRest}
    ensures GetsNearer(s)
  {
    match s.threads[u].mode
    case Top =>
      var left := s.threadCountdown - s.threads[u].countdown;
      var mode := if s.threads[u].countdown > 0 && left == 0 then WantRest else Epoll;
      var s' := s.(threads := s.threads[u := Thread(mode, 0)], threadCountdown := left, rest := SeenBy(s.rest, u));
      OtherSteps(s, s', t, u);
    case Epoll => OtherSteps(s, Set(s, u, GotPause).(cmds := s.cmds - 1), t, u);
    case Busy => OtherSteps(s, Set(s, u, Top), t, u);
    case WantRest => OtherSteps(s, Set(s, u, RunRest).(com := Some(u)), t, u);
  }

  lemma WaitAllMoves(s: State, t: Tid)
    requires LocksOk(s) && PhaseOk(s) && s.outer == Some(t) && s.com.None? && Is(s, t, WaitAll)
    ensures GetsNearer(s)
  {
    if s.numPaused == |s.threads| {
      PauserSteps(s, Set(s, t, RunF).(com := Some(t)), t);
    } else if Total(s.threads, Counted) > 0 {
      var u := FindOne(s.threads, Counted);
      OtherSteps(s, Set(s, u, PauseWait).(numPaused := s.numPaused + 1), t, u);
    } else {
      TotalBound(s.threads[t := Thread(PauseWait, 0)], Waiting);
      TotalUpdate(s.threads, t, Thread(PauseWait, 0), Waiting);
      var u := SomeoneElse(s.threads, t);
      InTotal(s.threads, u, Counted);
      ComesToPause(s, t, u);
    }
  }

  lemma WaitDoneMoves(s: State, t: Tid)
    requires LocksOk(s) && PhaseOk(s) && s.outer == Some(t) && s.com.None? && Is(s, t, WaitDone)
    ensures GetsNearer(s)
  {
    if s.numDone == |s.threads| {
      PauserSteps(s, Set(s, t, Busy).(outer := None), t);
    } else {
      TotalBound(s.threads[t := Thread(PauseWait, 0)], Waiting);
      TotalUpdate(s.threads, t, Thread(PauseWait, 0), Waiting);
      var u := FindOne(s.threads, Waiting);
      OtherSteps(s, Owe(Set(s, u, Top), u).(numDone := s.numDone + 1), t, u);
    }
  }

  // The thread that holds pause_outer_mutex_ goes on, or else one it waits for does.
  lemma PauseMoves(s: State, t: Tid)
    requires LocksOk(s) && PhaseOk(s) && s.outer == Some(t)
    ensures GetsNearer(s)
  {
    if s.com.Some? && s.com.value == t {
      PauserSteps(s, Owe(Set(s, t, WaitDone), t).(com := None, numPaused := 0, numDone := 1,
            threadCountdown := s.threadCountdown + |s.threads|), t);
    } else if s.com.Some? {
      var c := s.com.value;
      OtherSteps(s, Set(s, c, Epoll).(com := None, rest := [], ran := s.ran + Ids(s.rest)), t, c);
    } else {
      match s.threads[t].mode
      case WantCom => PauserSteps(s, Set(s, t, WaitAll).(numPaused := 1, cmds := s.cmds + |s.threads| - 1), t);
      case WaitAll => WaitAllMoves(s, t);
      case WaitDone => WaitDoneMoves(s, t);
    }
  }

  /** No pause gets stuck: while a thread holds pause_outer_mutex_ it, or a thread it waits for, has
      a step that brings this pause nearer to its end. */
  lemma NeverStuck(run: seq<State>, i: nat)
    requires Run(run) && i < |run| && run[i].outer.Some?
    ensures GetsNearer(run[i])
  {
    RunSafe(run, i);
    PauseMoves(run[i], run[i].outer.value);
  }

  // From s the run goes on until the pause of s is over.
  ghost predicate RunsToEnd(run: seq<State>, s: State) {
    && run != [] && run[0] == s && run[|run| - 1].outer.None?
    && (forall i | 0 < i < |run| :: Advances(run[i - 1], run[i]))
    && (forall i | 0 <= i < |run| - 1 :: run[i].outer == s.outer)
  }

  /** Nor do such steps go on for ever: from every state that a run can reach, the pause that is
      under way can be brought to its end. */
  lemma PauseCanEnd(run: seq<State>, i: nat) returns (rest: seq<State>)
    requires Run(run) && i < |run|
    ensures RunsToEnd(rest, run[i])
  {
    RunSafe(run, i);
    rest := EndOfPause(run[i]);
  }

  lemma NextNearer(s: State) returns (s': State)
    requires Inv(s) && s.outer.Some?
    ensures Inv(s') && Advances(s, s') && Nearer(s, s')
  {
    PauseMoves(s, s.outer.value);
    var u, next :| Step(s, next, u) && Nearer(s, next);
    StepPreserves(s, next, u);
    s' := next;
  }

  lemma {:induction false} EndOfPause(s: State) returns (run: seq<State>)
    requires Inv(s)
    ensures RunsToEnd(run, s)
    decreases Rank(s), Distance(s)
  {
    if s.outer.None? {
      run := [s];
    } else {
      var s' := NextNearer(s);
      if s'.outer.None? {
        run := [s, s'];
      } else {
        var rest := EndOfPause(s');
        run := [s] + rest;
        OneMoreStep(s, s', rest);
      }
    }
  }

  lemma OneMoreStep(s: State, s': State, rest: seq<State>)
    requires RunsToEnd(rest, s') && Advances(s, s') && s'.outer == s.outer
    ensures RunsToEnd([s] + rest, s)
  {
    var run := [s] + rest;
    forall i | 0 < i < |run|
      ensures Advances(run[i - 1], run[i])
    {
      if i > 1 {
        assert Advances(rest[i - 2], rest[i - 1]);
      }
    }
  }
}
