/** Fibers blocked on pipes, and the sweep (with orhibernating false) that times them out: its
    first part runs while every other io thread is paused, its second part is an at-rest function.
    Any number of threads, fibers and pipes; switching fibers is one step. */
module TimeoutSweep {
  import opened Wrappers

  type Tid = nat
  type Fid = nat
  type Pid = nat

  datatype Phase =
    | Idle                  // not in wake_all
    | Holding(p: Pid)       // epoll_wait has returned an event of p
    | Looping               // in wake_all, about to look at wake_head_
    | Switched(f: Fid)      // has switched to f, which has yet to go on
    | Running(f: Fid)       // runs f
    | Parked(f: Fid, p: Pid)  // f has switched back to wait for p, which is not yet armed

  // wakes: the wake list.  due: timed-out pipes whose fibers are still to be woken.
  datatype Thread = Thread(phase: Phase, wakes: seq<Fid>, expired: bool, due: seq<Pid>)

  datatype Place =
    | Awake(t: Tid)
    | Asleep          // on a mutex, a condition or a timer, or not yet started
    | Queued(t: Tid)  // from there put into a wake list
    | OnPipe(p: Pid)

  // How the fiber that is blocked on a pipe is going to be resumed.  No step looks at this.
  datatype Way =
    | Arming(t: Tid)               // nothing yet, t will arm the pipe
    | Kernel                       // the pipe is armed
    | Event(t: Tid)                // t has its event
    | AtRest                       // the pipe is out of epoll, the at-rest function will time it out
    | Due(t: Tid)                  // t is about to time it out
    | Woken(t: Tid, timedOut: bool)  // in the wake list of t, or t has switched to it

  // listed: in the list that starts at first_.  deadline: io_timeout_, None is forever.
  datatype Pipe = Pipe(fiber: Option<Fid>, deadline: Option<nat>, attached: bool, armed: bool, listed: bool, way: Way)

  // cutoff: the time at the pause.  seen: the threads that have been at the top of epoll_loop since.
  datatype Sweep = Sweep(cutoff: nat, seen: set<Tid>)

  datatype State = State(threads: seq<Thread>, fibers: seq<Place>, pipes: seq<Pipe>, sweep: Option<Sweep>, clock: nat)

  predicate At(s: State, t: Tid, phase: Phase) {
    t < |s.threads| && s.threads[t].phase == phase
  }

  function To(s: State, t: Tid, phase: Phase): State
    requires t < |s.threads|
  {
    s.(threads := s.threads[t := s.threads[t].(phase := phase)])
  }

  function Put(s: State, f: Fid, place: Place): State
    requires f < |s.fibers|
  {
    s.(fibers := s.fibers[f := place])
  }

  function Change(s: State, p: Pid, pipe: Pipe): State
    requires p < |s.pipes|
  {
    s.(pipes := s.pipes[p := pipe])
  }

  // wake_all(f), up to its loop
  function Push(s: State, t: Tid, f: Fid): State
    requires t < |s.threads|
  {
    s.(threads := s.threads[t := s.threads[t].(phase := Looping, wakes := [f] + s.threads[t].wakes)])
  }

  // --- the steps of thread t ---

  ghost predicate Take(s: State, s': State, t: Tid, p: Pid) {
    && At(s, t, Idle) && p < |s.pipes| && s.pipes[p].armed
    && s' == To(Change(s, p, s.pipes[p].(armed := false, way := Event(t))), t, Holding(p))
  }

  ghost predicate Handle(s: State, s': State, t: Tid, p: Pid) {
    && At(s, t, Holding(p)) && p < |s.pipes| && s.pipes[p].fiber.Some?
    && s' == Push(Change(s, p, s.pipes[p].(way := Woken(t, false))), t, s.pipes[p].fiber.value)
  }

  ghost predicate Pop(s: State, s': State, t: Tid) {
    && At(s, t, Looping) && s.threads[t].wakes != []
    && s' == s.(threads := s.threads[t := s.threads[t].(phase := Switched(s.threads[t].wakes[0]), wakes := s.threads[t].wakes[1..])])
  }

  // wake_all returns: to epoll_loop, or to the at-rest function
  ghost predicate EndLoop(s: State, s': State, t: Tid) {
    && At(s, t, Looping) && s.threads[t].wakes == [] && s.threads[t].due == []
    && s' == To(s, t, Idle)
  }

  ghost predicate TimeOutNext(s: State, s': State, t: Tid, p: Pid) {
    && At(s, t, Looping) && s.threads[t].wakes == [] && s.threads[t].due != [] && p == s.threads[t].due[0]
    && p < |s.pipes| && s.pipes[p].fiber.Some?
    && s' == Change(s, p, s.pipes[p].(way := Woken(t, true))).(
               threads := s.threads[t := Thread(Looping, [s.pipes[p].fiber.value], true, s.threads[t].due[1..])])
  }

  // The rest of sleep_until_data_available, or of sleep_until_write_possible.
  ghost predicate Resume(s: State, s': State, t: Tid, f: Fid, p: Pid) {
    && At(s, t, Switched(f)) && f < |s.fibers| && s.fibers[f] == OnPipe(p) && p < |s.pipes|
    && s' == Put(Change(s, p, s.pipes[p].(fiber := None, deadline := None)), f, Awake(t)).(
               threads := s.threads[t := s.threads[t].(phase := Running(f), expired := false)])
  }

  ghost predicate ResumeOther(s: State, s': State, t: Tid, f: Fid) {
    && At(s, t, Switched(f)) && f < |s.fibers| && s.fibers[f].Queued?
    && s' == To(Put(s, f, Awake(t)), t, Running(f))
  }

  // A handler that is not that of a pipe wakes, or starts, a fiber.
  ghost predicate WakeFirst(s: State, s': State, t: Tid, g: Fid) {
    && At(s, t, Idle) && g < |s.fibers| && s.fibers[g] == Asleep
    && s' == Push(Put(s, g, Queued(t)), t, g)
  }

  ghost predicate WakeOther(s: State, s': State, t: Tid, f: Fid, g: Fid) {
    && At(s, t, Running(f)) && g < |s.fibers| && s.fibers[g] == Asleep
    && s' == Put(s, g, Queued(t)).(threads := s.threads[t := s.threads[t].(wakes := [g] + s.threads[t].wakes)])
  }

  ghost predicate Sleep(s: State, s': State, t: Tid, f: Fid) {
    && At(s, t, Running(f)) && f < |s.fibers|
    && s' == To(Put(s, f, Asleep), t, Looping)
  }

  // The first part of sleep_until_data_available; seconds is max_io_block_time_.
  ghost predicate Block(s: State, s': State, t: Tid, f: Fid, p: Pid, seconds: nat) {
    && At(s, t, Running(f)) && f < |s.fibers| && p < |s.pipes| && s.pipes[p].fiber.None?
    && s' == To(Put(Change(s, p, s.pipes[p].(
               fiber := Some(f), way := Arming(t),
               deadline := if seconds > 0 then Some(s.clock + seconds) else s.pipes[p].deadline)), f, OnPipe(p)), t, Parked(f, p))
  }

  // case oc_read and case oc_write of wake_all
  ghost predicate Arm(s: State, s': State, t: Tid, f: Fid, p: Pid) {
    && At(s, t, Parked(f, p)) && p < |s.pipes|
    && s' == To(Change(s, p, s.pipes[p].(attached := true, armed := true, way := Kernel)), t, Looping)
  }

  predicate Expired(pipe: Pipe, cutoff: nat) {
    pipe.listed && pipe.deadline.Some? && pipe.deadline.value < cutoff
  }

  function Detached(pipe: Pipe, cutoff: nat): Pipe {
    if Expired(pipe, cutoff) then
      pipe.(attached := false, armed := false, way := if pipe.way.Kernel? then AtRest else pipe.way)
    else
      pipe
  }

  // The function that while_paused2 runs.  No other thread is in wake_all, though one may still
  // have an event.  The next sweep is scheduled only once this one is over.
  ghost predicate BeginSweep(s: State, s': State, t: Tid) {
    && At(s, t, Idle) && s.sweep.None?
    && (forall u | 0 <= u < |s.threads| :: s.threads[u].phase.Idle? || s.threads[u].phase.Holding?)
    && s' == s.(pipes := seq(|s.pipes|, p requires 0 <= p < |s.pipes| => Detached(s.pipes[p], s.clock)),
                sweep := Some(Sweep(s.clock, {})))
  }

  ghost predicate Top(s: State, s': State, t: Tid) {
    && At(s, t, Idle)
    && s' == if s.sweep.Some? then s.(sweep := Some(s.sweep.value.(seen := s.sweep.value.seen + {t}))) else s
  }

  predicate TimesOut(s: State, p: Pid, cutoff: nat) {
    && p < |s.pipes| && Expired(s.pipes[p], cutoff) && !s.pipes[p].attached && s.pipes[p].fiber.Some?
    && s.pipes[p].fiber.value < |s.fibers| && s.fibers[s.pipes[p].fiber.value] == OnPipe(p)
  }

  function TimedOut(s: State, cutoff: nat, n: nat): (due: seq<Pid>)
    requires n <= |s.pipes|
    ensures forall p: Pid :: p in due <==> p < n && TimesOut(s, p, cutoff)
    ensures forall i, j | 0 <= i < j < |due| :: due[i] != due[j]
  {
    if n == 0 then []
    else if TimesOut(s, n - 1, cutoff) then [n - 1] + TimedOut(s, cutoff, n - 1)
    else TimedOut(s, cutoff, n - 1)
  }

  // The at-rest function, up to its second loop.
  ghost predicate EndSweep(s: State, s': State, t: Tid) {
    && At(s, t, Idle) && s.sweep.Some?
    && (forall u | 0 <= u < |s.threads| :: u in s.sweep.value.seen)
    && var cutoff := s.sweep.value.cutoff;
       s' == s.(pipes := seq(|s.pipes|, p requires 0 <= p < |s.pipes| =>
                               if TimesOut(s, p, cutoff) then s.pipes[p].(listed := false, way := Due(t)) else s.pipes[p]),
                threads := s.threads[t := s.threads[t].(phase := Looping, due := TimedOut(s, cutoff, |s.pipes|))],
                sweep := None)
  }

  ghost predicate Tick(s: State, s': State) {
    s' == s.(clock := s.clock + 1)
  }

  ghost predicate Step(s: State, s': State, t: Tid, f: Fid, p: Pid, n: nat) {
    || Take(s, s', t, p) || Handle(s, s', t, p) || Pop(s, s', t) || EndLoop(s, s', t) || TimeOutNext(s, s', t, p)
    || Resume(s, s', t, f, p) || ResumeOther(s, s', t, f) || WakeFirst(s, s', t, n) || WakeOther(s, s', t, f, n) || Sleep(s, s', t, f)
    || Block(s, s', t, f, p, n) || Arm(s, s', t, f, p)
    || BeginSweep(s, s', t) || Top(s, s', t) || EndSweep(s, s', t) || Tick(s, s')
  }

  // --- the invariant ---

  // f is blocked on a pipe and t is to go on with it.
  predicate WokenOn(s: State, t: Tid, f: Fid, timedOut: bool) {
    && f < |s.fibers| && s.fibers[f].OnPipe? && s.fibers[f].p < |s.pipes|
    && s.pipes[s.fibers[f].p].fiber == Some(f) && s.pipes[s.fibers[f].p].way == Woken(t, timedOut)
  }

  predicate QueuedOn(s: State, t: Tid, f: Fid) {
    f < |s.fibers| && s.fibers[f] == Queued(t)
  }

  // Only the fiber that was pushed last can be one that was blocked on a pipe.
  predicate WakesOk(s: State, t: Tid)
    requires t < |s.threads|
  {
    var th := s.threads[t];
    && Distinct(th.wakes)
    && (forall i | 0 <= i < |th.wakes| ::
          QueuedOn(s, t, th.wakes[i]) || (i == 0 && th.phase == Looping && WokenOn(s, t, th.wakes[i], th.expired)))
    && (th.expired ==> (th.phase == Looping && th.wakes != [] && WokenOn(s, t, th.wakes[0], true))
                       || (th.phase.Switched? && WokenOn(s, t, th.phase.f, true)))
  }

  predicate PhaseOk(s: State, t: Tid)
    requires t < |s.threads|
  {
    var th := s.threads[t];
    match th.phase
    case Idle => th.wakes == [] && th.due == []
    case Holding(p) => th.wakes == [] && th.due == [] && p < |s.pipes| && s.pipes[p].fiber.Some? && s.pipes[p].way == Event(t)
    case Looping => true
    case Switched(f) => f !in th.wakes && (QueuedOn(s, t, f) || WokenOn(s, t, f, th.expired))
    case Running(f) => f < |s.fibers| && s.fibers[f] == Awake(t)
    case Parked(f, p) => p < |s.pipes| && s.pipes[p].fiber == Some(f) && s.pipes[p].way == Arming(t)
  }

  predicate DueOk(s: State, t: Tid)
    requires t < |s.threads|
  {
    && Distinct(s.threads[t].due)
    && forall i | 0 <= i < |s.threads[t].due| ::
         var p := s.threads[t].due[i];
         p < |s.pipes| && s.pipes[p].fiber.Some? && s.pipes[p].way == Due(t)
  }

  predicate ThreadOk(s: State, t: Tid) {
    t < |s.threads| ==> WakesOk(s, t) && PhaseOk(s, t) && DueOk(s, t)
  }

  predicate Overdue(s: State, pipe: Pipe) {
    s.sweep.Some? && Expired(pipe, s.sweep.value.cutoff)
  }

  predicate Unseen(s: State, t: Tid) {
    s.sweep.Some? && t < |s.threads| && t !in s.sweep.value.seen
  }

  predicate WayOk(s: State, p: Pid, f: Fid)
    requires p < |s.pipes|
  {
    var pipe := s.pipes[p];
    match pipe.way
    case Arming(t) => At(s, t, Parked(f, p)) && !pipe.armed && !Overdue(s, pipe)
    case Kernel => pipe.armed && pipe.attached && !Overdue(s, pipe)
    case Event(t) => At(s, t, Holding(p)) && !pipe.armed && if Overdue(s, pipe) then Unseen(s, t) else pipe.attached
    case AtRest => !pipe.armed && !pipe.attached && Overdue(s, pipe)
    case Due(t) => t < |s.threads| && p in s.threads[t].due && !pipe.armed && !pipe.listed && PastDeadline(s, pipe)
    case Woken(t, timedOut) =>
      && t < |s.threads| && !pipe.armed && s.threads[t].expired == timedOut
      && (At(s, t, Switched(f)) || (At(s, t, Looping) && s.threads[t].wakes != [] && s.threads[t].wakes[0] == f))
      && (timedOut ==> !pipe.listed && PastDeadline(s, pipe))
      && (!timedOut ==> if Overdue(s, pipe) then Unseen(s, t) else pipe.attached)
  }

  predicate PastDeadline(s: State, pipe: Pipe) {
    pipe.deadline.Some? && pipe.deadline.value < s.clock
  }

  predicate PipeOk(s: State, p: Pid) {
    p < |s.pipes| ==>
      match s.pipes[p].fiber
      case None => !s.pipes[p].armed && s.pipes[p].deadline.None?
      case Some(f) => f < |s.fibers| && s.fibers[f] == OnPipe(p) && WayOk(s, p, f)
  }

  predicate FiberOk(s: State, f: Fid) {
    f < |s.fibers| && s.fibers[f].OnPipe? ==> s.fibers[f].p < |s.pipes| && s.pipes[s.fibers[f].p].fiber == Some(f)
  }

  ghost predicate Inv(s: State) {
    && (forall t: Tid :: ThreadOk(s, t))
    && (forall p: Pid :: PipeOk(s, p))
    && (forall f: Fid :: FiberOk(s, f))
    && (s.sweep.Some? ==> s.sweep.value.cutoff <= s.clock)
  }

  // --- every step keeps the invariant ---

  // The invariant for one thread, one pipe and one fiber.
  predicate Ok(s: State, u: Tid, q: Pid, h: Fid) {
    ThreadOk(s, u) && PipeOk(s, q) && FiberOk(s, h) && (s.sweep.Some? ==> s.sweep.value.cutoff <= s.clock)
  }

  lemma TakeKeepsThread(s: State, s': State, t: Tid, p: Pid, u: Tid)
    requires Take(s, s', t, p) && ThreadOk(s, t) && PipeOk(s, p) && ThreadOk(s, u)
    ensures ThreadOk(s', u)
  {
  }

  lemma TakeKeeps(s: State, s': State, t: Tid, p: Pid, u: Tid, q: Pid, h: Fid)
    requires Take(s, s', t, p) && ThreadOk(s, t) && PipeOk(s, p) && Ok(s, u, q, h)
    ensures Ok(s', u, q, h)
  {
    TakeKeepsThread(s, s', t, p, u);
  }

  lemma HandleKeepsThread(s: State, s': State, t: Tid, p: Pid, u: Tid)
    requires Handle(s, s', t, p) && ThreadOk(s, t) && PipeOk(s, p) && ThreadOk(s, u)
    ensures ThreadOk(s', u)
  {
  }

  lemma HandleKeeps(s: State, s': State, t: Tid, p: Pid, u: Tid, q: Pid, h: Fid)
    requires Handle(s, s', t, p) && ThreadOk(s, t) && PipeOk(s, p) && Ok(s, u, q, h)
    ensures Ok(s', u, q, h)
  {
    HandleKeepsThread(s, s', t, p, u);
  }

  lemma PopKeeps(s: State, s': State, t: Tid, u: Tid, q: Pid, h: Fid)
    requires Pop(s, s', t) && ThreadOk(s, t) && Ok(s, u, q, h)
    ensures Ok(s', u, q, h)
  {
  }

  lemma EndLoopKeeps(s: State, s': State, t: Tid, u: Tid, q: Pid, h: Fid)
    requires EndLoop(s, s', t) && ThreadOk(s, t) && Ok(s, u, q, h)
    ensures Ok(s', u, q, h)
  {
  }

  lemma TimeOutNextKeepsThread(s: State, s': State, t: Tid, p: Pid, u: Tid)
    requires TimeOutNext(s, s', t, p) && ThreadOk(s, t) && PipeOk(s, p) && ThreadOk(s, u)
    ensures ThreadOk(s', u)
  {
  }

  lemma TimeOutNextKeeps(s: State, s': State, t: Tid, p: Pid, u: Tid, q: Pid, h: Fid)
    requires TimeOutNext(s, s', t, p) && ThreadOk(s, t) && PipeOk(s, p) && Ok(s, u, q, h)
    ensures Ok(s', u, q, h)
  {
    TimeOutNextKeepsThread(s, s', t, p, u);
  }

  lemma ResumeKeepsThread(s: State, s': State, t: Tid, f: Fid, p: Pid, u: Tid)
    requires Resume(s, s', t, f, p) && ThreadOk(s, t) && PipeOk(s, p) && ThreadOk(s, u)
    ensures ThreadOk(s', u)
  {
  }

  lemma ResumeKeeps(s: State, s': State, t: Tid, f: Fid, p: Pid, u: Tid, q: Pid, h: Fid)
    requires Resume(s, s', t, f, p) && ThreadOk(s, t) && PipeOk(s, p) && Ok(s, u, q, h)
    ensures Ok(s', u, q, h)
  {
    ResumeKeepsThread(s, s', t, f, p, u);
  }

  lemma ResumeOtherKeeps(s: State, s': State, t: Tid, f: Fid, u: Tid, q: Pid, h: Fid)
    requires ResumeOther(s, s', t, f) && ThreadOk(s, t) && Ok(s, u, q, h)
    ensures Ok(s', u, q, h)
  {
  }

  lemma WakeFirstKeeps(s: State, s': State, t: Tid, g: Fid, u: Tid, q: Pid, h: Fid)
    requires WakeFirst(s, s', t, g) && ThreadOk(s, t) && Ok(s, u, q, h)
    ensures Ok(s', u, q, h)
  {
  }

  lemma WakeOtherKeeps(s: State, s': State, t: Tid, f: Fid, g: Fid, u: Tid, q: Pid, h: Fid)
    requires WakeOther(s, s', t, f, g) && ThreadOk(s, t) && Ok(s, u, q, h)
    ensures Ok(s', u, q, h)
  {
  }

  lemma SleepKeeps(s: State, s': State, t: Tid, f: Fid, u: Tid, q: Pid, h: Fid)
    requires Sleep(s, s', t, f) && ThreadOk(s, t) && Ok(s, u, q, h)
    ensures Ok(s', u, q, h)
  {
  }

  lemma BlockKeepsThread(s: State, s': State, t: Tid, f: Fid, p: Pid, seconds: nat, u: Tid)
    requires Block(s, s', t, f, p, seconds) && ThreadOk(s, t) && PipeOk(s, p) && ThreadOk(s, u)
    ensures ThreadOk(s', u)
  {
  }

  lemma BlockKeeps(s: State, s': State, t: Tid, f: Fid, p: Pid, seconds: nat, u: Tid, q: Pid, h: Fid)
    requires Block(s, s', t, f, p, seconds) && ThreadOk(s, t) && PipeOk(s, p) && Ok(s, u, q, h)
    ensures Ok(s', u, q, h)
  {
    BlockKeepsThread(s, s', t, f, p, seconds, u);
  }

  lemma ArmKeepsThread(s: State, s': State, t: Tid, f: Fid, p: Pid, u: Tid)
    requires Arm(s, s', t, f, p) && ThreadOk(s, t) && PipeOk(s, p) && ThreadOk(s, u)
    ensures ThreadOk(s', u)
  {
  }

  lemma ArmKeeps(s: State, s': State, t: Tid, f: Fid, p: Pid, u: Tid, q: Pid, h: Fid)
    requires Arm(s, s', t, f, p) && ThreadOk(s, t) && PipeOk(s, p) && Ok(s, u, q, h)
    ensures Ok(s', u, q, h)
  {
    ArmKeepsThread(s, s', t, f, p, u);
  }

  lemma BeginSweepKeeps(s: State, s': State, t: Tid, u: Tid, q: Pid, h: Fid)
    requires BeginSweep(s, s', t) && Inv(s)
    ensures Ok(s', u, q, h)
  {
    assert Ok(s, u, q, h);
  }

  lemma TopKeeps(s: State, s': State, t: Tid, u: Tid, q: Pid, h: Fid)
    requires Top(s, s', t) && ThreadOk(s, t) && Ok(s, u, q, h)
    ensures Ok(s', u, q, h)
  {
  }

  // Whatever the at-rest function picks is out of epoll, and no thread has it.
  lemma OnlyAtRest(s: State, p: Pid)
    requires s.sweep.Some? && PipeOk(s, p) && TimesOut(s, p, s.sweep.value.cutoff)
    requires forall u | 0 <= u < |s.threads| :: u in s.sweep.value.seen
    ensures s.pipes[p].way == AtRest
  {
  }

  lemma EndSweepPipe(s: State, s': State, t: Tid, p: Pid)
    requires EndSweep(s, s', t) && PipeOk(s, p) && p < |s.pipes|
    ensures p in s'.threads[t].due ==> s.pipes[p].way == AtRest && s'.pipes[p] == s.pipes[p].(listed := false, way := Due(t))
    ensures p !in s'.threads[t].due ==> s'.pipes[p] == s.pipes[p]
  {
    if TimesOut(s, p, s.sweep.value.cutoff) {
      OnlyAtRest(s, p);
    }
  }

  lemma EndSweepKeepsThread(s: State, s': State, t: Tid, u: Tid)
    requires EndSweep(s, s', t) && Inv(s)
    ensures ThreadOk(s', u)
  {
    assert ThreadOk(s, u) && ThreadOk(s, t);
    forall p: Pid | p < |s.pipes|
      ensures p in s'.threads[t].due ==> s.pipes[p].way == AtRest && s'.pipes[p] == s.pipes[p].(listed := false, way := Due(t))
      ensures p !in s'.threads[t].due ==> s'.pipes[p] == s.pipes[p]
    {
      EndSweepPipe(s, s', t, p);
    }
    if u == t < |s.threads| {
      forall i | 0 <= i < |s'.threads[t].due|
        ensures var p := s'.threads[t].due[i]; p < |s'.pipes| && s'.pipes[p].fiber.Some? && s'.pipes[p].way == Due(t)
      {
        assert s'.threads[t].due[i] in s'.threads[t].due;
      }
    }
  }

  lemma EndSweepKeeps(s: State, s': State, t: Tid, u: Tid, q: Pid, h: Fid)
    requires EndSweep(s, s', t) && Inv(s)
    ensures Ok(s', u, q, h)
  {
    EndSweepKeepsThread(s, s', t, u);
    assert PipeOk(s, q) && FiberOk(s, h) && ThreadOk(s, t);
    if q < |s.pipes| {
      EndSweepPipe(s, s', t, q);
    }
  }

  lemma StepPreserves(s: State, s': State, t: Tid, f: Fid, p: Pid, n: nat)
    requires Inv(s) && Step(s, s', t, f, p, n)
    ensures Inv(s')
  {
    assert ThreadOk(s, t) && PipeOk(s, p);
    forall u: Tid, q: Pid, h: Fid
      ensures Ok(s', u, q, h)
    {
      assert Ok(s, u, q, h);
      if Take(s, s', t, p) {
        TakeKeeps(s, s', t, p, u, q, h);
      } else if Handle(s, s', t, p) {
        HandleKeeps(s, s', t, p, u, q, h);
      } else if Pop(s, s', t) {
        PopKeeps(s, s', t, u, q, h);
      } else if EndLoop(s, s', t) {
        EndLoopKeeps(s, s', t, u, q, h);
      } else if TimeOutNext(s, s', t, p) {
        TimeOutNextKeeps(s, s', t, p, u, q, h);
      } else if Resume(s, s', t, f, p) {
        assert FiberOk(s, f);
        ResumeKeeps(s, s', t, f, p, u, q, h);
      } else if BeginSweep(s, s', t) {
        BeginSweepKeeps(s, s', t, u, q, h);
      } else if EndSweep(s, s', t) {
        EndSweepKeeps(s, s', t, u, q, h);
      } else {
        OtherStepKeeps(s, s', t, f, p, n, u, q, h);
      }
    }
    forall u: Tid
      ensures ThreadOk(s', u)
    {
      assert Ok(s', u, 0, 0);
    }
    forall q: Pid
      ensures PipeOk(s', q)
    {
      assert Ok(s', 0, q, 0);
    }
    forall h: Fid
      ensures FiberOk(s', h)
    {
      assert Ok(s', 0, 0, h);
    }
  }

  lemma OtherStepKeeps(s: State, s': State, t: Tid, f: Fid, p: Pid, n: nat, u: Tid, q: Pid, h: Fid)
    requires ThreadOk(s, t) && PipeOk(s, p) && FiberOk(s, f) && FiberOk(s, n) && Ok(s, u, q, h)
    requires ResumeOther(s, s', t, f) || WakeFirst(s, s', t, n) || WakeOther(s, s', t, f, n) || Sleep(s, s', t, f)
             || Block(s, s', t, f, p, n) || Arm(s, s', t, f, p) || Top(s, s', t) || Tick(s, s')
    ensures Ok(s', u, q, h)
  {
    if ResumeOther(s, s', t, f) {
      ResumeOtherKeeps(s, s', t, f, u, q, h);
    } else if WakeFirst(s, s', t, n) {
      WakeFirstKeeps(s, s', t, n, u, q, h);
    } else if WakeOther(s, s', t, f, n) {
      WakeOtherKeeps(s, s', t, f, n, u, q, h);
    } else if Sleep(s, s', t, f) {
      SleepKeeps(s, s', t, f, u, q, h);
    } else if Block(s, s', t, f, p, n) {
      BlockKeeps(s, s', t, f, p, n, u, q, h);
    } else if Arm(s, s', t, f, p) {
      ArmKeeps(s, s', t, f, p, u, q, h);
    } else if Top(s, s', t) {
      TopKeeps(s, s', t, u, q, h);
    }
  }

  // --- what holds in every reachable state ---

  ghost predicate Init(s: State) {
    && (forall t | 0 <= t < |s.threads| :: s.threads[t] == Thread(Idle, [], false, []))
    && (forall f | 0 <= f < |s.fibers| :: s.fibers[f] == Asleep)
    && (forall p | 0 <= p < |s.pipes| ::
          s.pipes[p].fiber.None? && s.pipes[p].deadline.None? && !s.pipes[p].armed && s.pipes[p].listed)
    && s.sweep.None?
  }

  ghost predicate Advances(s: State, s': State) {
    exists t, f, p, n :: Step(s, s', t, f, p, n)
  }

  ghost predicate Run(run: seq<State>) {
    run != [] && Init(run[0]) && forall i | 0 < i < |run| :: Advances(run[i - 1], run[i])
  }

  lemma {:induction false} RunSafe(run: seq<State>, i: nat)
    requires Run(run) && i < |run|
    ensures Inv(run[i])
  {
    if i > 0 {
      RunSafe(run, i - 1);
      assert Advances(run[i - 1], run[i]);
      var t, f, p, n :| Step(run[i - 1], run[i], t, f, p, n);
      StepPreserves(run[i - 1], run[i], t, f, p, n);
    }
  }

  // What thread t, or the kernel, is about to do for the fiber that is blocked on p.
  predicate Has(s: State, p: Pid, way: Way) {
    match way
    case Arming(t) => t < |s.threads| && s.threads[t].phase.Parked? && s.threads[t].phase.p == p
    case Kernel => p < |s.pipes| && s.pipes[p].armed
    case Event(t) => At(s, t, Holding(p))
    case AtRest => false
    case Due(t) => t < |s.threads| && p in s.threads[t].due
    case Woken(t, timedOut) =>
      && t < |s.threads| && s.threads[t].expired == timedOut && p < |s.pipes| && s.pipes[p].fiber.Some?
      && (s.pipes[p].fiber.value in s.threads[t].wakes || At(s, t, Switched(s.pipes[p].fiber.value)))
  }

  /** For a fiber that is blocked on a pipe there is one thing, and one only, that is going to
      resume it: the pipe being armed, one thread having its event, one thread timing it out, one
      wake list, ...  If there is none of these, then its time is up and the at-rest function of
      the sweep that took it out of epoll is still to come. */
  lemma OneWayToResume(run: seq<State>, i: nat, p: Pid, f: Fid, way: Way)
    requires Run(run) && i < |run|
    requires p < |run[i].pipes| && run[i].pipes[p].fiber == Some(f)
    ensures Has(run[i], p, way) ==> way == run[i].pipes[p].way
    ensures way == run[i].pipes[p].way ==>
              if way == AtRest then Overdue(run[i], run[i].pipes[p]) && !run[i].pipes[p].attached else Has(run[i], p, way)
  {
    var s := run[i];
    RunSafe(run, i);
    assert PipeOk(s, p) && FiberOk(s, f);
    if way.Arming? || way.Event? || way.Due? || way.Woken? {
      assert ThreadOk(s, way.t);
      if way.Due? && Has(s, p, way) {
        var j :| 0 <= j < |s.threads[way.t].due| && s.threads[way.t].due[j] == p;
      } else if way.Woken? && Has(s, p, way) && f in s.threads[way.t].wakes {
        var j :| 0 <= j < |s.threads[way.t].wakes| && s.threads[way.t].wakes[j] == f;
      }
    }
  }

  /** If no fiber is blocked on a pipe then nothing is about to wake one: an event always finds
      its fiber. */
  lemma NothingToResume(run: seq<State>, i: nat, p: Pid, way: Way)
    requires Run(run) && i < |run| && p < |run[i].pipes| && run[i].pipes[p].fiber.None?
    ensures !Has(run[i], p, way)
  {
    var s := run[i];
    RunSafe(run, i);
    assert PipeOk(s, p);
    if way.Arming? || way.Event? || way.Due? || way.Woken? {
      assert ThreadOk(s, way.t);
    }
  }

  /** timeout_expired_ is set on a thread only while the fiber it was set for is the next to go on
      there; that fiber's time is up, and no event can wake it any more. */
  lemma FlagIsForItsFiber(run: seq<State>, i: nat, t: Tid)
    requires Run(run) && i < |run| && t < |run[i].threads| && run[i].threads[t].expired
    ensures exists f: Fid, p: Pid ::
              && (At(run[i], t, Switched(f)) || (At(run[i], t, Looping) && [f] <= run[i].threads[t].wakes))
              && p < |run[i].pipes| && run[i].pipes[p].fiber == Some(f) && run[i].pipes[p].way == Woken(t, true)
              && !run[i].pipes[p].armed && PastDeadline(run[i], run[i].pipes[p])
  {
    var s := run[i];
    RunSafe(run, i);
    assert ThreadOk(s, t);
    var f := if s.threads[t].phase.Switched? then s.threads[t].phase.f else s.threads[t].wakes[0];
    assert FiberOk(s, f) && PipeOk(s, s.fibers[f].p);
  }

  /** A fiber that goes on from a pipe throws the timeout error exactly if the sweep woke it, and
      leaves the flag cleared; a fiber that goes on from anywhere else never sees the flag. */
  lemma TimeoutOnlyFromSweep(run: seq<State>, i: nat, s': State, t: Tid, f: Fid, p: Pid)
    requires Run(run) && i < |run|
    ensures Resume(run[i], s', t, f, p) ==>
              && run[i].pipes[p].way == Woken(t, run[i].threads[t].expired)
              && (run[i].threads[t].expired ==> PastDeadline(run[i], run[i].pipes[p]))
              && !s'.threads[t].expired && s'.pipes[p].fiber.None?
    ensures ResumeOther(run[i], s', t, f) ==> !run[i].threads[t].expired
  {
    RunSafe(run, i);
    assert ThreadOk(run[i], t) && PipeOk(run[i], p) && FiberOk(run[i], f);
  }

  /** Whatever a thread has begun it can go on with: every thread that is not idle has a step, with the
      fiber of its event, the first on its wake list, the next pipe to time out, or the fiber it runs. */
  lemma BusyThreadGoesOn(run: seq<State>, i: nat, t: Tid) returns (s': State)
    requires Run(run) && i < |run| && t < |run[i].threads| && run[i].threads[t].phase != Idle
    ensures var s := run[i];
            match s.threads[t].phase
            case Holding(p) => Handle(s, s', t, p)
            case Looping =>
              if s.threads[t].wakes != [] then Pop(s, s', t)
              else if s.threads[t].due == [] then EndLoop(s, s', t)
              else TimeOutNext(s, s', t, s.threads[t].due[0])
            case Switched(f) => ResumeOther(s, s', t, f) || exists p :: Resume(s, s', t, f, p)
            case Running(f) => Sleep(s, s', t, f)
            case Parked(f, p) => Arm(s, s', t, f, p)
            case Idle => true
  {
    RunSafe(run, i);
    var s := run[i];
    var th := s.threads[t];
    assert ThreadOk(s, t);
    match th.phase {
      case Holding(p) => s' := Push(Change(s, p, s.pipes[p].(way := Woken(t, false))), t, s.pipes[p].fiber.value);
      case Looping =>
        if th.wakes != [] {
          s' := s.(threads := s.threads[t := th.(phase := Switched(th.wakes[0]), wakes := th.wakes[1..])]);
        } else if th.due == [] {
          s' := To(s, t, Phase.Idle);
        } else {
          var p := th.due[0];
          s' := Change(s, p, s.pipes[p].(way := Woken(t, true))).(
                  threads := s.threads[t := Thread(Looping, [s.pipes[p].fiber.value], true, th.due[1..])]);
        }
      case Switched(f) =>
        if QueuedOn(s, t, f) {
          s' := To(Put(s, f, Awake(t)), t, Running(f));
        } else {
          var p := s.fibers[f].p;
          s' := Put(Change(s, p, s.pipes[p].(fiber := None, deadline := None)), f, Awake(t)).(
                  threads := s.threads[t := th.(phase := Running(f), expired := false)]);
          assert Resume(s, s', t, f, p);
        }
      case Running(f) => s' := To(Put(s, f, Asleep), t, Looping);
      case Parked(f, p) => s' := To(Change(s, p, s.pipes[p].(attached := true, armed := true, way := Kernel)), t, Looping);
    }
  }

  /** The first part of a sweep takes out of epoll only pipes that are in it. */
  lemma DetachesWhatIsAttached(run: seq<State>, i: nat, s': State, t: Tid, p: Pid)
    requires Run(run) && i < |run| && BeginSweep(run[i], s', t) && p < |run[i].pipes|
    requires Expired(run[i].pipes[p], run[i].clock)
    ensures run[i].pipes[p].attached && !s'.pipes[p].attached && !s'.pipes[p].armed
  {
    RunSafe(run, i);
    assert PipeOk(run[i], p);
    var way := run[i].pipes[p].way;
    if way.Due? || way.Woken? || way.Arming? {
      assert ThreadOk(run[i], way.t);
    }
  }

  /** The second part leaves no blocked fiber behind: whatever the first part took out of epoll
      either had an event that has woken its fiber since, or is timed out. */
  lemma SweepLeavesNoOne(run: seq<State>, i: nat, s': State, t: Tid, p: Pid)
    requires Run(run) && i < |run| && EndSweep(run[i], s', t) && p < |run[i].pipes|
    ensures run[i].pipes[p].fiber.Some? ==> s'.pipes[p].way != AtRest
    ensures run[i].pipes[p].fiber.Some? && run[i].pipes[p].way == AtRest ==> p in s'.threads[t].due
    ensures p in s'.threads[t].due ==> run[i].pipes[p].fiber.Some? && run[i].pipes[p].way == AtRest
  {
    RunSafe(run, i);
    assert PipeOk(run[i], p) && ThreadOk(run[i], t);
    EndSweepPipe(run[i], s', t, p);
  }

  // --- the time limit a fiber has blocked with ---

  // Nobody but the fiber itself, when it blocks and when it goes on, changes its pipe's deadline; and a
  // pipe that is out of the list stays out.
  ghost predicate LimitKept(s: State, s': State, p: Pid) {
    && |s'.pipes| == |s.pipes| && s.clock <= s'.clock
    && (p < |s.pipes| ==>
          && (!s.pipes[p].listed ==> !s'.pipes[p].listed)
          && (s.pipes[p].fiber.Some? && s'.pipes[p].fiber.Some? ==>
                s'.pipes[p].fiber == s.pipes[p].fiber && s'.pipes[p].deadline == s.pipes[p].deadline))
  }

  lemma PipeStepsKeepLimit(s: State, s': State, t: Tid, f: Fid, q: Pid, n: nat, p: Pid)
    requires || Take(s, s', t, q) || Handle(s, s', t, q) || TimeOutNext(s, s', t, q) || Resume(s, s', t, f, q)
             || Block(s, s', t, f, q, n) || Arm(s, s', t, f, q)
    ensures LimitKept(s, s', p)
  {
  }

  lemma SweepStepsKeepLimit(s: State, s': State, t: Tid, p: Pid)
    requires BeginSweep(s, s', t) || EndSweep(s, s', t)
    ensures LimitKept(s, s', p)
  {
  }

  lemma OtherStepsKeepLimit(s: State, s': State, t: Tid, f: Fid, n: nat, p: Pid)
    requires || Pop(s, s', t) || EndLoop(s, s', t) || ResumeOther(s, s', t, f) || WakeFirst(s, s', t, n)
             || WakeOther(s, s', t, f, n) || Sleep(s, s', t, f) || Top(s, s', t) || Tick(s, s')
    ensures LimitKept(s, s', p)
  {
  }

  lemma StepKeepsLimit(s: State, s': State, t: Tid, f: Fid, q: Pid, n: nat, p: Pid)
    requires Step(s, s', t, f, q, n)
    ensures LimitKept(s, s', p)
  {
    if BeginSweep(s, s', t) || EndSweep(s, s', t) {
      SweepStepsKeepLimit(s, s', t, p);
    } else if || Take(s, s', t, q) || Handle(s, s', t, q) || TimeOutNext(s, s', t, q) || Resume(s, s', t, f, q)
              || Block(s, s', t, f, q, n) || Arm(s, s', t, f, q) {
      PipeStepsKeepLimit(s, s', t, f, q, n, p);
    } else {
      OtherStepsKeepLimit(s, s', t, f, n, p);
    }
  }

  ghost predicate BlockedFrom(run: seq<State>, i: nat, j: nat, p: Pid, f: Fid) {
    forall k | i <= k <= j < |run| :: p < |run[k].pipes| && run[k].pipes[p].fiber == Some(f)
  }

  lemma {:induction false} LimitKeptAll(run: seq<State>, i: nat, j: nat, p: Pid, f: Fid)
    requires Run(run) && i <= j < |run| && BlockedFrom(run, i, j, p, f)
    ensures p < |run[i].pipes| == |run[j].pipes| && run[j].pipes[p].deadline == run[i].pipes[p].deadline
    decreases j - i
  {
    assert p < |run[i].pipes| && run[i].pipes[p].fiber == Some(f);
    if i < j {
      assert Advances(run[i + 1 - 1], run[i + 1]);
      var t, g, q, n :| Step(run[i], run[i + 1], t, g, q, n);
      StepKeepsLimit(run[i], run[i + 1], t, g, q, n, p);
      LimitKeptAll(run, i + 1, j, p, f);
    }
  }

  lemma {:induction false} StaysUnlisted(run: seq<State>, i: nat, j: nat, p: Pid)
    requires Run(run) && i <= j < |run| && p < |run[i].pipes| && !run[i].pipes[p].listed
    ensures p < |run[j].pipes| && !run[j].pipes[p].listed
    decreases j - i
  {
    if i < j {
      assert Advances(run[i + 1 - 1], run[i + 1]);
      var t, g, q, n :| Step(run[i], run[i + 1], t, g, q, n);
      StepKeepsLimit(run[i], run[i + 1], t, g, q, n, p);
      StaysUnlisted(run, i + 1, j, p);
    }
  }

  // The fiber will not be timed out unless a sweep detaches its pipe first.
  predicate NoTimeoutYet(way: Way) {
    way.Arming? || way.Kernel? || way.Event? || (way.Woken? && !way.timedOut)
  }

  lemma UnlistedByPipes(s: State, s': State, t: Tid, f: Fid, q: Pid, n: nat, p: Pid)
    requires ThreadOk(s, t) && PipeOk(s, p) && PipeOk(s, q)
    requires || Take(s, s', t, q) || Handle(s, s', t, q) || TimeOutNext(s, s', t, q) || Resume(s, s', t, f, q)
             || Block(s, s', t, f, q, n) || Arm(s, s', t, f, q)
    requires p < |s.pipes| && !s.pipes[p].listed && s.pipes[p].fiber.Some? && NoTimeoutYet(s.pipes[p].way)
    ensures p < |s'.pipes| && (s'.pipes[p].fiber.Some? ==> NoTimeoutYet(s'.pipes[p].way))
  {
  }

  lemma UnlistedByOthers(s: State, s': State, t: Tid, f: Fid, q: Pid, n: nat, p: Pid)
    requires || Pop(s, s', t) || EndLoop(s, s', t) || ResumeOther(s, s', t, f) || WakeFirst(s, s', t, n)
             || WakeOther(s, s', t, f, n) || Sleep(s, s', t, f) || Top(s, s', t) || Tick(s, s')
             || BeginSweep(s, s', t) || EndSweep(s, s', t)
    requires p < |s.pipes| && !s.pipes[p].listed && s.pipes[p].fiber.Some? && NoTimeoutYet(s.pipes[p].way)
    ensures p < |s'.pipes| && (s'.pipes[p].fiber.Some? ==> NoTimeoutYet(s'.pipes[p].way))
  {
  }

  lemma {:induction false} UnlistedNeverTimesOut(run: seq<State>, i: nat, j: nat, p: Pid, f: Fid)
    requires Run(run) && i <= j < |run| && BlockedFrom(run, i, j, p, f)
    requires p < |run[i].pipes| && !run[i].pipes[p].listed && NoTimeoutYet(run[i].pipes[p].way)
    ensures p < |run[j].pipes| && NoTimeoutYet(run[j].pipes[p].way)
    decreases j - i
  {
    if i < j {
      assert run[i].pipes[p].fiber == Some(f) && p < |run[i + 1].pipes| && run[i + 1].pipes[p].fiber == Some(f);
      RunSafe(run, i);
      assert Advances(run[i + 1 - 1], run[i + 1]);
      var t, g, q, n :| Step(run[i], run[i + 1], t, g, q, n);
      StepKeepsLimit(run[i], run[i + 1], t, g, q, n, p);
      assert ThreadOk(run[i], t) && PipeOk(run[i], p) && PipeOk(run[i], q);
      if || Take(run[i], run[i + 1], t, q) || Handle(run[i], run[i + 1], t, q) || TimeOutNext(run[i], run[i + 1], t, q)
         || Resume(run[i], run[i + 1], t, g, q) || Block(run[i], run[i + 1], t, g, q, n) || Arm(run[i], run[i + 1], t, g, q) {
        UnlistedByPipes(run[i], run[i + 1], t, g, q, n, p);
      } else {
        UnlistedByOthers(run[i], run[i + 1], t, g, q, n, p);
      }
      UnlistedNeverTimesOut(run, i + 1, j, p, f);
    }
  }

  lemma BlocksWithLimit(run: seq<State>, i: nat, t: Tid, f: Fid, p: Pid, seconds: nat)
    requires Run(run) && i + 1 < |run| && Block(run[i], run[i + 1], t, f, p, seconds)
    ensures p < |run[i + 1].pipes| && run[i + 1].pipes[p].fiber == Some(f) && NoTimeoutYet(run[i + 1].pipes[p].way)
    ensures run[i + 1].pipes[p].listed == run[i].pipes[p].listed
    ensures run[i + 1].pipes[p].deadline == if seconds > 0 then Some(run[i].clock + seconds) else None
  {
    RunSafe(run, i);
    assert PipeOk(run[i], p);
  }

  /** A fiber that is timed out had blocked with a limit, longer ago than that limit, on a pipe that was
      in the list then. */
  lemma TimesOutAfterItsLimit(run: seq<State>, i: nat, j: nat, s': State, t: Tid, u: Tid, f: Fid, p: Pid, seconds: nat)
    requires Run(run) && i < j < |run| && Block(run[i], run[i + 1], t, f, p, seconds) && BlockedFrom(run, i + 1, j, p, f)
    requires Resume(run[j], s', u, f, p) && run[j].threads[u].expired
    ensures seconds > 0 && run[j].clock > run[i].clock + seconds && run[i].pipes[p].listed
  {
    BlocksWithLimit(run, i, t, f, p, seconds);
    LimitKeptAll(run, i + 1, j, p, f);
    TimeoutOnlyFromSweep(run, j, s', u, f, p);
    if !run[i].pipes[p].listed {
      UnlistedNeverTimesOut(run, i + 1, j, p, f);
    }
  }

  /** A sweep takes the pipe of a blocked fiber out of epoll if and only if the pipe is in the list and
      the fiber has blocked with a limit, longer ago than that limit. */
  lemma DetachedAfterItsLimit(run: seq<State>, i: nat, j: nat, s': State, t: Tid, u: Tid, f: Fid, p: Pid, seconds: nat)
    requires Run(run) && i < j < |run| && Block(run[i], run[i + 1], t, f, p, seconds) && BlockedFrom(run, i + 1, j, p, f)
    requires BeginSweep(run[j], s', u) && p < |run[j].pipes| && run[j].pipes[p].attached
    ensures p < |s'.pipes|
    ensures !s'.pipes[p].attached <==> run[j].pipes[p].listed && seconds > 0 && run[j].clock > run[i].clock + seconds
  {
    BlocksWithLimit(run, i, t, f, p, seconds);
    LimitKeptAll(run, i + 1, j, p, f);
  }

  /** A pipe times a fiber out once: it is out of the list then, and no later blocking on it ends that
      way. */
  lemma TimesOutOnce(run: seq<State>, i: nat, j: nat, k: nat, s': State, t: Tid, u: Tid, v: Tid, f: Fid, g: Fid, p: Pid, seconds: nat)
    requires Run(run) && i <= j < k < |run|
    requires Resume(run[i], s', t, g, p) && run[i].threads[t].expired
    requires Block(run[j], run[j + 1], u, f, p, seconds) && BlockedFrom(run, j + 1, k, p, f)
    ensures p < |run[k].pipes| && run[k].pipes[p].way != Woken(v, true)
    ensures forall s'' :: Resume(run[k], s'', v, f, p) ==> !run[k].threads[v].expired
  {
    RunSafe(run, i);
    assert ThreadOk(run[i], t) && PipeOk(run[i], p) && FiberOk(run[i], g);
    StaysUnlisted(run, i, j, p);
    BlocksWithLimit(run, j, u, f, p, seconds);
    UnlistedNeverTimesOut(run, j + 1, k, p, f);
    forall s'' | Resume(run[k], s'', v, f, p)
      ensures !run[k].threads[v].expired
    {
      TimeoutOnlyFromSweep(run, k, s'', v, f, p);
    }
  }

  // The sweep that ended in step k has picked the pipe.
  ghost predicate PickedAt(run: seq<State>, k: nat, p: Pid) {
    k + 1 < |run| && PickedBy(run[k], run[k + 1], p)
  }

  ghost predicate PickedBy(s: State, s': State, p: Pid) {
    exists t :: EndSweep(s, s', t) && Picked(s', t, p)
  }

  predicate Picked(s: State, t: Tid, p: Pid) {
    t < |s.threads| && p in s.threads[t].due
  }

  lemma UnlistedByPicking(s: State, s': State, p: Pid)
    requires Advances(s, s') && p < |s'.pipes|
    ensures p < |s.pipes| && (s.pipes[p].listed && !s'.pipes[p].listed ==> PickedBy(s, s', p))
  {
    var t, f, q, n :| Step(s, s', t, f, q, n);
    StepKeepsLimit(s, s', t, f, q, n, p);
    if s.pipes[p].listed && !s'.pipes[p].listed {
      OnlyPickingUnlists(s, s', t, f, q, n, p);
    }
  }

  lemma OnlyPickingUnlists(s: State, s': State, t: Tid, f: Fid, q: Pid, n: nat, p: Pid)
    requires Step(s, s', t, f, q, n) && p < |s.pipes| == |s'.pipes| && s.pipes[p].listed && !s'.pipes[p].listed
    ensures EndSweep(s, s', t) && Picked(s', t, p)
  {
  }

  lemma UnlistedInStep(run: seq<State>, i: nat, p: Pid)
    requires Run(run) && 0 < i < |run| && p < |run[i].pipes|
    ensures p < |run[i - 1].pipes| && (run[i - 1].pipes[p].listed ==> run[i].pipes[p].listed || PickedAt(run, i - 1, p))
  {
    assert Advances(run[i - 1], run[i]);
    UnlistedByPicking(run[i - 1], run[i], p);
  }

  /** A pipe is out of the list only if a sweep has picked it before. */
  lemma {:induction false} ListedUntilPicked(run: seq<State>, i: nat, p: Pid)
    requires Run(run) && i < |run| && p < |run[i].pipes|
    ensures run[i].pipes[p].listed || exists k: nat :: k < i && PickedAt(run, k, p)
  {
    if i > 0 {
      UnlistedInStep(run, i, p);
      ListedUntilPicked(run, i - 1, p);
    }
  }
}
