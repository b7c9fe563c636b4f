/** Fibers, their threads, and every list a fiber can be on: one step relation over any number
    of fibers, threads, mutexes, condition variables and pipes.  Mutexes take the steps of
    AbstractMutex, which the atomic counter refines (FiberMutexProtocol.StepRefines). */
module FiberScheduler {
  import opened Wrappers
  import opened AbstractMutex

  type Tid = nat
  type Mid = nat
  type Cid = nat
  type Pid = nat

  // params->opcode_ and its argument: what a fiber asks the parent to finish for it.
  datatype Opcode =
    | OcIo(p: Pid)
    | OcMutexSuspend(m: Mid)
    | OcCondWait(c: Cid)
    | OcSleep
    | OcExitFiber

  // What a thread is doing: in epoll_wait, in the loop of wake_all between two fibers, running
  // a fiber, or back in the loop with the opcode of the fiber that has just switched out.
  datatype Mode = Idle | Loop | Running(f: Fid) | Handling(f: Fid, op: Opcode)

  // parents: the fibers that called in_fiber_start on this thread and act as parents there.
  datatype Thread = Thread(mode: Mode, parents: seq<Fid>)

  // Where a fiber executes.  Leaves: switched out, opcode not handled yet.  Off: not at all.
  datatype Exec = Runs(t: Tid) | Parents(t: Tid) | Leaves(t: Tid) | Off

  // The list a fiber is on: a thread's wake_head_, a mutex's or condition's wait list, the
  // io_fiber_ of a pipe, or the timer's tasks.
  datatype Place = Nowhere | OnWake(t: Tid) | OnMutex(m: Mid) | OnCond(c: Cid) | OnPipe(p: Pid) | OnTimer

  // What a fiber is inside of: fiber_mutex::lock, fiber_cond::wait, or its last switch.
  datatype Pc = Free | Locking(m: Mid) | Waiting(c: Cid) | Exiting

  datatype Fiber = Fiber(exec: Exec, place: Place, pc: Pc, suspensions: nat, resumptions: nat)

  // A mutex without its wait list, which is lists[OnMutex(m)].
  datatype Lock = Lock(holder: Option<Fid>, enqueuer: Option<Fid>)

  datatype State = State(
    threads: map<Tid, Thread>,
    lists: map<Place, seq<Fid>>,
    locks: map<Mid, Lock>,
    mutexOf: map<Cid, Mid>,
    armed: map<Pid, bool>,   // the parent has armed the pipe, and nothing has woken its fiber since
    fibers: map<Fid, Fiber>,
    pending: set<Fid>,       // run_in_fiber commands that no thread has taken yet
    numRunning: int)

  // --- helpers for the steps ---

  ghost predicate HasThread(s: State, t: Tid) {
    t in s.threads && OnWake(t) in s.lists
  }

  ghost predicate HasMutex(s: State, m: Mid) {
    m in s.locks && OnMutex(m) in s.lists
  }

  function MutexAt(s: State, m: Mid): Mutex
    requires m in s.locks && OnMutex(m) in s.lists
  {
    Mutex(s.locks[m].holder, s.locks[m].enqueuer, s.lists[OnMutex(m)])
  }

  function SetMutex(s: State, m: Mid, mu: Mutex): State {
    s.(locks := s.locks[m := Lock(mu.holder, mu.enqueuer)], lists := s.lists[OnMutex(m) := mu.waiters])
  }

  // The fiber running on t.
  ghost predicate Current(s: State, t: Tid, f: Fid) {
    && HasThread(s, t) && s.threads[t].mode == Running(f)
    && f in s.fibers
  }

  // ... on no list, and inside neither lock nor wait.
  ghost predicate Runner(s: State, t: Tid, f: Fid) {
    Current(s, t, f) && s.fibers[f].place == Nowhere && s.fibers[f].pc == Free
  }

  ghost predicate Wants(s: State, pc: Pc, m: Mid) {
    match pc
    case Free => true
    case Locking(m') => m' == m
    case Waiting(c) => c in s.mutexOf && s.mutexOf[c] == m
    case Exiting => false
  }

  ghost predicate Holds(s: State, f: Fid, m: Mid) {
    m in s.locks && s.locks[m].holder == Some(f)
  }

  ghost predicate HoldsFor(s: State, f: Fid, c: Cid) {
    c in s.mutexOf && Holds(s, f, s.mutexOf[c])
  }

  // The fibers of moved, in their order, go from list pl to the front of t's wake list.
  function Wake(s: State, t: Tid, pl: Place, moved: seq<Fid>, rest: seq<Fid>): State
    requires OnWake(t) in s.lists
  {
    s.(lists := s.lists[pl := rest][OnWake(t) := moved + s.lists[OnWake(t)]],
       fibers := map f | f in s.fibers :: if f in moved then s.fibers[f].(place := OnWake(t)) else s.fibers[f])
  }

  // f switches to the parent with opcode op.
  function SwitchOut(s: State, t: Tid, f: Fid, op: Opcode): State
    requires t in s.threads && f in s.fibers
  {
    s.(threads := s.threads[t := s.threads[t].(mode := Handling(f, op))],
       fibers := s.fibers[f := s.fibers[f].(exec := Leaves(t), suspensions := s.fibers[f].suspensions + 1)])
  }

  // The parent is done with f's opcode and goes round the loop.
  function LetGo(s: State, t: Tid, f: Fid): State
    requires t in s.threads && f in s.fibers
  {
    s.(threads := s.threads[t := s.threads[t].(mode := Loop)], fibers := s.fibers[f := s.fibers[f].(exec := Off)])
  }

  ghost predicate Handles(s: State, t: Tid, f: Fid, op: Opcode) {
    HasThread(s, t) && s.threads[t].mode == Handling(f, op) && f in s.fibers
  }

  // --- the steps ---

  // run_in_fiber
  ghost predicate Submit(s: State, s': State, f: Fid) {
    && f !in s.fibers && f !in s.pending
    && s' == s.(pending := s.pending + {f}, numRunning := s.numRunning + 1)
  }

  // an idle thread takes a run_in_fiber command: wake_all on the new fiber
  ghost predicate Start(s: State, s': State, t: Tid, f: Fid) {
    && HasThread(s, t) && s.threads[t].mode == Idle && f in s.pending && f !in s.fibers
    && s' == s.(pending := s.pending - {f},
                threads := s.threads[t := s.threads[t].(mode := Loop)],
                lists := s.lists[OnWake(t) := [f] + s.lists[OnWake(t)]],
                fibers := s.fibers[f := Fiber(Off, OnWake(t), Free, 1, 0)])
  }

  // a fiber object built by the running fiber g: in_fiber_start makes g the parent
  ghost predicate StartNested(s: State, s': State, t: Tid, g: Fid, f: Fid) {
    && Runner(s, t, g) && f !in s.fibers && f !in s.pending
    && s' == s.(threads := s.threads[t := Thread(Loop, s.threads[t].parents + [g])],
                lists := s.lists[OnWake(t) := [f] + s.lists[OnWake(t)]],
                fibers := s.fibers[g := s.fibers[g].(exec := Parents(t))][f := Fiber(Off, OnWake(t), Free, 1, 0)],
                numRunning := s.numRunning + 1)
  }

  // wake_all takes the head of its list and switches to it
  ghost predicate Resume(s: State, s': State, t: Tid, f: Fid) {
    && HasThread(s, t) && s.threads[t].mode == Loop && s.lists[OnWake(t)] != [] && f == s.lists[OnWake(t)][0]
    && f in s.fibers
    && s' == s.(threads := s.threads[t := s.threads[t].(mode := Running(f))],
                lists := s.lists[OnWake(t) := s.lists[OnWake(t)][1..]],
                fibers := s.fibers[f := s.fibers[f].(exec := Runs(t), place := Nowhere,
                                                     resumptions := s.fibers[f].resumptions + 1)])
  }

  ghost predicate LoopEnd(s: State, s': State, t: Tid) {
    && HasThread(s, t) && s.threads[t] == Thread(Loop, []) && s.lists[OnWake(t)] == []
    && s' == s.(threads := s.threads[t := Thread(Idle, [])])
  }

  // a nested wake_all returns to the fiber that acted as the parent
  ghost predicate NestedLoopEnd(s: State, s': State, t: Tid, g: Fid) {
    && HasThread(s, t) && s.threads[t].mode == Loop && s.lists[OnWake(t)] == []
    && var parents := s.threads[t].parents;
    && parents != [] && g == parents[|parents| - 1] && g in s.fibers
    && s' == s.(threads := s.threads[t := Thread(Running(g), parents[..|parents| - 1])],
                fibers := s.fibers[g := s.fibers[g].(exec := Runs(t))])
  }

  // an idle thread learns that the fiber at index i of list pl can go on: a pipe's event or a
  // timer task
  ghost predicate Event(s: State, s': State, t: Tid, pl: Place, i: nat) {
    && HasThread(s, t) && s.threads[t].mode == Idle && pl in s.lists && i < |s.lists[pl]|
    && (pl.OnTimer? || (pl.OnPipe? && pl.p in s.armed && s.armed[pl.p]))
    && var s1 := Wake(s, t, pl, [s.lists[pl][i]], s.lists[pl][..i] + s.lists[pl][i + 1..]);
       s' == s1.(threads := s.threads[t := s.threads[t].(mode := Loop)],
                 armed := if pl.OnPipe? then s.armed[pl.p := false] else s.armed)
  }

  // The at-rest function of a sweep wakes the fiber of a pipe.  Whether it is the event or the
  // timeout that comes is settled in TimeoutSweep: one of them does, and never both.
  ghost predicate TimeOut(s: State, s': State, t: Tid, p: Pid) {
    Event(s, s', t, OnPipe(p), 0)
  }

  ghost predicate LockMutex(s: State, s': State, t: Tid, m: Mid, f: Fid, mu: Mutex) {
    && Current(s, t, f) && s.fibers[f].place == Nowhere && HasMutex(s, m) && Wants(s, s.fibers[f].pc, m)
    && Acquire(MutexAt(s, m), mu, f)
    && s' == SetMutex(s, m, mu).(fibers := s.fibers[f := s.fibers[f].(pc := Free)])
  }

  ghost predicate LinkMutex(s: State, s': State, t: Tid, m: Mid, f: Fid, mu: Mutex) {
    && Current(s, t, f) && s.fibers[f].place == Nowhere && HasMutex(s, m) && Wants(s, s.fibers[f].pc, m)
    && Link(MutexAt(s, m), mu, f) && !Holds(s, f, m)
    && s' == SetMutex(s, m, mu).(fibers := s.fibers[f :=
               s.fibers[f].(place := OnMutex(m), pc := if s.fibers[f].pc == Free then Locking(m) else s.fibers[f].pc)])
  }

  ghost predicate SwitchFromMutex(s: State, s': State, t: Tid, f: Fid) {
    && Current(s, t, f) && s.fibers[f].place.OnMutex?
    && s' == SwitchOut(s, t, f, OcMutexSuspend(s.fibers[f].place.m))
  }

  ghost predicate UnlockMutex(s: State, s': State, t: Tid, m: Mid, f: Fid) {
    && Runner(s, t, f) && HasMutex(s, m) && Release(MutexAt(s, m), FREE, f)
    && s' == Wake(SetMutex(s, m, FREE), t, OnMutex(m), s.lists[OnMutex(m)], [])
  }

  ghost predicate LinkCond(s: State, s': State, t: Tid, c: Cid, f: Fid) {
    && Runner(s, t, f) && HoldsFor(s, f, c) && OnCond(c) in s.lists
    && s' == s.(lists := s.lists[OnCond(c) := s.lists[OnCond(c)] + [f]],
                fibers := s.fibers[f := s.fibers[f].(place := OnCond(c), pc := Waiting(c))])
  }

  ghost predicate SwitchFromCond(s: State, s': State, t: Tid, f: Fid) {
    && Current(s, t, f) && s.fibers[f].place.OnCond?
    && s' == SwitchOut(s, t, f, OcCondWait(s.fibers[f].place.c))
  }

  // notify_one with k == 1, notify_all with k == |s.lists[OnCond(c)]|; the notifier holds the mutex
  ghost predicate Notify(s: State, s': State, t: Tid, c: Cid, k: nat, f: Fid) {
    && Runner(s, t, f) && HoldsFor(s, f, c) && OnCond(c) in s.lists
    && k <= |s.lists[OnCond(c)]| && (k == 1 || k == |s.lists[OnCond(c)]|)
    && s' == Wake(s, t, OnCond(c), s.lists[OnCond(c)][..k], s.lists[OnCond(c)][k..])
  }

  ghost predicate BlockOnPipe(s: State, s': State, t: Tid, p: Pid, f: Fid) {
    && Runner(s, t, f) && p in s.armed && OnPipe(p) in s.lists && s.lists[OnPipe(p)] == []
    && s' == SwitchOut(s.(lists := s.lists[OnPipe(p) := [f]], fibers := s.fibers[f := s.fibers[f].(place := OnPipe(p))]),
                       t, f, OcIo(p))
  }

  ghost predicate Sleep(s: State, s': State, t: Tid, f: Fid) {
    Runner(s, t, f) && OnTimer in s.lists && s' == SwitchOut(s, t, f, OcSleep)
  }

  ghost predicate Exit(s: State, s': State, t: Tid, f: Fid) {
    && Runner(s, t, f) && (forall m :: !Holds(s, f, m))
    && s' == SwitchOut(s.(fibers := s.fibers[f := s.fibers[f].(pc := Exiting)]), t, f, OcExitFiber)
  }

  ghost predicate HandleIo(s: State, s': State, t: Tid, p: Pid, f: Fid) {
    Handles(s, t, f, OcIo(p)) && s' == LetGo(s, t, f).(armed := s.armed[p := true])
  }

  ghost predicate HandleMutexSuspend(s: State, s': State, t: Tid, m: Mid, f: Fid, mu: Mutex) {
    && Handles(s, t, f, OcMutexSuspend(m)) && HasMutex(s, m) && Park(MutexAt(s, m), mu, f)
    && s' == SetMutex(LetGo(s, t, f), m, mu)
  }

  // cond_mutex_->unlock(), run by the parent
  ghost predicate HandleCondWait(s: State, s': State, t: Tid, c: Cid, m: Mid, f: Fid) {
    && Handles(s, t, f, OcCondWait(c)) && c in s.mutexOf && s.mutexOf[c] == m && HasMutex(s, m)
    && Release(MutexAt(s, m), FREE, f)
    && s' == Wake(SetMutex(LetGo(s, t, f), m, FREE), t, OnMutex(m), s.lists[OnMutex(m)], [])
  }

  ghost predicate HandleSleep(s: State, s': State, t: Tid, f: Fid) {
    && Handles(s, t, f, OcSleep) && OnTimer in s.lists
    && s' == s.(threads := s.threads[t := s.threads[t].(mode := Loop)],
                lists := s.lists[OnTimer := s.lists[OnTimer] + [f]],
                fibers := s.fibers[f := s.fibers[f].(exec := Off, place := OnTimer)])
  }

  ghost predicate HandleExit(s: State, s': State, t: Tid, f: Fid) {
    && Handles(s, t, f, OcExitFiber)
    && s' == s.(threads := s.threads[t := s.threads[t].(mode := Loop)], fibers := s.fibers - {f},
                numRunning := s.numRunning - 1)
  }

  datatype Label =
    | Submitted(f: Fid)
    | Started(t: Tid, f: Fid)
    | StartedNested(t: Tid, g: Fid, f: Fid)
    | Resumed(t: Tid, f: Fid)
    | LoopEnded(t: Tid)
    | NestedLoopEnded(t: Tid, g: Fid)
    | Evented(t: Tid, pl: Place, i: nat)
    | TimedOut(t: Tid, p: Pid)
    | Locked(t: Tid, m: Mid, f: Fid, mu: Mutex)
    | LinkedMutex(t: Tid, m: Mid, f: Fid, mu: Mutex)
    | SwitchedFromMutex(t: Tid, f: Fid)
    | Unlocked(t: Tid, m: Mid, f: Fid)
    | LinkedCond(t: Tid, c: Cid, f: Fid)
    | SwitchedFromCond(t: Tid, f: Fid)
    | Notified(t: Tid, c: Cid, k: nat, f: Fid)
    | Blocked(t: Tid, p: Pid, f: Fid)
    | Slept(t: Tid, f: Fid)
    | Exited(t: Tid, f: Fid)
    | HandledIo(t: Tid, p: Pid, f: Fid)
    | HandledMutexSuspend(t: Tid, m: Mid, f: Fid, mu: Mutex)
    | HandledCondWait(t: Tid, c: Cid, m: Mid, f: Fid)
    | HandledSleep(t: Tid, f: Fid)
    | HandledExit(t: Tid, f: Fid)

  ghost predicate StartStep(s: State, s': State, l: Label) {
    match l
    case Submitted(f) => Submit(s, s', f)
    case Started(t, f) => Start(s, s', t, f)
    case StartedNested(t, g, f) => StartNested(s, s', t, g, f)
    case _ => false
  }

  ghost predicate LoopStep(s: State, s': State, l: Label) {
    match l
    case Resumed(t, f) => Resume(s, s', t, f)
    case LoopEnded(t) => LoopEnd(s, s', t)
    case NestedLoopEnded(t, g) => NestedLoopEnd(s, s', t, g)
    case _ => false
  }

  ghost predicate LinkStep(s: State, s': State, l: Label) {
    match l
    case Locked(t, m, f, mu) => LockMutex(s, s', t, m, f, mu)
    case LinkedMutex(t, m, f, mu) => LinkMutex(s, s', t, m, f, mu)
    case LinkedCond(t, c, f) => LinkCond(s, s', t, c, f)
    case Blocked(t, p, f) => BlockOnPipe(s, s', t, p, f)
    case _ => false
  }

  ghost predicate SwitchStep(s: State, s': State, l: Label) {
    match l
    case SwitchedFromMutex(t, f) => SwitchFromMutex(s, s', t, f)
    case SwitchedFromCond(t, f) => SwitchFromCond(s, s', t, f)
    case Slept(t, f) => Sleep(s, s', t, f)
    case Exited(t, f) => Exit(s, s', t, f)
    case _ => false
  }

  ghost predicate HandleStep(s: State, s': State, l: Label) {
    match l
    case HandledIo(t, p, f) => HandleIo(s, s', t, p, f)
    case HandledMutexSuspend(t, m, f, mu) => HandleMutexSuspend(s, s', t, m, f, mu)
    case HandledSleep(t, f) => HandleSleep(s, s', t, f)
    case HandledExit(t, f) => HandleExit(s, s', t, f)
    case _ => false
  }

  ghost predicate WakeStep(s: State, s': State, l: Label) {
    match l
    case Evented(t, pl, i) => Event(s, s', t, pl, i)
    case TimedOut(t, p) => TimeOut(s, s', t, p)
    case Notified(t, c, k, f) => Notify(s, s', t, c, k, f)
    case _ => false
  }

  ghost predicate ReleaseStep(s: State, s': State, l: Label) {
    match l
    case Unlocked(t, m, f) => UnlockMutex(s, s', t, m, f)
    case HandledCondWait(t, c, m, f) => HandleCondWait(s, s', t, c, m, f)
    case _ => false
  }

  ghost predicate Step(s: State, s': State, l: Label) {
    || StartStep(s, s', l) || LoopStep(s, s', l) || LinkStep(s, s', l) || SwitchStep(s, s', l) || HandleStep(s, s', l)
    || WakeStep(s, s', l) || ReleaseStep(s, s', l)
  }

  // --- the invariant, one predicate per pair of things it links ---

  // How where a fiber executes, the list it is on and its program counter go together.
  ghost predicate Shape(s: State, fb: Fiber) {
    && (fb.exec.Off? ==> fb.place != Nowhere)
    && (fb.exec.Parents? ==> fb.place == Nowhere && fb.pc == Free)
    && (fb.exec.Runs? ==> fb.place.Nowhere? || fb.place.OnMutex? || fb.place.OnCond?)
    && (fb.place.OnWake? || fb.place.OnTimer? ==> fb.exec.Off?)
    && (fb.place.OnMutex? ==> fb.pc != Free && Wants(s, fb.pc, fb.place.m))
    && (fb.place.OnCond? ==> fb.pc == Waiting(fb.place.c))
    && (fb.place.OnPipe? || fb.place.OnTimer? ==> fb.pc == Free)
    && (fb.pc.Exiting? ==> fb.exec.Leaves?)
    && fb.suspensions == fb.resumptions + (if fb.exec.Off? || fb.exec.Leaves? then 1 else 0)
  }

  ghost predicate FiberOk(s: State, f: Fid) {
    f in s.fibers ==> Shape(s, s.fibers[f]) && f !in s.pending
  }

  ghost predicate ListOk(s: State, pl: Place) {
    pl in s.lists ==> pl != Nowhere && Distinct(s.lists[pl]) && (pl.OnPipe? ==> |s.lists[pl]| <= 1)
  }

  // A list holds exactly the fibers whose place it is.
  ghost predicate OnListOk(s: State, f: Fid, pl: Place) {
    && (pl in s.lists ==> (f in s.lists[pl] <==> f in s.fibers && s.fibers[f].place == pl))
    && (f in s.fibers && s.fibers[f].place == pl && pl != Nowhere ==> pl in s.lists)
  }

  ghost predicate OpcodeFits(op: Opcode, fb: Fiber) {
    match op
    case OcIo(p) => fb.place == OnPipe(p)
    case OcMutexSuspend(m) => fb.place == OnMutex(m)
    case OcCondWait(c) => fb.place == OnCond(c)
    case OcSleep => fb.place == Nowhere && fb.pc == Free
    case OcExitFiber => fb.place == Nowhere && fb.pc == Exiting
  }

  // A thread executes exactly the fibers that say so.
  ghost predicate ExecutesOk(s: State, f: Fid, t: Tid) {
    if t in s.threads then
      var th := s.threads[t];
      && (th.mode == Running(f) <==> f in s.fibers && s.fibers[f].exec == Runs(t))
      && (f in th.parents <==> f in s.fibers && s.fibers[f].exec == Parents(t))
      && (th.mode.Handling? && th.mode.f == f <==> f in s.fibers && s.fibers[f].exec == Leaves(t))
      && (th.mode.Handling? && th.mode.f == f ==> OpcodeFits(th.mode.op, s.fibers[f]))
    else
      f in s.fibers ==> s.fibers[f].exec !in {Runs(t), Parents(t), Leaves(t)}
  }

  ghost predicate ThreadOk(s: State, t: Tid) {
    && (t in s.threads ==> Distinct(s.threads[t].parents))
    && (HasThread(s, t) && s.threads[t].mode.Idle? ==> s.threads[t].parents == [] && s.lists[OnWake(t)] == [])
  }

  ghost predicate MutexOk(s: State, m: Mid) {
    HasMutex(s, m) && s.locks[m].holder.None? ==> MutexAt(s, m) == FREE
  }

  ghost predicate OnMutexOk(s: State, f: Fid, m: Mid) {
    && (f in s.fibers && s.fibers[f].place == OnMutex(m) ==>
          m in s.locks && (s.fibers[f].exec != Off <==> s.locks[m].enqueuer == Some(f)))
    && (m in s.locks && s.locks[m].enqueuer == Some(f) ==> f in s.fibers && s.fibers[f].place == OnMutex(m))
    && (Holds(s, f, m) ==> f in s.fibers && s.fibers[f].pc != Locking(m) && s.fibers[f].pc != Exiting)
  }

  // A fiber inside wait holds the mutex exactly as long as its switch out is not complete.
  ghost predicate InWaitOk(s: State, f: Fid, c: Cid) {
    f in s.fibers && s.fibers[f].pc == Waiting(c) ==>
      c in s.mutexOf && (HoldsFor(s, f, c) <==> s.fibers[f].place == OnCond(c) && s.fibers[f].exec != Off)
  }

  ghost predicate OnPipeOk(s: State, f: Fid, p: Pid) {
    f in s.fibers && s.fibers[f].place == OnPipe(p) ==>
      p in s.armed && (s.fibers[f].exec == Off <==> s.armed[p])
  }

  ghost predicate PipeOk(s: State, p: Pid) {
    p in s.armed && s.armed[p] ==> OnPipe(p) in s.lists && s.lists[OnPipe(p)] != []
  }

  ghost predicate CountOk(s: State) {
    s.numRunning == |s.fibers| + |s.pending|
  }

  // One thing of each sort to look at.
  datatype View = View(f: Fid := 0, pl: Place := Nowhere, t: Tid := 0, m: Mid := 0, c: Cid := 0, p: Pid := 0)

  ghost predicate Ok(s: State, v: View) {
    && FiberOk(s, v.f) && ListOk(s, v.pl) && OnListOk(s, v.f, v.pl) && ExecutesOk(s, v.f, v.t) && ThreadOk(s, v.t)
    && MutexOk(s, v.m) && OnMutexOk(s, v.f, v.m) && InWaitOk(s, v.f, v.c) && OnPipeOk(s, v.f, v.p) && PipeOk(s, v.p)
  }

  ghost predicate Inv(s: State) {
    (forall v: View :: Ok(s, v)) && CountOk(s)
  }

  // --- every step keeps the invariant ---

  // The fiber that a step is about.
  function Actor(s: State, l: Label): Fid {
    match l
    case StartedNested(_, g, _) => g
    case LoopEnded(_) => 0
    case NestedLoopEnded(_, g) => g
    case Evented(_, pl, i) => if pl in s.lists && i < |s.lists[pl]| then s.lists[pl][i] else 0
    case TimedOut(_, p) => if OnPipe(p) in s.lists && s.lists[OnPipe(p)] != [] then s.lists[OnPipe(p)][0] else 0
    case _ => l.f
  }

  // The list it is about, besides the thread's wake list.
  function Source(l: Label): Place {
    match l
    case Evented(_, pl, _) => pl
    case TimedOut(_, p) => OnPipe(p)
    case LinkedMutex(_, m, _, _) => OnMutex(m)
    case Unlocked(_, m, _) => OnMutex(m)
    case HandledCondWait(_, _, m, _) => OnMutex(m)
    case LinkedCond(_, c, _) => OnCond(c)
    case Notified(_, c, _, _) => OnCond(c)
    case Blocked(_, p, _) => OnPipe(p)
    case HandledIo(_, p, _) => OnPipe(p)
    case HandledSleep(_, _) => OnTimer
    case _ => Nowhere
  }

  // What the invariant says of fiber f and the things the step touches.
  ghost predicate Touched(s: State, l: Label, f: Fid) {
    && FiberOk(s, f) && OnListOk(s, f, Source(l)) && ListOk(s, Source(l))
    && (!l.Submitted? ==> ExecutesOk(s, f, l.t) && ThreadOk(s, l.t) && OnListOk(s, f, OnWake(l.t)) && ListOk(s, OnWake(l.t)))
    && (Source(l).OnMutex? ==> OnMutexOk(s, f, Source(l).m) && MutexOk(s, Source(l).m))
    && (Source(l).OnCond? ==> InWaitOk(s, f, Source(l).c))
    && (Source(l).OnPipe? ==> OnPipeOk(s, f, Source(l).p) && PipeOk(s, Source(l).p))
  }

  lemma About(s: State, l: Label, f: Fid)
    requires Inv(s)
    ensures Touched(s, l, f)
  {
    var src := Source(l);
    assert Ok(s, View(f, src));
    if !l.Submitted? {
      assert Ok(s, View(f, OnWake(l.t), l.t));
    }
    match src
    case OnMutex(m) => assert Ok(s, View(f := f, m := m));
    case OnCond(c) => assert Ok(s, View(f := f, c := c));
    case OnPipe(p) => assert Ok(s, View(f := f, p := p));
    case _ =>
  }

  lemma RemoveDistinct(l: seq<Fid>, i: nat)
    requires i < |l| && Distinct(l)
    ensures Distinct(l[..i] + l[i + 1..])
    ensures forall f :: f in l[..i] + l[i + 1..] <==> f in l && f != l[i]
  {
    forall f | f in l && f != l[i]
      ensures f in l[..i] + l[i + 1..]
    {
      var j :| 0 <= j < |l| && l[j] == f;
      assert f == if j < i then l[..i][j] else l[i + 1..][j - i - 1];
    }
  }

  // Splicing the front of one list before another repeats no fiber: they have none in common.
  lemma SpliceDistinct(s: State, t: Tid, pl: Place, moved: seq<Fid>)
    requires Inv(s) && pl in s.lists && OnWake(t) in s.lists && pl != OnWake(t) && moved <= s.lists[pl]
    ensures Distinct(moved + s.lists[OnWake(t)])
  {
    assert Ok(s, View(pl := pl)) && Ok(s, View(pl := OnWake(t)));
    var l := moved + s.lists[OnWake(t)];
    forall i, j | 0 <= i < j < |l|
      ensures l[i] != l[j]
    {
      assert Ok(s, View(l[i], pl)) && Ok(s, View(l[i], OnWake(t)));
    }
  }

  // What the invariant says of a view, and of the same view of the fiber the step is about.
  ghost predicate Known(s: State, l: Label, v: View) {
    Ok(s, v) && Touched(s, l, v.f) && Ok(s, v.(f := Actor(s, l))) && Touched(s, l, Actor(s, l))
  }

  lemma IsKnown(s: State, l: Label, v: View)
    requires Inv(s)
    ensures Known(s, l, v)
  {
    About(s, l, v.f);
    About(s, l, Actor(s, l));
  }

  lemma StartKeepsLists(s: State, s': State, l: Label, v: View)
    requires Known(s, l, v) && StartStep(s, s', l)
    requires Touched(s, l, l.f)
    ensures ListOk(s', v.pl)
  {
  }

  lemma StartKeepsFibers(s: State, s': State, l: Label, v: View)
    requires Known(s, l, v) && StartStep(s, s', l)
    ensures FiberOk(s', v.f) && OnListOk(s', v.f, v.pl)
  {
  }

  lemma StartKeepsThreads(s: State, s': State, l: Label, v: View)
    requires Known(s, l, v) && StartStep(s, s', l)
    ensures ExecutesOk(s', v.f, v.t) && ThreadOk(s', v.t) && PipeOk(s', v.p) && OnPipeOk(s', v.f, v.p)
  {
  }

  lemma StartKeepsMutexes(s: State, s': State, l: Label, v: View)
    requires Known(s, l, v) && StartStep(s, s', l)
    ensures MutexOk(s', v.m) && OnMutexOk(s', v.f, v.m) && InWaitOk(s', v.f, v.c)
  {
  }

  lemma LoopKeepsLists(s: State, s': State, l: Label, v: View)
    requires Known(s, l, v) && LoopStep(s, s', l)
    ensures ListOk(s', v.pl)
  {
  }

  lemma LoopKeepsFibers(s: State, s': State, l: Label, v: View)
    requires Known(s, l, v) && LoopStep(s, s', l)
    ensures FiberOk(s', v.f) && OnListOk(s', v.f, v.pl)
  {
  }

  lemma LoopKeepsThreads(s: State, s': State, l: Label, v: View)
    requires Known(s, l, v) && LoopStep(s, s', l)
    ensures ExecutesOk(s', v.f, v.t) && ThreadOk(s', v.t) && PipeOk(s', v.p) && OnPipeOk(s', v.f, v.p)
  {
  }

  lemma LoopKeepsMutexes(s: State, s': State, l: Label, v: View)
    requires Known(s, l, v) && LoopStep(s, s', l)
    ensures MutexOk(s', v.m) && OnMutexOk(s', v.f, v.m) && InWaitOk(s', v.f, v.c)
  {
  }

  lemma LinkKeepsLists(s: State, s': State, l: Label, v: View)
    requires Known(s, l, v) && LinkStep(s, s', l)
    ensures ListOk(s', v.pl)
  {
  }

  lemma LinkKeepsFibers(s: State, s': State, l: Label, v: View)
    requires Known(s, l, v) && LinkStep(s, s', l)
    ensures FiberOk(s', v.f) && OnListOk(s', v.f, v.pl)
  {
  }

  lemma LinkKeepsThreads(s: State, s': State, l: Label, v: View)
    requires Known(s, l, v) && LinkStep(s, s', l)
    ensures ExecutesOk(s', v.f, v.t) && ThreadOk(s', v.t) && PipeOk(s', v.p) && OnPipeOk(s', v.f, v.p)
  {
  }

  lemma LinkKeepsMutexes(s: State, s': State, l: Label, v: View)
    requires Known(s, l, v) && LinkStep(s, s', l)
    ensures MutexOk(s', v.m) && OnMutexOk(s', v.f, v.m) && InWaitOk(s', v.f, v.c)
  {
  }

  lemma SwitchKeepsLists(s: State, s': State, l: Label, v: View)
    requires Known(s, l, v) && SwitchStep(s, s', l)
    ensures ListOk(s', v.pl)
  {
  }

  lemma SwitchKeepsFibers(s: State, s': State, l: Label, v: View)
    requires Known(s, l, v) && SwitchStep(s, s', l)
    ensures FiberOk(s', v.f) && OnListOk(s', v.f, v.pl)
  {
  }

  lemma SwitchKeepsThreads(s: State, s': State, l: Label, v: View)
    requires Known(s, l, v) && SwitchStep(s, s', l)
    ensures ExecutesOk(s', v.f, v.t) && ThreadOk(s', v.t) && PipeOk(s', v.p) && OnPipeOk(s', v.f, v.p)
  {
  }

  lemma SwitchKeepsMutexes(s: State, s': State, l: Label, v: View)
    requires Known(s, l, v) && SwitchStep(s, s', l)
    ensures MutexOk(s', v.m) && OnMutexOk(s', v.f, v.m) && InWaitOk(s', v.f, v.c)
  {
    assert l.Exited? ==> !Holds(s, Actor(s, l), v.m);
  }

  lemma HandleKeepsLists(s: State, s': State, l: Label, v: View)
    requires Known(s, l, v) && HandleStep(s, s', l)
    ensures ListOk(s', v.pl)
  {
  }

  lemma HandleKeepsFibers(s: State, s': State, l: Label, v: View)
    requires Known(s, l, v) && HandleStep(s, s', l)
    ensures FiberOk(s', v.f) && OnListOk(s', v.f, v.pl)
  {
  }

  lemma HandleKeepsThreads(s: State, s': State, l: Label, v: View)
    requires Known(s, l, v) && HandleStep(s, s', l)
    ensures ExecutesOk(s', v.f, v.t) && ThreadOk(s', v.t) && PipeOk(s', v.p) && OnPipeOk(s', v.f, v.p)
  {
  }

  lemma HandleKeepsMutexes(s: State, s': State, l: Label, v: View)
    requires Known(s, l, v) && HandleStep(s, s', l)
    ensures MutexOk(s', v.m) && OnMutexOk(s', v.f, v.m) && InWaitOk(s', v.f, v.c)
  {
  }

  lemma WakeKeepsLists(s: State, s': State, l: Label, v: View)
    requires Known(s, l, v) && WakeStep(s, s', l)
    requires Inv(s)
    ensures ListOk(s', v.pl)
  {
    if l.Evented? {
      RemoveDistinct(s.lists[l.pl], l.i);
    } else if l.TimedOut? {
      RemoveDistinct(s.lists[OnPipe(l.p)], 0);
    } else {
      SpliceDistinct(s, l.t, OnCond(l.c), s.lists[OnCond(l.c)][..l.k]);
    }
  }

  lemma WakeKeepsFibers(s: State, s': State, l: Label, v: View)
    requires Known(s, l, v) && WakeStep(s, s', l)
    ensures FiberOk(s', v.f) && OnListOk(s', v.f, v.pl)
  {
  }

  lemma WakeKeepsThreads(s: State, s': State, l: Label, v: View)
    requires Known(s, l, v) && WakeStep(s, s', l)
    ensures ExecutesOk(s', v.f, v.t) && ThreadOk(s', v.t) && PipeOk(s', v.p) && OnPipeOk(s', v.f, v.p)
  {
  }

  lemma WakeKeepsMutexes(s: State, s': State, l: Label, v: View)
    requires Known(s, l, v) && WakeStep(s, s', l)
    ensures MutexOk(s', v.m) && OnMutexOk(s', v.f, v.m) && InWaitOk(s', v.f, v.c)
  {
  }

  lemma ReleaseKeepsLists(s: State, s': State, l: Label, v: View)
    requires Known(s, l, v) && ReleaseStep(s, s', l)
    requires Inv(s)
    ensures ListOk(s', v.pl)
  {
    SpliceDistinct(s, l.t, OnMutex(l.m), s.lists[OnMutex(l.m)]);
  }

  lemma ReleaseKeepsFibers(s: State, s': State, l: Label, v: View)
    requires Known(s, l, v) && ReleaseStep(s, s', l)
    ensures FiberOk(s', v.f) && OnListOk(s', v.f, v.pl)
  {
  }

  lemma ReleaseKeepsThreads(s: State, s': State, l: Label, v: View)
    requires Known(s, l, v) && ReleaseStep(s, s', l)
    ensures ExecutesOk(s', v.f, v.t) && ThreadOk(s', v.t) && PipeOk(s', v.p) && OnPipeOk(s', v.f, v.p)
  {
  }

  lemma ReleaseKeepsMutexes(s: State, s': State, l: Label, v: View)
    requires Known(s, l, v) && ReleaseStep(s, s', l)
    ensures MutexOk(s', v.m) && OnMutexOk(s', v.f, v.m) && InWaitOk(s', v.f, v.c)
  {
  }

  lemma StartCounts(s: State, s': State, l: Label)
    requires CountOk(s) && StartStep(s, s', l)
    ensures CountOk(s')
  {
    if !l.Submitted? {
      StartKeys(s, s', l);
    }
  }

  lemma StartKeys(s: State, s': State, l: Label)
    requires StartStep(s, s', l) && !l.Submitted?
    ensures l.f !in s.fibers && s'.fibers.Keys == s.fibers.Keys + {l.f}
  {
  }

  lemma HandleCounts(s: State, s': State, l: Label)
    requires CountOk(s) && HandleStep(s, s', l)
    ensures CountOk(s')
  {
    assert s'.fibers.Keys == if l.HandledExit? then s.fibers.Keys - {l.f} else s.fibers.Keys;
  }

  // No other step makes or ends a fiber.
  lemma OtherCounts(s: State, s': State, l: Label)
    requires CountOk(s)
    requires LoopStep(s, s', l) || LinkStep(s, s', l) || SwitchStep(s, s', l) || WakeStep(s, s', l) || ReleaseStep(s, s', l)
    ensures CountOk(s')
  {
    OtherKeys(s, s', l);
    assert |s'.fibers.Keys| == |s.fibers.Keys|;
  }

  lemma OtherKeys(s: State, s': State, l: Label)
    requires LoopStep(s, s', l) || LinkStep(s, s', l) || SwitchStep(s, s', l) || WakeStep(s, s', l) || ReleaseStep(s, s', l)
    ensures s'.fibers.Keys == s.fibers.Keys && s'.pending == s.pending && s'.numRunning == s.numRunning
  {
  }

  lemma StartKeeps(s: State, s': State, l: Label, v: View)
    requires Inv(s) && StartStep(s, s', l)
    ensures Ok(s', v)
  {
    IsKnown(s, l, v);
    About(s, l, l.f);
    StartKeepsLists(s, s', l, v);
    StartKeepsFibers(s, s', l, v);
    StartKeepsThreads(s, s', l, v);
    StartKeepsMutexes(s, s', l, v);
  }

  lemma LoopKeeps(s: State, s': State, l: Label, v: View)
    requires Inv(s) && LoopStep(s, s', l)
    ensures Ok(s', v)
  {
    IsKnown(s, l, v);
    LoopKeepsLists(s, s', l, v);
    LoopKeepsFibers(s, s', l, v);
    LoopKeepsThreads(s, s', l, v);
    LoopKeepsMutexes(s, s', l, v);
  }

  lemma LinkKeeps(s: State, s': State, l: Label, v: View)
    requires Inv(s) && LinkStep(s, s', l)
    ensures Ok(s', v)
  {
    IsKnown(s, l, v);
    LinkKeepsLists(s, s', l, v);
    LinkKeepsFibers(s, s', l, v);
    LinkKeepsThreads(s, s', l, v);
    LinkKeepsMutexes(s, s', l, v);
  }

  lemma SwitchKeeps(s: State, s': State, l: Label, v: View)
    requires Inv(s) && SwitchStep(s, s', l)
    ensures Ok(s', v)
  {
    IsKnown(s, l, v);
    SwitchKeepsLists(s, s', l, v);
    SwitchKeepsFibers(s, s', l, v);
    SwitchKeepsThreads(s, s', l, v);
    SwitchKeepsMutexes(s, s', l, v);
  }

  lemma HandleKeeps(s: State, s': State, l: Label, v: View)
    requires Inv(s) && HandleStep(s, s', l)
    ensures Ok(s', v)
  {
    IsKnown(s, l, v);
    HandleKeepsLists(s, s', l, v);
    HandleKeepsFibers(s, s', l, v);
    HandleKeepsThreads(s, s', l, v);
    HandleKeepsMutexes(s, s', l, v);
  }

  lemma WakeKeeps(s: State, s': State, l: Label, v: View)
    requires Inv(s) && WakeStep(s, s', l)
    ensures Ok(s', v)
  {
    IsKnown(s, l, v);
    WakeKeepsLists(s, s', l, v);
    WakeKeepsFibers(s, s', l, v);
    WakeKeepsThreads(s, s', l, v);
    WakeKeepsMutexes(s, s', l, v);
  }

  lemma ReleaseKeeps(s: State, s': State, l: Label, v: View)
    requires Inv(s) && ReleaseStep(s, s', l)
    ensures Ok(s', v)
  {
    IsKnown(s, l, v);
    ReleaseKeepsLists(s, s', l, v);
    ReleaseKeepsFibers(s, s', l, v);
    ReleaseKeepsThreads(s, s', l, v);
    ReleaseKeepsMutexes(s, s', l, v);
  }

  lemma StepKeeps(s: State, s': State, l: Label, v: View)
    requires Inv(s) && Step(s, s', l)
    ensures Ok(s', v)
  {
    if StartStep(s, s', l) {
      StartKeeps(s, s', l, v);
    } else if LoopStep(s, s', l) {
      LoopKeeps(s, s', l, v);
    } else if LinkStep(s, s', l) {
      LinkKeeps(s, s', l, v);
    } else if SwitchStep(s, s', l) {
      SwitchKeeps(s, s', l, v);
    } else if HandleStep(s, s', l) {
      HandleKeeps(s, s', l, v);
    } else if WakeStep(s, s', l) {
      WakeKeeps(s, s', l, v);
    } else if ReleaseStep(s, s', l) {
      ReleaseKeeps(s, s', l, v);
    }
  }

  lemma StepPreserves(s: State, s': State, l: Label)
    requires Inv(s) && Step(s, s', l)
    ensures Inv(s')
  {
    forall v: View
      ensures Ok(s', v)
    {
      StepKeeps(s, s', l, v);
    }
    if StartStep(s, s', l) {
      StartCounts(s, s', l);
    } else if HandleStep(s, s', l) {
      HandleCounts(s, s', l);
    } else {
      OtherCounts(s, s', l);
    }
  }

  // --- runs ---

  ghost predicate Init(s: State) {
    && s.fibers == map[] && s.pending == {} && s.numRunning == 0 && Nowhere !in s.lists
    && (forall t | t in s.threads :: s.threads[t] == Thread(Idle, []))
    && (forall pl | pl in s.lists :: s.lists[pl] == [])
    && (forall m | m in s.locks :: s.locks[m] == Lock(None, None))
    && (forall p | p in s.armed :: !s.armed[p])
  }

  ghost predicate Run(run: seq<State>, labels: seq<Label>) {
    && |run| == |labels| + 1 && Init(run[0])
    && forall i | 0 <= i < |labels| :: Step(run[i], run[i + 1], labels[i])
  }

  lemma InitHolds(s: State)
    requires Init(s)
    ensures Inv(s)
  {
  }

  lemma {:induction false} RunSafe(run: seq<State>, labels: seq<Label>, i: nat)
    requires Run(run, labels) && i < |run|
    ensures Inv(run[i])
  {
    if i == 0 {
      InitHolds(run[0]);
    } else {
      RunSafe(run, labels, i - 1);
      StepPreserves(run[i - 1], run[i], labels[i - 1]);
    }
  }

  // --- conservation ---

  // A fiber is at a place of execution or on a list.
  datatype Whereabouts = Executing(exec: Exec) | Listed(place: Place)

  ghost predicate At(s: State, f: Fid, w: Whereabouts) {
    match w
    case Executing(Runs(t)) => t in s.threads && s.threads[t].mode == Running(f)
    case Executing(Parents(t)) => t in s.threads && f in s.threads[t].parents
    case Executing(Leaves(t)) => t in s.threads && s.threads[t].mode.Handling? && s.threads[t].mode.f == f
    case Executing(Off) => false
    case Listed(pl) => pl in s.lists && f in s.lists[pl]
  }

  // f is about to be switched out: on its list already, where nobody can take it yet.
  ghost predicate Suspending(s: State, f: Fid, pl: Place) {
    match pl
    case OnMutex(m) => m in s.locks && s.locks[m].enqueuer == Some(f)
    case OnCond(c) => HoldsFor(s, f, c)
    case OnPipe(p) => p in s.armed && !s.armed[p]
    case _ => false
  }

  lemma AtIsExact(s: State, f: Fid, w: Whereabouts)
    requires Inv(s)
    ensures At(s, f, w) <==> f in s.fibers && match w
                                              case Executing(e) => e != Off && s.fibers[f].exec == e
                                              case Listed(pl) => pl != Nowhere && s.fibers[f].place == pl
  {
    match w
    case Executing(Off) =>
    case Executing(e) => assert Ok(s, View(f := f, t := e.t));
    case Listed(pl) => assert Ok(s, View(f, pl));
  }

  /** Every fiber is somewhere, executes at no more than one place and is on no more than one
      list, once.  It is at both only while it suspends itself, when no other fiber or thread
      can take it off that list. */
  lemma Conservation(run: seq<State>, labels: seq<Label>, i: nat, f: Fid)
    requires Run(run, labels) && i < |run|
    ensures f in run[i].fibers <==> exists w :: At(run[i], f, w)
    ensures forall e, e' | At(run[i], f, Executing(e)) && At(run[i], f, Executing(e')) :: e == e'
    ensures forall pl, pl' | At(run[i], f, Listed(pl)) && At(run[i], f, Listed(pl')) :: pl == pl'
    ensures forall pl | pl in run[i].lists :: Distinct(run[i].lists[pl])
    ensures forall e, pl | At(run[i], f, Executing(e)) && At(run[i], f, Listed(pl)) :: !e.Parents? && Suspending(run[i], f, pl)
  {
    RunSafe(run, labels, i);
    var s := run[i];
    forall w
      ensures At(s, f, w) <==> f in s.fibers && match w
                                                case Executing(e) => e != Off && s.fibers[f].exec == e
                                                case Listed(pl) => pl != Nowhere && s.fibers[f].place == pl
    {
      AtIsExact(s, f, w);
    }
    assert Ok(s, View(f));
    if f in s.fibers {
      var fb := s.fibers[f];
      assert At(s, f, if fb.exec == Off then Listed(fb.place) else Executing(fb.exec));
      if fb.exec != Off && fb.place != Nowhere {
        SuspendingIsSafe(s, f);
      }
    }
    forall pl | pl in s.lists
      ensures Distinct(s.lists[pl])
    {
      assert Ok(s, View(pl := pl));
    }
  }

  lemma SuspendingIsSafe(s: State, f: Fid)
    requires Inv(s) && f in s.fibers && s.fibers[f].exec != Off && s.fibers[f].place != Nowhere
    ensures Suspending(s, f, s.fibers[f].place)
  {
    assert Ok(s, View(f));
    match s.fibers[f].place
    case OnMutex(m) => assert Ok(s, View(f := f, m := m));
    case OnCond(c) => assert Ok(s, View(f := f, c := c));
    case OnPipe(p) => assert Ok(s, View(f := f, p := p));
    case _ =>
  }

  lemma ResumedIsOff(s: State, s': State, l: Label)
    requires Inv(s) && Step(s, s', l) && l.Resumed?
    ensures l.f in s.fibers && s.fibers[l.f].exec == Off
  {
    About(s, l, l.f);
  }

  /** A fiber is resumed at most once per suspension, and only after its switch is complete
      and the parent has handled its opcode: it executes nowhere when it is resumed. */
  lemma ResumedOncePerSuspension(run: seq<State>, labels: seq<Label>, i: nat, f: Fid)
    requires Run(run, labels) && i < |run| && f in run[i].fibers
    ensures run[i].fibers[f].resumptions <= run[i].fibers[f].suspensions <= run[i].fibers[f].resumptions + 1
    ensures i < |labels| && labels[i].Resumed? && labels[i].f == f ==>
              && run[i].fibers[f].suspensions == run[i].fibers[f].resumptions + 1
              && forall e :: !At(run[i], f, Executing(e))
  {
    RunSafe(run, labels, i);
    var s := run[i];
    assert Ok(s, View(f));
    if i < |labels| && labels[i].Resumed? && labels[i].f == f {
      ResumedIsOff(s, run[i + 1], labels[i]);
      forall e
        ensures !At(s, f, Executing(e))
      {
        AtIsExact(s, f, Executing(e));
      }
    }
  }

  /** fiber_cond::wait returns with the mutex held, and while its caller is suspended the
      caller does not hold it. */
  lemma WaitReturnsHolding(run: seq<State>, labels: seq<Label>, i: nat, f: Fid, c: Cid)
    requires Run(run, labels) && i < |labels|
    requires f in run[i].fibers && f in run[i + 1].fibers && run[i].fibers[f].pc == Waiting(c)
    ensures run[i + 1].fibers[f].pc in {Waiting(c), Free}
    ensures run[i + 1].fibers[f].pc == Free ==> HoldsFor(run[i + 1], f, c) && !HoldsFor(run[i], f, c)
    ensures run[i].fibers[f].exec == Off ==> !HoldsFor(run[i], f, c)
  {
    RunSafe(run, labels, i);
    var s, l := run[i], labels[i];
    assert Ok(s, View(f := f, c := c)) && Ok(run[i + 1], View(f := f, c := c)) by {
      StepPreserves(s, run[i + 1], l);
    }
    if LinkStep(s, run[i + 1], l) {
      WaitEndsByLocking(s, run[i + 1], l, f, c);
    } else if LoopStep(s, run[i + 1], l) || StartStep(s, run[i + 1], l) {
      WaitKeptByLoops(s, run[i + 1], l, f);
    } else {
      WaitKeptOtherwise(s, run[i + 1], l, f);
    }
  }

  lemma WaitEndsByLocking(s: State, s': State, l: Label, f: Fid, c: Cid)
    requires LinkStep(s, s', l) && f in s.fibers && s.fibers[f].pc == Waiting(c)
    ensures f in s'.fibers && (s'.fibers[f].pc == Waiting(c) || (s'.fibers[f].pc == Free && HoldsFor(s', f, c) && !HoldsFor(s, f, c)))
  {
  }

  lemma WaitKeptByLoops(s: State, s': State, l: Label, f: Fid)
    requires (LoopStep(s, s', l) || StartStep(s, s', l)) && f in s.fibers && s.fibers[f].pc.Waiting?
    ensures f in s'.fibers && s'.fibers[f].pc == s.fibers[f].pc
  {
  }

  lemma WaitKeptOtherwise(s: State, s': State, l: Label, f: Fid)
    requires SwitchStep(s, s', l) || HandleStep(s, s', l) || WakeStep(s, s', l) || ReleaseStep(s, s', l)
    requires f in s.fibers && f in s'.fibers && s.fibers[f].pc.Waiting?
    ensures s'.fibers[f].pc == s.fibers[f].pc
  {
  }

  // Inside wait the mutex is given up in one way only.
  predicate GivesUp(l: Label, f: Fid, c: Cid, m: Mid) {
    l.HandledCondWait? && l.f == f && l.c == c && l.m == m
  }

  lemma HandlesOwnWait(s: State, l: Label, f: Fid, c: Cid)
    requires l.HandledCondWait? && Touched(s, l, f) && Handles(s, l.t, f, OcCondWait(c))
    ensures s.fibers[f].pc == Waiting(c)
  {
  }

  lemma ReleaseGivesUp(s: State, s': State, l: Label, f: Fid, c: Cid)
    requires Touched(s, l, f) && ReleaseStep(s, s', l) && f in s.fibers && s.fibers[f].pc == Waiting(c) && HoldsFor(s, f, c)
    ensures s'.mutexOf == s.mutexOf && (HoldsFor(s', f, c) || GivesUp(l, f, c, s.mutexOf[c]))
  {
    if l.HandledCondWait? && l.f == f {
      HandlesOwnWait(s, l, f, l.c);
    }
  }

  lemma LinkKeepsHolder(s: State, s': State, l: Label, f: Fid, m: Mid)
    requires LinkStep(s, s', l) && Holds(s, f, m)
    ensures s'.mutexOf == s.mutexOf && Holds(s', f, m)
  {
  }

  lemma OthersKeepHolder(s: State, s': State, l: Label, f: Fid, m: Mid)
    requires StartStep(s, s', l) || LoopStep(s, s', l) || SwitchStep(s, s', l) || HandleStep(s, s', l) || WakeStep(s, s', l)
    requires Holds(s, f, m)
    ensures s'.mutexOf == s.mutexOf && Holds(s', f, m)
  {
  }

  lemma HoldsOrGivesUp(s: State, s': State, l: Label, f: Fid, c: Cid)
    requires Inv(s) && Step(s, s', l) && f in s.fibers && s.fibers[f].pc == Waiting(c) && HoldsFor(s, f, c)
    ensures s'.mutexOf == s.mutexOf && (HoldsFor(s', f, c) || GivesUp(l, f, c, s.mutexOf[c]))
  {
    About(s, l, f);
    if LinkStep(s, s', l) {
      LinkKeepsHolder(s, s', l, f, s.mutexOf[c]);
    } else if ReleaseStep(s, s', l) {
      ReleaseGivesUp(s, s', l, f, c);
    } else {
      OthersKeepHolder(s, s', l, f, s.mutexOf[c]);
    }
  }

  ghost predicate WaitsFrom(run: seq<State>, i: nat, j: nat, f: Fid, c: Cid) {
    forall k | i <= k <= j < |run| :: f in run[k].fibers && run[k].fibers[f].pc == Waiting(c)
  }

  lemma {:induction false} FindRelease(run: seq<State>, labels: seq<Label>, i: nat, j: nat, f: Fid, c: Cid) returns (k: nat)
    requires Run(run, labels) && i <= j < |run| && WaitsFrom(run, i, j, f, c)
    requires HoldsFor(run[i], f, c) && !HoldsFor(run[j], f, c)
    ensures i <= k < j && GivesUp(labels[k], f, c, run[i].mutexOf[c])
    decreases j - i
  {
    RunSafe(run, labels, i);
    assert f in run[i].fibers && run[i].fibers[f].pc == Waiting(c);
    HoldsOrGivesUp(run[i], run[i + 1], labels[i], f, c);
    if GivesUp(labels[i], f, c, run[i].mutexOf[c]) {
      k := i;
    } else {
      k := FindRelease(run, labels, i + 1, j, f, c);
    }
  }

  lemma EnqueuesHolding(s: State, s': State, l: Label)
    requires Step(s, s', l) && l.LinkedCond?
    ensures HoldsFor(s, l.f, l.c) && HoldsFor(s', l.f, l.c) && s'.mutexOf == s.mutexOf
  {
    assert LinkStep(s, s', l);
  }

  lemma ReturnsByLocking(s: State, s': State, l: Label, f: Fid, c: Cid)
    requires Inv(s) && Step(s, s', l) && f in s.fibers && s.fibers[f].pc == Waiting(c)
    requires f in s'.fibers && s'.fibers[f].pc != Waiting(c)
    ensures c in s.mutexOf && !HoldsFor(s, f, c) && HoldsFor(s', f, c) && l.Locked? && l.f == f && l.m == s.mutexOf[c]
  {
    assert Ok(s, View(f := f, c := c));
    if LinkStep(s, s', l) {
      LocksItsMutex(s, s', l, f, c);
    } else if LoopStep(s, s', l) || StartStep(s, s', l) {
      WaitKeptByLoops(s, s', l, f);
    } else {
      WaitKeptOtherwise(s, s', l, f);
    }
  }

  lemma LocksItsMutex(s: State, s': State, l: Label, f: Fid, c: Cid)
    requires LinkStep(s, s', l) && f in s.fibers && s.fibers[f].pc == Waiting(c)
    requires f in s'.fibers && s'.fibers[f].pc != Waiting(c)
    ensures c in s.mutexOf && !HoldsFor(s, f, c) && HoldsFor(s', f, c) && l.Locked? && l.f == f && l.m == s.mutexOf[c]
  {
  }

  lemma SameMutex(run: seq<State>, labels: seq<Label>, i: nat, j: nat)
    requires Run(run, labels) && i <= j < |run|
    ensures run[i].mutexOf == run[j].mutexOf
  {
    forall k | i <= k < j
      ensures run[k].mutexOf == run[k + 1].mutexOf
    {
      assert Step(run[k], run[k + 1], labels[k]);
      NoStepRebinds(run[k], run[k + 1], labels[k]);
    }
    SameThroughout(run, i, j);
  }

  lemma {:induction false} SameThroughout(run: seq<State>, i: nat, j: nat)
    requires i <= j < |run| && forall k | i <= k < j :: run[k].mutexOf == run[k + 1].mutexOf
    ensures run[i].mutexOf == run[j].mutexOf
    decreases j
  {
    if i < j {
      SameThroughout(run, i, j - 1);
      assert run[j - 1].mutexOf == run[j - 1 + 1].mutexOf;
    }
  }

  lemma NoStepRebinds(s: State, s': State, l: Label)
    requires Step(s, s', l)
    ensures s'.mutexOf == s.mutexOf
  {
    if LinkStep(s, s', l) || ReleaseStep(s, s', l) {
      LocksRebindNothing(s, s', l);
    } else {
      OthersRebindNothing(s, s', l);
    }
  }

  lemma LocksRebindNothing(s: State, s': State, l: Label)
    requires LinkStep(s, s', l) || ReleaseStep(s, s', l)
    ensures s'.mutexOf == s.mutexOf
  {
  }

  lemma OthersRebindNothing(s: State, s': State, l: Label)
    requires StartStep(s, s', l) || LoopStep(s, s', l) || SwitchStep(s, s', l) || HandleStep(s, s', l) || WakeStep(s, s', l)
    ensures s'.mutexOf == s.mutexOf
  {
  }

  /** A whole wait: between putting itself on the condition's list and its return the fiber has given
      the mutex up, when its switch was complete, and then locked that mutex again. */
  lemma WaitReleasesThenLocks(run: seq<State>, labels: seq<Label>, i: nat, j: nat, f: Fid, c: Cid)
    requires Run(run, labels) && i < j < |labels| && labels[i].LinkedCond? && labels[i].f == f && labels[i].c == c
    requires WaitsFrom(run, i + 1, j, f, c)
    requires f in run[j + 1].fibers && run[j + 1].fibers[f].pc != Waiting(c)
    ensures c in run[i].mutexOf
    ensures exists k :: i < k < j && GivesUp(labels[k], f, c, run[i].mutexOf[c])
    ensures labels[j].Locked? && labels[j].f == f && labels[j].m == run[i].mutexOf[c] && HoldsFor(run[j + 1], f, c)
  {
    RunSafe(run, labels, j);
    assert f in run[j].fibers && run[j].fibers[f].pc == Waiting(c);
    EnqueuesHolding(run[i], run[i + 1], labels[i]);
    ReturnsByLocking(run[j], run[j + 1], labels[j], f, c);
    SameMutex(run, labels, i, j);
    var k := FindRelease(run, labels, i + 1, j, f, c);
  }

  lemma LockKeptByLoops(s: State, s': State, l: Label, f: Fid)
    requires (LoopStep(s, s', l) || StartStep(s, s', l)) && f in s.fibers && s.fibers[f].pc.Locking?
    ensures f in s'.fibers && s'.fibers[f].pc == s.fibers[f].pc
  {
  }

  lemma LockKeptByParents(s: State, s': State, l: Label, f: Fid)
    requires Touched(s, l, Actor(s, l)) && (SwitchStep(s, s', l) || HandleStep(s, s', l))
    requires f in s.fibers && s.fibers[f].pc.Locking?
    ensures f in s'.fibers && s'.fibers[f].pc == s.fibers[f].pc
  {
  }

  lemma LockKeptByWakes(s: State, s': State, l: Label, f: Fid)
    requires (WakeStep(s, s', l) || ReleaseStep(s, s', l)) && f in s.fibers && s.fibers[f].pc.Locking?
    ensures f in s'.fibers && s'.fibers[f].pc == s.fibers[f].pc
  {
  }

  lemma LockEndsByLocking(s: State, s': State, l: Label, f: Fid, m: Mid)
    requires LinkStep(s, s', l) && f in s.fibers && s.fibers[f].pc == Locking(m)
    ensures f in s'.fibers
    ensures s'.fibers[f].pc == Locking(m) || (s'.fibers[f].pc == Free && l.Locked? && l.f == f && l.m == m)
    ensures s'.fibers[f].pc != Locking(m) ==> Holds(s', f, m) && !Holds(s, f, m)
  {
  }

  /** fiber_mutex::lock returns with the mutex held: a fiber inside it stays there, however often it
      is resumed, until the step in which it acquires that mutex. */
  lemma LockReturnsHolding(run: seq<State>, labels: seq<Label>, i: nat, f: Fid, m: Mid)
    requires Run(run, labels) && i < |labels| && f in run[i].fibers && run[i].fibers[f].pc == Locking(m)
    ensures f in run[i + 1].fibers
    ensures run[i + 1].fibers[f].pc != Locking(m) ==>
              && labels[i].Locked? && labels[i].f == f && labels[i].m == m && run[i + 1].fibers[f].pc == Free
              && Holds(run[i + 1], f, m) && !Holds(run[i], f, m)
  {
    RunSafe(run, labels, i);
    var s, s', l := run[i], run[i + 1], labels[i];
    if LinkStep(s, s', l) {
      LockEndsByLocking(s, s', l, f, m);
    } else if LoopStep(s, s', l) || StartStep(s, s', l) {
      LockKeptByLoops(s, s', l, f);
    } else if WakeStep(s, s', l) || ReleaseStep(s, s', l) {
      LockKeptByWakes(s, s', l, f);
    } else {
      About(s, l, Actor(s, l));
      LockKeptByParents(s, s', l, f);
    }
  }

  // --- nested starts ---

  function ParentsOf(s: State, t: Tid): seq<Fid> {
    if t in s.threads then s.threads[t].parents else []
  }

  // Parents come and go at the end only, whatever the step.
  ghost predicate LastInFirstOut(s: State, s': State, l: Label, t: Tid) {
    || ParentsOf(s', t) == ParentsOf(s, t)
    || (l.StartedNested? && l.t == t && ParentsOf(s', t) == ParentsOf(s, t) + [l.g])
    || (l.NestedLoopEnded? && l.t == t && ParentsOf(s, t) == ParentsOf(s', t) + [l.g])
  }

  lemma ParentsByLoops(s: State, s': State, l: Label, t: Tid)
    requires LoopStep(s, s', l) || StartStep(s, s', l)
    ensures LastInFirstOut(s, s', l, t)
  {
  }

  lemma ParentsByOthers(s: State, s': State, l: Label, t: Tid)
    requires LinkStep(s, s', l) || SwitchStep(s, s', l) || HandleStep(s, s', l) || WakeStep(s, s', l) || ReleaseStep(s, s', l)
    ensures ParentsOf(s', t) == ParentsOf(s, t)
  {
  }

  lemma ParentsByAny(s: State, s': State, l: Label, t: Tid)
    requires Step(s, s', l)
    ensures LastInFirstOut(s, s', l, t)
  {
    if LoopStep(s, s', l) || StartStep(s, s', l) {
      ParentsByLoops(s, s', l, t);
    } else {
      ParentsByOthers(s, s', l, t);
    }
  }

  ghost predicate DeeperThan(run: seq<State>, i: nat, j: nat, t: Tid, depth: nat) {
    forall k | i <= k <= j < |run| :: |ParentsOf(run[k], t)| > depth
  }

  lemma {:induction false} OuterParentsStay(run: seq<State>, labels: seq<Label>, i: nat, j: nat, t: Tid, depth: nat)
    requires Run(run, labels) && i <= j < |run| && DeeperThan(run, i, j, t, depth)
    ensures |ParentsOf(run[i], t)| > depth && |ParentsOf(run[j], t)| > depth
    ensures ParentsOf(run[i], t)[..depth + 1] == ParentsOf(run[j], t)[..depth + 1]
    decreases j - i
  {
    assert |ParentsOf(run[i], t)| > depth;
    if i < j {
      assert Step(run[i], run[i + 1], labels[i]);
      ParentsByAny(run[i], run[i + 1], labels[i], t);
      OuterParentsStay(run, labels, i + 1, j, t, depth);
    }
  }

  /** Nested starts return like calls: the fiber that goes on when a nested wake_all ends is the one
      that began it, not another that has started a fiber since. */
  lemma NestedStartsReturn(run: seq<State>, labels: seq<Label>, i: nat, j: nat, t: Tid)
    requires Run(run, labels) && i < j < |labels| && labels[i].StartedNested? && labels[i].t == t
    requires DeeperThan(run, i + 1, j, t, |ParentsOf(run[i], t)|)
    requires |ParentsOf(run[j + 1], t)| == |ParentsOf(run[i], t)|
    ensures labels[j].NestedLoopEnded? && labels[j].g == labels[i].g
  {
    var depth := |ParentsOf(run[i], t)|;
    assert Step(run[i], run[i + 1], labels[i]) && Step(run[j], run[j + 1], labels[j]);
    assert |ParentsOf(run[i + 1], t)| > depth && |ParentsOf(run[j], t)| > depth;
    ParentsByAny(run[i], run[i + 1], labels[i], t);
    ParentsByAny(run[j], run[j + 1], labels[j], t);
    OuterParentsStay(run, labels, i + 1, j, t, depth);
    assert ParentsOf(run[i + 1], t)[depth] == ParentsOf(run[i + 1], t)[..depth + 1][depth];
    assert ParentsOf(run[j], t)[depth] == ParentsOf(run[j], t)[..depth + 1][depth];
  }

  /** A notification and an unlock move only fibers whose switch to the parent is complete. */
  lemma OnlySwitchedOutAreWoken(run: seq<State>, labels: seq<Label>, i: nat, f: Fid)
    requires Run(run, labels) && i < |labels|
    requires labels[i].Notified? || labels[i].Unlocked? || labels[i].HandledCondWait?
    requires var pl := Source(labels[i]); pl in run[i].lists && f in run[i].lists[pl]
    ensures f in run[i].fibers && run[i].fibers[f].exec == Off
  {
    RunSafe(run, labels, i);
    var s, l := run[i], labels[i];
    About(s, l, f);
    About(s, l, Actor(s, l));
    if l.Notified? {
      NotifiedIsOff(s, run[i + 1], l, f);
    } else {
      ReleasedIsOff(s, run[i + 1], l, f);
    }
  }

  lemma NotifiedIsOff(s: State, s': State, l: Label, f: Fid)
    requires Touched(s, l, f) && Touched(s, l, Actor(s, l)) && Step(s, s', l) && l.Notified? && f in s.lists[OnCond(l.c)]
    ensures f in s.fibers && s.fibers[f].exec == Off
  {
    assert WakeStep(s, s', l);
  }

  lemma ReleasedIsOff(s: State, s': State, l: Label, f: Fid)
    requires Touched(s, l, f) && Touched(s, l, Actor(s, l)) && Step(s, s', l) && (l.Unlocked? || l.HandledCondWait?)
    requires f in s.lists[OnMutex(l.m)]
    ensures f in s.fibers && s.fibers[f].exec == Off
  {
    assert ReleaseStep(s, s', l);
  }

  /** Nothing runnable is forgotten: a thread in epoll_wait has an empty wake list, and a
      mutex that nobody holds has no one on its wait list. */
  lemma NothingStranded(run: seq<State>, labels: seq<Label>, i: nat)
    requires Run(run, labels) && i < |run|
    ensures forall t | HasThread(run[i], t) && run[i].threads[t].mode == Idle :: run[i].lists[OnWake(t)] == []
    ensures forall m | HasMutex(run[i], m) && run[i].locks[m].holder.None? :: run[i].lists[OnMutex(m)] == []
  {
    RunSafe(run, labels, i);
    forall t | HasThread(run[i], t) && run[i].threads[t].mode == Idle
      ensures run[i].lists[OnWake(t)] == []
    {
      assert Ok(run[i], View(t := t));
    }
    forall m | HasMutex(run[i], m) && run[i].locks[m].holder.None?
      ensures run[i].lists[OnMutex(m)] == []
    {
      assert Ok(run[i], View(m := m));
    }
  }

  /** wait_for_zero_fibers returns exactly when no fiber is left and none is on its way. */
  lemma ZeroFibers(run: seq<State>, labels: seq<Label>, i: nat)
    requires Run(run, labels) && i < |run|
    ensures run[i].numRunning == 0 <==> run[i].fibers == map[] && run[i].pending == {}
  {
    RunSafe(run, labels, i);
    assert CountOk(run[i]);
  }
}
