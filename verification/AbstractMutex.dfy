/** What the rest of the fiber code may assume of a fiber_mutex: who holds it, who is putting
    itself on the wait list, and the wait list itself.  FiberMutexProtocol proves that the
    atomic counter in the code keeps to these four steps; FiberScheduler builds on them. */
module AbstractMutex {
  import opened Wrappers

  type Fid = nat

  // enqueuer: a fiber that is on the wait list but whose switch to the parent has not been
  // followed by the parent's decrement yet.
  datatype Mutex = Mutex(holder: Option<Fid>, enqueuer: Option<Fid>, waiters: seq<Fid>)

  const FREE: Mutex := Mutex(None, None, [])

  ghost predicate Acquire(m: Mutex, m': Mutex, f: Fid) {
    m.holder.None? && m' == m.(holder := Some(f))
  }

  ghost predicate Link(m: Mutex, m': Mutex, f: Fid) {
    m.holder.Some? && m.enqueuer.None? && m' == m.(enqueuer := Some(f), waiters := [f] + m.waiters)
  }

  ghost predicate Park(m: Mutex, m': Mutex, f: Fid) {
    m.enqueuer == Some(f) && m' == m.(enqueuer := None)
  }

  // The waiters leave the list together; the caller moves them to its thread's wake list.
  ghost predicate Release(m: Mutex, m': Mutex, f: Fid) {
    m.holder == Some(f) && m.enqueuer.None? && m' == FREE
  }

  ghost predicate Step(m: Mutex, m': Mutex) {
    exists f :: Acquire(m, m', f) || Link(m, m', f) || Park(m, m', f) || Release(m, m', f)
  }
}
