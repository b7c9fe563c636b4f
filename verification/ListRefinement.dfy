/** The linked lists do what the scheduler's sequences do.  Each operation on the lists is tied to the
    scheduler step it is part of: the scheduler's invariant gives the operation what it requires, and
    afterwards the lists show the sequences of the state after that step. */
module ListRefinement {
  import opened FiberScheduler
  import M = AbstractMutex
  import L = WakeLists

  function Ids(l: seq<L.Fiber>): (ids: seq<M.Fid>)
    ensures |ids| == |l|
  {
    seq(|l|, i requires 0 <= i < |l| => l[i].id)
  }

  lemma IdsTogether(a: seq<L.Fiber>, b: seq<L.Fiber>)
    ensures Ids(a + b) == Ids(a) + Ids(b)
  {
  }

  lemma IdsOfOne(f: L.Fiber)
    ensures Ids([f]) == [f.id]
  {
  }

  lemma IdsParts(l: seq<L.Fiber>, k: nat)
    requires k <= |l|
    ensures Ids(l[..k]) == Ids(l)[..k] && Ids(l[k..]) == Ids(l)[k..]
  {
  }

  ghost predicate Shows(lists: map<Place, seq<M.Fid>>, pl: Place, l: seq<L.Fiber>) {
    pl in lists && lists[pl] == Ids(l)
  }

  // No two objects of a kind go by the same id.
  ghost predicate IdsApart(r: L.Runtime)
    reads r
  {
    && (forall p, q | p in r.threads && q in r.threads && p.id == q.id :: p == q)
    && (forall m, n | m in r.mutexes && n in r.mutexes && m.id == n.id :: m == n)
    && (forall c, d | c in r.conds && d in r.conds && c.id == d.id :: c == d)
    && (forall f, g | f in r.fibers && g in r.fibers && f.id == g.id :: f == g)
  }

  ghost predicate Represents(r: L.Runtime, lists: map<Place, seq<M.Fid>>)
    reads *
  {
    && r.Valid() && IdsApart(r)
    && (forall p | p in r.threads :: Shows(lists, OnWake(p.id), p.wake))
    && (forall m | m in r.mutexes :: Shows(lists, OnMutex(m.id), m.waiters))
    && (forall c | c in r.conds :: Shows(lists, OnCond(c.id), c.waiters))
  }

  predicate OnSome(place: Place) {
    place.OnWake? || place.OnMutex? || place.OnCond?
  }

  lemma InIds(l: seq<L.Fiber>, f: L.Fiber)
    ensures f in l ==> f.id in Ids(l)
  {
    if f in l {
      var i :| 0 <= i < |l| && l[i] == f;
      assert Ids(l)[i] == f.id;
    }
  }

  // A fiber that the scheduler has on none of these lists is on none of the linked ones.
  lemma FreeToPut(r: L.Runtime, s: State, f: L.Fiber)
    requires Represents(r, s.lists) && Inv(s) && f in r.fibers
    requires f.id in s.fibers ==> !OnSome(s.fibers[f.id].place)
    ensures f.on == null
  {
    forall p | p in r.threads
      ensures f !in p.wake
    {
      InIds(p.wake, f);
      assert Ok(s, View(f := f.id, pl := OnWake(p.id)));
    }
    forall m | m in r.mutexes
      ensures f !in m.waiters
    {
      InIds(m.waiters, f);
      assert Ok(s, View(f := f.id, pl := OnMutex(m.id)));
    }
    forall c | c in r.conds
      ensures f !in c.waiters
    {
      InIds(c.waiters, f);
      assert Ok(s, View(f := f.id, pl := OnCond(c.id)));
    }
    assert r.OnNone(f);
  }

  // --- one operation for each kind of step ---

  method Enqueue(r: L.Runtime, m: L.FiberMutex, f: L.Fiber, ghost s: State, ghost s': State, ghost t: Tid, ghost mu: M.Mutex)
    requires Represents(r, s.lists) && Inv(s) && m in r.mutexes && f in r.fibers
    requires LinkMutex(s, s', t, m.id, f.id, mu)
    modifies m, f
    ensures Represents(r, s'.lists)
  {
    FreeToPut(r, s, f);
    IdsOfOne(f);
    IdsTogether([f], m.waiters);
    r.SleepTillWoken(m, f);
  }

  // unlock, by a fiber or by the parent: the waiters go to the thread's list, if there are any.
  method Release(r: L.Runtime, m: L.FiberMutex, p: L.IoParams, ghost s: State, ghost s': State, ghost c: Cid, ghost f: M.Fid)
    requires Represents(r, s.lists) && m in r.mutexes && p in r.threads
    requires UnlockMutex(s, s', p.id, m.id, f) || HandleCondWait(s, s', p.id, c, m.id, f)
    modifies m, p, m.waiters
    ensures Represents(r, s'.lists)
  {
    IdsTogether(m.waiters, p.wake);
    if m.wakeHead != null {
      r.WakeSleepers(m, p);
    }
  }

  method Wait(r: L.Runtime, c: L.FiberCond, f: L.Fiber, ghost s: State, ghost s': State, ghost t: Tid)
    requires Represents(r, s.lists) && Inv(s) && c in r.conds && f in r.fibers
    requires LinkCond(s, s', t, c.id, f.id)
    modifies c, c.waiters, f
    ensures Represents(r, s'.lists)
  {
    FreeToPut(r, s, f);
    IdsOfOne(f);
    IdsTogether(c.waiters, [f]);
    r.Wait(c, f);
  }

  method NotifyOne(r: L.Runtime, c: L.FiberCond, p: L.IoParams, ghost s: State, ghost s': State, ghost f: M.Fid)
    requires Represents(r, s.lists) && c in r.conds && p in r.threads
    requires Notify(s, s', p.id, c.id, if c.waiters == [] then 0 else 1, f)
    modifies c, p, c.waiters
    ensures Represents(r, s'.lists)
  {
    ghost var k := if c.waiters == [] then 0 else 1;
    IdsParts(c.waiters, k);
    IdsTogether(c.waiters[..k], p.wake);
    r.NotifyOne(c, p);
  }

  method NotifyAll(r: L.Runtime, c: L.FiberCond, p: L.IoParams, ghost s: State, ghost s': State, ghost f: M.Fid)
    requires Represents(r, s.lists) && c in r.conds && p in r.threads
    requires Notify(s, s', p.id, c.id, |c.waiters|, f)
    modifies c, p, c.waiters
    ensures Represents(r, s'.lists)
  {
    IdsTogether(c.waiters, p.wake);
    assert Ids(c.waiters)[..|c.waiters|] == Ids(c.waiters);
    r.NotifyAll(c, p);
  }

  // wake_all on a fiber that is new, or that has waited for a pipe or for the timer.
  ghost predicate Wakes(s: State, s': State, t: Tid, f: M.Fid, g: M.Fid, pl: Place, i: nat) {
    || Start(s, s', t, f) || StartNested(s, s', t, g, f)
    || (Event(s, s', t, pl, i) && f == s.lists[pl][i])
  }

  // f is now the first of the thread's list, and no other list has changed.
  ghost predicate Pushed(lists: map<Place, seq<M.Fid>>, lists': map<Place, seq<M.Fid>>, t: Tid, f: M.Fid) {
    && OnWake(t) in lists && OnWake(t) in lists' && lists'[OnWake(t)] == [f] + lists[OnWake(t)]
    && forall x | OnSome(x) && x != OnWake(t) && x in lists :: x in lists' && lists'[x] == lists[x]
  }

  lemma WakesWhoIsOff(s: State, s': State, t: Tid, f: M.Fid, g: M.Fid, pl: Place, i: nat)
    requires Inv(s) && Wakes(s, s', t, f, g, pl, i)
    ensures f in s.fibers ==> !OnSome(s.fibers[f].place)
    ensures Pushed(s.lists, s'.lists, t, f)
  {
    if Event(s, s', t, pl, i) {
      assert Ok(s, View(f := f, pl := pl));
    }
  }

  method WakeFirst(r: L.Runtime, p: L.IoParams, f: L.Fiber, ghost s: State, ghost s': State, ghost g: M.Fid, ghost pl: Place, ghost i: nat)
    requires Represents(r, s.lists) && Inv(s) && p in r.threads && f in r.fibers
    requires Wakes(s, s', p.id, f.id, g, pl, i)
    modifies p, f
    ensures Represents(r, s'.lists)
  {
    WakesWhoIsOff(s, s', p.id, f.id, g, pl, i);
    FreeToPut(r, s, f);
    Push(r, p, f, s.lists, s'.lists);
  }

  method Push(r: L.Runtime, p: L.IoParams, f: L.Fiber, ghost lists: map<Place, seq<M.Fid>>, ghost lists': map<Place, seq<M.Fid>>)
    requires Represents(r, lists) && p in r.threads && f in r.fibers && f.on == null
    requires Pushed(lists, lists', p.id, f.id)
    modifies p, f
    ensures Represents(r, lists')
  {
    IdsOfOne(f);
    IdsTogether([f], p.wake);
    r.WakePush(p, f);
  }

  method WakeNext(r: L.Runtime, p: L.IoParams, ghost s: State, ghost s': State, ghost f: M.Fid) returns (next: L.Fiber?)
    requires Represents(r, s.lists) && p in r.threads && Resume(s, s', p.id, f)
    modifies p, p.wake
    ensures Represents(r, s'.lists) && next != null && next.id == f
  {
    IdsParts(p.wake, 1);
    next := r.WakePop(p);
  }

  // --- all other steps leave these lists alone ---

  ghost predicate TouchesLists(l: Label) {
    || l.Started? || l.StartedNested? || l.Resumed? || l.Evented? || l.TimedOut? || l.LinkedMutex? || l.Unlocked?
    || l.LinkedCond? || l.Notified? || l.HandledCondWait?
  }

  lemma LocksKeepLists(s: State, s': State, l: Label, x: Place)
    requires LinkStep(s, s', l) && !TouchesLists(l) && OnSome(x) && x in s.lists
    ensures x in s'.lists && s'.lists[x] == s.lists[x]
  {
  }

  lemma SwitchesKeepLists(s: State, s': State, l: Label, x: Place)
    requires SwitchStep(s, s', l) || HandleStep(s, s', l) || StartStep(s, s', l) || LoopStep(s, s', l)
    requires !TouchesLists(l) && OnSome(x) && x in s.lists
    ensures x in s'.lists && s'.lists[x] == s.lists[x]
  {
  }

  lemma OtherStepsKeepLists(r: L.Runtime, s: State, s': State, l: Label)
    requires Represents(r, s.lists) && Step(s, s', l) && !TouchesLists(l)
    ensures Represents(r, s'.lists)
  {
    forall x | OnSome(x) && x in s.lists
      ensures x in s'.lists && s'.lists[x] == s.lists[x]
    {
      if LinkStep(s, s', l) {
        LocksKeepLists(s, s', l, x);
      } else {
        SwitchesKeepLists(s, s', l, x);
      }
    }
  }

  // --- conservation over the linked lists ---

  lemma IdsExact(r: L.Runtime, l: seq<L.Fiber>, f: L.Fiber)
    requires IdsApart(r) && f in r.fibers && forall g | g in l :: g in r.fibers
    ensures f in l <==> f.id in Ids(l)
  {
    InIds(l, f);
    if f.id in Ids(l) {
      var i :| 0 <= i < |l| && Ids(l)[i] == f.id;
      assert l[i] in l && l[i].id == f.id;
    }
  }

  /** In every run that the linked lists have followed a fiber is on the linked list of exactly the
      place where the scheduler has it. */
  lemma PointerConservation(r: L.Runtime, run: seq<State>, labels: seq<Label>, i: nat, f: L.Fiber)
    requires Run(run, labels) && i < |run| && Represents(r, run[i].lists) && f in r.fibers
    ensures forall p | p in r.threads :: f in p.wake <==> At(run[i], f.id, Listed(OnWake(p.id)))
    ensures forall m | m in r.mutexes :: f in m.waiters <==> At(run[i], f.id, Listed(OnMutex(m.id)))
    ensures forall c | c in r.conds :: f in c.waiters <==> At(run[i], f.id, Listed(OnCond(c.id)))
    ensures f.on != null ==> f.id in run[i].fibers && OnSome(run[i].fibers[f.id].place)
  {
    var s := run[i];
    RunSafe(run, labels, i);
    if !(f.id in s.fibers && OnSome(s.fibers[f.id].place)) {
      FreeToPut(r, s, f);
    }
    forall p | p in r.threads
      ensures f in p.wake <==> At(s, f.id, Listed(OnWake(p.id)))
    {
      IdsExact(r, p.wake, f);
    }
    forall m | m in r.mutexes
      ensures f in m.waiters <==> At(s, f.id, Listed(OnMutex(m.id)))
    {
      IdsExact(r, m.waiters, f);
    }
    forall c | c in r.conds
      ensures f in c.waiters <==> At(s, f.id, Listed(OnCond(c.id)))
    {
      IdsExact(r, c.waiters, f);
    }
  }
}
