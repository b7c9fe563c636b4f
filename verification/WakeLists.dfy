/** The intrusive lists themselves: every fiber has one next_wake_ field, and the wake list of a
    thread, the wait list of a mutex and the wait list of a condition variable are all threaded
    through it.  Each structure carries the sequence its pointers stand for; the methods are
    the pointer manipulations of the code, loops included.

    A fiber's ghost field on names the structure whose list it is on.  As a fiber has only one,
    no fiber is ever on two lists; Runtime.Valid says this of all structures at once, and every
    operation of Runtime keeps it. */
module WakeLists {

  class Fiber {
    const id: nat
    var nextWake: Fiber?
    ghost var on: object?

    constructor (id: nat)
      ensures this.id == id && nextWake == null && on == null
    {
      this.id := id;
      nextWake := null;
      on := null;
    }
  }

  ghost predicate Distinct(s: seq<Fiber>) {
    forall i, j | 0 <= i < j < |s| :: s[i] != s[j]
  }

  // The pointers that start at head run through exactly the fibers of s and end in null.
  ghost predicate Chain(head: Fiber?, s: seq<Fiber>)
    reads s
  {
    && (head == if s == [] then null else s[0])
    && (forall i {:trigger s[i].nextWake} | 0 <= i < |s| :: s[i].nextWake == if i + 1 < |s| then s[i + 1] else null)
    && Distinct(s)
  }

  ghost predicate AllOn(s: seq<Fiber>, o: object)
    reads s
  {
    forall f | f in s :: f.on == o
  }

  // The lists of two structures have no fiber in common.
  lemma Apart(s: seq<Fiber>, o: object, s': seq<Fiber>, o': object)
    requires AllOn(s, o) && AllOn(s', o') && o != o'
    ensures forall f | f in s :: f !in s'
    ensures forall f | f in s' :: f !in s
    ensures forall i | 0 <= i < |s'| :: s'[i] !in s
  {
  }

  // A chain whose last pointer leads to the head of another is one chain with it.
  lemma Joined(first: seq<Fiber>, second: seq<Fiber>)
    requires first != [] && Distinct(first) && Chain(if second == [] then null else second[0], second)
    requires forall i {:trigger first[i].nextWake} | 0 <= i < |first| - 1 :: first[i].nextWake == first[i + 1]
    requires first[|first| - 1].nextWake == if second == [] then null else second[0]
    requires forall f | f in first :: f !in second
    ensures Chain(first[0], first + second)
  {
    var s := first + second;
    forall i, j | 0 <= i < j < |s|
      ensures s[i] != s[j]
    {
      if i < |first| <= j {
        assert s[i] in first && s[j] in second;
      }
    }
    forall i | 0 <= i < |s|
      ensures s[i].nextWake == if i + 1 < |s| then s[i + 1] else null
    {
      if i < |first| {
        assert s[i] == first[i];
      } else {
        assert s[i] == second[i - |first|];
      }
    }
  }

  // Without its first fiber a chain is the chain that the first pointer leads to.
  lemma Tail(s: seq<Fiber>)
    requires s != [] && Chain(s[0], s)
    ensures Chain(s[0].nextWake, s[1..]) && s[0] !in s[1..]
  {
    forall i | 0 <= i < |s| - 1
      ensures s[1..][i].nextWake == if i + 1 < |s| - 1 then s[1..][i + 1] else null
    {
      assert s[1..][i] == s[i + 1];
    }
  }

  class IoParams {
    ghost const id: nat
    var wakeHead: Fiber?
    ghost var wake: seq<Fiber>

    ghost predicate Valid()
      reads this, wake
    {
      Chain(wakeHead, wake) && AllOn(wake, this)
    }

    constructor (ghost id: nat)
      ensures Valid() && wake == [] && this.id == id
    {
      this.id := id;
      wakeHead := null;
      wake := [];
    }

    // wake_all puts its argument in front of the list.
    method Push(first: Fiber)
      requires Valid() && first.on == null
      modifies this, first
      ensures Valid() && wake == [first] + old(wake)
    {
      first.nextWake := wakeHead;
      wakeHead := first;
      first.on := this;
      Joined([first], wake);
      wake := [first] + wake;
    }

    // ... and the loop of wake_all takes the head off it.
    method Pop() returns (next: Fiber?)
      requires Valid()
      modifies this, wake
      ensures Valid()
      ensures next == null <==> old(wake) == []
      ensures next != null ==> next == old(wake)[0] && next.on == null && wake == old(wake)[1..]
      ensures next == null ==> wake == []
      ensures forall f | f in wake :: unchanged(f)
    {
      next := wakeHead;
      if next != null {
        wakeHead := next.nextWake;
        next.on := null;
        Tail(wake);
        wake := wake[1..];
      }
    }
  }

  class FiberMutex {
    ghost const id: nat
    var wakeHead: Fiber?
    var wakeTail: Fiber?
    ghost var waiters: seq<Fiber>

    ghost predicate Valid()
      reads this, waiters
    {
      && Chain(wakeHead, waiters) && AllOn(waiters, this)
      && (wakeTail == if waiters == [] then null else waiters[|waiters| - 1])
    }

    constructor (ghost id: nat)
      ensures Valid() && waiters == [] && this.id == id
    {
      this.id := id;
      wakeHead, wakeTail := null, null;
      waiters := [];
    }

    // The list part of sleep_till_woken.
    method Enqueue(f: Fiber)
      requires Valid() && f.on == null
      modifies this, f
      ensures Valid() && waiters == [f] + old(waiters)
    {
      if wakeTail == null {
        wakeTail := f;
      }
      f.nextWake := wakeHead;
      wakeHead := f;
      f.on := this;
      Joined([f], waiters);
      waiters := [f] + waiters;
    }

    // Splices the whole list in front of the thread's wake list, without walking it.
    method WakeSleepers(params: IoParams)
      requires Valid() && params.Valid() && waiters != []
      modifies this, params, waiters
      ensures Valid() && waiters == []
      ensures params.Valid() && params.wake == old(waiters) + old(params.wake)
    {
      Apart(waiters, this, params.wake, params);
      wakeTail.nextWake := params.wakeHead;
      Joined(waiters, params.wake);
      params.wakeHead := wakeHead;
      wakeHead := null;
      wakeTail := null;
      forall f | f in waiters {
        f.on := params;
      }
      params.wake := waiters + params.wake;
      waiters := [];
    }
  }

  class FiberCond {
    ghost const id: nat
    var wakeHead: Fiber?
    ghost var waiters: seq<Fiber>

    ghost predicate Valid()
      reads this, waiters
    {
      Chain(wakeHead, waiters) && AllOn(waiters, this)
    }

    constructor (ghost id: nat)
      ensures Valid() && waiters == [] && this.id == id
    {
      this.id := id;
      wakeHead := null;
      waiters := [];
    }

    // Walks to the last fiber of the list.
    method Last() returns (last: Fiber)
      requires Valid() && waiters != []
      ensures last == waiters[|waiters| - 1]
    {
      last := wakeHead;
      ghost var k := 0;
      while last.nextWake != null
        invariant 0 <= k < |waiters| && last == waiters[k]
        decreases |waiters| - k
      {
        last := last.nextWake;
        k := k + 1;
      }
    }

    // The list part of wait.
    method Enqueue(f: Fiber)
      requires Valid() && f.on == null
      modifies this, waiters, f
      ensures Valid() && waiters == old(waiters) + [f]
    {
      f.nextWake := null;
      if wakeHead != null {
        var last := Last();
        last.nextWake := f;
        Joined(waiters, [f]);
      } else {
        wakeHead := f;
      }
      f.on := this;
      waiters := waiters + [f];
    }

    method NotifyAll(params: IoParams)
      requires Valid() && params.Valid()
      modifies this, params, waiters
      ensures Valid() && waiters == []
      ensures params.Valid() && params.wake == old(waiters) + old(params.wake)
    {
      if wakeHead != null {
        var last := Last();
        Apart(waiters, this, params.wake, params);
        last.nextWake := params.wakeHead;
        Joined(waiters, params.wake);
        params.wakeHead := wakeHead;
        wakeHead := null;
        forall f | f in waiters {
          f.on := params;
        }
        params.wake := waiters + params.wake;
        waiters := [];
      }
    }

    method NotifyOne(params: IoParams)
      requires Valid() && params.Valid()
      modifies this, params, waiters
      ensures Valid() && params.Valid()
      ensures old(waiters) == [] ==> waiters == [] && params.wake == old(params.wake)
      ensures old(waiters) != [] ==> waiters == old(waiters)[1..] && params.wake == [old(waiters)[0]] + old(params.wake)
    {
      if wakeHead != null {
        var f := wakeHead;
        var next := f.nextWake;
        Apart(waiters, this, params.wake, params);
        Tail(waiters);
        f.nextWake := params.wakeHead;
        params.wakeHead := f;
        wakeHead := next;
        f.on := params;
        Joined([f], params.wake);
        params.wake := [f] + params.wake;
        waiters := waiters[1..];
      }
    }
  }

  /** All threads, mutexes and condition variables together. */
  class Runtime {
    ghost var threads: set<IoParams>
    ghost var mutexes: set<FiberMutex>
    ghost var conds: set<FiberCond>
    ghost var fibers: set<Fiber>

    // Every structure's pointers are sound, and a fiber that is on none of the lists is free to be
    // put on one.
    ghost predicate Valid()
      reads *
    {
      && (forall p | p in threads :: p.Valid() && forall f | f in p.wake :: f in fibers)
      && (forall m | m in mutexes :: m.Valid() && forall f | f in m.waiters :: f in fibers)
      && (forall c | c in conds :: c.Valid() && forall f | f in c.waiters :: f in fibers)
      && (forall f | f in fibers && OnNone(f) :: f.on == null)
    }

    ghost predicate OnNone(f: Fiber)
      reads *
    {
      && (forall p | p in threads :: f !in p.wake)
      && (forall m | m in mutexes :: f !in m.waiters)
      && (forall c | c in conds :: f !in c.waiters)
    }

    // No fiber is on the lists of two structures.
    lemma OneListOnly(f: Fiber)
      requires Valid()
      ensures forall p, q | p in threads && q in threads && f in p.wake && f in q.wake :: p == q
      ensures forall m, n | m in mutexes && n in mutexes && f in m.waiters && f in n.waiters :: m == n
      ensures forall c, d | c in conds && d in conds && f in c.waiters && f in d.waiters :: c == d
      ensures forall p, m | p in threads && m in mutexes :: !(f in p.wake && f in m.waiters)
      ensures forall p, c | p in threads && c in conds :: !(f in p.wake && f in c.waiters)
      ensures forall m, c | m in mutexes && c in conds :: !(f in m.waiters && f in c.waiters)
    {
    }

    // What happens to the fibers of o's list, or to one that is on none, is nothing to the
    // other structures.
    twostate lemma OthersValid(touched: set<object>)
      requires old(Valid()) && unchanged(this)
      requires forall q | q in threads && q !in touched :: unchanged(q)
      requires forall m | m in mutexes && m !in touched :: unchanged(m)
      requires forall c | c in conds && c !in touched :: unchanged(c)
      requires forall q, g | q in threads && q !in touched && g in old(q.wake) :: unchanged(g)
      requires forall m, g | m in mutexes && m !in touched && g in old(m.waiters) :: unchanged(g)
      requires forall c, g | c in conds && c !in touched && g in old(c.waiters) :: unchanged(g)
      ensures forall q | q in threads && q !in touched :: q.Valid()
      ensures forall m | m in mutexes && m !in touched :: m.Valid()
      ensures forall c | c in conds && c !in touched :: c.Valid()
    {
      forall q | q in threads && q !in touched
        ensures q.Valid()
      {
        assert old(q.Valid());
        assert forall i | 0 <= i < |q.wake| :: q.wake[i] in old(q.wake);
      }
      forall m | m in mutexes && m !in touched
        ensures m.Valid()
      {
        assert old(m.Valid());
        assert forall i | 0 <= i < |m.waiters| :: m.waiters[i] in old(m.waiters);
      }
      forall c | c in conds && c !in touched
        ensures c.Valid()
      {
        assert old(c.Valid());
        assert forall i | 0 <= i < |c.waiters| :: c.waiters[i] in old(c.waiters);
      }
    }

    method SleepTillWoken(m: FiberMutex, f: Fiber)
      requires Valid() && m in mutexes && f in fibers && f.on == null
      modifies m, f
      ensures Valid() && m.waiters == [f] + old(m.waiters)
      ensures forall n | n in mutexes && n != m :: n.waiters == old(n.waiters)
    {
      m.Enqueue(f);
      OthersValid({m});
    }

    method WakeSleepers(m: FiberMutex, p: IoParams)
      requires Valid() && m in mutexes && p in threads && m.waiters != []
      modifies m, p, m.waiters
      ensures Valid() && m.waiters == [] && p.wake == old(m.waiters) + old(p.wake)
      ensures forall n | n in mutexes && n != m :: n.waiters == old(n.waiters)
      ensures forall q | q in threads && q != p :: q.wake == old(q.wake)
    {
      m.WakeSleepers(p);
      OthersValid({m, p});
    }

    method Wait(c: FiberCond, f: Fiber)
      requires Valid() && c in conds && f in fibers && f.on == null
      modifies c, c.waiters, f
      ensures Valid() && c.waiters == old(c.waiters) + [f]
      ensures forall d | d in conds && d != c :: d.waiters == old(d.waiters)
    {
      c.Enqueue(f);
      OthersValid({c});
    }

    method NotifyOne(c: FiberCond, p: IoParams)
      requires Valid() && c in conds && p in threads
      modifies c, p, c.waiters
      ensures Valid() && c.waiters == old(c.waiters[if c.waiters == [] then 0 else 1..])
      ensures p.wake == old(c.waiters[..if c.waiters == [] then 0 else 1] + p.wake)
      ensures forall d | d in conds && d != c :: d.waiters == old(d.waiters)
      ensures forall q | q in threads && q != p :: q.wake == old(q.wake)
    {
      c.NotifyOne(p);
      OthersValid({c, p});
    }

    method NotifyAll(c: FiberCond, p: IoParams)
      requires Valid() && c in conds && p in threads
      modifies c, p, c.waiters
      ensures Valid() && c.waiters == [] && p.wake == old(c.waiters + p.wake)
      ensures forall d | d in conds && d != c :: d.waiters == old(d.waiters)
      ensures forall q | q in threads && q != p :: q.wake == old(q.wake)
    {
      c.NotifyAll(p);
      OthersValid({c, p});
    }

    method WakePush(p: IoParams, f: Fiber)
      requires Valid() && p in threads && f in fibers && f.on == null
      modifies p, f
      ensures Valid() && p.wake == [f] + old(p.wake)
      ensures forall q | q in threads && q != p :: q.wake == old(q.wake)
    {
      p.Push(f);
      OthersValid({p});
    }

    method WakePop(p: IoParams) returns (f: Fiber?)
      requires Valid() && p in threads
      modifies p, p.wake
      ensures Valid()
      ensures f == null <==> old(p.wake) == []
      ensures f != null ==> f == old(p.wake)[0] && f.on == null && p.wake == old(p.wake)[1..]
      ensures forall q | q in threads && q != p :: q.wake == old(q.wake)
    {
      f := p.Pop();
      OthersValid({p});
    }
  }
}
