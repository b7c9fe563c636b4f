/** What becomes of the sockets and the endpoints of the pool, over whole runs: what the answer of a
    callback does to its socket, who gets it next, and that what was erased stays so. */
module PoolSockets {
  import opened EndpointPool
  import opened Wrappers

  // --- sockets that are gone ---

  lemma {:induction false} GoneStaysGone(run: seq<State>, actions: seq<Action>, max: nat, i: nat, j: nat, x: SockId)
    requires Run(run, actions, max) && i <= j < |run| && x < run[i].nextSock && Places(run[i], x) == 0
    ensures Places(run[j], x) == 0
    decreases j - i
  {
    if i < j {
      assert Step(run[i], run[i + 1], actions[i], max);
      StepKeepsSockets(run[i], run[i + 1], actions[i], max, x);
      GoneStaysGone(run, actions, max, i + 1, j, x);
    }
  }

  // The one place of a socket that a caller holds is with that caller.
  lemma UsedIsInOnePlace(run: seq<State>, actions: seq<Action>, max: nat, i: nat, c: Cid)
    requires Run(run, actions, max) && i < |run| && c < |run[i].callers| && run[i].callers[c].Using?
    ensures run[i].callers[c].s < run[i].nextSock && Places(run[i], run[i].callers[c].s) == 1
  {
    RunSafe(run, actions, max, i);
    assert SocketOk(run[i], run[i].callers[c].s);
    LentOnce(run[i].callers, c);
  }

  /** A callback's answer decides on its socket: right after it has ended the socket is in a cache if
      and only if it asked for that and the endpoint still lives; otherwise it is never in a cache or
      with a caller again. */
  lemma AnswerDecides(run: seq<State>, actions: seq<Action>, max: nat, i: nat, j: nat, c: Cid, e: Eid, sock: SockId, cache: bool,
                      threw: bool)
    requires Run(run, actions, max) && i < j < |run| && actions[i] == DoFinish(c, e, sock, cache, threw)
    ensures e < |run[i].endpoints|
    ensures sock !in Lent(run[i + 1].callers)
    ensures sock in Cached(run[i + 1].endpoints) <==> cache && run[i].endpoints[e].alive
    ensures !(cache && run[i].endpoints[e].alive) ==> sock !in Cached(run[j].endpoints) && sock !in Lent(run[j].callers)
  {
    assert Step(run[i], run[i + 1], actions[i], max);
    UsedIsInOnePlace(run, actions, max, i, c);
    NoLongerLent(run[i], run[i + 1], c, e, sock, cache, threw);
    FinishKeepsSockets(run[i], run[i + 1], c, e, sock, cache, threw, sock);
    if !(cache && run[i].endpoints[e].alive) {
      GoneStaysGone(run, actions, max, i + 1, j, sock);
    }
  }

  lemma NoLongerLent(s: State, s': State, c: Cid, e: Eid, sock: SockId, cache: bool, threw: bool)
    requires Finish(s, s', c, e, sock, cache, threw) && Places(s, sock) == 1
    ensures Lent(s'.callers)[sock] == 0
  {
    LentOnce(s.callers, c);
    LentUpdate(s.callers, c, Outside, sock);
  }

  /** A socket that is put into the cache is the last there, idle from now on; and an endpoint keeps
      an error if and only if a callback has thrown, now or before. */
  lemma CachedAtTheEnd(run: seq<State>, actions: seq<Action>, max: nat, i: nat, c: Cid, e: Eid, sock: SockId, cache: bool, threw: bool)
    requires Run(run, actions, max) && i < |actions| && actions[i] == DoFinish(c, e, sock, cache, threw)
    requires e < |run[i].endpoints| && run[i].endpoints[e].alive
    ensures e < |run[i + 1].endpoints|
    ensures run[i + 1].endpoints[e].socks == run[i].endpoints[e].socks + if cache then [Sock(sock, run[i].clock)] else []
    ensures run[i + 1].endpoints[e].error <==> run[i].endpoints[e].error || threw
  {
    assert Step(run[i], run[i + 1], actions[i], max);
  }

  // --- who gets it next ---

  // What is dropped has been idle for too long, and what is taken has not.
  lemma {:induction false} FreshDrops(socks: seq<Sock>, now: nat)
    ensures Fresh(socks, now) != [] ==> Recent(Fresh(socks, now)[0], now)
    ensures forall sk | sk in socks :: sk in Fresh(socks, now) || !Recent(sk, now)
    ensures forall sk | sk in Fresh(socks, now) :: sk in socks
  {
    if socks != [] {
      FreshDrops(socks[1..], now);
    }
  }

  // An admission of one of its callers takes the socket out of this cache, or the endpoint goes.
  ghost predicate Leaves(s: State, s': State, a: Action, e: Eid, sk: Sock) {
    || a == DoDestroy(e)
    || (a.DoAdmit? && a.e == e && (At(s', a.c) == Using(e, sk.id) || !Recent(sk, s.clock)))
  }

  lemma StepKeepsCached(s: State, s': State, a: Action, max: nat, e: Eid, sk: Sock)
    requires Step(s, s', a, max) && e < |s.endpoints| && sk in s.endpoints[e].socks && !Leaves(s, s', a, e, sk)
    ensures e < |s'.endpoints| && sk in s'.endpoints[e].socks
  {
    if a.DoAdmit? && a.e == e {
      FreshDrops(s.endpoints[e].socks, s.clock);
    }
  }

  lemma {:induction false} KeptUntilItLeaves(run: seq<State>, actions: seq<Action>, max: nat, i: nat, j: nat, e: Eid, sk: Sock)
    requires Run(run, actions, max) && i <= j < |run| && e < |run[i].endpoints| && sk in run[i].endpoints[e].socks
    requires forall k | i <= k < j :: !Leaves(run[k], run[k + 1], actions[k], e, sk)
    ensures e < |run[j].endpoints| && sk in run[j].endpoints[e].socks
    decreases j - i
  {
    if i < j {
      assert Step(run[i], run[i + 1], actions[i], max);
      StepKeepsCached(run[i], run[i + 1], actions[i], max, e, sk);
      KeptUntilItLeaves(run, actions, max, i + 1, j, e, sk);
    }
  }

  /** The next caller that is admitted to the endpoint finds the socket that a callback has said to
      keep, unless one before it was lent it, or dropped it after 25 seconds, or the endpoint went. */
  lemma CallersFindIt(run: seq<State>, actions: seq<Action>, max: nat, i: nat, j: nat, c: Cid, d: Cid, e: Eid, sock: SockId)
    requires Run(run, actions, max) && i < j < |actions| && e < |run[i].endpoints| && run[i].endpoints[e].alive
    requires actions[i] == DoFinish(c, e, sock, true, false) && actions[j] == DoAdmit(d, e)
    requires forall k | i < k < j :: !Leaves(run[k], run[k + 1], actions[k], e, Sock(sock, run[i].clock))
    ensures e < |run[j].endpoints| && Sock(sock, run[i].clock) in run[j].endpoints[e].socks
    ensures run[j].clock < run[i].clock + 25 ==> At(run[j + 1], d).Using?
  {
    var sk := Sock(sock, run[i].clock);
    CachedAtTheEnd(run, actions, max, i, c, e, sock, true, false);
    assert run[i + 1].endpoints[e].socks[|run[i].endpoints[e].socks|] == sk;
    KeptUntilItLeaves(run, actions, max, i + 1, j, e, sk);
    assert Step(run[j], run[j + 1], actions[j], max);
    FreshDrops(run[j].endpoints[e].socks, run[j].clock);
  }

  /** A caller that is admitted connects anew if and only if no socket in the cache was put there less
      than 25 seconds ago.  Otherwise it gets one that was. */
  lemma ConnectsIfNoneRecent(run: seq<State>, actions: seq<Action>, max: nat, i: nat, c: Cid, e: Eid)
    requires Run(run, actions, max) && i < |actions| && actions[i] == DoAdmit(c, e)
    ensures e < |run[i].endpoints|
    ensures At(run[i + 1], c) == Connecting(e) <==>
            forall sk | sk in run[i].endpoints[e].socks :: run[i].clock >= sk.idleSince + 25
    ensures At(run[i + 1], c) == Connecting(e)
            || (exists sk :: sk in run[i].endpoints[e].socks && At(run[i + 1], c) == Using(e, sk.id) && run[i].clock < sk.idleSince + 25)
  {
    assert Step(run[i], run[i + 1], actions[i], max);
    var socks := run[i].endpoints[e].socks;
    FreshDrops(socks, run[i].clock);
    if Fresh(socks, run[i].clock) != [] {
      var sk := Fresh(socks, run[i].clock)[0];
      assert sk in socks && Recent(sk, run[i].clock);
    }
  }

  // --- endpoints that are gone ---

  /** An endpoint that is not in the cluster's list never comes back to it, so nobody picks it again;
      a later lookup that finds the same address makes another endpoint. */
  lemma {:induction false} ErasedForGood(run: seq<State>, actions: seq<Action>, max: nat, i: nat, j: nat, e: Eid, c: Cid)
    requires Run(run, actions, max) && i <= j < |run| && e < |run[i].endpoints| && e !in run[i].listed
    ensures e < |run[j].endpoints| && e !in run[j].listed
    ensures j < |actions| ==> actions[j] != DoPick(c, e)
    decreases j - i
  {
    if i < j {
      assert Step(run[i], run[i + 1], actions[i], max);
      ErasedForGood(run, actions, max, i + 1, j, e, c);
    } else if j < |actions| {
      assert Step(run[j], run[j + 1], actions[j], max);
    }
  }

  /** What takes an endpoint off the list: a connect to it that fails, and a callback that throws. */
  lemma FailureErases(run: seq<State>, actions: seq<Action>, max: nat, i: nat, e: Eid)
    requires Run(run, actions, max) && i < |actions| && e < |run[i].endpoints|
    requires actions[i].DoConnectFails? || actions[i].DoFinish?
    ensures e in run[i].listed && e !in run[i + 1].listed <==>
            e in run[i].listed && actions[i].e == e && if actions[i].DoConnectFails? then actions[i].erased else actions[i].threw
  {
    RunSafe(run, actions, max, i);
    assert EndpointOk(run[i], e, max) && Step(run[i], run[i + 1], actions[i], max);
    ErasedAll(run[i].listed, actions[i].e);
  }

  lemma {:induction false} ErrorStays(run: seq<State>, actions: seq<Action>, max: nat, i: nat, j: nat, e: Eid)
    requires Run(run, actions, max) && i <= j < |run| && e < |run[i].endpoints| && run[i].endpoints[e].error
    ensures e < |run[j].endpoints| && run[j].endpoints[e].error
    decreases j - i
  {
    if i < j {
      assert Step(run[i], run[i + 1], actions[i], max);
      ErrorStays(run, actions, max, i + 1, j, e);
    }
  }

  /** After a callback has thrown, nobody is admitted to its endpoint any more, and nobody picks it. */
  lemma NobodyAfterThrow(run: seq<State>, actions: seq<Action>, max: nat, i: nat, j: nat, c: Cid, e: Eid, sock: SockId, d: Cid)
    requires Run(run, actions, max) && i < j < |actions| && actions[i] == DoFinish(c, e, sock, false, true)
    ensures actions[j] != DoAdmit(d, e) && actions[j] != DoPick(d, e)
  {
    assert Step(run[i], run[i + 1], actions[i], max) && Step(run[j], run[j + 1], actions[j], max);
    RunSafe(run, actions, max, i);
    assert EndpointOk(run[i], e, max);
    ErasedAll(run[i].listed, e);
    ErasedForGood(run, actions, max, i + 1, j, e, d);
    if run[i].endpoints[e].alive {
      ErrorStays(run, actions, max, i + 1, j, e);
    } else {
      DeadForGood(run, actions, max, i, j, e);
      RunSafe(run, actions, max, j);
      if d < |run[j].callers| {
        assert CallerOk(run[j], run[j].callers[d]);
      }
    }
  }

  /** A caller that finds an error is sent back to pick an endpoint, and that is never the same one. */
  lemma RetryPicksAnother(run: seq<State>, actions: seq<Action>, max: nat, i: nat, j: nat, c: Cid, e: Eid)
    requires Run(run, actions, max) && i < j < |actions| && actions[i] == DoRetry(c, e)
    ensures At(run[i + 1], c) == Outside && actions[j] != DoPick(c, e)
  {
    assert Step(run[i], run[i + 1], actions[i], max);
    RunSafe(run, actions, max, i);
    assert EndpointOk(run[i], e, max);
    ErasedForGood(run, actions, max, i, j, e, c);
  }

  lemma {:induction false} DeadForGood(run: seq<State>, actions: seq<Action>, max: nat, i: nat, j: nat, e: Eid)
    requires Run(run, actions, max) && i <= j < |run| && e < |run[i].endpoints| && !run[i].endpoints[e].alive
    ensures e < |run[j].endpoints| && !run[j].endpoints[e].alive
    decreases j - i
  {
    if i < j {
      assert Step(run[i], run[i + 1], actions[i], max);
      DeadForGood(run, actions, max, i + 1, j, e);
    }
  }
}
