/** endpoint_cluster's pool of connections: any number of callers of do_with_connected_pipe, whose
    connects may fail and whose callbacks may throw.  What runs under an endpoint's lock, or under
    that of the cluster, is one step. */
module EndpointPool {
  import opened Wrappers

  type Cid = nat
  type Eid = nat
  type SockId = nat

  const MAX_IDLE_TIME := 25

  datatype Sock = Sock(id: SockId, idleSince: nat)

  // socks: the cached sockets.  alive: some shared_ptr to it is left.  lost: the admissions that
  // nothing will ever take back from outstanding; no step looks at it.
  datatype Endpoint = Endpoint(socks: seq<Sock>, outstanding: int, error: bool, alive: bool, lost: nat)

  datatype Caller =
    | Outside
    | Waiting(e: Eid)             // has picked an endpoint, may have to wait for its turn
    | Connecting(e: Eid)          // admitted, there was no cached socket
    | Using(e: Eid, s: SockId)    // runs the callback, holding only a weak_ptr to the endpoint

  datatype State = State(endpoints: seq<Endpoint>, listed: seq<Eid>, callers: seq<Caller>, nextSock: SockId, clock: nat)

  // --- the critical sections ---

  // Sockets at the front that have been idle for too long are dropped.
  function Fresh(socks: seq<Sock>, now: nat): (r: seq<Sock>) {
    if socks == [] || now < socks[0].idleSince + MAX_IDLE_TIME then socks else Fresh(socks[1..], now)
  }

  function Admitted(ep: Endpoint, now: nat): Endpoint {
    var recent := Fresh(ep.socks, now);
    ep.(outstanding := ep.outstanding + 1, socks := if recent == [] then [] else recent[1..])
  }

  function Taken(ep: Endpoint, now: nat): Option<Sock> {
    var recent := Fresh(ep.socks, now);
    if recent == [] then None else Some(recent[0])
  }

  function Finished(ep: Endpoint, s: SockId, cache: bool, threw: bool, now: nat): Endpoint {
    ep.(outstanding := ep.outstanding - 1,
        socks := if cache then ep.socks + [Sock(s, now)] else ep.socks,
        error := ep.error || threw)
  }

  function Erased(listed: seq<Eid>, e: Eid): (r: seq<Eid>)
    ensures forall x :: x in r ==> x in listed
    ensures forall x :: x in listed ==> x == e || x in r
  {
    if listed == [] then []
    else if listed[0] == e then listed[1..]
    else [listed[0]] + Erased(listed[1..], e)
  }

  class EndpointObject {
    var socks: seq<Sock>
    var outstanding: int
    var error: bool

    // Under the lock, once there are less than max_conn_per_ep_ requests and no error.
    method Admit(now: nat) returns (sock: Option<Sock>)
      modifies this
      ensures var before := Endpoint(old(socks), old(outstanding), old(error), true, 0);
              && Endpoint(socks, outstanding, error, true, 0) == Admitted(before, now)
              && sock == Taken(before, now)
    {
      outstanding := outstanding + 1;
      sock := None;
      while sock.None? && socks != []
        invariant sock.None? ==> Fresh(socks, now) == Fresh(old(socks), now)
        invariant sock.Some? ==> Fresh(old(socks), now) == [sock.value] + socks
        invariant outstanding == old(outstanding) + 1 && error == old(error)
        decreases |socks|, sock.None?
      {
        var s := socks[0];
        socks := socks[1..];
        if now < s.idleSince + MAX_IDLE_TIME {
          sock := Some(s);
        }
      }
    }

    // The destructor of cleanup, its part under the lock.
    method Finish(s: SockId, cache: bool, threw: bool, now: nat)
      modifies this
      ensures Endpoint(socks, outstanding, error, true, 0)
           == Finished(Endpoint(old(socks), old(outstanding), old(error), true, 0), s, cache, threw, now)
    {
      outstanding := outstanding - 1;
      if cache {
        socks := socks + [Sock(s, now)];
      }
      error := error || threw;
    }
  }

  class Cluster {
    var endpoints: seq<Eid>

    method Erase(e: Eid)
      modifies this
      ensures endpoints == Erased(old(endpoints), e)
    {
      var i := 0;
      while i < |endpoints|
        invariant i <= |endpoints| && endpoints == old(endpoints)
        invariant Erased(endpoints, e) == endpoints[..i] + Erased(endpoints[i..], e)
      {
        if endpoints[i] == e {
          endpoints := endpoints[..i] + endpoints[i + 1..];
          return;
        }
        assert endpoints[..i + 1] == endpoints[..i] + [endpoints[i]];
        i := i + 1;
      }
    }
  }

  // --- the steps ---

  function At(s: State, c: Cid): Caller {
    if c < |s.callers| then s.callers[c] else Outside
  }

  function Set(s: State, c: Cid, caller: Caller): State
    requires c < |s.callers|
  {
    s.(callers := s.callers[c := caller])
  }

  function Put(s: State, e: Eid, ep: Endpoint): State
    requires e < |s.endpoints|
  {
    s.(endpoints := s.endpoints[e := ep])
  }

  ghost predicate Pick(s: State, s': State, c: Cid, e: Eid) {
    c < |s.callers| && s.callers[c].Outside? && e in s.listed && s' == Set(s, c, Waiting(e))
  }

  ghost predicate Retry(s: State, s': State, c: Cid, e: Eid, max: nat) {
    && c < |s.callers| && s.callers[c] == Waiting(e) && e < |s.endpoints|
    && s.endpoints[e].outstanding < max && s.endpoints[e].error
    && s' == Set(s, c, Outside)
  }

  ghost predicate Admit(s: State, s': State, c: Cid, e: Eid, max: nat) {
    && c < |s.callers| && s.callers[c] == Waiting(e) && e < |s.endpoints|
    && var ep := s.endpoints[e];
       && ep.outstanding < max && !ep.error
       && s' == Set(Put(s, e, Admitted(ep, s.clock)), c,
                    match Taken(ep, s.clock) case None => Connecting(e) case Some(sock) => Using(e, sock.id))
  }

  ghost predicate Connected(s: State, s': State, c: Cid, e: Eid) {
    && c < |s.callers| && s.callers[c] == Connecting(e)
    && s' == Set(s, c, Using(e, s.nextSock)).(nextSock := s.nextSock + 1)
  }

  // tcp_client::connect fails or throws, and the endpoint is erased; or setting up TLS throws, and
  // it stays.  Either way outstanding_requests_ stays as it is.
  ghost predicate ConnectFails(s: State, s': State, c: Cid, e: Eid, erased: bool) {
    && c < |s.callers| && s.callers[c] == Connecting(e) && e < |s.endpoints|
    && s' == Set(Put(s, e, s.endpoints[e].(lost := s.endpoints[e].lost + 1)), c, Outside).(
               listed := if erased then Erased(s.listed, e) else s.listed)
  }

  // A callback that throws does not say whether to cache the socket.
  ghost predicate Finish(s: State, s': State, c: Cid, e: Eid, sock: SockId, cache: bool, threw: bool) {
    && c < |s.callers| && s.callers[c] == Using(e, sock) && e < |s.endpoints| && !(cache && threw)
    && s' == if s.endpoints[e].alive then
               Set(Put(s, e, Finished(s.endpoints[e], sock, cache, threw, s.clock)), c, Outside).(
                 listed := if threw then Erased(s.listed, e) else s.listed)
             else
               Set(s, c, Outside)
  }

  // update_endpoints keeps some of the endpoints and adds new ones, one for each address.
  ghost predicate Lookup(s: State, s': State, added: nat) {
    && s'.endpoints == s.endpoints + seq(added, _ => Endpoint([], 0, false, true, 0))
    && (forall e | e in s'.listed :: e in s.listed || |s.endpoints| <= e < |s'.endpoints|)
    && Distinct(s'.listed)
    && s' == s.(endpoints := s'.endpoints, listed := s'.listed)
  }

  ghost predicate EraseAll(s: State, s': State) {
    s' == s.(listed := [])
  }

  // The last shared_ptr goes, and the cached sockets with it.
  ghost predicate Destroy(s: State, s': State, e: Eid) {
    && e < |s.endpoints| && e !in s.listed
    && (forall c | 0 <= c < |s.callers| :: s.callers[c] != Waiting(e) && s.callers[c] != Connecting(e))
    && s' == Put(s, e, s.endpoints[e].(alive := false, socks := []))
  }

  ghost predicate Tick(s: State, s': State) {
    s' == s.(clock := s.clock + 1)
  }

  datatype Action =
    | DoPick(c: Cid, e: Eid)
    | DoRetry(c: Cid, e: Eid)
    | DoAdmit(c: Cid, e: Eid)
    | DoConnected(c: Cid, e: Eid)
    | DoConnectFails(c: Cid, e: Eid, erased: bool)
    | DoFinish(c: Cid, e: Eid, sock: SockId, cache: bool, threw: bool)
    | DoLookup(added: nat)
    | DoEraseAll
    | DoDestroy(e: Eid)
    | DoTick

  ghost predicate Step(s: State, s': State, a: Action, max: nat) {
    match a
    case DoPick(c, e) => Pick(s, s', c, e)
    case DoRetry(c, e) => Retry(s, s', c, e, max)
    case DoAdmit(c, e) => Admit(s, s', c, e, max)
    case DoConnected(c, e) => Connected(s, s', c, e)
    case DoConnectFails(c, e, erased) => ConnectFails(s, s', c, e, erased)
    case DoFinish(c, e, sock, cache, threw) => Finish(s, s', c, e, sock, cache, threw)
    case DoLookup(added) => Lookup(s, s', added)
    case DoEraseAll => EraseAll(s, s')
    case DoDestroy(e) => Destroy(s, s', e)
    case DoTick => Tick(s, s')
  }

  ghost predicate Init(s: State) {
    && s.endpoints == [] && s.listed == [] && s.nextSock == 0
    && forall c | 0 <= c < |s.callers| :: s.callers[c] == Outside
  }

  ghost predicate Run(run: seq<State>, actions: seq<Action>, max: nat) {
    && |run| == |actions| + 1 && Init(run[0])
    && forall i | 0 <= i < |actions| :: Step(run[i], run[i + 1], actions[i], max)
  }

  // --- counting admissions ---

  function Admits(caller: Caller, e: Eid): nat {
    if caller == Connecting(e) || (caller.Using? && caller.e == e) then 1 else 0
  }

  function Active(callers: seq<Caller>, e: Eid): nat {
    if callers == [] then 0 else Admits(callers[0], e) + Active(callers[1..], e)
  }

  lemma {:induction false} ActiveUpdate(callers: seq<Caller>, c: Cid, caller: Caller, e: Eid)
    requires c < |callers|
    ensures Active(callers[c := caller], e) == Active(callers, e) - Admits(callers[c], e) + Admits(caller, e)
  {
    if c == 0 {
      assert callers[c := caller][1..] == callers[1..];
    } else {
      assert callers[c := caller][1..] == callers[1..][c - 1 := caller];
      ActiveUpdate(callers[1..], c - 1, caller, e);
    }
  }

  lemma {:induction false} NoneActive(callers: seq<Caller>, e: Eid)
    requires forall c | 0 <= c < |callers| :: Admits(callers[c], e) == 0
    ensures Active(callers, e) == 0
  {
    if callers != [] {
      NoneActive(callers[1..], e);
    }
  }

  // --- where the sockets are ---

  function Ids(socks: seq<Sock>): multiset<SockId> {
    if socks == [] then multiset{} else multiset{socks[0].id} + Ids(socks[1..])
  }

  lemma {:induction false} IdsTogether(a: seq<Sock>, b: seq<Sock>)
    ensures Ids(a + b) == Ids(a) + Ids(b)
  {
    if a == [] {
      assert a + b == b;
    } else {
      assert (a + b)[1..] == a[1..] + b;
      IdsTogether(a[1..], b);
    }
  }

  function Cached(endpoints: seq<Endpoint>): multiset<SockId> {
    if endpoints == [] then multiset{} else Ids(endpoints[0].socks) + Cached(endpoints[1..])
  }

  function Lent(callers: seq<Caller>): multiset<SockId> {
    if callers == [] then multiset{}
    else (if callers[0].Using? then multiset{callers[0].s} else multiset{}) + Lent(callers[1..])
  }

  function LentTo(caller: Caller): multiset<SockId> {
    if caller.Using? then multiset{caller.s} else multiset{}
  }

  lemma {:induction false} LentUpdate(callers: seq<Caller>, c: Cid, caller: Caller, x: SockId)
    requires c < |callers|
    ensures Lent(callers[c := caller])[x] + LentTo(callers[c])[x] == Lent(callers)[x] + LentTo(caller)[x]
  {
    if c == 0 {
      assert callers[c := caller][1..] == callers[1..];
    } else {
      assert callers[c := caller][1..] == callers[1..][c - 1 := caller];
      LentUpdate(callers[1..], c - 1, caller, x);
    }
  }

  lemma {:induction false} CachedUpdate(endpoints: seq<Endpoint>, e: Eid, ep: Endpoint, x: SockId)
    requires e < |endpoints|
    ensures Cached(endpoints[e := ep])[x] + Ids(endpoints[e].socks)[x] == Cached(endpoints)[x] + Ids(ep.socks)[x]
  {
    var after := endpoints[e := ep];
    assert Cached(after) == Ids(after[0].socks) + Cached(after[1..]);
    if e == 0 {
      assert after[1..] == endpoints[1..];
    } else {
      assert after[1..] == endpoints[1..][e - 1 := ep];
      CachedUpdate(endpoints[1..], e - 1, ep, x);
    }
  }

  lemma {:induction false} CachedMore(endpoints: seq<Endpoint>, n: nat)
    ensures Cached(endpoints + seq(n, _ => Endpoint([], 0, false, true, 0))) == Cached(endpoints)
    decreases |endpoints|, n
  {
    var new_ := seq(n, _ => Endpoint([], 0, false, true, 0));
    if endpoints == [] {
      assert endpoints + new_ == new_;
      if n > 0 {
        assert new_[1..] == [] + seq(n - 1, _ => Endpoint([], 0, false, true, 0));
        CachedMore([], n - 1);
      }
    } else {
      assert (endpoints + new_)[1..] == endpoints[1..] + new_;
      CachedMore(endpoints[1..], n);
    }
  }

  // --- the invariant ---

  predicate EndpointOk(s: State, e: Eid, max: nat)
    requires e < |s.endpoints|
  {
    var ep := s.endpoints[e];
    && (ep.alive ==> ep.outstanding == Active(s.callers, e) + ep.lost && |ep.socks| + ep.outstanding <= max)
    && (!ep.alive ==> ep.socks == [])
    && (!ep.alive || ep.error ==> e !in s.listed)
  }

  predicate CallerOk(s: State, caller: Caller) {
    && (!caller.Outside? ==> caller.e < |s.endpoints|)
    && (caller.Waiting? || caller.Connecting? ==> caller.e < |s.endpoints| && s.endpoints[caller.e].alive)
  }

  // In how many places a socket is, in caches and with callers.
  function Places(s: State, x: SockId): nat {
    Cached(s.endpoints)[x] + Lent(s.callers)[x]
  }

  // Every socket that was ever opened is in one place at most.
  predicate SocketOk(s: State, x: SockId) {
    Places(s, x) <= (if x < s.nextSock then 1 else 0)
  }

  ghost predicate Inv(s: State, max: nat) {
    && (forall e | 0 <= e < |s.endpoints| :: EndpointOk(s, e, max))
    && Distinct(s.listed)
    && (forall e | e in s.listed :: e < |s.endpoints|)
    && (forall c | 0 <= c < |s.callers| :: CallerOk(s, s.callers[c]))
    && (forall x: SockId :: SocketOk(s, x))
  }

  lemma {:induction false} FreshIsSuffix(socks: seq<Sock>, now: nat)
    ensures |Fresh(socks, now)| <= |socks|
    ensures forall x :: Ids(Fresh(socks, now))[x] <= Ids(socks)[x]
  {
    if socks != [] {
      FreshIsSuffix(socks[1..], now);
    }
  }

  predicate Recent(sock: Sock, now: nat) {
    now < sock.idleSince + MAX_IDLE_TIME
  }

  /** A caller gets the first cached socket that has not been idle for too long; those in front of
      it go, those behind it stay.  If there is none, the cache is left empty. */
  lemma {:induction false} FirstRecentIsLent(ep: Endpoint, now: nat, k: nat)
    requires k <= |ep.socks| && forall i | 0 <= i < k :: !Recent(ep.socks[i], now)
    requires k < |ep.socks| ==> Recent(ep.socks[k], now)
    ensures Taken(ep, now) == if k < |ep.socks| then Some(ep.socks[k]) else None
    ensures Admitted(ep, now).socks == if k < |ep.socks| then ep.socks[k + 1..] else []
    decreases k
  {
    if k > 0 {
      FirstRecentIsLent(ep.(socks := ep.socks[1..]), now, k - 1);
    }
  }

  // Admitting takes one socket out of the cache if there is one.
  lemma AdmittedSocks(ep: Endpoint, now: nat)
    ensures var left, taken := Admitted(ep, now).socks, Taken(ep, now);
            && (taken.None? ==> left == [])
            && |left| <= (if ep.socks == [] then 0 else |ep.socks| - 1)
            && forall x :: Ids(left)[x] + (if taken.Some? && taken.value.id == x then 1 else 0) <= Ids(ep.socks)[x]
  {
    FreshIsSuffix(ep.socks, now);
    var left := Fresh(ep.socks, now);
    if left != [] {
      assert Ids(left) == multiset{left[0].id} + Ids(left[1..]);
    }
  }

  lemma {:induction false} ErasedAll(listed: seq<Eid>, e: Eid)
    requires Distinct(listed)
    ensures Distinct(Erased(listed, e)) && e !in Erased(listed, e)
  {
    if listed != [] {
      ErasedAll(listed[1..], e);
      assert forall i | 0 < i < |listed| :: listed[i] == listed[1..][i - 1];
      assert listed[0] !in listed[1..];
    }
  }

  lemma AdmitKeepsSockets(s: State, s': State, c: Cid, e: Eid, max: nat, x: SockId)
    requires Admit(s, s', c, e, max)
    ensures Places(s', x) <= Places(s, x)
  {
    AdmittedSocks(s.endpoints[e], s.clock);
    CachedUpdate(s.endpoints, e, Admitted(s.endpoints[e], s.clock), x);
    LentUpdate(s.callers, c, s'.callers[c], x);
  }

  // The caller gives its socket back, to the cache of a living endpoint or to nobody.
  lemma FinishKeepsSockets(s: State, s': State, c: Cid, e: Eid, sock: SockId, cache: bool, threw: bool, x: SockId)
    requires Finish(s, s', c, e, sock, cache, threw)
    ensures Places(s', x) == Places(s, x) - if x == sock && !(cache && s.endpoints[e].alive) then 1 else 0
  {
    LentUpdate(s.callers, c, Outside, x);
    if s.endpoints[e].alive {
      CachedUpdate(s.endpoints, e, Finished(s.endpoints[e], sock, cache, threw, s.clock), x);
      IdsTogether(s.endpoints[e].socks, [Sock(sock, s.clock)]);
      assert Ids([Sock(sock, s.clock)]) == multiset{sock} + Ids([]);
    }
  }

  lemma ConnectKeepsSockets(s: State, s': State, a: Action, max: nat, x: SockId)
    requires Step(s, s', a, max)
    requires a.DoConnected? || a.DoConnectFails? || a.DoPick? || a.DoRetry?
    ensures Places(s', x) == Places(s, x) + if a.DoConnected? && x == s.nextSock then 1 else 0
  {
    LentUpdate(s.callers, a.c, s'.callers[a.c], x);
    if a.DoConnectFails? {
      CachedUpdate(s.endpoints, a.e, s'.endpoints[a.e], x);
    }
  }

  lemma StepKeepsSockets(s: State, s': State, a: Action, max: nat, x: SockId)
    requires Step(s, s', a, max)
    ensures Places(s', x) <= Places(s, x) + if a.DoConnected? && x == s.nextSock then 1 else 0
  {
    match a
    case DoAdmit(c, e) => AdmitKeepsSockets(s, s', c, e, max, x);
    case DoFinish(c, e, sock, cache, threw) => FinishKeepsSockets(s, s', c, e, sock, cache, threw, x);
    case DoLookup(added) => CachedMore(s.endpoints, added);
    case DoEraseAll =>
    case DoDestroy(e) => CachedUpdate(s.endpoints, e, s'.endpoints[e], x);
    case DoTick =>
    case _ => ConnectKeepsSockets(s, s', a, max, x);
  }

  lemma StepKeepsCallers(s: State, s': State, a: Action, max: nat)
    requires Inv(s, max) && Step(s, s', a, max)
    ensures Distinct(s'.listed) && forall e | e in s'.listed :: e < |s'.endpoints|
    ensures forall c | 0 <= c < |s'.callers| :: CallerOk(s', s'.callers[c])
  {
    if a.DoPick? {
      assert EndpointOk(s, a.e, max);
    } else if a.DoConnectFails? || a.DoFinish? {
      ErasedAll(s.listed, a.e);
    }
  }

  // A step of a caller changes its own part in the count and, at most, its own endpoint.
  lemma CallerKeepsEndpoint(s: State, s': State, c: Cid, e: Eid, max: nat, x: Eid)
    requires x < |s.endpoints| == |s'.endpoints| && EndpointOk(s, x, max)
    requires c < |s.callers| == |s'.callers| && s'.callers == s.callers[c := s'.callers[c]]
    requires e < |s.endpoints| && s'.endpoints == s.endpoints[e := s'.endpoints[e]]
    requires s.endpoints[e].alive == s'.endpoints[e].alive
    requires s.callers[c].Outside? || s.callers[c].e == e
    requires s'.callers[c].Outside? || s'.callers[c].e == e
    requires forall y | y in s'.listed :: y in s.listed
    requires s'.endpoints[e].error ==> s.endpoints[e].error || e !in s'.listed
    requires s.endpoints[e].alive ==>
      && s'.endpoints[e].outstanding - s'.endpoints[e].lost - Admits(s'.callers[c], e)
         == s.endpoints[e].outstanding - s.endpoints[e].lost - Admits(s.callers[c], e)
      && |s'.endpoints[e].socks| + s'.endpoints[e].outstanding <= max
    requires !s.endpoints[e].alive ==> s'.endpoints[e].socks == s.endpoints[e].socks
    ensures EndpointOk(s', x, max)
  {
    ActiveUpdate(s.callers, c, s'.callers[c], x);
  }

  lemma AdmitKeepsEndpoint(s: State, s': State, c: Cid, e: Eid, max: nat, x: Eid)
    requires Admit(s, s', c, e, max) && x < |s.endpoints|
    requires EndpointOk(s, x, max) && EndpointOk(s, e, max) && s.endpoints[e].alive
    ensures EndpointOk(s', x, max)
  {
    AdmittedSocks(s.endpoints[e], s.clock);
    CallerKeepsEndpoint(s, s', c, e, max, x);
  }

  lemma FinishKeepsEndpoint(s: State, s': State, c: Cid, e: Eid, sock: SockId, cache: bool, threw: bool, max: nat, x: Eid)
    requires Finish(s, s', c, e, sock, cache, threw) && Distinct(s.listed) && x < |s.endpoints|
    requires EndpointOk(s, x, max) && EndpointOk(s, e, max)
    ensures EndpointOk(s', x, max)
  {
    ErasedAll(s.listed, e);
    CallerKeepsEndpoint(s, s', c, e, max, x);
  }

  lemma ConnectKeepsEndpoint(s: State, s': State, a: Action, max: nat, x: Eid)
    requires Step(s, s', a, max) && x < |s.endpoints| && EndpointOk(s, x, max)
    requires a.DoConnected? || a.DoConnectFails? || a.DoPick? || a.DoRetry?
    requires a.e < |s.endpoints| && EndpointOk(s, a.e, max)
    ensures EndpointOk(s', x, max)
  {
    CallerKeepsEndpoint(s, s', a.c, a.e, max, x);
  }

  lemma NewEndpointOk(s: State, s': State, max: nat, e: Eid)
    requires forall c | 0 <= c < |s.callers| :: CallerOk(s, s.callers[c])
    requires |s.endpoints| <= e < |s'.endpoints| && s'.callers == s.callers && s'.endpoints[e] == Endpoint([], 0, false, true, 0)
    ensures EndpointOk(s', e, max)
  {
    forall c | 0 <= c < |s.callers|
      ensures Admits(s.callers[c], e) == 0
    {
      assert CallerOk(s, s.callers[c]);
    }
    NoneActive(s.callers, e);
  }

  lemma StepKeepsEndpoint(s: State, s': State, a: Action, max: nat, e: Eid)
    requires Inv(s, max) && Step(s, s', a, max) && e < |s'.endpoints|
    ensures EndpointOk(s', e, max)
  {
    if e >= |s.endpoints| {
      NewEndpointOk(s, s', max, e);
    } else {
      assert EndpointOk(s, e, max);
      match a
      case DoAdmit(c, e1) =>
        assert EndpointOk(s, e1, max) && CallerOk(s, s.callers[c]);
        AdmitKeepsEndpoint(s, s', c, e1, max, e);
      case DoFinish(c, e1, sock, cache, threw) =>
        assert EndpointOk(s, e1, max);
        FinishKeepsEndpoint(s, s', c, e1, sock, cache, threw, max, e);
      case DoLookup(added) =>
      case DoEraseAll =>
      case DoDestroy(e1) =>
      case DoTick =>
      case _ =>
        assert a.c < |s.callers| && CallerOk(s, s.callers[a.c]);
        assert EndpointOk(s, a.e, max);
        ConnectKeepsEndpoint(s, s', a, max, e);
    }
  }

  lemma StepPreserves(s: State, s': State, a: Action, max: nat)
    requires Inv(s, max) && Step(s, s', a, max)
    ensures Inv(s', max)
  {
    StepKeepsCallers(s, s', a, max);
    forall e | 0 <= e < |s'.endpoints|
      ensures EndpointOk(s', e, max)
    {
      StepKeepsEndpoint(s, s', a, max, e);
    }
    forall x: SockId
      ensures SocketOk(s', x)
    {
      assert SocketOk(s, x);
      StepKeepsSockets(s, s', a, max, x);
    }
  }

  lemma {:induction false} NothingLent(callers: seq<Caller>)
    requires forall c | 0 <= c < |callers| :: callers[c] == Outside
    ensures Lent(callers) == multiset{}
  {
    if callers != [] {
      NothingLent(callers[1..]);
    }
  }

  lemma {:induction false} RunSafe(run: seq<State>, actions: seq<Action>, max: nat, i: nat)
    requires Run(run, actions, max) && i < |run|
    ensures Inv(run[i], max)
  {
    if i == 0 {
      NothingLent(run[0].callers);
    } else {
      RunSafe(run, actions, max, i - 1);
      assert Step(run[i - 1], run[i - 1 + 1], actions[i - 1], max);
      StepPreserves(run[i - 1], run[i], actions[i - 1], max);
    }
  }

  // --- what holds in every run ---

  /** The sockets in the cache and the requests that are outstanding are never more than
      max_conn_per_ep_ together; and what counts as outstanding is the callers that are connecting to
      the endpoint or using it, and the connects that failed. */
  lemma NeverTooMany(run: seq<State>, actions: seq<Action>, max: nat, i: nat, e: Eid)
    requires Run(run, actions, max) && i < |run| && e < |run[i].endpoints| && run[i].endpoints[e].alive
    ensures var ep := run[i].endpoints[e];
            |ep.socks| + ep.outstanding <= max && ep.outstanding == Active(run[i].callers, e) + ep.lost
  {
    RunSafe(run, actions, max, i);
    assert EndpointOk(run[i], e, max);
  }

  lemma {:induction false} LentOnce(callers: seq<Caller>, c: Cid)
    requires c < |callers| && callers[c].Using?
    ensures Lent(callers)[callers[c].s] >= 1
    ensures forall d | 0 <= d < |callers| && d != c && callers[d].Using? && callers[d].s == callers[c].s :: Lent(callers)[callers[c].s] >= 2
  {
    if c > 0 {
      LentOnce(callers[1..], c - 1);
      forall d | 0 <= d < |callers| && d != c && callers[d].Using? && callers[d].s == callers[c].s
        ensures Lent(callers)[callers[c].s] >= 2
      {
        if d > 0 {
          assert callers[1..][d - 1] == callers[d] && callers[1..][c - 1] == callers[c];
        }
      }
    } else {
      forall d | 0 < d < |callers| && callers[d].Using? && callers[d].s == callers[c].s
        ensures Lent(callers)[callers[c].s] >= 2
      {
        LentOnce(callers[1..], d - 1);
      }
    }
  }

  /** No socket is lent to two callers, or lent while it is in a cache. */
  lemma NeverLentTwice(run: seq<State>, actions: seq<Action>, max: nat, i: nat, c: Cid, d: Cid)
    requires Run(run, actions, max) && i < |run| && c < |run[i].callers| && d < |run[i].callers| && c != d
    requires run[i].callers[c].Using?
    ensures run[i].callers[d].Using? ==> run[i].callers[d].s != run[i].callers[c].s
    ensures run[i].callers[c].s !in Cached(run[i].endpoints)
  {
    RunSafe(run, actions, max, i);
    assert SocketOk(run[i], run[i].callers[c].s);
    LentOnce(run[i].callers, c);
  }

  /** An endpoint with an error is not in the cluster's list, so a caller that has to try again
      picks another one. */
  lemma ErrorMeansErased(run: seq<State>, actions: seq<Action>, max: nat, i: nat, e: Eid)
    requires Run(run, actions, max) && i < |run| && e in run[i].listed
    ensures e < |run[i].endpoints| && run[i].endpoints[e].alive && !run[i].endpoints[e].error
  {
    RunSafe(run, actions, max, i);
    assert EndpointOk(run[i], e, max);
  }

  // --- connects that fail are never taken back ---

  lemma {:induction false} LostStaysLost(run: seq<State>, actions: seq<Action>, max: nat, i: nat, j: nat, e: Eid)
    requires Run(run, actions, max) && i <= j < |run| && e < |run[i].endpoints|
    ensures e < |run[j].endpoints| && run[i].endpoints[e].lost <= run[j].endpoints[e].lost
    decreases j - i
  {
    if i < j {
      assert Step(run[i], run[i + 1], actions[i], max);
      LostStaysLost(run, actions, max, i + 1, j, e);
    }
  }

  /** Once max_conn_per_ep_ connects to an endpoint have failed, no caller that waits for it is ever
      admitted or sent to another endpoint. */
  lemma StuckForGood(run: seq<State>, actions: seq<Action>, max: nat, i: nat, j: nat, c: Cid, e: Eid)
    requires Run(run, actions, max) && i <= j < |actions| && e < |run[i].endpoints|
    requires run[i].endpoints[e].lost >= max
    ensures actions[j] != DoAdmit(c, e) && actions[j] != DoRetry(c, e)
  {
    LostStaysLost(run, actions, max, i, j, e);
    RunSafe(run, actions, max, j);
    assert EndpointOk(run[j], e, max) && Step(run[j], run[j + 1], actions[j], max);
    if c < |run[j].callers| {
      assert CallerOk(run[j], run[j].callers[c]);
    }
  }

  /** When all callers of an endpoint are done, one more can go on if and only if fewer than
      max_conn_per_ep_ connects have failed. */
  lemma NextCallerGoesOn(run: seq<State>, actions: seq<Action>, max: nat, i: nat, c: Cid, e: Eid)
    requires Run(run, actions, max) && i < |run| && c < |run[i].callers| && run[i].callers[c] == Waiting(e)
    requires Active(run[i].callers, e) == 0
    ensures (exists s' :: Admit(run[i], s', c, e, max) || Retry(run[i], s', c, e, max))
            <==> e < |run[i].endpoints| && run[i].endpoints[e].lost < max
  {
    var s := run[i];
    RunSafe(run, actions, max, i);
    assert CallerOk(s, s.callers[c]) && EndpointOk(s, e, max);
    var ep := s.endpoints[e];
    if ep.lost < max {
      if ep.error {
        assert Retry(s, Set(s, c, Outside), c, e, max);
      } else {
        assert Admit(s, Set(Put(s, e, Admitted(ep, s.clock)), c,
                    match Taken(ep, s.clock) case None => Connecting(e) case Some(sock) => Using(e, sock.id)), c, e, max);
      }
    }
  }

  // --- a run in which all connects fail ---

  lemma OneMore(run: seq<State>, actions: seq<Action>, max: nat, s': State, a: Action)
    requires Run(run, actions, max) && Step(run[|run| - 1], s', a, max)
    ensures Run(run + [s'], actions + [a], max)
  {
    var longer, all := run + [s'], actions + [a];
    forall i | 0 <= i < |all|
      ensures Step(longer[i], longer[i + 1], all[i], max)
    {
      if i < |actions| {
        assert Step(run[i], run[i + 1], actions[i], max);
      }
    }
  }

  // The first k callers have come to a, the others are still at b.
  function Queue(n: nat, k: nat, a: Caller, b: Caller): (callers: seq<Caller>)
    ensures |callers| == n
  {
    seq(n, c => if c < k then a else b)
  }

  lemma NextInQueue(n: nat, k: nat, a: Caller, b: Caller)
    requires k < n
    ensures Queue(n, k, a, b)[k] == b && Queue(n, k, a, b)[k := a] == Queue(n, k + 1, a, b)
  {
  }

  // The endpoint while its connects are under way, and after some of them have failed.
  function Tried(admitted: nat, failed: nat): Endpoint {
    Endpoint([], admitted, false, true, failed)
  }

  lemma AllPick(max: nat) returns (run: seq<State>, actions: seq<Action>)
    ensures Run(run, actions, max)
    ensures run[|run| - 1] == State([Tried(0, 0)], [0], Queue(max + 1, max + 1, Waiting(0), Outside), 0, 0)
  {
    var n, k := max + 1, 0;
    var s := State([], [], Queue(n, 0, Waiting(0), Outside), 0, 0);
    var found := State([Tried(0, 0)], [0], Queue(n, 0, Waiting(0), Outside), 0, 0);
    assert found.endpoints == s.endpoints + seq(1, _ => Endpoint([], 0, false, true, 0));
    run, actions := [s, found], [DoLookup(1)];
    while k < n
      invariant k <= n && Run(run, actions, max)
      invariant run[|run| - 1] == State([Tried(0, 0)], [0], Queue(n, k, Waiting(0), Outside), 0, 0)
    {
      NextInQueue(n, k, Waiting(0), Outside);
      var s' := Set(run[|run| - 1], k, Waiting(0));
      OneMore(run, actions, max, s', DoPick(k, 0));
      run, actions, k := run + [s'], actions + [DoPick(k, 0)], k + 1;
    }
  }

  // All but the last are admitted.
  lemma AllAdmitted(max: nat) returns (run: seq<State>, actions: seq<Action>)
    ensures Run(run, actions, max)
    ensures run[|run| - 1] == State([Tried(max, 0)], [0], Queue(max + 1, max, Connecting(0), Waiting(0)), 0, 0)
  {
    var n, k := max + 1, 0;
    run, actions := AllPick(max);
    assert Queue(n, n, Waiting(0), Outside) == Queue(n, 0, Connecting(0), Waiting(0));
    while k < max
      invariant k <= max && Run(run, actions, max)
      invariant run[|run| - 1] == State([Tried(k, 0)], [0], Queue(n, k, Connecting(0), Waiting(0)), 0, 0)
    {
      NextInQueue(n, k, Connecting(0), Waiting(0));
      var s' := Set(Put(run[|run| - 1], 0, Tried(k + 1, 0)), k, Connecting(0));
      assert Admitted(Tried(k, 0), 0) == Tried(k + 1, 0) && Taken(Tried(k, 0), 0) == None;
      OneMore(run, actions, max, s', DoAdmit(k, 0));
      run, actions, k := run + [s'], actions + [DoAdmit(k, 0)], k + 1;
    }
  }

  /** Such a run, for every bound: the connects of all that were admitted fail, and the caller that
      waits for its turn never gets it. */
  lemma AllConnectsFail(max: nat) returns (run: seq<State>, actions: seq<Action>)
    ensures Run(run, actions, max)
    ensures var last := run[|run| - 1];
            && |last.callers| == max + 1 && last.callers[max] == Waiting(0) && last.endpoints == [Tried(max, max)]
            && (forall c | 0 <= c < max :: last.callers[c] == Outside)
            && forall s' :: !Admit(last, s', max, 0, max) && !Retry(last, s', max, 0, max)
  {
    var n, k := max + 1, 0;
    run, actions := AllAdmitted(max);
    var all := run[|run| - 1].callers;
    assert forall c | 0 <= c < n :: all[c] == if c < max then Connecting(0) else Waiting(0);
    while k < max
      invariant k <= max && Run(run, actions, max)
      invariant var s := run[|run| - 1];
                && s.endpoints == [Tried(max, k)] && |s.callers| == n
                && forall c | 0 <= c < n :: s.callers[c] == if c < k then Outside else if c < max then Connecting(0) else Waiting(0)
    {
      var s := run[|run| - 1];
      var s' := Set(Put(s, 0, Tried(max, k + 1)), k, Outside).(listed := Erased(s.listed, 0));
      OneMore(run, actions, max, s', DoConnectFails(k, 0, true));
      run, actions, k := run + [s'], actions + [DoConnectFails(k, 0, true)], k + 1;
    }
  }
}
