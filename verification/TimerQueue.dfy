/** io_dispatch's scheduled tasks: the multimap task_map_ that has to agree with one kernel timer.
    Times are nanoseconds; the timer is a one-shot timerfd whose settime clears an expiration
    that has not been read, and which a time of zero disarms. */
module TimerQueue {

  datatype Task = Task(when: nat, id: nat)

  datatype Timer = Disarmed | Armed(when: nat)

  // expired: the timer has an unread expiration
  datatype Queue = Queue(tasks: seq<Task>, timer: Timer, expired: bool, nextId: nat)

  predicate Sorted(tasks: seq<Task>) {
    forall i, j | 0 <= i < j < |tasks| :: tasks[i].when <= tasks[j].when
  }

  // How many tasks come no later than when: the position of std::multimap's upper_bound.
  function UpperBound(tasks: seq<Task>, when: nat): (n: nat)
    ensures n <= |tasks|
    ensures forall i | 0 <= i < n :: tasks[i].when <= when
    ensures n < |tasks| ==> when < tasks[n].when
  {
    if tasks == [] || when < tasks[0].when then 0 else 1 + UpperBound(tasks[1..], when)
  }

  // std::multimap's find: the first task at that time, or the end.
  function Find(tasks: seq<Task>, when: nat): (n: nat)
    ensures n <= |tasks|
    ensures n < |tasks| ==> tasks[n].when == when
    ensures forall i | 0 <= i < n :: tasks[i].when != when
  {
    if tasks == [] || tasks[0].when == when then 0 else 1 + Find(tasks[1..], when)
  }

  function SetTime(q: Queue, when: nat): Queue {
    q.(timer := if when == 0 then Disarmed else Armed(when), expired := false)
  }

  // --- what the three critical sections do ---

  function NewTask(q: Queue, when: nat): Task {
    Task(when, q.nextId)
  }

  function Scheduled(q: Queue, when: nat): Queue {
    var n := UpperBound(q.tasks, when);
    var q' := q.(tasks := q.tasks[..n] + [NewTask(q, when)] + q.tasks[n..], nextId := q.nextId + 1);
    if q'.tasks[0].when == when then SetTime(q', when) else q'
  }

  function Due(q: Queue, now: nat): seq<Task> {
    q.tasks[..UpperBound(q.tasks, now)]
  }

  function Swept(q: Queue, now: nat): Queue {
    var left := q.tasks[UpperBound(q.tasks, now)..];
    var q' := q.(tasks := left);
    if left == [] then q' else SetTime(q', left[0].when)
  }

  function Position(tasks: seq<Task>, task: Task): (n: nat)
    ensures n <= |tasks|
    ensures n < |tasks| ==> tasks[n] == task
    ensures forall i | 0 <= i < n :: tasks[i] != task
  {
    if tasks == [] || tasks[0] == task then 0 else 1 + Position(tasks[1..], task)
  }

  function Without(tasks: seq<Task>, k: nat): seq<Task> {
    if k < |tasks| then tasks[..k] + tasks[k + 1..] else tasks
  }

  // Where the search of remove_task gives up, from n on: at that id, where the time changes, or at
  // the end.
  function Stop(tasks: seq<Task>, task: Task, n: nat): (k: nat)
    requires n <= |tasks|
    ensures n <= k <= |tasks|
    ensures forall i | n <= i < k :: tasks[i].id != task.id && tasks[i].when == task.when
    ensures k < |tasks| ==> tasks[k].id == task.id || tasks[k].when != task.when
    decreases |tasks| - n
  {
    if n < |tasks| && tasks[n].id != task.id && tasks[n].when == task.when then Stop(tasks, task, n + 1) else n
  }

  // What remove_task takes out, whatever it is given: the task where the search gives up, if it
  // has that id.
  function Hit(tasks: seq<Task>, task: Task): (k: nat)
    ensures k <= |tasks|
  {
    var k := Stop(tasks, task, Find(tasks, task.when));
    if k < |tasks| && tasks[k].id == task.id then k else |tasks|
  }

  // No other task carries the id of this one.
  predicate Genuine(tasks: seq<Task>, task: Task) {
    forall k | 0 <= k < |tasks| && tasks[k].id == task.id :: tasks[k] == task
  }

  class TaskMap {
    var tasks: seq<Task>
    var timer: Timer
    var expired: bool
    var nextId: nat

    function Value(): Queue
      reads this
    {
      Queue(tasks, timer, expired, nextId)
    }

    method TimerSetTime(when: nat)
      modifies this
      ensures Value() == SetTime(old(Value()), when)
    {
      timer := if when == 0 then Disarmed else Armed(when);
      expired := false;
    }

    method Schedule(when: nat) returns (task: Task)
      modifies this
      ensures Value() == Scheduled(old(Value()), when)
      ensures task == NewTask(old(Value()), when)
    {
      task := Task(when, nextId);
      nextId := nextId + 1;
      var n := UpperBound(tasks, when);
      tasks := tasks[..n] + [task] + tasks[n..];
      if tasks[0].when == when {
        TimerSetTime(when);
      }
    }

    // The locked section of io_timer_handler::io_avail.
    method Sweep(now: nat) returns (ready: seq<Task>)
      modifies this
      ensures ready == Due(old(Value()), now)
      ensures Value() == Swept(old(Value()), now)
    {
      ready := [];
      while tasks != [] && tasks[0].when <= now
        invariant |ready| <= |old(tasks)| && ready == old(tasks)[..|ready|] && tasks == old(tasks)[|ready|..]
        invariant UpperBound(old(tasks), now) == |ready| + UpperBound(tasks, now)
        invariant timer == old(timer) && expired == old(expired) && nextId == old(nextId)
        decreases |tasks|
      {
        assert old(tasks)[..|ready| + 1] == ready + [tasks[0]];
        ready := ready + [tasks[0]];
        tasks := tasks[1..];
      }
      if tasks != [] {
        TimerSetTime(tasks[0].when);
      }
    }

    // The search starts at the first task of that time and gives up where the time changes.
    method Remove(task: Task) returns (ok: bool)
      modifies this
      ensures ok <==> Hit(old(tasks), task) < |old(tasks)|
      ensures Value() == old(Value()).(tasks := Without(old(tasks), Hit(old(tasks), task)))
    {
      var i := Find(tasks, task.when);
      while i < |tasks| && tasks[i].id != task.id && tasks[i].when == task.when
        invariant i <= |tasks| && Stop(tasks, task, i) == Stop(tasks, task, Find(tasks, task.when))
      {
        i := i + 1;
      }
      if i < |tasks| && tasks[i].id == task.id {
        tasks := tasks[..i] + tasks[i + 1..];
        ok := true;
      } else {
        ok := false;
      }
    }
  }

  /** Given what schedule_task has returned, the search finds that task, and finds it if and only if
      it is queued. */
  lemma HitIsTask(tasks: seq<Task>, task: Task)
    requires Sorted(tasks) && Genuine(tasks, task)
    ensures Hit(tasks, task) == Position(tasks, task)
    ensures Hit(tasks, task) < |tasks| <==> task in tasks
  {
    var n, p := Find(tasks, task.when), Position(tasks, task);
    var k := Stop(tasks, task, n);
    if p < |tasks| {
      assert n <= p && k <= p;
    }
  }

  // The tasks of one time lie together.
  lemma TimeRange(tasks: seq<Task>, when: nat)
    requires Sorted(tasks)
    ensures forall i | 0 <= i < |tasks| :: tasks[i].when == when <==> Find(tasks, when) <= i < UpperBound(tasks, when)
  {
    var f, n := Find(tasks, when), UpperBound(tasks, when);
    forall i | 0 <= i < |tasks|
      ensures tasks[i].when == when <==> f <= i < n
    {
      if f <= i < n {
        assert tasks[f].when <= tasks[i].when;
      } else if n <= i {
        assert tasks[n].when <= tasks[i].when;
      }
    }
  }

  /** Given any handle, it takes out another task than the handle names if and only if some task has
      the handle's time, none of that time has its id, and the first later one has. */
  lemma HitIsAnother(tasks: seq<Task>, task: Task)
    requires Sorted(tasks)
    ensures var k, n := Hit(tasks, task), UpperBound(tasks, task.when);
            (k < |tasks| && tasks[k] != task) <==>
              && Find(tasks, task.when) < |tasks|
              && (forall i | 0 <= i < |tasks| && tasks[i].when == task.when :: tasks[i].id != task.id)
              && n < |tasks| && tasks[n].id == task.id
  {
    TimeRange(tasks, task.when);
    var n := UpperBound(tasks, task.when);
    var k := Stop(tasks, task, Find(tasks, task.when));
    if Find(tasks, task.when) < |tasks| {
      assert k <= n;
      assert k < n ==> tasks[k] == task;
    }
  }

  // --- any number of threads that schedule, remove and handle the timer ---

  datatype Handler =
    | Idle
    | HasRead                  // has read an expiration
    | HasTime(now: nat)        // and then the clock
    | Running(ready: seq<Task>)

  datatype State = State(queue: Queue, clock: nat, handlers: seq<Handler>,
                         issued: seq<Task>, removed: seq<Task>, ran: seq<Task>)

  datatype Action =
    | Tick
    | Expire
    | Schedule(when: nat)
    | Remove(task: Task)
    | ReadTimer(h: nat)
    | ReadClock(h: nat)
    | Sweep(h: nat)
    | Exec(h: nat)

  function At(s: State, h: nat): Handler {
    if h < |s.handlers| then s.handlers[h] else Idle
  }

  ghost predicate Step(s: State, s': State, action: Action) {
    match action
    case Tick => s' == s.(clock := s.clock + 1)
    case Expire =>
      && s.queue.timer.Armed? && s.queue.timer.when <= s.clock
      && s' == s.(queue := s.queue.(timer := Disarmed, expired := true))
    case Schedule(when) =>
      s' == s.(queue := Scheduled(s.queue, when), issued := s.issued + [NewTask(s.queue, when)])
    case Remove(task) =>
      var k := Hit(s.queue.tasks, task);
      s' == if k < |s.queue.tasks| then
              s.(queue := s.queue.(tasks := Without(s.queue.tasks, k)), removed := s.removed + [s.queue.tasks[k]])
            else
              s
    case ReadTimer(h) =>
      && h < |s.handlers| && s.handlers[h].Idle?
      && s' == if s.queue.expired then
                 s.(queue := s.queue.(expired := false), handlers := s.handlers[h := HasRead])
               else
                 s   // EAGAIN
    case ReadClock(h) =>
      && h < |s.handlers| && s.handlers[h].HasRead?
      && s' == s.(handlers := s.handlers[h := HasTime(s.clock)])
    case Sweep(h) =>
      && h < |s.handlers| && s.handlers[h].HasTime?
      && var now := s.handlers[h].now;
         s' == s.(queue := Swept(s.queue, now), handlers := s.handlers[h := Running(Due(s.queue, now))])
    case Exec(h) =>
      && h < |s.handlers| && s.handlers[h].Running?
      && var ready := s.handlers[h].ready;
         s' == if ready == [] then
                 s.(handlers := s.handlers[h := Idle])
               else
                 s.(handlers := s.handlers[h := Running(ready[1..])], ran := s.ran + [ready[0]])
  }

  ghost predicate Init(s: State) {
    && s.queue == Queue([], Disarmed, false, 0)
    && (forall h | 0 <= h < |s.handlers| :: s.handlers[h] == Idle)
    && s.issued == [] && s.removed == [] && s.ran == []
  }

  ghost predicate Run(run: seq<State>, actions: seq<Action>) {
    && |run| == |actions| + 1 && Init(run[0])
    && forall i | 0 <= i < |actions| :: Step(run[i], run[i + 1], actions[i])
  }

  // --- no timer is lost ---

  predicate Pending(h: Handler) {
    h.HasRead? || h.HasTime?
  }

  predicate SomePending(handlers: seq<Handler>) {
    exists h :: 0 <= h < |handlers| && Pending(handlers[h])
  }

  // Something will look at the earliest task: the timer goes off no later than its time, or has
  // gone off and was not read, or was read by a handler that has still to sweep the queue.
  predicate Guarded(s: State) {
    s.queue.tasks == []
    || (s.queue.timer.Armed? && s.queue.timer.when <= s.queue.tasks[0].when)
    || s.queue.expired
    || SomePending(s.handlers)
  }

  // The one way to lose a timer: a task for time zero disarms it while no handler is on its way.
  predicate Disarming(s: State, action: Action) {
    action == Schedule(0) && !SomePending(s.handlers)
  }

  lemma StillOnItsWay(s: State, handlers: seq<Handler>)
    requires |handlers| == |s.handlers|
    requires forall h | 0 <= h < |handlers| && Pending(s.handlers[h]) :: Pending(handlers[h])
    requires SomePending(s.handlers)
    ensures SomePending(handlers)
  {
    var h :| 0 <= h < |s.handlers| && Pending(s.handlers[h]);
    assert Pending(handlers[h]);
  }

  lemma ScheduleGuarded(s: State, s': State, when: nat)
    requires Sorted(s.queue.tasks) && Guarded(s) && Step(s, s', Schedule(when))
    ensures Guarded(s') <==> !Disarming(s, Schedule(when))
  {
    var n := UpperBound(s.queue.tasks, when);
    assert s'.queue.tasks[0] == if n == 0 then NewTask(s.queue, when) else s.queue.tasks[0];
    assert s'.handlers == s.handlers;
  }

  lemma HandlerGuarded(s: State, s': State, action: Action)
    requires Guarded(s) && Step(s, s', action)
    requires action.ReadTimer? || action.ReadClock? || action.Exec?
    ensures Guarded(s')
  {
    if s' != s && !action.Exec? {
      assert Pending(s'.handlers[action.h]);
    } else if SomePending(s.handlers) {
      StillOnItsWay(s, s'.handlers);
    }
  }

  lemma StepGuarded(s: State, s': State, action: Action)
    requires Sorted(s.queue.tasks) && Guarded(s) && Step(s, s', action)
    ensures Guarded(s') <==> !Disarming(s, action)
  {
    match action
    case Schedule(when) => ScheduleGuarded(s, s', when);
    case ReadTimer(h) => HandlerGuarded(s, s', action);
    case ReadClock(h) => HandlerGuarded(s, s', action);
    case Exec(h) => HandlerGuarded(s, s', action);
    case _ =>
  }

  // --- where the tasks are ---

  function Batch(h: Handler): multiset<Task> {
    if h.Running? then multiset(h.ready) else multiset{}
  }

  function Batches(handlers: seq<Handler>): multiset<Task> {
    if handlers == [] then multiset{} else Batch(handlers[0]) + Batches(handlers[1..])
  }

  lemma {:induction false} BatchesUpdate(handlers: seq<Handler>, k: nat, h: Handler, x: Task)
    requires k < |handlers|
    ensures Batches(handlers[k := h])[x] + Batch(handlers[k])[x] == Batches(handlers)[x] + Batch(h)[x]
  {
    if k == 0 {
      assert handlers[k := h][1..] == handlers[1..];
    } else {
      assert handlers[k := h][1..] == handlers[1..][k - 1 := h];
      BatchesUpdate(handlers[1..], k - 1, h, x);
    }
  }

  lemma {:induction false} NoBatches(handlers: seq<Handler>)
    requires forall h | 0 <= h < |handlers| :: handlers[h] == Idle
    ensures Batches(handlers) == multiset{}
  {
    if handlers != [] {
      NoBatches(handlers[1..]);
    }
  }

  function Everywhere(s: State): multiset<Task> {
    multiset(s.queue.tasks) + Batches(s.handlers) + multiset(s.removed) + multiset(s.ran)
  }

  predicate IdsOk(s: State) {
    |s.issued| == s.queue.nextId && forall i | 0 <= i < |s.issued| :: s.issued[i].id == i
  }

  predicate TimesOk(s: State) {
    && Sorted(s.queue.tasks)
    && (forall k | 0 <= k < |s.ran| :: s.ran[k].when <= s.clock)
    && (forall h | 0 <= h < |s.handlers| :: HandlerOk(s.handlers[h], s.clock))
  }

  predicate HandlerOk(h: Handler, clock: nat) {
    match h
    case HasTime(now) => now <= clock
    case Running(ready) => Sorted(ready) && forall k | 0 <= k < |ready| :: ready[k].when <= clock
    case _ => true
  }

  predicate Inv(s: State) {
    IdsOk(s) && TimesOk(s) && Everywhere(s) == multiset(s.issued)
  }

  lemma PutInSorted(tasks: seq<Task>, more: seq<Task>, n: nat)
    requires Sorted(tasks) && |more| == |tasks| + 1 && n <= |tasks| && n == UpperBound(tasks, more[n].when)
    requires forall k | 0 <= k < n :: more[k] == tasks[k]
    requires forall k | n < k < |more| :: more[k] == tasks[k - 1]
    ensures Sorted(more)
  {
    forall i, j | 0 <= i < j < |more|
      ensures more[i].when <= more[j].when
    {
      if i <= n < j {
        assert tasks[n].when <= tasks[j - 1].when;
      }
    }
  }

  lemma TakeOutSorted(tasks: seq<Task>, k: nat)
    requires Sorted(tasks) && k < |tasks|
    ensures Sorted(tasks[..k] + tasks[k + 1..])
  {
    var left := tasks[..k] + tasks[k + 1..];
    assert forall i | 0 <= i < |left| :: left[i] == tasks[if i < k then i else i + 1];
  }

  lemma ScheduledSorted(q: Queue, when: nat)
    requires Sorted(q.tasks)
    ensures Sorted(Scheduled(q, when).tasks)
  {
    PutInSorted(q.tasks, Scheduled(q, when).tasks, UpperBound(q.tasks, when));
  }

  lemma QueueStaysSorted(s: State, s': State, action: Action)
    requires Sorted(s.queue.tasks) && Step(s, s', action)
    ensures Sorted(s'.queue.tasks)
  {
    match action
    case Schedule(when) =>
      ScheduledSorted(s.queue, when);
    case Remove(task) =>
      if Hit(s.queue.tasks, task) < |s.queue.tasks| {
        TakeOutSorted(s.queue.tasks, Hit(s.queue.tasks, task));
      }
    case _ =>
  }

  lemma HandlersStayOk(s: State, s': State, action: Action, h: nat)
    requires Sorted(s.queue.tasks) && h < |s.handlers| && HandlerOk(s.handlers[h], s.clock)
    requires Step(s, s', action)
    ensures h < |s'.handlers| && HandlerOk(s'.handlers[h], s'.clock)
  {
  }

  lemma StepTimes(s: State, s': State, action: Action)
    requires TimesOk(s) && Step(s, s', action)
    ensures TimesOk(s')
  {
    QueueStaysSorted(s, s', action);
    forall h | 0 <= h < |s'.handlers|
      ensures HandlerOk(s'.handlers[h], s'.clock)
    {
      HandlersStayOk(s, s', action, h);
    }
    assert s'.clock >= s.clock;
    if action.Exec? {
      assert HandlerOk(s.handlers[action.h], s.clock);
    }
  }

  // A task goes into the queue or out of it.
  lemma QueueConserves(s: State, s': State)
    requires Everywhere(s) == multiset(s.issued) && s'.handlers == s.handlers && s'.ran == s.ran
    requires multiset(s'.queue.tasks) + multiset(s'.removed) + multiset(s.issued)
          == multiset(s.queue.tasks) + multiset(s.removed) + multiset(s'.issued)
    ensures Everywhere(s') == multiset(s'.issued)
  {
    forall x
      ensures Everywhere(s')[x] == multiset(s'.issued)[x]
    {
      assert (multiset(s'.queue.tasks) + multiset(s'.removed) + multiset(s.issued))[x]
          == (multiset(s.queue.tasks) + multiset(s.removed) + multiset(s'.issued))[x];
      assert Everywhere(s)[x] == multiset(s.issued)[x];
    }
  }

  lemma PutIn(tasks: seq<Task>, n: nat, task: Task)
    requires n <= |tasks|
    ensures multiset(tasks[..n] + [task] + tasks[n..]) == multiset(tasks) + multiset{task}
  {
    assert tasks == tasks[..n] + tasks[n..];
  }

  lemma TakeOut(tasks: seq<Task>, k: nat)
    requires k < |tasks|
    ensures multiset(tasks) == multiset(tasks[..k] + tasks[k + 1..]) + multiset{tasks[k]}
  {
    assert tasks == tasks[..k] + [tasks[k]] + tasks[k + 1..];
  }

  lemma ScheduleConserves(s: State, s': State, when: nat)
    requires Everywhere(s) == multiset(s.issued) && Step(s, s', Schedule(when))
    ensures Everywhere(s') == multiset(s'.issued)
  {
    var task := NewTask(s.queue, when);
    PutIn(s.queue.tasks, UpperBound(s.queue.tasks, when), task);
    assert multiset(s'.queue.tasks) == multiset(s.queue.tasks) + multiset{task};
    assert multiset(s'.issued) == multiset(s.issued) + multiset{task};
    QueueConserves(s, s');
  }

  lemma RemoveConserves(s: State, s': State, task: Task)
    requires Everywhere(s) == multiset(s.issued) && Step(s, s', Remove(task))
    ensures Everywhere(s') == multiset(s'.issued)
  {
    var k := Hit(s.queue.tasks, task);
    if k < |s.queue.tasks| {
      TakeOut(s.queue.tasks, k);
      QueueConserves(s, s');
    }
  }

  // A step of one handler may move tasks from the queue to its batch, or from there to ran.
  lemma HandlerConserves(s: State, s': State, h: nat)
    requires Everywhere(s) == multiset(s.issued) && s'.issued == s.issued && s'.removed == s.removed
    requires h < |s.handlers| == |s'.handlers| && s'.handlers == s.handlers[h := s'.handlers[h]]
    requires multiset(s'.queue.tasks) + Batch(s'.handlers[h]) + multiset(s'.ran)
          == multiset(s.queue.tasks) + Batch(s.handlers[h]) + multiset(s.ran)
    ensures Everywhere(s') == multiset(s'.issued)
  {
    forall x
      ensures Everywhere(s')[x] == Everywhere(s)[x]
    {
      BatchesUpdate(s.handlers, h, s'.handlers[h], x);
      var m' := multiset(s'.queue.tasks) + Batch(s'.handlers[h]) + multiset(s'.ran);
      var m := multiset(s.queue.tasks) + Batch(s.handlers[h]) + multiset(s.ran);
      assert m'[x] == m[x];
    }
  }

  lemma SweepConserves(s: State, s': State, h: nat)
    requires Everywhere(s) == multiset(s.issued) && Step(s, s', Sweep(h))
    ensures Everywhere(s') == multiset(s'.issued)
  {
    var n := UpperBound(s.queue.tasks, s.handlers[h].now);
    assert s.queue.tasks == s.queue.tasks[..n] + s.queue.tasks[n..];
    HandlerConserves(s, s', h);
  }

  lemma ExecConserves(s: State, s': State, h: nat)
    requires Everywhere(s) == multiset(s.issued) && Step(s, s', Exec(h))
    ensures Everywhere(s') == multiset(s'.issued)
  {
    var ready := s.handlers[h].ready;
    if ready != [] {
      assert ready == [ready[0]] + ready[1..];
    }
    HandlerConserves(s, s', h);
  }

  lemma ReadConserves(s: State, s': State, action: Action)
    requires Everywhere(s) == multiset(s.issued) && Step(s, s', action)
    requires action.ReadTimer? || action.ReadClock?
    ensures Everywhere(s') == multiset(s'.issued)
  {
    if s' != s {
      HandlerConserves(s, s', action.h);
    }
  }

  lemma StepPreserves(s: State, s': State, action: Action)
    requires Inv(s) && Step(s, s', action)
    ensures Inv(s')
  {
    StepTimes(s, s', action);
    match action
    case Schedule(when) => ScheduleConserves(s, s', when);
    case Remove(task) => RemoveConserves(s, s', task);
    case Sweep(h) => SweepConserves(s, s', h);
    case Exec(h) => ExecConserves(s, s', h);
    case ReadTimer(h) => ReadConserves(s, s', action);
    case ReadClock(h) => ReadConserves(s, s', action);
    case _ =>
  }

  lemma {:induction false} RunSafe(run: seq<State>, actions: seq<Action>, i: nat)
    requires Run(run, actions) && i < |run|
    ensures Inv(run[i])
  {
    if i == 0 {
      NoBatches(run[0].handlers);
    } else {
      RunSafe(run, actions, i - 1);
      assert Step(run[i - 1], run[i - 1 + 1], actions[i - 1]);
      StepPreserves(run[i - 1], run[i], actions[i - 1]);
    }
  }

  // --- what holds in every run ---

  /** No timer is lost in a run exactly when no step of it schedules a task for time zero while
      no handler is on its way. */
  lemma NoTimerLost(run: seq<State>, actions: seq<Action>)
    requires Run(run, actions)
    ensures (forall i | 0 <= i < |run| :: Guarded(run[i])) <==>
            (forall i | 0 <= i < |actions| :: !Disarming(run[i], actions[i]))
  {
    if forall i | 0 <= i < |actions| :: !Disarming(run[i], actions[i]) {
      forall i | 0 <= i < |run|
        ensures Guarded(run[i])
      {
        GuardedUpTo(run, actions, i);
      }
    }
    if forall i | 0 <= i < |run| :: Guarded(run[i]) {
      forall i | 0 <= i < |actions|
        ensures !Disarming(run[i], actions[i])
      {
        RunSafe(run, actions, i);
        assert Step(run[i], run[i + 1], actions[i]);
        StepGuarded(run[i], run[i + 1], actions[i]);
      }
    }
  }

  lemma {:induction false} GuardedUpTo(run: seq<State>, actions: seq<Action>, i: nat)
    requires Run(run, actions) && i < |run|
    requires forall k | 0 <= k < i :: !Disarming(run[k], actions[k])
    ensures Guarded(run[i])
  {
    if i > 0 {
      GuardedUpTo(run, actions, i - 1);
      RunSafe(run, actions, i - 1);
      assert Step(run[i - 1], run[i - 1 + 1], actions[i - 1]);
      StepGuarded(run[i - 1], run[i], actions[i - 1]);
    }
  }

  // Such a run: the task is queued, and nothing will ever look at it.
  lemma TimerLost(handlers: nat) returns (run: seq<State>, actions: seq<Action>)
    ensures Run(run, actions) && run != []
    ensures var last := run[|run| - 1]; last.queue.tasks == [Task(0, 0)] && !Guarded(last)
  {
    var idle := seq(handlers, i => Idle);
    var s := State(Queue([], Disarmed, false, 0), 0, idle, [], [], []);
    run, actions := [s, s.(queue := Scheduled(s.queue, 0), issued := [Task(0, 0)])], [Schedule(0)];
  }

  /** A sweep that leaves tasks sets the timer for the first of them, no sooner and no later, and one
      that leaves none leaves the timer as it is. */
  lemma SweepSetsTimer(run: seq<State>, actions: seq<Action>, i: nat)
    requires Run(run, actions) && i < |actions| && actions[i].Sweep?
    ensures var q, q' := run[i].queue, run[i + 1].queue;
            if q'.tasks != [] then q'.timer == Armed(q'.tasks[0].when) && !q'.expired
            else q'.timer == q.timer && q'.expired == q.expired
  {
    assert Step(run[i], run[i + 1], actions[i]);
  }

  /** Scheduling sets the timer if and only if the task's time is now the earliest, for that time
      unless it is 0, and otherwise leaves it as it is. */
  lemma ScheduleSetsTimer(run: seq<State>, actions: seq<Action>, i: nat)
    requires Run(run, actions) && i < |actions| && actions[i].Schedule?
    ensures var q, q', when := run[i].queue, run[i + 1].queue, actions[i].when;
            && q'.tasks != []
            && if forall k | 0 <= k < |q'.tasks| :: when <= q'.tasks[k].when
               then q'.timer == (if when == 0 then Disarmed else Armed(when)) && !q'.expired
               else q'.timer == q.timer && q'.expired == q.expired
  {
    RunSafe(run, actions, i);
    assert Step(run[i], run[i + 1], actions[i]);
    QueueStaysSorted(run[i], run[i + 1], actions[i]);
    var tasks, when := run[i + 1].queue.tasks, actions[i].when;
    var n := UpperBound(run[i].queue.tasks, when);
    assert tasks[n] == NewTask(run[i].queue, when);
  }

  ghost predicate ForATask(s: State) {
    s.queue.timer.Armed? ==> exists task :: task in s.issued && task.when == s.queue.timer.when
  }

  lemma StepKeepsForATask(s: State, s': State, action: Action)
    requires Inv(s) && ForATask(s) && Step(s, s', action)
    ensures ForATask(s')
  {
    match action
    case Schedule(when) =>
      assert NewTask(s.queue, when) in s'.issued;
      if s.queue.timer.Armed? && s'.queue.timer == s.queue.timer {
        var task :| task in s.issued && task.when == s.queue.timer.when;
        assert task in s'.issued;
      }
    case Sweep(h) =>
      if s'.queue.tasks != [] {
        QueuedIsIssued(s, s'.queue.tasks[0]);
      }
    case _ =>
  }

  lemma QueuedIsIssued(s: State, task: Task)
    requires Inv(s) && task in s.queue.tasks
    ensures task in s.issued
  {
    assert task in Everywhere(s);
  }

  /** The timer is only ever armed for the time of a task that was scheduled. */
  lemma {:induction false} ArmedForATask(run: seq<State>, actions: seq<Action>, i: nat)
    requires Run(run, actions) && i < |run|
    ensures run[i].queue.timer.Armed? ==> exists task :: task in run[i].issued && task.when == run[i].queue.timer.when
  {
    if i > 0 {
      ArmedForATask(run, actions, i - 1);
      RunSafe(run, actions, i - 1);
      assert Step(run[i - 1], run[i - 1 + 1], actions[i - 1]);
      StepKeepsForATask(run[i - 1], run[i], actions[i - 1]);
    }
  }

  predicate TiesInOrder(tasks: seq<Task>) {
    forall i, j | 0 <= i < j < |tasks| && tasks[i].when == tasks[j].when :: tasks[i].id < tasks[j].id
  }

  lemma QueuedIsOld(s: State, task: Task)
    requires Inv(s) && task in s.queue.tasks
    ensures task.id < s.queue.nextId
  {
    QueuedIsIssued(s, task);
  }

  lemma PutInTies(tasks: seq<Task>, more: seq<Task>, n: nat)
    requires Sorted(tasks) && TiesInOrder(tasks) && |more| == |tasks| + 1 && n <= |tasks| && n == UpperBound(tasks, more[n].when)
    requires forall k | 0 <= k < n :: more[k] == tasks[k]
    requires forall k | n < k < |more| :: more[k] == tasks[k - 1]
    requires forall k | 0 <= k < |tasks| :: tasks[k].id < more[n].id
    ensures TiesInOrder(more)
  {
    forall j | n < j < |more|
      ensures more[n].when < more[j].when
    {
      assert tasks[n].when <= tasks[j - 1].when;
    }
  }

  lemma ScheduledTies(q: Queue, when: nat)
    requires Sorted(q.tasks) && TiesInOrder(q.tasks) && forall k | 0 <= k < |q.tasks| :: q.tasks[k].id < q.nextId
    ensures TiesInOrder(Scheduled(q, when).tasks)
  {
    PutInTies(q.tasks, Scheduled(q, when).tasks, UpperBound(q.tasks, when));
  }

  lemma RemovedTies(tasks: seq<Task>, k: nat)
    requires TiesInOrder(tasks)
    ensures TiesInOrder(Without(tasks, k))
  {
    var left := Without(tasks, k);
    if k < |tasks| {
      assert forall i | 0 <= i < |left| :: left[i] == tasks[if i < k then i else i + 1];
    }
  }

  lemma StepKeepsTies(s: State, s': State, action: Action)
    requires Inv(s) && TiesInOrder(s.queue.tasks) && Step(s, s', action)
    ensures TiesInOrder(s'.queue.tasks)
  {
    match action
    case Schedule(when) =>
      forall k | 0 <= k < |s.queue.tasks|
        ensures s.queue.tasks[k].id < s.queue.nextId
      {
        QueuedIsOld(s, s.queue.tasks[k]);
      }
      ScheduledTies(s.queue, when);
    case Remove(task) => RemovedTies(s.queue.tasks, Hit(s.queue.tasks, task));
    case _ =>
  }

  /** Tasks of the same time are queued, and so taken out, in the order in which they were scheduled. */
  lemma {:induction false} FirstScheduledFirst(run: seq<State>, actions: seq<Action>, i: nat)
    requires Run(run, actions) && i < |run|
    ensures TiesInOrder(run[i].queue.tasks)
  {
    if i > 0 {
      FirstScheduledFirst(run, actions, i - 1);
      RunSafe(run, actions, i - 1);
      assert Step(run[i - 1], run[i - 1 + 1], actions[i - 1]);
      StepKeepsTies(run[i - 1], run[i], actions[i - 1]);
    }
  }

  /** A handler runs its batch from the front: what runs is no later than all that is left of it. */
  lemma BatchRunsInOrder(run: seq<State>, actions: seq<Action>, i: nat)
    requires Run(run, actions) && i < |actions| && actions[i].Exec?
    ensures var h := actions[i].h;
            && h < |run[i].handlers| && run[i].handlers[h].Running? && h < |run[i + 1].handlers|
            && var ready := run[i].handlers[h].ready;
               if ready == [] then run[i + 1].handlers[h] == Idle && run[i + 1].ran == run[i].ran
               else && run[i + 1].handlers[h].Running?
                    && var left := run[i + 1].handlers[h].ready;
                       && |run[i + 1].ran| == |run[i].ran| + 1
                       && var task := run[i + 1].ran[|run[i].ran|];
                          [task] + left == ready && forall k | 0 <= k < |left| :: task.when <= left[k].when
  {
    RunSafe(run, actions, i);
    assert Step(run[i], run[i + 1], actions[i]);
    assert HandlerOk(run[i].handlers[actions[i].h], run[i].clock);
  }

  /** Every task that was scheduled is, once, either queued, taken out by a handler that is about
      to run it, removed, or run. */
  lemma OncePerTask(run: seq<State>, actions: seq<Action>, i: nat, task: Task)
    requires Run(run, actions) && i < |run|
    ensures Everywhere(run[i])[task] == if task in run[i].issued then 1 else 0
    ensures multiset(run[i].ran)[task] <= 1
  {
    RunSafe(run, actions, i);
    var issued := run[i].issued;
    if task in issued {
      var k :| 0 <= k < |issued| && issued[k] == task;
      assert issued == issued[..k] + [task] + issued[k + 1..];
      assert task !in issued[..k] && task !in issued[k + 1..];
    }
  }

  /** Whatever runs in a step is one task, and it is due. */
  lemma NeverEarly(run: seq<State>, actions: seq<Action>, i: nat)
    requires Run(run, actions) && i < |actions|
    ensures run[i + 1].ran == run[i].ran
            || exists task :: run[i + 1].ran == run[i].ran + [task] && task.when <= run[i].clock
  {
    RunSafe(run, actions, i);
    assert Step(run[i], run[i + 1], actions[i]);
    if actions[i].Exec? {
      assert HandlerOk(run[i].handlers[actions[i].h], run[i].clock);
    }
  }

  /** A batch is exactly the queued tasks that are due, in nondecreasing order of time. */
  lemma BatchInOrder(run: seq<State>, actions: seq<Action>, i: nat)
    requires Run(run, actions) && i < |actions| && actions[i].Sweep?
    ensures var ready, left := run[i + 1].handlers[actions[i].h].ready, run[i + 1].queue.tasks;
            && Sorted(ready) && ready + left == run[i].queue.tasks
            && (forall k | 0 <= k < |ready| :: ready[k].when <= run[i].handlers[actions[i].h].now)
            && (forall k | 0 <= k < |left| :: run[i].handlers[actions[i].h].now < left[k].when)
  {
    RunSafe(run, actions, i);
    assert Step(run[i], run[i + 1], actions[i]);
  }

  // Between reading an expiration and its sweep a handler has no time that is older.
  lemma {:induction false} OnItsWay(run: seq<State>, actions: seq<Action>, i: nat, j: nat, h: nat)
    requires Run(run, actions) && i <= j < |run| && At(run[i], h) == HasRead
    requires forall k | i <= k < j :: actions[k] != Sweep(h)
    ensures run[i].clock <= run[j].clock
    ensures At(run[j], h) == HasRead || (At(run[j], h).HasTime? && At(run[j], h).now >= run[i].clock)
    decreases j
  {
    if i < j {
      OnItsWay(run, actions, i, j - 1, h);
      assert Step(run[j - 1], run[j - 1 + 1], actions[j - 1]);
    }
  }

  /** Once a handler has read an expiration, its sweep leaves no task behind that was due by then. */
  lemma NothingDueIsLeft(run: seq<State>, actions: seq<Action>, i: nat, j: nat, h: nat, k: nat)
    requires Run(run, actions) && i <= j < |actions| && At(run[i], h) == HasRead && actions[j] == Sweep(h)
    requires forall m | i <= m < j :: actions[m] != Sweep(h)
    requires k < |run[j + 1].queue.tasks|
    ensures run[j + 1].queue.tasks[k].when > run[i].clock
  {
    OnItsWay(run, actions, i, j, h);
    assert Step(run[j], run[j + 1], actions[j]);
    BatchInOrder(run, actions, j);
  }

  /** What schedule_task returned names one queued task at most, so remove_task finds exactly it. */
  lemma HandlesGenuine(run: seq<State>, actions: seq<Action>, i: nat, task: Task)
    requires Run(run, actions) && i < |run| && task in run[i].issued
    ensures Sorted(run[i].queue.tasks) && Genuine(run[i].queue.tasks, task)
    ensures var tasks, k := run[i].queue.tasks, Hit(run[i].queue.tasks, task);
            (k < |tasks| <==> task in tasks) && (k < |tasks| ==> tasks[k] == task)
  {
    IssuedGenuine(run, actions, i, task);
    HitIsTask(run[i].queue.tasks, task);
  }

  lemma IssuedGenuine(run: seq<State>, actions: seq<Action>, i: nat, task: Task)
    requires Run(run, actions) && i < |run| && task in run[i].issued
    ensures Sorted(run[i].queue.tasks) && Genuine(run[i].queue.tasks, task)
  {
    RunSafe(run, actions, i);
    var tasks := run[i].queue.tasks;
    forall k | 0 <= k < |tasks| && tasks[k].id == task.id
      ensures tasks[k] == task
    {
      assert tasks[k] in Everywhere(run[i]);
      assert tasks[k] in run[i].issued;
    }
  }

  lemma DefaultHandleHits()
    ensures Scheduled(Queue([], Disarmed, false, 0), 5) == Queue([Task(5, 0)], Armed(5), false, 1)
    ensures Scheduled(Queue([Task(5, 0)], Armed(5), false, 1), 0) == Queue([Task(0, 1), Task(5, 0)], Disarmed, false, 2)
    ensures Hit([Task(0, 1), Task(5, 0)], Task(0, 0)) == 1 && Without([Task(0, 1), Task(5, 0)], 1) == [Task(0, 1)]
  {
    assert UpperBound([Task(5, 0)], 0) == 0;
    assert Stop([Task(0, 1), Task(5, 0)], Task(0, 0), 1) == 1;
  }

  /** A handle that nothing has returned can take out another task: the default one does so here. */
  lemma OtherTaskRemoved() returns (run: seq<State>, actions: seq<Action>)
    ensures Run(run, actions) && actions != [] && actions[|actions| - 1] == Remove(Task(0, 0))
    ensures var last := run[|run| - 1]; Task(0, 0) !in last.issued && last.removed == [Task(5, 0)]
  {
    var first, second := Task(5, 0), Task(0, 1);
    var s0 := State(Queue([], Disarmed, false, 0), 0, [], [], [], []);
    var s1 := s0.(queue := Queue([first], Armed(5), false, 1), issued := [first]);
    var s2 := s1.(queue := Queue([second, first], Disarmed, false, 2), issued := [first, second]);
    var s3 := s2.(queue := Queue([second], Disarmed, false, 2), removed := [first]);
    DefaultHandleHits();
    assert Step(s0, s1, Schedule(5)) && Step(s1, s2, Schedule(0)) && Step(s2, s3, Remove(Task(0, 0)));
    run, actions := [s0, s1, s2, s3], [Schedule(5), Schedule(0), Remove(Task(0, 0))];
  }

  /** A task that remove_task has removed never runs. */
  lemma RemovedNeverRuns(run: seq<State>, actions: seq<Action>, i: nat, j: nat, task: Task)
    requires Run(run, actions) && i <= j < |run| && task in run[i].removed
    ensures task !in run[j].ran && task !in run[j].queue.tasks && task !in Batches(run[j].handlers)
  {
    StaysRemoved(run, actions, i, j, task);
    OncePerTask(run, actions, j, task);
    assert multiset(run[j].removed)[task] >= 1;
  }

  lemma {:induction false} StaysRemoved(run: seq<State>, actions: seq<Action>, i: nat, j: nat, task: Task)
    requires Run(run, actions) && i <= j < |run| && task in run[i].removed
    ensures task in run[j].removed
    decreases j - i
  {
    if i < j {
      assert Step(run[i], run[i + 1], actions[i]);
      StaysRemoved(run, actions, i + 1, j, task);
    }
  }
}
