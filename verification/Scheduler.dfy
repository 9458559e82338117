/**
 Threads of kernel/thread.c as values: descriptors, queues, the active thread, and what every
 primitive and system call does to them.  A queue is the sequence its linked list stands for.

 Threads are named by numbers that are never reused, so a name stands for one life of a
 descriptor; a handle whose id no longer matches is a name that is not in `threads`.
 */
module Scheduler {
  import opened Options
  import opened Seqs

  const PRIO_LEVELS: nat := 64

  type Tid = nat

  datatype QueueId =
    | ReadyQ(prio: nat)
    | JoinQ(thread: Tid)
    | SemQ(sem: nat)
    | DevQ(dev: nat)
    | AlarmQ(alarm: nat)

  datatype ThreadState = Active | Ready | Wait | Passive

  datatype Thread = Thread(
    state: ThreadState,
    prio: nat,
    queue: Option<QueueId>,
    exitStatus: int,
    refCnt: int)

  datatype Sched = Sched(
    threads: map<Tid, Thread>,
    queues: map<QueueId, seq<Tid>>,
    active: Option<Tid>,
    next: Tid)

  function Q(s: Sched, q: QueueId): seq<Tid> {
    if q in s.queues then s.queues[q] else []
  }

  // -- primitives -----------------------------------------------------------

  function SetQueue(s: Sched, q: QueueId, ts: seq<Tid>): Sched {
    s.(queues := s.queues[q := ts])
  }

  function SetThread(s: Sched, t: Tid, th: Thread): Sched {
    s.(threads := s.threads[t := th])
  }

  /** Append thread t to queue q as the code does: state and `queue` field first. */
  function Append(s: Sched, t: Tid, q: QueueId): Sched
    requires t in s.threads
  {
    SetQueue(SetThread(s, t, s.threads[t].(state := if q.ReadyQ? then Ready else Wait, queue := Some(q))),
             q, Q(s, q) + [t])
  }

  /** move_to_ready */
  function MoveToReady(s: Sched, t: Tid): Sched
    requires t in s.threads
  {
    Append(s, t, ReadyQ(s.threads[t].prio))
  }

  /** The largest priority below n with a ready thread, or -1. */
  function TopBelow(s: Sched, n: nat): (p: int)
    ensures -1 <= p < n
    ensures p >= 0 ==> Q(s, ReadyQ(p)) != []
    ensures forall k: nat :: p < k < n ==> Q(s, ReadyQ(k)) == []
  {
    if n == 0 then -1 else if Q(s, ReadyQ(n - 1)) != [] then n - 1 else TopBelow(s, n - 1)
  }

  function TopReady(s: Sched): int {
    TopBelow(s, PRIO_LEVELS)
  }

  predicate IsRunning(s: Sched) {
    s.active.Some? && s.active.value in s.threads && s.threads[s.active.value].state == Active
  }

  /** The assertion of k_schedule_threads: there is a thread to return to. */
  predicate CanSchedule(s: Sched) {
    IsRunning(s) || TopReady(s) >= 0
  }

  /** Every queued thread has a descriptor. */
  ghost predicate QueuedExist(s: Sched) {
    forall q, t :: t in Q(s, q) ==> t in s.threads
  }

  /** The first thread of ready queue p becomes active. */
  function Activate(s: Sched, p: nat): Sched
    requires Q(s, ReadyQ(p)) != [] && Q(s, ReadyQ(p))[0] in s.threads
  {
    var t := Q(s, ReadyQ(p))[0];
    SetQueue(SetThread(s, t, s.threads[t].(state := Active, queue := None)),
             ReadyQ(p), Q(s, ReadyQ(p))[1..]).(active := Some(t))
  }

  /** k_schedule_threads */
  function Schedule(s: Sched): Sched
    requires CanSchedule(s) && QueuedExist(s)
  {
    var first := TopReady(s);
    if !IsRunning(s) then
      Activate(s, first)
    else if first >= s.threads[s.active.value].prio then
      var s1 := MoveToReady(s, s.active.value);
      assert Q(s1, ReadyQ(first))[0] == Q(s, ReadyQ(first))[0];
      assert Q(s, ReadyQ(first))[0] in Q(s, ReadyQ(first));
      Activate(s1, first)
    else
      s
  }

  /** The first thread of q leaves it and becomes ready (k_release_thread, q not empty). */
  function ReleaseFirst(s: Sched, q: QueueId): Sched
    requires Q(s, q) != [] && Q(s, q)[0] in s.threads
  {
    MoveToReady(SetQueue(s, q, Q(s, q)[1..]), Q(s, q)[0])
  }

  /** k_release_thread */
  function ReleaseOne(s: Sched, q: QueueId): Sched
    requires QueuedExist(s)
  {
    if Q(s, q) == [] then s else assert Q(s, q)[0] in Q(s, q); ReleaseFirst(s, q)
  }

  /** k_release_all_threads, for a queue of blocked threads */
  function ReleaseAll(s: Sched, q: QueueId): Sched
    requires !q.ReadyQ? && QueuedExist(s)
    decreases |Q(s, q)|
  {
    if Q(s, q) == [] then s
    else
      assert Q(s, q)[0] in Q(s, q);
      ReleaseKeepsExist(s, q);
      ReleaseAll(ReleaseFirst(s, q), q)
  }

  lemma ReleaseKeepsExist(s: Sched, q: QueueId)
    requires Q(s, q) != [] && Q(s, q)[0] in s.threads && QueuedExist(s)
    ensures QueuedExist(ReleaseFirst(s, q))
    ensures !q.ReadyQ? ==> Q(ReleaseFirst(s, q), q) == Q(s, q)[1..]
  {
    var s' := ReleaseFirst(s, q);
    forall p, t | t in Q(s', p) ensures t in s'.threads {
      assert t in Q(s, p) || t == Q(s, q)[0];
    }
  }

  function ClampPrio(prio: int): nat {
    if prio < 0 then 0 else if prio >= PRIO_LEVELS then PRIO_LEVELS - 1 else prio
  }

  /** k_create_thread; `run` says whether the thread is made ready. */
  function CreateThread(s: Sched, prio: int, run: bool): Sched {
    var t := s.next;
    var s1 := SetThread(s.(next := t + 1), t, Thread(Passive, ClampPrio(prio), None, 0, 0));
    if run then
      var s2 := MoveToReady(s1, t);
      SetThread(s2, t, s2.threads[t].(refCnt := 1))
    else s1
  }

  /** k_remove_thread_descriptor */
  function RemoveDescriptor(s: Sched, t: Tid): Sched {
    s.(threads := s.threads - {t}, queues := s.queues - {JoinQ(t)})
  }

  /** k_remove_thread, for a thread that is in no queue */
  function RemoveThread(s: Sched, t: Tid): Sched
    requires t in s.threads && QueuedExist(s)
  {
    var s1 := SetThread(s, t, s.threads[t].(state := Passive, refCnt := s.threads[t].refCnt - 1));
    if s1.threads[t].refCnt == 0 then RemoveDescriptor(s1, t)
    else
      assert forall q :: Q(s1, q) == Q(s, q);
      ReleaseAll(s1, JoinQ(t))
  }

  // -- invariants -----------------------------------------------------------

  /** t is queued in q as its descriptor says. */
  predicate Placed(s: Sched, t: Tid, q: QueueId) {
    && t in s.threads
    && s.threads[t].queue == Some(q)
    && s.threads[t].state == (if q.ReadyQ? then Ready else Wait)
    && (q.ReadyQ? ==> q.prio == s.threads[t].prio)
  }

  predicate IsQueued(th: Thread) {
    th.state == Ready || th.state == Wait
  }

  /** Every thread is in the one queue its descriptor names, or in none; thread e, if given, is
      being moved and is in none. */
  ghost predicate Placement(s: Sched, e: Option<Tid>) {
    && (forall q, t :: t in Q(s, q) ==> Placed(s, t, q))
    && (forall q :: Distinct(Q(s, q)))
    && (forall t :: t in s.threads ==> t < s.next && s.threads[t].prio < PRIO_LEVELS)
    && (forall t :: t in s.threads && IsQueued(s.threads[t]) && Some(t) != e ==>
          s.threads[t].queue.Some? && t in Q(s, s.threads[t].queue.value))
    && (e.Some? ==> e.value in s.threads && forall q :: e.value !in Q(s, q))
  }

  /** Only thread a is in state ACTIVE. */
  ghost predicate OnlyActive(s: Sched, a: Option<Tid>) {
    forall t :: t in s.threads && s.threads[t].state == Active ==> Some(t) == a
  }

  /** A thread that is not passive holds one reference to itself and one for each joiner; a passive
      descriptor is still awaited by somebody, but nobody is blocked on it. */
  predicate RefOk(s: Sched, t: Tid)
    requires t in s.threads
  {
    if s.threads[t].state == Passive then s.threads[t].refCnt >= 1 && Q(s, JoinQ(t)) == []
    else s.threads[t].refCnt >= 1 + |Q(s, JoinQ(t))|
  }

  /** The reference counts are right, except that joiners of x, if given, are not released yet. */
  ghost predicate RefsOk(s: Sched, x: Option<Tid>) {
    && (forall t :: t in s.threads && Some(t) != x ==> RefOk(s, t))
    && (forall t: Tid :: t !in s.threads ==> Q(s, JoinQ(t)) == [])
    && (x.Some? ==> x.value in s.threads && s.threads[x.value].state == Passive && s.threads[x.value].refCnt >= 1)
  }

  /** What holds before k_schedule_threads: the active thread, if any, may have blocked. */
  ghost predicate Core(s: Sched) {
    && Placement(s, None)
    && RefsOk(s, None)
    && OnlyActive(s, s.active)
    && (s.active.Some? ==> s.active.value in s.threads && s.threads[s.active.value].state in {Active, Wait})
  }

  /** What holds when a system call is over. */
  ghost predicate Inv(s: Sched) {
    Core(s) && IsRunning(s)
  }

  // -- the parts of the invariant, primitive by primitive --------------------

  lemma PlacementExist(s: Sched, e: Option<Tid>)
    requires Placement(s, e)
    ensures QueuedExist(s)
  {
  }

  lemma Floating(s: Sched, t: Tid)
    requires Placement(s, None) && t in s.threads && !IsQueued(s.threads[t])
    ensures Placement(s, Some(t))
  {
  }

  lemma AppendPlaces(s: Sched, t: Tid, q: QueueId)
    requires Placement(s, Some(t)) && (q.ReadyQ? ==> q.prio == s.threads[t].prio)
    ensures Placement(Append(s, t, q), None)
  {
    var s' := Append(s, t, q);
    forall p, u | u in Q(s', p) ensures Placed(s', u, p) {
      if u == t {
        assert t !in Q(s, p) && p == q;
      } else {
        assert u in Q(s, p) && Placed(s, u, p);
      }
    }
    forall p ensures Distinct(Q(s', p)) {
      assert Distinct(Q(s, p)) && t !in Q(s, p);
    }
    forall u | u in s'.threads && IsQueued(s'.threads[u])
      ensures s'.threads[u].queue.Some? && u in Q(s', s'.threads[u].queue.value)
    {
      assert u != t ==> u in Q(s, s.threads[u].queue.value);
    }
  }

  lemma TakeOut(s: Sched, t: Tid, q: QueueId)
    requires Placement(s, None) && t in Q(s, q)
    ensures Placement(SetQueue(s, q, Without(Q(s, q), t)), Some(t))
  {
    hide Without;
    var s' := SetQueue(s, q, Without(Q(s, q), t));
    WithoutDistinct(Q(s, q), t);
    forall p, u | u in Q(s', p) ensures Placed(s', u, p) && u != t {
      assert u in Q(s, p) && Placed(s, u, p) && Placed(s, t, q);
    }
    forall p ensures Distinct(Q(s', p)) {
      assert Distinct(Q(s, p));
    }
    forall u | u in s'.threads && IsQueued(s'.threads[u]) && u != t
      ensures s'.threads[u].queue.Some? && u in Q(s', s'.threads[u].queue.value)
    {
      assert u in Q(s, s.threads[u].queue.value);
    }
  }

  lemma Settle(s: Sched, t: Tid, th: Thread)
    requires Placement(s, Some(t)) && !IsQueued(th) && th.prio < PRIO_LEVELS
    ensures Placement(SetThread(s, t, th), None)
  {
    var s' := SetThread(s, t, th);
    forall p, u | u in Q(s', p) ensures Placed(s', u, p) {
      assert u in Q(s, p) && u != t;
    }
    assert forall q :: Q(s', q) == Q(s, q);
  }

  // Changing only the exit status and reference count of a descriptor moves nothing.
  lemma Recount(s: Sched, e: Option<Tid>, t: Tid, refCnt: int, status: int)
    requires Placement(s, e) && t in s.threads
    ensures Placement(SetThread(s, t, s.threads[t].(refCnt := refCnt, exitStatus := status)), e)
  {
    var s' := SetThread(s, t, s.threads[t].(refCnt := refCnt, exitStatus := status));
    forall p, u | u in Q(s', p) ensures Placed(s', u, p) {
      assert u in Q(s, p);
    }
    assert forall q :: Q(s', q) == Q(s, q);
  }

  // Counts stay right when descriptors keep their counts and no join queue grows.
  lemma RefsFrame(s: Sched, s': Sched, x: Option<Tid>)
    requires RefsOk(s, x) && s'.threads.Keys == s.threads.Keys
    requires forall t :: t in s.threads ==>
               && s'.threads[t].refCnt == s.threads[t].refCnt
               && (s'.threads[t].state == Passive <==> s.threads[t].state == Passive)
    requires forall t: Tid :: |Q(s', JoinQ(t))| <= |Q(s, JoinQ(t))|
    ensures RefsOk(s', x)
  {
    forall t: Tid | t !in s'.threads ensures Q(s', JoinQ(t)) == [] {
      assert t !in s.threads && |Q(s', JoinQ(t))| <= |Q(s, JoinQ(t))|;
    }
    forall t | t in s'.threads && Some(t) != x ensures RefOk(s', t) {
      assert RefOk(s, t) && |Q(s', JoinQ(t))| <= |Q(s, JoinQ(t))|;
    }
  }

  lemma HeadPlaced(s: Sched, e: Option<Tid>, q: QueueId)
    requires Placement(s, e) && Q(s, q) != []
    ensures Placed(s, Q(s, q)[0], q)
  {
    assert Q(s, q)[0] in Q(s, q);
  }

  // -- k_schedule_threads -----------------------------------------------------

  /** No ready thread has a higher priority than the active one. */
  ghost predicate TopRuns(s: Sched) {
    IsRunning(s)
    && forall t :: t in s.threads && s.threads[t].state == Ready ==> s.threads[t].prio <= s.threads[s.active.value].prio
  }

  lemma ActivatePlaces(s: Sched, p: nat)
    requires Placement(s, None) && Q(s, ReadyQ(p)) != []
    ensures Q(s, ReadyQ(p))[0] in s.threads
    ensures Placement(Activate(s, p), None)
  {
    var t := Q(s, ReadyQ(p))[0];
    assert t in Q(s, ReadyQ(p));
    assert Without(Q(s, ReadyQ(p)), t) == Q(s, ReadyQ(p))[1..];
    TakeOut(s, t, ReadyQ(p));
    var s1 := SetQueue(s, ReadyQ(p), Q(s, ReadyQ(p))[1..]);
    var s2 := SetThread(s1, t, s1.threads[t].(state := Active, queue := None));
    Settle(s1, t, s1.threads[t].(state := Active, queue := None));
    var s' := Activate(s, p);
    assert s' == s2.(active := Some(t));
    assert forall q :: Q(s', q) == Q(s2, q);
    assert forall q, u :: u in Q(s', q) ==> Placed(s2, u, q);
  }

  lemma ActivateKeeps(s: Sched, p: nat)
    requires Placement(s, None) && RefsOk(s, None) && OnlyActive(s, None) && Q(s, ReadyQ(p)) != []
    ensures Q(s, ReadyQ(p))[0] in s.threads && Inv(Activate(s, p))
  {
    hide RefsOk;
    var t := Q(s, ReadyQ(p))[0];
    assert t in Q(s, ReadyQ(p)) && Placed(s, t, ReadyQ(p));
    ActivatePlaces(s, p);
    RefsFrame(s, Activate(s, p), None);
  }

  lemma PreemptKeeps(s: Sched)
    requires Inv(s)
    ensures var s1 := MoveToReady(s, s.active.value); Placement(s1, None) && RefsOk(s1, None) && OnlyActive(s1, None)
  {
    hide Placement, RefsOk;
    var t := s.active.value;
    Floating(s, t);
    AppendPlaces(s, t, ReadyQ(s.threads[t].prio));
    RefsFrame(s, MoveToReady(s, t), None);
  }

  // After a schedule the active thread is running and every thread is in its place.
  lemma ScheduleKeeps(s: Sched)
    requires Core(s) && CanSchedule(s)
    ensures QueuedExist(s) && Inv(Schedule(s))
  {
    hide Placement, RefsOk;
    PlacementExist(s, None);
    var first := TopReady(s);
    if !IsRunning(s) {
      ActivateKeeps(s, first);
    } else if first >= s.threads[s.active.value].prio {
      PreemptKeeps(s);
      ActivateKeeps(MoveToReady(s, s.active.value), first);
    }
  }

  /** Thread t is ready or active. */
  predicate Awake(s: Sched, t: Tid) {
    t in s.threads && s.threads[t].state in {Ready, Active}
  }

  lemma ScheduleAwake(s: Sched, t: Tid)
    requires Core(s) && CanSchedule(s) && Awake(s, t)
    ensures QueuedExist(s) && Awake(Schedule(s), t)
  {
    hide Placement, RefsOk, TopBelow;
    PlacementExist(s, None);
  }

  // In a placed state, ready threads are exactly the members of ready queues, so the highest
  // priority among them is TopReady.
  lemma ReadyAtMostTop(s: Sched, t: Tid)
    requires Placement(s, None) && t in s.threads && s.threads[t].state == Ready
    ensures s.threads[t].prio <= TopReady(s)
  {
    var q := s.threads[t].queue.value;
    assert t in Q(s, q) && Placed(s, t, q);
    assert Q(s, ReadyQ(s.threads[t].prio)) != [];
  }

  // After a schedule no ready thread has a higher priority than the active one.
  lemma ScheduleRunsTop(s: Sched)
    requires Core(s) && CanSchedule(s)
    ensures QueuedExist(s) && TopRuns(Schedule(s))
  {
    hide Placement, RefsOk, Inv;
    ScheduleKeeps(s);
    var s', first := Schedule(s), TopReady(s);
    if IsRunning(s) && first < s.threads[s.active.value].prio {
      forall t | t in s'.threads && s'.threads[t].state == Ready
        ensures s'.threads[t].prio <= s'.threads[s'.active.value].prio {
        ReadyAtMostTop(s, t);
      }
    } else {
      var a := Q(s, ReadyQ(first))[0];
      HeadPlaced(s, None, ReadyQ(first));
      assert s'.active == Some(a) && s'.threads[a].prio == first;
      forall t | t in s'.threads && s'.threads[t].state == Ready ensures s'.threads[t].prio <= first {
        if s.threads[t].state == Ready {
          ReadyAtMostTop(s, t);
        } else {
          assert Some(t) == s.active;
        }
      }
    }
  }

  // Service order: the thread chosen is the one that has waited longest at the top priority, a
  // preempted thread goes behind the threads of its own priority, and nothing else moves.
  lemma ScheduleOrder(s: Sched)
    requires Core(s) && CanSchedule(s)
    ensures QueuedExist(s)
    ensures var s', first := Schedule(s), TopReady(s);
            var preempted := IsRunning(s) && first >= s.threads[s.active.value].prio;
            && (IsRunning(s) && !preempted ==> s' == s)
            && (preempted || !IsRunning(s) ==>
                  && s'.active == Some(Q(s, ReadyQ(first))[0])
                  && forall q :: Q(s', q) ==
                       (if q == ReadyQ(first) then Q(s, q)[1..] else Q(s, q))
                       + (if preempted && q == ReadyQ(s.threads[s.active.value].prio) then [s.active.value] else []))
  {
    PlacementExist(s, None);
  }

  // -- releasing blocked threads ----------------------------------------------

  /** The threads of `ts` with priority p, in order. */
  function OfPrio(s: Sched, ts: seq<Tid>, p: nat): seq<Tid> {
    if ts == [] then []
    else (if ts[0] in s.threads && s.threads[ts[0]].prio == p then [ts[0]] else []) + OfPrio(s, ts[1..], p)
  }

  function Readied(th: Thread): Thread {
    th.(state := Ready, queue := Some(ReadyQ(th.prio)))
  }

  /** s' is s with the threads `ts` made ready, each at the end of the queue of its priority. */
  ghost predicate MadeReady(s: Sched, s': Sched, ts: seq<Tid>) {
    && s'.active == s.active && s'.next == s.next && s'.threads.Keys == s.threads.Keys
    && (forall t :: t in s.threads ==> s'.threads[t] == if t in ts then Readied(s.threads[t]) else s.threads[t])
    && (forall p: nat :: Q(s', ReadyQ(p)) == Q(s, ReadyQ(p)) + OfPrio(s, ts, p))
  }

  lemma ReleaseFirstPlaces(s: Sched, q: QueueId)
    requires Placement(s, None) && Q(s, q) != [] && !q.ReadyQ?
    ensures Q(s, q)[0] in s.threads && Placement(ReleaseFirst(s, q), None)
  {
    hide Placement;
    HeadPlaced(s, None, q);
    var t := Q(s, q)[0];
    assert t in Q(s, q) && Without(Q(s, q), t) == Q(s, q)[1..];
    TakeOut(s, t, q);
    AppendPlaces(SetQueue(s, q, Q(s, q)[1..]), t, ReadyQ(s.threads[t].prio));
  }

  lemma {:induction false} OfPrioFrame(s: Sched, s': Sched, ts: seq<Tid>, p: nat)
    requires s'.threads.Keys == s.threads.Keys && forall t :: t in s.threads ==> s'.threads[t].prio == s.threads[t].prio
    ensures OfPrio(s', ts, p) == OfPrio(s, ts, p)
  {
    if ts != [] {
      OfPrioFrame(s, s', ts[1..], p);
    }
  }

  // k_release_all_threads empties the queue and makes its threads ready in their order; no other
  // queue of blocked threads changes.
  lemma {:induction false} ReleaseAllEffect(s: Sched, q: QueueId)
    requires Placement(s, None) && !q.ReadyQ?
    ensures QueuedExist(s)
    ensures var s' := ReleaseAll(s, q);
            && Placement(s', None)
            && MadeReady(s, s', Q(s, q))
            && forall p: QueueId :: !p.ReadyQ? ==> Q(s', p) == if p == q then [] else Q(s, p)
    decreases |Q(s, q)|
  {
    hide Placement;
    PlacementExist(s, None);
    if Q(s, q) != [] {
      ReleaseFirstPlaces(s, q);
      ReleaseKeepsExist(s, q);
      var s1 := ReleaseFirst(s, q);
      ReleaseAllEffect(s1, q);
      ReleaseStep(s, s1, ReleaseAll(s1, q), q);
    }
  }

  lemma ReleaseStep(s: Sched, s1: Sched, s': Sched, q: QueueId)
    requires Q(s, q) != [] && Q(s, q)[0] in s.threads && !q.ReadyQ?
    requires s1 == ReleaseFirst(s, q) && MadeReady(s1, s', Q(s1, q))
    ensures MadeReady(s, s', Q(s, q))
  {
    hide OfPrio;
    var t, ts := Q(s, q)[0], Q(s, q)[1..];
    assert Q(s1, q) == ts && Q(s, q) == [t] + ts;
    forall p: nat ensures Q(s', ReadyQ(p)) == Q(s, ReadyQ(p)) + OfPrio(s, Q(s, q), p) {
      ReleaseStepQueue(s, s1, q, p);
    }
    assert forall u :: u in Q(s, q) <==> u == t || u in ts;
  }

  lemma ReleaseStepQueue(s: Sched, s1: Sched, q: QueueId, p: nat)
    requires Q(s, q) != [] && Q(s, q)[0] in s.threads && !q.ReadyQ? && s1 == ReleaseFirst(s, q)
    ensures Q(s1, ReadyQ(p)) + OfPrio(s1, Q(s, q)[1..], p) == Q(s, ReadyQ(p)) + OfPrio(s, Q(s, q), p)
  {
    hide OfPrio;
    var t, ts, r := Q(s, q)[0], Q(s, q)[1..], Q(s, ReadyQ(p));
    OfPrioFrame(s, s1, ts, p);
    OfPrioFirst(s, Q(s, q), p);
    FirstReadied(s, q, p);
    var head := if s.threads[t].prio == p then [t] else [];
    assert (r + head) + OfPrio(s, ts, p) == r + (head + OfPrio(s, ts, p));
  }

  lemma FirstReadied(s: Sched, q: QueueId, p: nat)
    requires Q(s, q) != [] && Q(s, q)[0] in s.threads && !q.ReadyQ?
    ensures Q(ReleaseFirst(s, q), ReadyQ(p)) ==
            Q(s, ReadyQ(p)) + if s.threads[Q(s, q)[0]].prio == p then [Q(s, q)[0]] else []
  {
  }

  lemma OfPrioFirst(s: Sched, ts: seq<Tid>, p: nat)
    requires ts != [] && ts[0] in s.threads
    ensures OfPrio(s, ts, p) == (if s.threads[ts[0]].prio == p then [ts[0]] else []) + OfPrio(s, ts[1..], p)
  {
  }

  // Threads of one priority keep their order.
  lemma {:induction false} OfPrioConcat(s: Sched, x: seq<Tid>, y: seq<Tid>, p: nat)
    ensures OfPrio(s, x + y, p) == OfPrio(s, x, p) + OfPrio(s, y, p)
    ensures |x| == 1 && x[0] in s.threads ==> OfPrio(s, x, p) == if s.threads[x[0]].prio == p then x else []
  {
    if x == [] {
      assert x + y == y;
    } else {
      assert (x + y)[1..] == x[1..] + y;
      OfPrioConcat(s, x[1..], y, p);
    }
  }

  lemma {:induction false} OfPrioMembers(s: Sched, ts: seq<Tid>, p: nat)
    ensures forall t :: t in OfPrio(s, ts, p) <==> t in ts && t in s.threads && s.threads[t].prio == p
  {
    if ts != [] {
      OfPrioMembers(s, ts[1..], p);
      assert ts == [ts[0]] + ts[1..];
    }
  }

  lemma AllPlaced(s: Sched, q: QueueId)
    requires Placement(s, None)
    ensures forall t :: t in Q(s, q) ==> Placed(s, t, q)
  {
  }

  // Releasing a whole queue keeps the counts and does not touch the active thread.
  lemma ReleaseAllKeeps(s: Sched, q: QueueId, x: Option<Tid>, a: Option<Tid>)
    requires Placement(s, None) && RefsOk(s, x) && OnlyActive(s, a) && !q.ReadyQ?
    ensures QueuedExist(s)
    ensures var s' := ReleaseAll(s, q);
            Placement(s', None) && RefsOk(s', x) && OnlyActive(s', a) && MadeReady(s, s', Q(s, q)) && Q(s', q) == []
  {
    hide Placement, RefsOk, OfPrio;
    ReleaseAllEffect(s, q);
    var s' := ReleaseAll(s, q);
    AllPlaced(s, q);
    RefsFrame(s, s', x);
  }

  lemma ReleaseFirstKeeps(s: Sched, q: QueueId)
    requires Inv(s) && Q(s, q) != [] && !q.ReadyQ?
    ensures Q(s, q)[0] in s.threads && Inv(ReleaseFirst(s, q)) && ReleaseFirst(s, q).active == s.active
  {
    hide Placement, RefsOk;
    HeadPlaced(s, None, q);
    ReleaseFirstPlaces(s, q);
    RefsFrame(s, ReleaseFirst(s, q), None);
  }

  // -- k_create_thread ----------------------------------------------------------

  lemma NewThreadPlaces(s: Sched, prio: int)
    requires Placement(s, None)
    ensures s.next !in s.threads
    ensures Placement(CreateThread(s, prio, false), Some(s.next))
  {
    var s' := CreateThread(s, prio, false);
    assert forall q :: Q(s', q) == Q(s, q);
    forall q, t | t in Q(s', q) ensures Placed(s', t, q) {
      assert t in Q(s, q);
    }
    forall q ensures s.next !in Q(s', q) {
      assert s.next in Q(s, q) ==> Placed(s, s.next, q);
    }
  }

  // Creating a thread keeps the invariant exactly if the thread is made to run: a descriptor that
  // is not started has no reference to itself.
  lemma CreateKeepsIff(s: Sched, prio: int, run: bool)
    requires Core(s)
    ensures Core(CreateThread(s, prio, run)) <==> run
  {
    hide Placement, RefsOk;
    NewThreadPlaces(s, prio);
    NewThreadRefs(s, prio, run);
    var t, s1, s' := s.next, CreateThread(s, prio, false), CreateThread(s, prio, run);
    if run {
      AppendPlaces(s1, t, ReadyQ(s1.threads[t].prio));
      var s2 := MoveToReady(s1, t);
      Recount(s2, None, t, 1, 0);
      assert s' == SetThread(s2, t, s2.threads[t].(refCnt := 1, exitStatus := 0));
    }
  }

  lemma NewThreadRefs(s: Sched, prio: int, run: bool)
    requires RefsOk(s, None) && s.next !in s.threads
    ensures RefsOk(CreateThread(s, prio, run), None) <==> run
  {
    var t, s' := s.next, CreateThread(s, prio, run);
    assert forall u: Tid :: Q(s', JoinQ(u)) == Q(s, JoinQ(u));
    if run {
      forall u | u in s'.threads ensures RefOk(s', u) {
        assert u != t ==> RefOk(s, u);
      }
    } else {
      assert !RefOk(s', t);
    }
  }

  // -- k_remove_thread ----------------------------------------------------------

  lemma RemoveDescriptorKeeps(s: Sched, t: Tid)
    requires Placement(s, None) && t in s.threads && s.threads[t].state == Passive && Q(s, JoinQ(t)) == []
    requires forall u :: u in s.threads && u != t ==> RefOk(s, u)
    requires forall u: Tid :: u !in s.threads ==> Q(s, JoinQ(u)) == []
    ensures Placement(RemoveDescriptor(s, t), None) && RefsOk(RemoveDescriptor(s, t), None)
    ensures forall q :: Q(RemoveDescriptor(s, t), q) == Q(s, q)
  {
    var s' := RemoveDescriptor(s, t);
    assert forall q :: Q(s', q) == Q(s, q);
    forall q, u | u in Q(s', q) ensures Placed(s', u, q) {
      assert u in Q(s, q) && Placed(s, u, q);
    }
    forall u | u in s'.threads ensures RefOk(s', u) {
      assert RefOk(s, u);
    }
  }

  function Ended(s: Sched, t: Tid): Sched
    requires t in s.threads
  {
    SetThread(s, t, s.threads[t].(state := Passive, refCnt := s.threads[t].refCnt - 1))
  }

  lemma EndedKeeps(s: Sched, t: Tid)
    requires Placement(s, Some(t)) && RefsOk(s, None) && s.threads[t].state != Passive && OnlyActive(s, s.active)
    ensures var s1 := Ended(s, t);
            && Placement(s1, None) && OnlyActive(s1, if s.active == Some(t) then None else s.active)
            && (forall u :: u in s1.threads && u != t ==> RefOk(s1, u))
            && (forall u: Tid :: u !in s1.threads ==> Q(s1, JoinQ(u)) == [])
            && s1.threads[t].refCnt >= |Q(s1, JoinQ(t))| && t !in Q(s1, JoinQ(t))
            && (s1.threads[t].refCnt != 0 ==> RefsOk(s1, Some(t)))
  {
    var s1 := Ended(s, t);
    Settle(s, t, s1.threads[t]);
    assert forall q :: Q(s1, q) == Q(s, q);
    assert RefOk(s, t);
    forall u | u in s1.threads && u != t ensures RefOk(s1, u) {
      assert RefOk(s, u);
    }
  }

  /** Thread t, which was in no queue, has ended: its descriptor is gone exactly if nobody held a
      reference to it any more, and then nobody was blocked on it; else all its joiners are ready. */
  ghost predicate Removed(s: Sched, s': Sched, t: Tid)
    requires t in s.threads
  {
    && Placement(s', None) && RefsOk(s', None)
    && OnlyActive(s', if s.active == Some(t) then None else s.active)
    && s'.active == s.active && s'.next == s.next
    && (t !in s'.threads <==> s.threads[t].refCnt == 1)
    && (t !in s'.threads ==> Q(s, JoinQ(t)) == [])
    && (t in s'.threads ==> s'.threads[t].state == Passive && MadeReady(Ended(s, t), s', Q(s, JoinQ(t))))
    && (forall u :: u in s.threads && u != t ==>
          u in s'.threads && s'.threads[u] == if u in Q(s, JoinQ(t)) then Readied(s.threads[u]) else s.threads[u])
    && forall q: QueueId :: !q.ReadyQ? ==> Q(s', q) == if q == JoinQ(t) then [] else Q(s, q)
  }

  // k_remove_thread frees the descriptor with its last reference, and only then.
  lemma RemoveThreadKeeps(s: Sched, t: Tid)
    requires t in s.threads && Placement(s, Some(t)) && RefsOk(s, None) && s.threads[t].state != Passive
    requires OnlyActive(s, s.active)
    ensures QueuedExist(s) && Removed(s, RemoveThread(s, t), t)
  {
    hide Placement, RefsOk, Removed, RemoveThread, OnlyActive;
    PlacementExist(s, Some(t));
    if s.threads[t].refCnt == 1 {
      LastReference(s, t);
    } else {
      StillReferenced(s, t);
    }
  }

  lemma LastReference(s: Sched, t: Tid)
    requires t in s.threads && Placement(s, Some(t)) && RefsOk(s, None) && s.threads[t].state != Passive
    requires OnlyActive(s, s.active) && s.threads[t].refCnt == 1
    ensures QueuedExist(s) && Removed(s, RemoveThread(s, t), t)
  {
    hide Placement, RefsOk, OfPrio, IsQueued, ReleaseAll, RemoveThread, MadeReady, RefOk, Readied;
    PlacementExist(s, Some(t));
    EndedKeeps(s, t);
    FreesDescriptor(s, t);
    var s1 := Ended(s, t);
    EndedQueues(s, t);
    RemoveDescriptorKeeps(s1, t);
  }

  lemma EndedQueues(s: Sched, t: Tid)
    requires t in s.threads
    ensures forall q :: Q(Ended(s, t), q) == Q(s, q)
  {
  }

  lemma FreesDescriptor(s: Sched, t: Tid)
    requires t in s.threads && QueuedExist(s) && s.threads[t].refCnt == 1
    ensures RemoveThread(s, t) == RemoveDescriptor(Ended(s, t), t)
  {
  }

  lemma StillReferenced(s: Sched, t: Tid)
    requires t in s.threads && Placement(s, Some(t)) && RefsOk(s, None) && s.threads[t].state != Passive
    requires OnlyActive(s, s.active) && s.threads[t].refCnt != 1
    ensures QueuedExist(s) && Removed(s, RemoveThread(s, t), t)
  {
    hide Placement, RefsOk, OfPrio, IsQueued, ReleaseAll, RemoveThread, MadeReady, RefOk, Readied;
    PlacementExist(s, Some(t));
    EndedKeeps(s, t);
    ReleasesJoiners(s, t);
    var s1 := Ended(s, t);
    assert forall q :: Q(s1, q) == Q(s, q);
    ReleaseAllKeeps(s1, JoinQ(t), Some(t), if s.active == Some(t) then None else s.active);
    ReleaseAllEffect(s1, JoinQ(t));
    RefsComplete(RemoveThread(s, t), t);
    JoinersReady(s, t, RemoveThread(s, t), Q(s, JoinQ(t)));
  }

  lemma JoinersReady(s: Sched, t: Tid, s': Sched, joiners: seq<Tid>)
    requires t in s.threads && MadeReady(Ended(s, t), s', joiners) && t !in joiners
    ensures t in s'.threads && s'.threads[t].state == Passive && s'.active == s.active && s'.next == s.next
    ensures forall u :: u in s.threads && u != t ==>
              u in s'.threads && s'.threads[u] == if u in joiners then Readied(s.threads[u]) else s.threads[u]
  {
  }

  lemma ReleasesJoiners(s: Sched, t: Tid)
    requires t in s.threads && QueuedExist(s) && s.threads[t].refCnt != 1
    ensures QueuedExist(Ended(s, t)) && RemoveThread(s, t) == ReleaseAll(Ended(s, t), JoinQ(t))
  {
    assert forall q :: Q(Ended(s, t), q) == Q(s, q);
  }

  lemma RefsComplete(s: Sched, t: Tid)
    requires RefsOk(s, Some(t)) && Q(s, JoinQ(t)) == []
    ensures RefsOk(s, None)
  {
    assert RefOk(s, t);
  }

  // -- system calls ---------------------------------------------------------------

  /** sys__thread_exit up to k_schedule_threads */
  function Exit(s: Sched, status: int): Sched
    requires IsRunning(s) && QueuedExist(s)
  {
    var t := s.active.value;
    var s1 := SetThread(s, t, s.threads[t].(exitStatus := status));
    assert forall q :: Q(s1, q) == Q(s, q);
    RemoveThread(s1, t).(active := None)
  }

  /** What sys__wait_for_thread returns at once; Blocked means that it enters k_schedule_threads. */
  datatype JoinResult = Gone | NotFinished | Blocked | Status(value: int)

  function JoinOutcome(s: Sched, t: Tid, wait: bool): JoinResult {
    if t !in s.threads then Gone
    else if s.threads[t].state != Passive && !wait then NotFinished
    else if s.threads[t].state != Passive then Blocked
    else Status(s.threads[t].exitStatus)
  }

  /** sys__wait_for_thread up to k_schedule_threads */
  function Join(s: Sched, t: Tid, wait: bool): Sched
    requires IsRunning(s)
  {
    match JoinOutcome(s, t, wait)
    case Gone => s
    case NotFinished => s
    case Blocked =>
      Append(SetThread(s, t, s.threads[t].(refCnt := s.threads[t].refCnt + 1)), s.active.value, JoinQ(t))
    case Status(_) =>
      var s1 := SetThread(s, t, s.threads[t].(refCnt := s.threads[t].refCnt - 1));
      if s1.threads[t].refCnt == 0 then RemoveDescriptor(s1, t) else s1
  }

  const E_CANCELED: int := 4

  /** sys__cancel_thread: it has an effect only on a ready or blocked thread. */
  function Cancel(s: Sched, t: Tid): Sched
    requires QueuedExist(s)
  {
    if t !in s.threads || !IsQueued(s.threads[t]) || s.threads[t].queue == None then s
    else
      var q := s.threads[t].queue.value;
      var s1 := SetQueue(s, q, Without(Q(s, q), t));
      var s2 := SetThread(s1, t, s1.threads[t].(exitStatus := -E_CANCELED));
      CancelExist(s, t, q);
      RemoveThread(s2, t)
  }

  lemma CancelExist(s: Sched, t: Tid, q: QueueId)
    requires QueuedExist(s) && t in s.threads
    ensures var s1 := SetQueue(s, q, Without(Q(s, q), t));
            QueuedExist(s1) && QueuedExist(SetThread(s1, t, s1.threads[t].(exitStatus := -E_CANCELED)))
  {
    WithoutMembers(Q(s, q), t);
    var s1 := SetQueue(s, q, Without(Q(s, q), t));
    var s2 := SetThread(s1, t, s1.threads[t].(exitStatus := -E_CANCELED));
    forall p, u | u in Q(s1, p) ensures u in s1.threads {
      assert u in Q(s, p);
    }
    forall p, u | u in Q(s2, p) ensures u in s2.threads {
      assert u in Q(s1, p);
    }
  }

  /** Cancelling t has an effect. */
  predicate IsCancelled(s: Sched, t: Tid) {
    t in s.threads && IsQueued(s.threads[t])
  }

  // A cancelled thread is taken out of its queue before it is removed.
  lemma CancelPulls(s: Sched, t: Tid) returns (s2: Sched)
    requires Inv(s) && IsCancelled(s, t)
    ensures QueuedExist(s) && QueuedExist(s2) && t in s2.threads && Cancel(s, t) == RemoveThread(s2, t)
    ensures Placement(s2, Some(t)) && RefsOk(s2, None) && OnlyActive(s2, s2.active) && s2.threads[t].state != Passive
    ensures s2.active == s.active && s2.next == s.next && s.active != Some(t)
    ensures s2.threads == s.threads[t := s.threads[t].(exitStatus := -E_CANCELED)]
    ensures forall q :: Q(s2, q) == Without(Q(s, q), t)
    ensures forall q, u :: u in Q(s2, q) <==> u in Q(s, q) && u != t
  {
    hide Placement, RefsOk, Without, RemoveThread;
    PlacementExist(s, None);
    QueuedIsPlaced(s, t);
    var q := s.threads[t].queue.value;
    TakeOut(s, t, q);
    var s1 := SetQueue(s, q, Without(Q(s, q), t));
    s2 := SetThread(s1, t, s1.threads[t].(exitStatus := -E_CANCELED));
    WithoutShorter(Q(s, q), t);
    CancelExist(s, t, q);
    Recount(s1, Some(t), t, s.threads[t].refCnt, -E_CANCELED);
    assert s2 == SetThread(s1, t, s1.threads[t].(refCnt := s.threads[t].refCnt, exitStatus := -E_CANCELED));
    RefsFrame(s, s2, None);
    PulledQueues(s, s2, t, q);
  }

  lemma PulledQueues(s: Sched, s2: Sched, t: Tid, q: QueueId)
    requires Placement(s, None) && t in Q(s, q)
    requires forall p :: Q(s2, p) == if p == q then Without(Q(s, q), t) else Q(s, p)
    ensures forall p :: Q(s2, p) == Without(Q(s, p), t)
    ensures forall p, u :: u in Q(s2, p) <==> u in Q(s, p) && u != t
  {
    hide Without;
    WithoutDistinct(Q(s, q), t);
    forall p | p != q ensures t !in Q(s, p) {
      assert Placed(s, t, q);
      assert t in Q(s, p) ==> Placed(s, t, p);
    }
  }

  // Nothing happens to a thread that is active, has ended or is gone; it is in no queue.
  lemma CancelSkips(s: Sched, t: Tid)
    requires Inv(s) && !IsCancelled(s, t)
    ensures QueuedExist(s) && Cancel(s, t) == s && forall q :: Without(Q(s, q), t) == Q(s, q)
  {
    hide RefsOk, Without;
    PlacementExist(s, None);
    forall q ensures t !in Q(s, q) {
      assert t in Q(s, q) ==> Placed(s, t, q);
    }
  }

  // The active thread gets its exit status before it is removed.
  lemma ExitMarks(s: Sched, status: int) returns (s1: Sched)
    requires Inv(s)
    ensures QueuedExist(s) && QueuedExist(s1) && s.active.value in s1.threads
    ensures Exit(s, status) == RemoveThread(s1, s.active.value).(active := None)
    ensures Placement(s1, Some(s.active.value)) && RefsOk(s1, None) && OnlyActive(s1, s1.active)
    ensures s1 == SetThread(s, s.active.value, s.threads[s.active.value].(exitStatus := status))
    ensures s1.threads[s.active.value].state == Active && forall q :: Q(s1, q) == Q(s, q)
  {
    hide Placement, RefsOk, RemoveThread;
    PlacementExist(s, None);
    var t := s.active.value;
    s1 := SetThread(s, t, s.threads[t].(exitStatus := status));
    Recount(s, None, t, s.threads[t].refCnt, status);
    assert s1 == SetThread(s, t, s.threads[t].(refCnt := s.threads[t].refCnt, exitStatus := status));
    RefsFrame(s, s1, None);
    Floating(s1, t);
    PlacementExist(s1, None);
  }

  // Ending the active thread leaves a state from which another thread can be scheduled.
  lemma ExitKeeps(s: Sched, status: int)
    requires Inv(s)
    ensures QueuedExist(s) && Core(Exit(s, status))
  {
    hide Placement, RefsOk, Exit, RemoveThread, OnlyActive;
    var t := s.active.value;
    var s1 := ExitMarks(s, status);
    RemoveThreadKeeps(s1, t);
    ActiveFieldFree(RemoveThread(s1, t), None);
  }

  // The placement and the counts do not depend on which thread is recorded as active.
  lemma ActiveFieldFree(s: Sched, a: Option<Tid>)
    ensures var s' := s.(active := a);
            (Placement(s, None) ==> Placement(s', None)) && (RefsOk(s, None) ==> RefsOk(s', None))
            && (forall q :: Q(s', q) == Q(s, q)) && (OnlyActive(s, a) ==> OnlyActive(s', a))
  {
    var s' := s.(active := a);
    assert forall q :: Q(s', q) == Q(s, q);
    if Placement(s, None) {
      assert forall q, t :: t in Q(s', q) ==> Placed(s, t, q);
    }
    if RefsOk(s, None) {
      forall t | t in s'.threads ensures RefOk(s', t) { assert RefOk(s, t); }
    }
  }

  /** The references to thread t; none if its descriptor is gone. */
  function Count(s: Sched, t: Tid): int {
    if t in s.threads then s.threads[t].refCnt else 0
  }

  // A descriptor is there as long as there are references to it.
  lemma CountPositive(s: Sched, t: Tid)
    requires RefsOk(s, None)
    ensures Count(s, t) >= 0 && (t in s.threads <==> Count(s, t) >= 1)
  {
    if t in s.threads {
      assert RefOk(s, t);
    }
  }

  /** The references that sys__wait_for_thread adds or drops: a thread that has not ended is waited
      for if the caller wants to, an ended one leaves its status. */
  function JoinCount(s: Sched, t: Tid, wait: bool): int {
    if Live(s, t) && wait then 1 else if t in s.threads && !Live(s, t) then -1 else 0
  }

  // Joining: the joiner's reference is counted before it blocks, a descriptor whose status is
  // collected goes exactly with its last reference, and a caller that does not want to wait goes on.
  lemma JoinKeeps(s: Sched, t: Tid, wait: bool)
    requires Inv(s)
    ensures Core(Join(s, t, wait))
    ensures !(Live(s, t) && wait) ==> Inv(Join(s, t, wait))
    ensures t !in s.threads || (Live(s, t) && !wait) ==> Join(s, t, wait) == s
    ensures forall u: Tid :: Count(Join(s, t, wait), u) == Count(s, u) + if u == t then JoinCount(s, t, wait) else 0
    ensures forall u :: u in s.threads && u !in Join(s, t, wait).threads <==>
              u == t && u in s.threads && !Live(s, t) && s.threads[t].refCnt == 1
    ensures Join(s, t, wait).next == s.next
  {
    hide Placement, RefsOk, Join;
    JoinChanges(s, t, wait);
    match JoinOutcome(s, t, wait) {
      case Gone => JoinNothing(s, t, wait);
      case NotFinished => JoinNothing(s, t, wait);
      case Blocked => JoinBlocks(s, t);
      case Status(_) => JoinCollects(s, t);
    }
  }

  // What the caller is told.
  lemma JoinOutcomeIs(s: Sched, t: Tid, wait: bool)
    ensures JoinOutcome(s, t, wait) ==
            if t !in s.threads then Gone
            else if Live(s, t) then (if wait then Blocked else NotFinished)
            else Status(s.threads[t].exitStatus)
  {
  }

  lemma JoinNothing(s: Sched, t: Tid, wait: bool)
    requires IsRunning(s) && (JoinOutcome(s, t, wait) == Gone || JoinOutcome(s, t, wait) == NotFinished)
    ensures Join(s, t, wait) == s
  {
  }

  lemma JoinChanges(s: Sched, t: Tid, wait: bool)
    requires IsRunning(s)
    ensures forall u: Tid :: Count(Join(s, t, wait), u) == Count(s, u) + if u == t then JoinCount(s, t, wait) else 0
    ensures forall u :: u in s.threads && u !in Join(s, t, wait).threads <==>
              u == t && u in s.threads && !Live(s, t) && s.threads[t].refCnt == 1
    ensures Join(s, t, wait).next == s.next
  {
  }

  lemma JoinCounts(s: Sched, t: Tid)
    requires RefsOk(s, None) && IsRunning(s) && t in s.threads && s.threads[t].state != Passive
    ensures RefsOk(Join(s, t, true), None)
  {
    var s' := Join(s, t, true);
    forall u | u in s'.threads ensures RefOk(s', u) {
      assert RefOk(s, u);
      assert Q(s', JoinQ(u)) == Q(s, JoinQ(u)) + if u == t then [s.active.value] else [];
    }
  }

  lemma JoinBlocks(s: Sched, t: Tid)
    requires Inv(s) && t in s.threads && s.threads[t].state != Passive
    ensures Core(Join(s, t, true))
  {
    hide Placement, RefsOk;
    var a := s.active.value;
    var s1 := SetThread(s, t, s.threads[t].(refCnt := s.threads[t].refCnt + 1));
    Recount(s, None, t, s.threads[t].refCnt + 1, s.threads[t].exitStatus);
    assert s1 ==
           SetThread(s, t, s.threads[t].(refCnt := s.threads[t].refCnt + 1, exitStatus := s.threads[t].exitStatus));
    Floating(s1, a);
    AppendPlaces(s1, a, JoinQ(t));
    JoinCounts(s, t);
  }

  lemma CollectCounts(s: Sched, s1: Sched, t: Tid)
    requires RefsOk(s, None) && t in s.threads && s.threads[t].state == Passive
    requires s1 == SetThread(s, t, s.threads[t].(refCnt := s.threads[t].refCnt - 1))
    ensures Q(s1, JoinQ(t)) == []
    ensures forall u :: u in s1.threads && u != t ==> RefOk(s1, u)
    ensures forall u: Tid :: u !in s1.threads ==> Q(s1, JoinQ(u)) == []
    ensures s1.threads[t].refCnt != 0 ==> RefsOk(s1, None)
  {
    assert RefOk(s, t);
    assert forall q :: Q(s1, q) == Q(s, q);
    forall u | u in s1.threads && u != t ensures RefOk(s1, u) {
      assert RefOk(s, u);
    }
    if s1.threads[t].refCnt != 0 {
      assert RefOk(s1, t);
    }
  }

  lemma JoinCollects(s: Sched, t: Tid)
    requires Inv(s) && t in s.threads && s.threads[t].state == Passive
    ensures Inv(Join(s, t, true)) && Join(s, t, true) == Join(s, t, false)
  {
    hide Placement, RefsOk;
    var s1 := SetThread(s, t, s.threads[t].(refCnt := s.threads[t].refCnt - 1));
    Recount(s, None, t, s.threads[t].refCnt - 1, s.threads[t].exitStatus);
    assert s1 ==
           SetThread(s, t, s.threads[t].(refCnt := s.threads[t].refCnt - 1, exitStatus := s.threads[t].exitStatus));
    CollectCounts(s, s1, t);
    if s1.threads[t].refCnt == 0 {
      RemoveDescriptorKeeps(s1, t);
    }
  }

  // Cancelling keeps the invariant; the active thread goes on running.
  lemma CancelKeeps(s: Sched, t: Tid)
    requires Inv(s)
    ensures QueuedExist(s) && Inv(Cancel(s, t)) && Cancel(s, t).active == s.active
  {
    hide Placement, RefsOk, Without, OfPrio, Cancel, RemoveThread;
    if IsCancelled(s, t) {
      var s2 := CancelPulls(s, t);
      RemoveThreadKeeps(s2, t);
      NotQueued(s2, Some(t), s.active.value, JoinQ(t));
    } else {
      CancelSkips(s, t);
    }
  }

  lemma NotQueued(s: Sched, e: Option<Tid>, u: Tid, q: QueueId)
    requires Placement(s, e) && u in s.threads && !IsQueued(s.threads[u])
    ensures u !in Q(s, q)
  {
  }

  lemma QueuedIsPlaced(s: Sched, t: Tid)
    requires Placement(s, None) && t in s.threads && IsQueued(s.threads[t])
    ensures s.threads[t].queue.Some? && t in Q(s, s.threads[t].queue.value) && Placed(s, t, s.threads[t].queue.value)
  {
  }

  // -- the idle thread --------------------------------------------------------------

  /** The idle thread is created first. */
  const IDLE: Tid := 0

  /** The idle thread is never blocked nor ended. */
  predicate IdleOk(s: Sched) {
    IDLE in s.threads && s.threads[IDLE].prio == 0 && s.threads[IDLE].state in {Active, Ready}
  }

  // With the idle thread around there always is a thread to return to: the assertion of
  // k_schedule_threads never fails.
  lemma IdleCanRun(s: Sched)
    requires Core(s) && IdleOk(s)
    ensures CanSchedule(s) && QueuedExist(s)
  {
    PlacementExist(s, None);
    if s.threads[IDLE].state == Ready {
      ReadyAtMostTop(s, IDLE);
    }
  }

  /** A thread that has not ended. */
  predicate Live(s: Sched, t: Tid) {
    t in s.threads && s.threads[t].state != Passive
  }

  /** A queue of threads blocked on a semaphore, device or alarm, other than q0. */
  predicate IsResourceQ(q: QueueId, q0: Option<QueueId>) {
    !q.ReadyQ? && !q.JoinQ? && Some(q) != q0
  }

  /** Descriptors that are gone stay gone, threads that have ended stay ended, and the status they
      left does not change. */
  ghost predicate Ages(s: Sched, s': Sched) {
    && s'.next >= s.next
    && (forall t: Tid :: Live(s', t) ==> Live(s, t) || t >= s.next)
    && (forall t :: t in s'.threads ==> t in s.threads || t >= s.next)
    && (forall t :: t in s'.threads && t in s.threads && t < s.next && s.threads[t].state == Passive ==>
          s'.threads[t].exitStatus == s.threads[t].exitStatus)
  }

  /** Seen from resource queues other than q0: a step from s to s' only lets ended threads leave,
      lets nobody come in, and brings nobody back to life. */
  ghost predicate SchedFrame(s: Sched, s': Sched, q0: Option<QueueId>) {
    && Ages(s, s')
    && (forall q, t {:trigger t in Q(s', q)} :: IsResourceQ(q, q0) && t in Q(s', q) ==> t in Q(s, q))
    && (forall q, t {:trigger t in Q(s, q)} :: IsResourceQ(q, q0) && t in Q(s, q) && Live(s', t) ==> t in Q(s', q))
  }

  lemma AgesTrans(s: Sched, s1: Sched, s2: Sched)
    requires Ages(s, s1) && Ages(s1, s2)
    ensures Ages(s, s2)
  {
    forall t | t in s2.threads && t in s.threads && t < s.next && s.threads[t].state == Passive
      ensures s2.threads[t].exitStatus == s.threads[t].exitStatus
    {
      assert t in s1.threads && !Live(s, t) && !Live(s1, t);
    }
  }

  lemma FrameTrans(s: Sched, s1: Sched, s2: Sched, q0: Option<QueueId>)
    requires SchedFrame(s, s1, q0) && SchedFrame(s1, s2, q0)
    requires Placement(s, None)
    ensures SchedFrame(s, s2, q0)
  {
    AgesTrans(s, s1, s2);
    forall q, t | IsResourceQ(q, q0) && t in Q(s, q) && Live(s2, t) ensures t in Q(s2, q) {
      assert Placed(s, t, q);
      assert t in Q(s1, q);
    }
  }

  lemma FrameRefl(s: Sched, q0: Option<QueueId>)
    ensures SchedFrame(s, s, q0)
  {
  }

  lemma FrameSub(s: Sched, s': Sched, q0: Option<QueueId>)
    requires SchedFrame(s, s', None)
    ensures SchedFrame(s, s', q0)
  {
  }

  lemma ScheduleFrame(s: Sched)
    requires Core(s) && CanSchedule(s)
    ensures QueuedExist(s) && SchedFrame(s, Schedule(s), None) && Schedule(s).next == s.next
    ensures IdleOk(s) ==> IdleOk(Schedule(s))
    ensures forall q: QueueId :: !q.ReadyQ? ==> Q(Schedule(s), q) == Q(s, q)
    ensures forall t: Tid :: Live(Schedule(s), t) <==> Live(s, t)
  {
    hide Core, Schedule, IdleOk, SchedFrame;
    ScheduleSame(s);
    FrameFromSame(s, Schedule(s));
  }

  lemma FrameFromSame(s: Sched, s': Sched)
    requires s'.next == s.next && s'.threads.Keys == s.threads.Keys
    requires forall q: QueueId :: !q.ReadyQ? ==> Q(s', q) == Q(s, q)
    requires forall t: Tid :: Live(s', t) <==> Live(s, t)
    requires forall t :: t in s.threads ==> s'.threads[t].exitStatus == s.threads[t].exitStatus
    ensures SchedFrame(s, s', None)
  {
  }

  lemma ScheduleSame(s: Sched)
    requires Core(s) && CanSchedule(s)
    ensures QueuedExist(s) && Schedule(s).next == s.next && Schedule(s).threads.Keys == s.threads.Keys
    ensures IdleOk(s) ==> IdleOk(Schedule(s))
    ensures forall q: QueueId :: !q.ReadyQ? ==> Q(Schedule(s), q) == Q(s, q)
    ensures forall t: Tid :: Live(Schedule(s), t) <==> Live(s, t)
    ensures forall t :: t in s.threads ==> Schedule(s).threads[t].exitStatus == s.threads[t].exitStatus
  {
    hide Placement, RefsOk, TopBelow;
    PlacementExist(s, None);
    var first := TopReady(s);
    if !IsRunning(s) {
      HeadPlaced(s, None, ReadyQ(first));
    } else if first >= s.threads[s.active.value].prio {
      HeadPlaced(s, None, ReadyQ(first));
    }
  }

  lemma CreateFrame(s: Sched, prio: int)
    requires Core(s)
    ensures SchedFrame(s, CreateThread(s, prio, true), None)
    ensures IdleOk(s) ==> IdleOk(CreateThread(s, prio, true))
    ensures CreateThread(s, prio, true).active == s.active
    ensures IsRunning(s) ==> IsRunning(CreateThread(s, prio, true))
    ensures forall q: QueueId :: !q.ReadyQ? ==> Q(CreateThread(s, prio, true), q) == Q(s, q)
  {
    NewThreadPlaces(s, prio);
  }

  lemma ReleaseFirstFrame(s: Sched, q: QueueId)
    requires Placement(s, None) && Q(s, q) != [] && !q.ReadyQ?
    ensures Q(s, q)[0] in s.threads
    ensures SchedFrame(s, ReleaseFirst(s, q), Some(q))
    ensures IdleOk(s) ==> IdleOk(ReleaseFirst(s, q))
    ensures Q(ReleaseFirst(s, q), q) == Q(s, q)[1..]
    ensures ReleaseFirst(s, q).next == s.next
    ensures forall t: Tid :: Live(ReleaseFirst(s, q), t) <==> Live(s, t)
  {
    HeadPlaced(s, None, q);
  }

  lemma ReleaseAllFrame(s: Sched, q: QueueId)
    requires Placement(s, None) && !q.ReadyQ?
    ensures QueuedExist(s) && SchedFrame(s, ReleaseAll(s, q), Some(q))
    ensures IdleOk(s) ==> IdleOk(ReleaseAll(s, q))
    ensures Q(ReleaseAll(s, q), q) == []
  {
    hide Placement, OfPrio, ReleaseAll, MadeReady, SchedFrame, IdleOk;
    ReleaseAllEffect(s, q);
    JoinersLive(s, None, q);
    MadeReadyFrame(s, ReleaseAll(s, q), q);
  }

  lemma MadeReadyFrame(s: Sched, s': Sched, q: QueueId)
    requires MadeReady(s, s', Q(s, q)) && !q.ReadyQ? && forall t :: t in Q(s, q) ==> Live(s, t)
    requires forall p: QueueId :: !p.ReadyQ? ==> Q(s', p) == if p == q then [] else Q(s, p)
    ensures SchedFrame(s, s', Some(q)) && (IdleOk(s) ==> IdleOk(s'))
  {
    hide OfPrio;
  }

  /** The active thread blocks on q (k_enqueue_thread). */
  function BlockActive(s: Sched, q: QueueId): Sched
    requires IsRunning(s)
  {
    Append(s, s.active.value, q)
  }

  lemma BlockKeeps(s: Sched, q: QueueId)
    requires Inv(s) && IsResourceQ(q, None)
    ensures var s' := BlockActive(s, q);
            && Core(s') && SchedFrame(s, s', Some(q)) && Q(s', q) == Q(s, q) + [s.active.value]
            && (IdleOk(s) && s.active != Some(IDLE) ==> IdleOk(s')) && s'.active == s.active && s'.next == s.next
            && (forall t: Tid :: Live(s', t) <==> Live(s, t))
            && forall p: QueueId :: p != q ==> Q(s', p) == Q(s, p)
  {
    hide Placement, RefsOk;
    var t := s.active.value;
    Floating(s, t);
    AppendPlaces(s, t, q);
    RefsFrame(s, BlockActive(s, q), None);
  }

  lemma FrameSame(s: Sched, s1: Sched, s2: Sched, s3: Sched)
    requires SchedFrame(s1, s2, None)
    requires s1.next == s.next && s3.next == s2.next && s3.threads == s2.threads
    requires s1.queues == s.queues && s3.queues == s2.queues && s1.threads.Keys == s.threads.Keys
    requires forall u: Tid :: Live(s1, u) <==> Live(s, u)
    requires forall u :: u in s.threads && s.threads[u].state == Passive ==> s1.threads[u] == s.threads[u]
    ensures SchedFrame(s, s3, None)
  {
    assert forall q :: Q(s1, q) == Q(s, q) && Q(s3, q) == Q(s2, q);
    assert forall u: Tid :: Live(s3, u) <==> Live(s2, u);
  }

  lemma RemoveThreadFrame(s: Sched, t: Tid)
    requires t in s.threads && Placement(s, Some(t)) && RefsOk(s, None) && s.threads[t].state != Passive
    requires OnlyActive(s, s.active) && IdleOk(s) && t != IDLE
    ensures QueuedExist(s) && SchedFrame(s, RemoveThread(s, t), None) && IdleOk(RemoveThread(s, t))
    ensures !Live(RemoveThread(s, t), t)
  {
    hide Placement, RefsOk, OfPrio, RemoveThread;
    RemoveThreadKeeps(s, t);
    NotJoining(s, Some(t), IDLE, t);
    JoinersLive(s, Some(t), JoinQ(t));
    RemoveThreadKeys(s, t);
  }

  lemma RemoveThreadKeys(s: Sched, t: Tid)
    requires t in s.threads && Placement(s, Some(t)) && RefsOk(s, None) && s.threads[t].state != Passive
             && OnlyActive(s, s.active)
    ensures QueuedExist(s) && forall u :: u in RemoveThread(s, t).threads ==> u in s.threads
  {
    hide Placement, RefsOk, OfPrio;
    RemoveThreadKeeps(s, t);
  }

  lemma ExitFrame(s: Sched, status: int)
    requires Inv(s) && IdleOk(s) && s.active != Some(IDLE)
    ensures QueuedExist(s) && SchedFrame(s, Exit(s, status), None) && IdleOk(Exit(s, status))
  {
    hide Placement, RefsOk, OfPrio, RemoveThread, Exit;
    var t := s.active.value;
    var s1 := ExitMarks(s, status);
    RemoveThreadFrame(s1, t);
    var s2 := RemoveThread(s1, t);
    FrameSame(s, s1, s2, s2.(active := None));
  }

  lemma NotJoining(s: Sched, e: Option<Tid>, u: Tid, t: Tid)
    requires Placement(s, e) && u in s.threads && s.threads[u].state in {Active, Ready}
    ensures u !in Q(s, JoinQ(t))
  {
  }

  lemma JoinersLive(s: Sched, e: Option<Tid>, q: QueueId)
    requires Placement(s, e)
    ensures forall u :: u in Q(s, q) ==> Live(s, u)
  {
    assert forall u :: u in Q(s, q) ==> Placed(s, u, q);
  }

  lemma JoinFrame(s: Sched, t: Tid, wait: bool)
    requires Inv(s) && IdleOk(s) && s.active != Some(IDLE)
    ensures SchedFrame(s, Join(s, t, wait), None) && IdleOk(Join(s, t, wait))
  {
    hide Placement, RefsOk, Append, RemoveDescriptor, IdleOk;
    match JoinOutcome(s, t, wait) {
      case Gone =>
      case NotFinished =>
      case Blocked => JoinBlockFrame(s, t);
      case Status(_) => JoinCollectFrame(s, t);
    }
  }

  lemma JoinBlockFrame(s: Sched, t: Tid)
    requires Inv(s) && IdleOk(s) && s.active != Some(IDLE) && JoinOutcome(s, t, true) == Blocked
    ensures SchedFrame(s, Join(s, t, true), None) && IdleOk(Join(s, t, true))
  {
    hide Placement, RefsOk;
    assert forall q: QueueId :: !q.JoinQ? ==> Q(Join(s, t, true), q) == Q(s, q);
  }

  lemma JoinCollectFrame(s: Sched, t: Tid)
    requires Inv(s) && IdleOk(s) && t in s.threads && s.threads[t].state == Passive
    ensures SchedFrame(s, Join(s, t, true), None) && IdleOk(Join(s, t, true)) && Join(s, t, true) == Join(s, t, false)
  {
    hide Placement, RefsOk;
    assert forall q: QueueId :: !q.JoinQ? ==> Q(Join(s, t, true), q) == Q(s, q);
  }

  lemma CancelFrame(s: Sched, t: Tid)
    requires Inv(s) && IdleOk(s) && t != IDLE
    ensures QueuedExist(s) && SchedFrame(s, Cancel(s, t), None) && IdleOk(Cancel(s, t))
  {
    hide Placement, RefsOk, Without, OfPrio, RemoveThread, Cancel;
    if IsCancelled(s, t) {
      var s2 := CancelPulls(s, t);
      RemoveThreadFrame(s2, t);
      CancelledLeaves(s, s2, RemoveThread(s2, t), t);
    } else {
      CancelSkips(s, t);
      FrameRefl(s, None);
    }
  }

  lemma CancelledLeaves(s: Sched, s2: Sched, s': Sched, t: Tid)
    requires forall p, u :: u in Q(s2, p) <==> u in Q(s, p) && u != t
    requires s2.next == s.next && s2.threads.Keys == s.threads.Keys && (forall u: Tid :: Live(s2, u) <==> Live(s, u))
    requires forall u :: u in s.threads && s.threads[u].state == Passive ==> s2.threads[u] == s.threads[u]
    requires SchedFrame(s2, s', None) && !Live(s', t)
    ensures SchedFrame(s, s', None)
  {
    assert Ages(s, s2) by {
      assert forall u: Tid :: Live(s2, u) <==> Live(s, u);
    }
    AgesTrans(s, s2, s');
  }

  lemma QueuesDistinct(s: Sched, q: QueueId)
    requires Placement(s, None)
    ensures Distinct(Q(s, q))
  {
  }
}
