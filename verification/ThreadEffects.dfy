/**
 What system calls on threads, semaphores and devices do, said of the state alone: who runs, who
 waits where, and what descriptors hold.
 */
module ThreadEffects {
  import opened Options
  import opened Seqs
  import opened Scheduler
  import opened KernelState
  import opened Alarms
  import opened References
  import ThreadCalls
  import Semaphores
  import Devices
  import Runs

  // -- whether the processor was given away -------------------------------------------------

  /** All ready threads have lower priorities than the active one. */
  ghost predicate IsAlone(s: Sched) {
    && IsRunning(s)
    && forall t :: t in s.threads && s.threads[t].state == Ready ==> s.threads[t].prio < s.threads[s.active.value].prio
  }

  /** k_schedule_threads was called: another thread is active now, unless no ready one has at least
      the priority of the caller. */
  ghost predicate Rescheduled(s0: Sched, s: Sched) {
    IsRunning(s) && (s.active != s0.active || IsAlone(s))
  }

  lemma ScheduleYields(s0: Sched, s: Sched)
    requires Core(s) && CanSchedule(s)
    requires s.active == s0.active || (s0.active.Some? && !Live(s, s0.active.value))
    ensures QueuedExist(s) && Rescheduled(s0, Schedule(s))
  {
    hide Placement, RefsOk, TopBelow, OnlyActive;
    PlacementExist(s, None);
    ScheduleKeeps(s);
    var first := TopReady(s);
    if IsRunning(s) && first < s.threads[s.active.value].prio {
      forall t | t in s.threads && s.threads[t].state == Ready
        ensures s.threads[t].prio < s.threads[s.active.value].prio {
        ReadyAtMostTop(s, t);
      }
    } else {
      HeadPlaced(s, None, ReadyQ(first));
    }
  }

  lemma RescheduleYields(s0: Sched, s: State)
    requires Core(s.sched) && IdleOk(s.sched)
    requires s.sched.active == s0.active || (s0.active.Some? && !Live(s.sched, s0.active.value))
    ensures Rescheduled(s0, Reschedule(s).sched)
  {
    hide Core, IdleOk, Rescheduled;
    IdleCanRun(s.sched);
    ScheduleYields(s0, s.sched);
  }

  // -- k_create_thread -----------------------------------------------------------------------

  /** A priority as k_create_thread stores it. */
  function Level(prio: int): nat {
    if prio < 0 then 0 else if prio > 63 then 63 else prio
  }

  lemma CreateIs(s: Sched, prio: int)
    requires Placement(s, None)
    ensures var c := CreateThread(s, prio, true);
            && c.next == s.next + 1 && c.active == s.active && s.next !in s.threads
            && c.threads == s.threads[s.next := Thread(Ready, Level(prio), Some(ReadyQ(Level(prio))), 0, 1)]
            && forall q :: Q(c, q) == Q(s, q) + if q == ReadyQ(Level(prio)) then [s.next] else []
  {
    hide Placement;
    NewThreadPlaces(s, prio);
    var c := CreateThread(s, prio, true);
    assert c.threads == s.threads[s.next := Thread(Ready, Level(prio), Some(ReadyQ(Level(prio))), 0, 1)];
  }

  // sys__create_thread: a thread of the given priority, within the levels, is ready or active, and the
  // processor is given to it if nobody of at least that priority holds it.
  lemma CreateEffect(s: State, prio: int)
    requires AllOk(s)
    ensures Running(s)
    ensures var s', n := ThreadCalls.Create(s, prio), s.sched.next;
            && s'.sched.next == n + 1 && Awake(s'.sched, n) && Count(s'.sched, n) == 1
            && (prio < 0 ==> s'.sched.threads[n].prio == 0)
            && (0 <= prio <= 63 ==> s'.sched.threads[n].prio == prio)
            && (prio > 63 ==> s'.sched.threads[n].prio == 63)
            && s'.sched.threads[n].exitStatus == 0 && Q(s'.sched, JoinQ(n)) == []
            && Rescheduled(s.sched, s'.sched)
  {
    hide AllOk, Running, Core, IdleOk, CreateThread, Placement, Rescheduled, Kept, Reschedule;
    AllRunning(s);
    RunningPlaced(s);
    ThreadCalls.CreateRuns(s, prio);
    CreateIs(s.sched, prio);
    var s1 := s.(sched := CreateThread(s.sched, prio, true));
    RescheduleYields(s.sched, s1);
    RescheduleAwake(s1, s.sched.next);
    RescheduleKeepsData(s1, s.sched.next);
    RescheduleRuns(s1);
    UnknownJoinQ(s.sched, s.sched.next);
  }

  lemma RescheduleKeepsData(s: State, t: Tid)
    requires Core(s.sched) && IdleOk(s.sched) && t in s.sched.threads
    ensures var s' := Reschedule(s).sched;
            && t in s'.threads && SameData(s.sched.threads[t], s'.threads[t]) && Count(s', t) == Count(s.sched, t)
            && s'.next == s.sched.next
  {
    hide Core, IdleOk, Reschedule;
    RescheduleCounts(s);
    RescheduleRuns(s);
  }

  lemma UnknownJoinQ(s: Sched, t: Tid)
    requires Core(s) && t !in s.threads
    ensures Q(s, JoinQ(t)) == []
  {
  }

  // -- sys__wait_for_thread --------------------------------------------------------------------

  // The caller blocks if and only if the thread has not ended and it wants to wait; it is told whether
  // the thread has ended, and how.
  lemma JoinEffect(s: State, t: Tid, wait: bool)
    requires AllOk(s) && s.sched.active != Some(IDLE)
    ensures Running(s) && s.sched.active.Some?
    ensures var s', a := ThreadCalls.JoinThread(s, t, wait), s.sched.active.value;
            && (a in Q(s'.sched, JoinQ(t)) <==> Live(s.sched, t) && wait)
            && (Live(s.sched, t) && wait ==>
                  Q(s'.sched, JoinQ(t)) == Q(s.sched, JoinQ(t)) + [a] && s'.sched.active != Some(a))
            && (Live(s.sched, t) && !wait ==> s' == s)
            && (t !in s.sched.threads ==> s' == s)
            && (t in s.sched.threads && !Live(s.sched, t) ==>
                  s'.sched.active == Some(a) && forall q :: Q(s'.sched, q) == Q(s.sched, q))
            && JoinOutcome(s.sched, t, wait) ==
               if t !in s.sched.threads then Gone
               else if Live(s.sched, t) then (if wait then Blocked else NotFinished)
               else Status(s.sched.threads[t].exitStatus)
  {
    hide AllOk, Running, Core, IdleOk, Join, Reschedule;
    AllRunning(s);
    var a := s.sched.active.value;
    CallerNotQueued(s, JoinQ(t));
    ThreadCalls.JoinRuns(s, t, wait);
    JoinKeeps(s.sched, t, wait);
    JoinOutcomeIs(s.sched, t, wait);
    JoinQueuesOf(s.sched, t, wait);
    var s1 := s.(sched := Join(s.sched, t, wait));
    if Live(s.sched, t) && wait {
      RescheduleRuns(s1);
      RunningInv(Reschedule(s1));
      BlockedNotActive(Reschedule(s1).sched, a, JoinQ(t));
    }
  }

  lemma JoinQueuesOf(s: Sched, t: Tid, wait: bool)
    requires Inv(s)
    ensures forall q :: Q(Join(s, t, wait), q) ==
              Q(s, q) + if q == JoinQ(t) && Live(s, t) && wait then [s.active.value] else []
    ensures Join(s, t, wait).active == s.active
  {
    hide Placement;
    if t in s.threads && !Live(s, t) {
      assert RefOk(s, t);
      assert forall q :: Q(Join(s, t, wait), q) == Q(s, q);
    }
  }

  lemma BlockedNotActive(s: Sched, a: Tid, q: QueueId)
    requires Inv(s) && a in Q(s, q)
    ensures s.active != Some(a)
  {
    NotQueued(s, None, s.active.value, q);
  }

  // -- sys__thread_exit and sys__cancel_thread ----------------------------------------------------

  // All threads that wait for the end of the caller are made ready, and another thread is active.
  lemma ExitEffect(s: State, status: int)
    requires AllOk(s) && s.sched.active != Some(IDLE)
    ensures Running(s) && s.sched.active.Some?
    ensures var s', a := ThreadCalls.ExitThread(s, status), s.sched.active.value;
            && s'.sched.active != Some(a) && s'.sched.next == s.sched.next && Q(s'.sched, JoinQ(a)) == []
            && forall u :: u in Q(s.sched, JoinQ(a)) ==> Awake(s'.sched, u)
  {
    hide AllOk, Running, Core, IdleOk, Exit, Reschedule, Placement, Awake, ThreadCalls.LeftStatus;
    AllRunning(s);
    RunningPlaced(s);
    var a := s.sched.active.value;
    ThreadCalls.ExitRuns(s, status);
    ExitQueues(s.sched, status);
    ExitCounts(s.sched, status);
    var s1 := s.(sched := Exit(s.sched, status));
    RescheduleRuns(s1);
    ThreadCalls.ExitLeavesStatus(s, status);
    StatusNotActive(Reschedule(s1), a, status);
    forall u | u in Q(s.sched, JoinQ(a)) ensures Awake(Reschedule(s1).sched, u) {
      RescheduleAwake(s1, u);
    }
  }

  lemma StatusNotActive(s: State, a: Tid, status: int)
    requires Running(s) && ThreadCalls.LeftStatus(s.sched, a, status)
    ensures s.sched.active != Some(a)
  {
  }

  lemma ExitQueues(s: Sched, status: int)
    requires Inv(s)
    ensures QueuedExist(s)
    ensures var x, a := Exit(s, status), s.active.value;
            && (forall q: QueueId :: !q.ReadyQ? ==> Q(x, q) == if q == JoinQ(a) then [] else Q(s, q))
            && (forall u :: u in Q(s, JoinQ(a)) ==> Awake(x, u))
            && (forall u :: u in x.threads ==> u in s.threads && x.threads[u].prio == s.threads[u].prio)
            && (forall u :: u in x.threads && u != a ==> x.threads[u].exitStatus == s.threads[u].exitStatus)
  {
    hide Placement, RefsOk, RemoveThread, OfPrio, Exit;
    var a := s.active.value;
    var s1 := ExitMarks(s, status);
    RemoveThreadKeeps(s1, a);
    RemoveThreadKeys(s1, a);
    SelfNotJoining(s1, a);
    JoinersLive(s1, Some(a), JoinQ(a));
  }

  // A cancelled thread leaves its queue, and all threads that wait for its end are made ready; a thread
  // that is active, has ended or is gone is left alone, and so is everything else.
  lemma CancelEffect(s: State, t: Tid)
    requires AllOk(s) && t != IDLE
    ensures Running(s)
    ensures var s' := ThreadCalls.CancelThread(s, t);
            && (!IsCancelled(s.sched, t) ==> s' == s)
            && (IsCancelled(s.sched, t) ==>
                  && !Live(s'.sched, t)
                  && (forall q: QueueId :: !q.ReadyQ? ==>
                        Q(s'.sched, q) == if q == JoinQ(t) then [] else Without(Q(s.sched, q), t))
                  && (forall u :: u in Q(s.sched, JoinQ(t)) && u != t ==> Awake(s'.sched, u)))
            && s'.sched.active == s.sched.active && s'.sched.next == s.sched.next
  {
    hide AllOk, Running, Core, IdleOk, Cancel, Awake, Without;
    AllRunning(s);
    ThreadCalls.CancelRuns(s, t);
    CancelCounts(s.sched, t);
    if IsCancelled(s.sched, t) {
      CancelQueues(s.sched, t);
      ThreadCalls.CancelStatusLeft(s.sched, t);
    } else {
      CancelSkips(s.sched, t);
    }
  }

  lemma CancelQueues(s: Sched, t: Tid)
    requires Inv(s) && IsCancelled(s, t)
    ensures QueuedExist(s)
    ensures var c := Cancel(s, t);
            && (forall q: QueueId :: !q.ReadyQ? ==> Q(c, q) == if q == JoinQ(t) then [] else Without(Q(s, q), t))
            && (forall u :: u in Q(s, JoinQ(t)) && u != t ==> Awake(c, u))
            && (forall u :: u in c.threads ==> u in s.threads && c.threads[u].prio == s.threads[u].prio)
            && (forall u :: u in c.threads && u != t ==> c.threads[u].exitStatus == s.threads[u].exitStatus)
  {
    hide Placement, RefsOk, Without, RemoveThread, OfPrio, Cancel;
    var s2 := CancelPulls(s, t);
    RemoveThreadKeeps(s2, t);
    RemoveThreadKeys(s2, t);
    SelfNotJoining(s2, t);
    JoinersLive(s2, Some(t), JoinQ(t));
  }

  // -- what no call changes --------------------------------------------------------------------------

  /** Priorities never change, and exit statuses only when the thread ends. */
  ghost predicate SameThreads(s: Sched, e: Runs.Event, s': Sched) {
    forall t :: t in s.threads && t in s'.threads ==>
      && s'.threads[t].prio == s.threads[t].prio
      && s'.threads[t].exitStatus == if Ends(s, e, t) then EndStatus(e) else s.threads[t].exitStatus
  }

  lemma KeptSame(s: Sched, e: Runs.Event, s': Sched)
    requires Kept(s, s') && !e.ExitThread? && !e.CancelThread?
    ensures SameThreads(s, e, s')
  {
  }

  lemma ExitSame(s: State, status: int)
    requires AllOk(s) && s.sched.active != Some(IDLE)
    ensures Running(s) && SameThreads(s.sched, Runs.ExitThread(status), ThreadCalls.ExitThread(s, status).sched)
  {
    hide AllOk, Running, Core, IdleOk, Exit, Reschedule, ThreadCalls.LeftStatus, Awake;
    AllRunning(s);
    ThreadCalls.ExitRuns(s, status);
    ExitQueues(s.sched, status);
    ThreadCalls.ExitLeavesStatus(s, status);
    var s1 := s.(sched := Exit(s.sched, status));
    RescheduleSame(s1);
    StatusIs(Reschedule(s1).sched, s.sched.active.value, status);
  }

  lemma RescheduleSame(s: State)
    requires Core(s.sched) && IdleOk(s.sched)
    ensures var s' := Reschedule(s).sched;
            && s'.threads.Keys == s.sched.threads.Keys
            && forall t :: t in s.sched.threads ==> SameData(s.sched.threads[t], s'.threads[t])
  {
    hide Core, IdleOk, Schedule;
    RescheduleCounts(s);
    IdleCanRun(s.sched);
    ScheduleSame(s.sched);
  }

  lemma StatusIs(s: Sched, t: Tid, status: int)
    requires ThreadCalls.LeftStatus(s, t, status)
    ensures t in s.threads ==> s.threads[t].exitStatus == status
  {
  }

  lemma CancelSame(s: State, t: Tid)
    requires AllOk(s) && t != IDLE
    ensures Running(s) && SameThreads(s.sched, Runs.CancelThread(t), ThreadCalls.CancelThread(s, t).sched)
  {
    hide AllOk, Running, Core, IdleOk, Cancel, Awake, Without, ThreadCalls.LeftStatus;
    AllRunning(s);
    ThreadCalls.CancelRuns(s, t);
    if IsCancelled(s.sched, t) {
      CancelQueues(s.sched, t);
      ThreadCalls.CancelStatusLeft(s.sched, t);
      StatusIs(Cancel(s.sched, t), t, -E_CANCELED);
    } else {
      CancelSkips(s.sched, t);
    }
  }

  lemma JoinSame(s: State, t: Tid, wait: bool)
    requires AllOk(s) && s.sched.active != Some(IDLE)
    ensures Running(s) && SameThreads(s.sched, Runs.JoinThread(t, wait), ThreadCalls.JoinThread(s, t, wait).sched)
  {
    hide AllOk, Running, Core, IdleOk, Join, Reschedule;
    AllRunning(s);
    ThreadCalls.JoinRuns(s, t, wait);
    JoinData(s.sched, t, wait);
    var s1 := s.(sched := Join(s.sched, t, wait));
    RescheduleSame(s1);
  }

  lemma JoinData(s: Sched, t: Tid, wait: bool)
    requires IsRunning(s)
    ensures forall u :: u in Join(s, t, wait).threads ==>
                u in s.threads && SameData(s.threads[u], Join(s, t, wait).threads[u])
  {
  }

  lemma EveryStepSameThreads(s: State, e: Runs.Event)
    requires AllOk(s) && Runs.Enabled(s, e)
    ensures SameThreads(s.sched, e, Runs.Step(s, e).sched)
  {
    hide AllOk, Kept, SameThreads, Runs.AlarmCall, Runs.AlarmEnabled, Semaphores.Post, Semaphores.Wait, Devices.Lock,
         Devices.Unlock, ThreadCalls.Create, ThreadCalls.ExitThread, ThreadCalls.JoinThread,
         ThreadCalls.CancelThread, Running;
    KeptRefl(s.sched);
    match e {
      case CreateThread(prio) => CreateStep(s, prio);
      case ExitThread(status) => ExitSame(s, status);
      case JoinThread(t, wait) => JoinSame(s, t, wait);
      case CancelThread(t) => CancelSame(s, t);
      case SemInit(_, _) =>
      case SemPost(i) => SemCounts(s, i);
      case SemWait(i) => SemCounts(s, i);
      case DevLock(d, wait) => DevCounts(s, d, wait);
      case DevResume => Runs.ResumingDev(s);
      case DevUnlock(d) => DevCounts(s, d, false);
      case _ => AlarmCallCounts(s, e);
    }
    if !e.ExitThread? && !e.CancelThread? && !e.JoinThread? {
      KeptSame(s.sched, e, Runs.Step(s, e).sched);
    }
  }

  // -- semaphores and devices -----------------------------------------------------------------------

  // The processor is given away exactly when a waiter was let go or the caller blocks.
  lemma PostYields(s: State, i: nat)
    requires AllOk(s) && i in s.sems && Runs.MayCall(s)
    ensures var s' := Semaphores.Post(s, i);
            && s' == s.(sched := s'.sched, sems := s'.sems) && s'.sems.Keys == s.sems.Keys
            && (if Q(s.sched, SemQ(i)) == [] then s'.sched == s.sched else Rescheduled(s.sched, s'.sched))
  {
    hide AllOk, Running, Core, IdleOk, Reschedule, ReleaseFirst, Rescheduled, SchedFrame;
    AllRunning(s);
    if Q(s.sched, SemQ(i)) != [] {
      var m := s.sems[i];
      Semaphores.PostReady(s, i);
      ReleaseActive(s.sched, SemQ(i));
      var s1 := s.(sched := ReleaseFirst(s.sched, SemQ(i)),
                   sems := s.sems[i := m.(posts := m.posts + 1, grants := m.grants + 1)]);
      RescheduleFields(s1);
      RescheduleYields(s.sched, s1);
    }
  }

  lemma ReleaseActive(s: Sched, q: QueueId)
    requires Q(s, q) != [] && Q(s, q)[0] in s.threads
    ensures ReleaseFirst(s, q).active == s.active
  {
  }

  lemma BlockYields(s: State, s1: State, q: QueueId)
    requires Running(s) && s.sched.active != Some(IDLE) && IsResourceQ(q, None)
    requires IsRunning(s.sched) && s1.sched == BlockActive(s.sched, q)
    ensures Core(s1.sched) && IdleOk(s1.sched)
    ensures Reschedule(s1) == s1.(sched := Reschedule(s1).sched) && Reschedule(s1).sched.active != s.sched.active
  {
    hide Running, Core, IdleOk, Reschedule, BlockActive, SchedFrame, Inv, TopRuns;
    BlockRuns(s, q);
    RescheduleFields(s1);
    RescheduleRuns(s1);
    RunningInv(Reschedule(s1));
    BlockedNotActive(Reschedule(s1).sched, s.sched.active.value, q);
  }

  lemma RunningInv(s: State)
    requires Running(s)
    ensures Inv(s.sched)
  {
  }

  lemma WaitYields(s: State, i: nat)
    requires AllOk(s) && i in s.sems && Runs.MayCall(s)
    ensures var s' := Semaphores.Wait(s, i);
            && s' == s.(sched := s'.sched, sems := s'.sems) && s'.sems.Keys == s.sems.Keys
            && (if s.sems[i].value > 0 then s'.sched == s.sched else s'.sched.active != s.sched.active)
  {
    hide AllOk, Running, Core, IdleOk, Reschedule, BlockActive;
    AllRunning(s);
    if s.sems[i].value <= 0 {
      BlockYields(s, s.(sched := BlockActive(s.sched, SemQ(i))), SemQ(i));
    }
  }

  // A caller that does not want to wait for a locked device changes nothing.
  lemma LockYields(s: State, d: nat, wait: bool)
    requires AllOk(s) && d in s.devs && Runs.MayCall(s)
    ensures var s' := Devices.Lock(s, d, wait);
            && s' == s.(sched := s'.sched, devs := s'.devs, resuming := s'.resuming)
            && (s.devs[d].locked && !wait ==> s' == s)
            && (s.devs[d].locked && wait ==>
                  s'.devs == s.devs && s'.resuming == s.resuming[s.sched.active.value := d]
                  && s'.sched.active != s.sched.active)
            && (!s.devs[d].locked ==>
                  s'.sched == s.sched && s'.resuming == s.resuming && s'.devs == s.devs[d := s'.devs[d]])
  {
    hide AllOk, Running, Core, IdleOk, Reschedule, BlockActive;
    AllRunning(s);
    if s.devs[d].locked && wait {
      var t := s.sched.active.value;
      BlockYields(s, s.(sched := BlockActive(s.sched, DevQ(d)), resuming := s.resuming[t := d]), DevQ(d));
    }
  }

  lemma UnlockYields(s: State, d: nat)
    requires AllOk(s) && d in s.devs && Runs.MayCall(s)
    ensures var s' := Devices.Unlock(s, d);
            && s' == s.(sched := s'.sched, devs := s'.devs) && s'.devs == s.devs[d := s'.devs[d]]
            && (if Q(s.sched, DevQ(d)) == [] then s'.sched == s.sched else Rescheduled(s.sched, s'.sched))
  {
    hide AllOk, Running, Core, IdleOk, Reschedule, ReleaseFirst, Rescheduled, SchedFrame;
    AllRunning(s);
    var q, dev := DevQ(d), s.devs[d];
    if Q(s.sched, q) != [] {
      ReleaseRuns(s, q);
      ReleaseActive(s.sched, q);
      var holders := dev.holders - {s.sched.active.value} + {Q(s.sched, q)[0]};
      var s1 := s.(sched := ReleaseFirst(s.sched, q), devs := s.devs[d := dev.(holders := holders)]);
      RescheduleFields(s1);
      RescheduleYields(s.sched, s1);
    }
  }
}
