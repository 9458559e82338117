/** The system calls of kernel/thread.c on the whole kernel state. */
module ThreadCalls {
  import opened Options
  import opened Seqs
  import opened Scheduler
  import opened KernelState
  import opened Alarms

  /** sys__create_thread */
  ghost function Create(s: State, prio: int): State
    requires Running(s)
  {
    CreateRuns(s, prio);
    Reschedule(s.(sched := CreateThread(s.sched, prio, true)))
  }

  /** sys__thread_exit */
  ghost function ExitThread(s: State, status: int): State
    requires Running(s) && s.sched.active != Some(IDLE)
  {
    ExitRuns(s, status);
    Reschedule(s.(sched := Exit(s.sched, status)))
  }

  /** sys__wait_for_thread */
  ghost function JoinThread(s: State, t: Tid, wait: bool): State
    requires Running(s) && s.sched.active != Some(IDLE)
  {
    JoinRuns(s, t, wait);
    var s1 := s.(sched := Join(s.sched, t, wait));
    if JoinOutcome(s.sched, t, wait) == Blocked then Reschedule(s1) else s1
  }

  /** sys__cancel_thread */
  ghost function CancelThread(s: State, t: Tid): State
    requires Running(s) && t != IDLE
  {
    CancelRuns(s, t);
    s.(sched := Cancel(s.sched, t))
  }

  // -- what they do to the queues of semaphores, devices and alarms -----------------

  lemma CreateRuns(s: State, prio: int)
    requires Running(s)
    ensures var c := CreateThread(s.sched, prio, true);
            Core(c) && IdleOk(c) && SchedFrame(s.sched, c, None)
            && forall q: QueueId :: !q.ReadyQ? ==> Q(c, q) == Q(s.sched, q)
  {
    CreateKeepsIff(s.sched, prio, true);
    CreateFrame(s.sched, prio);
  }

  lemma ExitRuns(s: State, status: int)
    requires Running(s) && s.sched.active != Some(IDLE)
    ensures QueuedExist(s.sched)
    ensures var x := Exit(s.sched, status);
            Core(x) && IdleOk(x) && SchedFrame(s.sched, x, None)
            && forall q: QueueId :: IsResourceQ(q, None) ==> Q(x, q) == Q(s.sched, q)
  {
    hide Core, Exit, IdleOk, SchedFrame;
    ExitKeeps(s.sched, status);
    ExitFrame(s.sched, status);
    ExitQueues(s.sched, status);
  }

  lemma ExitQueues(s: Sched, status: int)
    requires Inv(s)
    ensures QueuedExist(s) && forall q: QueueId :: IsResourceQ(q, None) ==> Q(Exit(s, status), q) == Q(s, q)
  {
    hide Placement, RefsOk, OfPrio, RemoveThread, Exit;
    var s1 := ExitMarks(s, status);
    RemoveThreadKeeps(s1, s.active.value);
  }

  /** Thread t has ended; if its descriptor is left, it holds the status. */
  predicate LeftStatus(s: Sched, t: Tid, status: int) {
    !Live(s, t) && (t in s.threads ==> s.threads[t].exitStatus == status)
  }

  lemma RemovedStatus(s: Sched, t: Tid)
    requires t in s.threads && Placement(s, Some(t)) && RefsOk(s, None) && s.threads[t].state != Passive
             && OnlyActive(s, s.active)
    ensures QueuedExist(s) && LeftStatus(RemoveThread(s, t), t, s.threads[t].exitStatus)
  {
    hide RefsOk, OfPrio, RemoveThread;
    RemoveThreadKeeps(s, t);
    assert t !in Q(s, JoinQ(t));
  }

  lemma ExitStatusLeft(s: Sched, status: int)
    requires Inv(s)
    ensures QueuedExist(s) && LeftStatus(Exit(s, status), s.active.value, status)
  {
    hide Placement, RefsOk, OfPrio, RemoveThread, Exit;
    var s1 := ExitMarks(s, status);
    RemovedStatus(s1, s.active.value);
  }

  // A cancelled thread has ended with the status -E_CANCELED.
  lemma CancelStatusLeft(s: Sched, t: Tid)
    requires Inv(s) && IsCancelled(s, t)
    ensures QueuedExist(s) && LeftStatus(Cancel(s, t), t, -E_CANCELED)
  {
    hide Placement, RefsOk, Without, OfPrio, RemoveThread, Cancel;
    var s2 := CancelPulls(s, t);
    RemovedStatus(s2, t);
  }

  // What is left of an ended thread stays as it is while the kernel goes on.
  lemma StatusStays(s: Sched, s': Sched, t: Tid, status: int)
    requires LeftStatus(s, t, status) && Ages(s, s') && t < s.next
    ensures LeftStatus(s', t, status) && t < s'.next
  {
  }

  // sys__thread_exit leaves its status for those who wait.
  lemma ExitLeavesStatus(s: State, status: int)
    requires Running(s) && s.sched.active != Some(IDLE)
    ensures IsRunning(s.sched) && LeftStatus(ExitThread(s, status).sched, s.sched.active.value, status)
    ensures s.sched.active.value < ExitThread(s, status).sched.next
  {
    hide Core, IdleOk, Exit, Placement, LeftStatus, RefsOk, Reschedule, OnlyActive;
    ExitRuns(s, status);
    CoreOf(s.sched);
    ExitStatusLeft(s.sched, status);
    var s1 := s.(sched := Exit(s.sched, status));
    RescheduleRuns(s1);
    StatusStays(s1.sched, Reschedule(s1).sched, s.sched.active.value, status);
  }

  lemma CoreOf(s: Sched)
    requires Inv(s)
    ensures IsRunning(s) && s.active.value < s.next
  {
  }

  lemma JoinRuns(s: State, t: Tid, wait: bool)
    requires Running(s) && s.sched.active != Some(IDLE)
    ensures var j := Join(s.sched, t, wait);
            Core(j) && IdleOk(j) && SchedFrame(s.sched, j, None)
            && forall q: QueueId :: IsResourceQ(q, None) ==> Q(j, q) == Q(s.sched, q)
  {
    hide Core, IdleOk, SchedFrame;
    JoinKeeps(s.sched, t, wait);
    JoinFrame(s.sched, t, wait);
  }

  lemma CancelRuns(s: State, t: Tid)
    requires Running(s) && t != IDLE
    ensures QueuedExist(s.sched)
    ensures var c := Cancel(s.sched, t);
            Inv(c) && IdleOk(c) && SchedFrame(s.sched, c, None) && c.active == s.sched.active
            && forall q: QueueId :: IsResourceQ(q, None) ==> Q(c, q) == Without(Q(s.sched, q), t)
  {
    hide Inv, IdleOk, SchedFrame, Cancel;
    RunningPlaced(s);
    CancelKeeps(s.sched, t);
    CancelFrame(s.sched, t);
    CancelQueues(s.sched, t);
  }

  lemma CancelQueues(s: Sched, t: Tid)
    requires Inv(s)
    ensures QueuedExist(s) && forall q: QueueId :: IsResourceQ(q, None) ==> Q(Cancel(s, t), q) == Without(Q(s, q), t)
  {
    hide Placement, RefsOk, Without, OfPrio, RemoveThread, Cancel;
    if IsCancelled(s, t) {
      var s2 := CancelPulls(s, t);
      RemoveThreadKeeps(s2, t);
    } else {
      CancelSkips(s, t);
    }
  }

  // -- they keep everything in order --------------------------------------------------

  // A step that only lets threads end or start keeps everything that is not about threads.
  lemma ThreadStep(s: State, s': State)
    requires AllOk(s) && Running(s') && s' == s.(sched := s'.sched) && SchedFrame(s.sched, s'.sched, None)
    ensures AllOk(s') && (NoneForgotten(s) ==> NoneForgotten(s'))
  {
    hide Running, SemsOk, DevsOk, SchedFrame, ListOk;
    SemsFrame(s, s', None);
    DevsFrame(s, s', None);
    if NoneForgotten(s) {
      forall a: nat | Q(s'.sched, AlarmQ(a)) != [] ensures a in s'.alarms && s'.alarms[a].active {
        if Q(s.sched, AlarmQ(a)) == [] {
          EmptyStays(s.sched, s'.sched, None, AlarmQ(a));
        }
      }
    }
  }

  // The same for a step that ends in k_schedule_threads.
  lemma ThreadReschedule(s: State, s1: State)
    requires AllOk(s) && Core(s1.sched) && IdleOk(s1.sched) && s1 == s.(sched := s1.sched)
             && SchedFrame(s.sched, s1.sched, None)
    requires forall q: QueueId :: IsResourceQ(q, None) ==> Q(s1.sched, q) == Q(s.sched, q)
    ensures var s' := Reschedule(s1);
            AllOk(s') && TopRuns(s'.sched) && s' == s.(sched := s'.sched) && (NoneForgotten(s) ==> NoneForgotten(s'))
            && forall q: QueueId :: IsResourceQ(q, None) ==> Q(s'.sched, q) == Q(s.sched, q)
  {
    hide AllOk, Core, IdleOk, SchedFrame, Reschedule, TopRuns, NoneForgotten, Running;
    AllRunning(s);
    RunningPlaced(s);
    RescheduleRuns(s1);
    RescheduleFields(s1);
    FrameTrans(s.sched, s1.sched, Reschedule(s1).sched, None);
    ThreadStep(s, Reschedule(s1));
  }

  lemma CreateKeeps(s: State, prio: int)
    requires AllOk(s)
    ensures var s' := Create(s, prio);
            AllOk(s') && TopRuns(s'.sched) && s' == s.(sched := s'.sched) && (NoneForgotten(s) ==> NoneForgotten(s'))
            && forall q: QueueId :: IsResourceQ(q, None) ==> Q(s'.sched, q) == Q(s.sched, q)
  {
    hide AllOk, CreateThread, Core, IdleOk, Running;
    AllRunning(s);
    CreateRuns(s, prio);
    ThreadReschedule(s, s.(sched := CreateThread(s.sched, prio, true)));
  }

  lemma ExitThreadKeeps(s: State, status: int)
    requires AllOk(s) && s.sched.active != Some(IDLE)
    ensures var s' := ExitThread(s, status);
            AllOk(s') && TopRuns(s'.sched) && s' == s.(sched := s'.sched) && (NoneForgotten(s) ==> NoneForgotten(s'))
            && forall q: QueueId :: IsResourceQ(q, None) ==> Q(s'.sched, q) == Q(s.sched, q)
  {
    hide AllOk, Exit, Core, IdleOk, Running;
    AllRunning(s);
    ExitRuns(s, status);
    ThreadReschedule(s, s.(sched := Exit(s.sched, status)));
  }

  lemma JoinThreadKeeps(s: State, t: Tid, wait: bool)
    requires AllOk(s) && s.sched.active != Some(IDLE)
    ensures var s' := JoinThread(s, t, wait);
            AllOk(s') && (TopRuns(s.sched) ==> TopRuns(s'.sched)) && s' == s.(sched := s'.sched)
            && (NoneForgotten(s) ==> NoneForgotten(s')) && (Live(s.sched, t) && !wait ==> s' == s)
            && forall q: QueueId :: IsResourceQ(q, None) ==> Q(s'.sched, q) == Q(s.sched, q)
  {
    hide AllOk, Join, Core, IdleOk, Running, TopRuns;
    AllRunning(s);
    JoinRuns(s, t, wait);
    var s1 := s.(sched := Join(s.sched, t, wait));
    if JoinOutcome(s.sched, t, wait) == Blocked {
      ThreadReschedule(s, s1);
    } else {
      JoinKeeps(s.sched, t, wait);
      JoinStays(s, t, wait);
      ThreadStep(s, s1);
    }
  }

  lemma JoinStays(s: State, t: Tid, wait: bool)
    requires Running(s) && s.sched.active != Some(IDLE) && JoinOutcome(s.sched, t, wait) != Blocked
    ensures Running(s.(sched := Join(s.sched, t, wait)))
    ensures TopRuns(s.sched) ==> TopRuns(Join(s.sched, t, wait))
  {
    hide Core, IdleOk;
    JoinKeeps(s.sched, t, wait);
    JoinFrame(s.sched, t, wait);
  }

  /** The threads that cancelling t makes ready all have at most the priority of the active thread. */
  predicate JoinersBelow(s: Sched, t: Tid)
    requires IsRunning(s)
  {
    IsCancelled(s, t) ==>
      forall u :: u in Q(s, JoinQ(t)) && u != t && u in s.threads ==>
          s.threads[u].prio <= s.threads[s.active.value].prio
  }

  lemma CancelThreadKeeps(s: State, t: Tid)
    requires AllOk(s) && t != IDLE
    ensures var s' := CancelThread(s, t);
            AllOk(s') && s' == s.(sched := s'.sched) && (NoneForgotten(s) ==> NoneForgotten(s'))
            && forall q: QueueId :: IsResourceQ(q, None) ==> Q(s'.sched, q) == Without(Q(s.sched, q), t)
  {
    hide AllOk, Cancel, IdleOk, Running, Without, NoneForgotten;
    AllRunning(s);
    CancelRuns(s, t);
    CancelledRuns(s, t);
    ThreadStep(s, s.(sched := Cancel(s.sched, t)));
  }

  lemma CancelledRuns(s: State, t: Tid)
    requires Running(s) && t != IDLE
    ensures Running(CancelThread(s, t))
  {
    CancelRuns(s, t);
  }

  // Cancelling does not reschedule: afterwards a ready thread has a higher priority than the active
  // one exactly if the cancelled thread was joined by such a thread.
  lemma CancelTopIff(s: Sched, t: Tid)
    requires Inv(s) && TopRuns(s)
    ensures QueuedExist(s) && (TopRuns(Cancel(s, t)) <==> JoinersBelow(s, t))
  {
    hide Placement, RefsOk, Without, OfPrio, RemoveThread, Cancel;
    if IsCancelled(s, t) {
      var s2 := CancelPulls(s, t);
      RemoveThreadKeeps(s2, t);
      RemoveThreadKeys(s2, t);
      CancelTop(s, s2, RemoveThread(s2, t), t);
    } else {
      CancelSkips(s, t);
    }
  }

  lemma CancelTop(s: Sched, s2: Sched, s': Sched, t: Tid)
    requires TopRuns(s) && Placement(s, None) && t in s.threads && IsQueued(s.threads[t]) && t != s.active.value
    requires s2.threads.Keys == s.threads.Keys && forall u :: u in s.threads && u != t ==> s2.threads[u] == s.threads[u]
    requires forall u :: u in Q(s2, JoinQ(t)) <==> u in Q(s, JoinQ(t)) && u != t
    requires s'.active == s.active && (t in s'.threads ==> s'.threads[t].state == Passive)
    requires forall u :: u in s'.threads ==> u in s2.threads
    requires forall u :: u in s2.threads && u != t ==>
               u in s'.threads
               && s'.threads[u] == if u in Q(s2, JoinQ(t)) then Readied(s2.threads[u]) else s2.threads[u]
    ensures TopRuns(s') <==> JoinersBelow(s, t)
  {
    AllPlaced(s, JoinQ(t));
    var a := s.active.value;
    assert a !in Q(s, JoinQ(t));
    if TopRuns(s') {
      forall u | u in Q(s, JoinQ(t)) && u != t ensures s.threads[u].prio <= s.threads[a].prio {
        assert s'.threads[u].state == Ready;
      }
    }
  }
}
