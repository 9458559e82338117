/**
 The order of service within one priority.  Between two calls of k_schedule_threads ready queues
 only grow at their ends, and k_schedule_threads takes the first thread of one of them.
 */
module ReadyOrder {
  import opened Options
  import opened Seqs
  import opened Time
  import opened Scheduler
  import opened KernelState
  import opened Alarms
  import opened AlarmFrames
  import ThreadCalls
  import Semaphores
  import Devices
  import Runs

  /** Ready queues only grow, at their ends. */
  ghost predicate Grows(s: Sched, s': Sched) {
    forall p: nat :: Q(s, ReadyQ(p)) <= Q(s', ReadyQ(p))
  }

  /** The thread of priority p that was made active from s to s', as a sequence of at most one. */
  function Dispatched(s: Sched, s': Sched, p: nat): (d: seq<Tid>)
    ensures |d| <= 1
  {
    if s'.active != s.active && s'.active.Some? && s'.active.value in s'.threads
       && s'.threads[s'.active.value].prio == p
    then [s'.active.value] else []
  }

  /** In every ready queue those who were there come first: in their order, the first of them
      perhaps active now, and before all who came later. */
  ghost predicate InOrder(s: Sched, s': Sched) {
    forall p: nat :: Q(s, ReadyQ(p)) <= Dispatched(s, s', p) + Q(s', ReadyQ(p))
  }

  lemma GrowsTrans(s: Sched, s1: Sched, s2: Sched)
    requires Grows(s, s1) && Grows(s1, s2)
    ensures Grows(s, s2)
  {
    forall p: nat ensures Q(s, ReadyQ(p)) <= Q(s2, ReadyQ(p)) {
      assert Q(s, ReadyQ(p)) <= Q(s1, ReadyQ(p)) <= Q(s2, ReadyQ(p));
    }
  }

  lemma SameGrows(s: Sched, s': Sched)
    requires forall p: nat :: Q(s', ReadyQ(p)) == Q(s, ReadyQ(p))
    ensures Grows(s, s')
  {
  }

  lemma GrowsInOrder(s: Sched, s': Sched)
    requires Grows(s, s') && s'.active == s.active
    ensures InOrder(s, s')
  {
    forall p: nat ensures Q(s, ReadyQ(p)) <= Dispatched(s, s', p) + Q(s', ReadyQ(p)) {
      assert Q(s, ReadyQ(p)) <= Q(s', ReadyQ(p));
      assert [] + Q(s', ReadyQ(p)) == Q(s', ReadyQ(p));
    }
  }

  /** The thread that was active in s0 is still recorded as active in s, or has ended. */
  predicate SameActive(s0: Sched, s: Sched) {
    s.active == s0.active || (s.active == None && (s0.active.Some? ==> !Live(s, s0.active.value)))
  }

  // k_schedule_threads takes the first thread of a ready queue, behind which others may have come.
  lemma ScheduleInOrder(s0: Sched, s: Sched)
    requires Core(s) && CanSchedule(s) && Grows(s0, s) && SameActive(s0, s)
    ensures QueuedExist(s) && InOrder(s0, Schedule(s))
  {
    hide Placement, RefsOk, Schedule, OnlyActive, TopBelow;
    ScheduleOrder(s);
    var s', first := Schedule(s), TopReady(s);
    if IsRunning(s) && first < s.threads[s.active.value].prio {
      GrowsInOrder(s0, s);
    } else {
      HeadPlaced(s, None, ReadyQ(first));
      Activated(s, first);
      var h := Q(s, ReadyQ(first))[0];
      assert s'.active == Some(h) && Some(h) != s0.active;
      forall p: nat ensures Q(s0, ReadyQ(p)) <= Dispatched(s0, s', p) + Q(s', ReadyQ(p)) {
        ChosenInOrder(Q(s0, ReadyQ(p)), Q(s, ReadyQ(p)), Dispatched(s0, s', p), Q(s', ReadyQ(p)));
      }
    }
  }

  lemma Activated(s: Sched, first: nat)
    requires Core(s) && CanSchedule(s) && TopReady(s) == first && Q(s, ReadyQ(first)) != []
    requires IsRunning(s) ==> first >= s.threads[s.active.value].prio
    ensures QueuedExist(s) && Q(s, ReadyQ(first))[0] in Schedule(s).threads
    ensures Schedule(s).threads[Q(s, ReadyQ(first))[0]].prio == first
  {
    PlacementExist(s, None);
    HeadPlaced(s, None, ReadyQ(first));
  }

  lemma ChosenInOrder(q0: seq<Tid>, q: seq<Tid>, d: seq<Tid>, q': seq<Tid>)
    requires q0 <= q
    requires (d == [] && q <= q') || (|d| == 1 && q != [] && d[0] == q[0] && q[1..] <= q')
    ensures q0 <= d + q'
  {
    if d != [] {
      assert q == d + q[1..];
    }
  }

  lemma RescheduleInOrder(s0: Sched, s: State)
    requires Core(s.sched) && IdleOk(s.sched) && Grows(s0, s.sched) && SameActive(s0, s.sched)
    ensures InOrder(s0, Reschedule(s).sched)
  {
    hide Core, InOrder, Grows;
    IdleCanRun(s.sched);
    ScheduleInOrder(s0, s.sched);
  }

  // -- what the primitives do to ready queues ---------------------------------------------

  lemma CreateGrows(s: Sched, prio: int)
    ensures Grows(s, CreateThread(s, prio, true))
  {
  }

  lemma ReleaseFirstGrows(s: Sched, q: QueueId)
    requires Q(s, q) != [] && Q(s, q)[0] in s.threads && !q.ReadyQ?
    ensures Grows(s, ReleaseFirst(s, q))
  {
  }

  lemma MadeReadyGrows(s: Sched, s': Sched, ts: seq<Tid>)
    requires MadeReady(s, s', ts)
    ensures Grows(s, s')
  {
  }

  lemma ReleaseAllGrows(s: Sched, q: QueueId)
    requires Placement(s, None) && !q.ReadyQ?
    ensures QueuedExist(s) && Grows(s, ReleaseAll(s, q))
  {
    hide Placement, ReleaseAll, Grows, MadeReady;
    ReleaseAllEffect(s, q);
    MadeReadyGrows(s, ReleaseAll(s, q), Q(s, q));
  }

  lemma RemoveGrows(s: Sched, t: Tid)
    requires t in s.threads && Placement(s, Some(t)) && RefsOk(s, None) && s.threads[t].state != Passive
             && OnlyActive(s, s.active)
    ensures QueuedExist(s) && Grows(s, RemoveThread(s, t))
  {
    hide Placement, RefsOk, RemoveThread, OnlyActive, MadeReady;
    RemoveThreadKeeps(s, t);
    if s.threads[t].refCnt == 1 {
      FreesDescriptor(s, t);
    } else {
      MadeReadyGrows(Ended(s, t), RemoveThread(s, t), Q(s, JoinQ(t)));
      SameGrows(s, Ended(s, t));
      GrowsTrans(s, Ended(s, t), RemoveThread(s, t));
    }
  }

  lemma ExitGrows(s: Sched, status: int)
    requires Inv(s)
    ensures QueuedExist(s) && Grows(s, Exit(s, status)) && SameActive(s, Exit(s, status))
  {
    hide Placement, RefsOk, RemoveThread, Grows;
    var t := s.active.value;
    var s1 := ExitMarks(s, status);
    RemoveGrows(s1, t);
    SameGrows(s, s1);
    GrowsTrans(s, s1, RemoveThread(s1, t));
    SameGrows(RemoveThread(s1, t), Exit(s, status));
    GrowsTrans(s, RemoveThread(s1, t), Exit(s, status));
    ThreadCalls.ExitStatusLeft(s, status);
  }

  lemma JoinGrows(s: Sched, t: Tid, wait: bool)
    requires IsRunning(s)
    ensures Grows(s, Join(s, t, wait)) && Join(s, t, wait).active == s.active
  {
  }

  /** Ready queues after the cancel of t: without t, and perhaps with joiners of t at their ends. */
  ghost predicate CancelledInOrder(s: Sched, s': Sched, t: Tid) {
    s'.active == s.active && forall p: nat :: Without(Q(s, ReadyQ(p)), t) <= Q(s', ReadyQ(p))
  }

  lemma CancelGrows(s: Sched, t: Tid)
    requires Inv(s)
    ensures QueuedExist(s) && CancelledInOrder(s, Cancel(s, t), t)
  {
    hide Placement, RefsOk, Without, OfPrio, RemoveThread, Cancel;
    CancelKeeps(s, t);
    if IsCancelled(s, t) {
      var s2 := CancelPulls(s, t);
      RemoveGrows(s2, t);
    } else {
      CancelSkips(s, t);
    }
  }

  lemma BlockGrows(s: Sched, q: QueueId)
    requires IsRunning(s) && !q.ReadyQ?
    ensures Grows(s, BlockActive(s, q)) && BlockActive(s, q).active == s.active
  {
  }

  // -- alarms -------------------------------------------------------------------------

  lemma WakeGrows(s: Sched, al: Alarm, a: nat)
    requires Inv(s)
    ensures Grows(s, Wake(s, al, a))
  {
    hide Placement, RefsOk, ReleaseAll, Grows, CreateThread;
    WakeReady(s, al, a);
    var c := if al.action then CreateThread(s, al.ownerPrio + 1, true) else s;
    CreateGrows(s, al.ownerPrio + 1);
    SameGrows(s, s);
    ReleaseAllGrows(c, AlarmQ(a));
    GrowsTrans(s, c, ReleaseAll(c, AlarmQ(a)));
  }

  lemma {:induction false} LoopGrows(s: State, ref: Time)
    requires AllOk(s) && InRange(ref)
    ensures Grows(s.sched, AlarmLoop(s, ref).state.sched)
    decreases Lag(s.list, s.alarms, ref)
  {
    hide AllOk, Lag, Grows, Wake, NextList, Running;
    SameGrows(s.sched, s.sched);
    if IsDue(s, ref) {
      OkParts(s);
      AllRunning(s);
      FireKeeps(s);
      FireLag(s, ref);
      WakeGrows(s.sched, s.alarms[s.list[0]], s.list[0]);
      LoopGrows(FireFirst(s), ref);
      GrowsTrans(s.sched, FireFirst(s).sched, AlarmLoop(FireFirst(s), ref).state.sched);
    }
  }

  lemma AlarmsGrow(s: State, now: Time)
    requires AllOk(s) && InRange(now)
    ensures Grows(s.sched, ScheduleAlarms(s, now).state.sched)
    ensures ScheduleAlarms(s, now).state.sched.active == s.sched.active
  {
    hide AllOk, AlarmLoop, Grows;
    ThresholdOk(s);
    ScheduleAlarmsKeeps(s, now);
    LoopGrows(s, Add(now, s.threshold));
  }

  // The end of every call on alarms: k_schedule_threads if somebody was made ready.
  lemma MaybeReschedule(s0: Sched, s: State, resched: bool)
    requires AllOk(s) && Grows(s0, s.sched) && s.sched.active == s0.active
    ensures Core(s.sched) && IdleOk(s.sched)
    ensures InOrder(s0, if resched then Reschedule(s).sched else s.sched)
  {
    hide AllOk, Core, IdleOk, Reschedule, Grows, InOrder;
    AllRunning(s);
    if resched {
      RescheduleInOrder(s0, s);
    } else {
      GrowsInOrder(s0, s.sched);
    }
  }

  lemma BlockInOrder(s0: Sched, s: State, a: nat)
    requires AllOk(s) && Grows(s0, s.sched) && s.sched.active == s0.active && s0.active != Some(IDLE)
    ensures IsRunning(s.sched)
    ensures var b := s.(sched := BlockActive(s.sched, AlarmQ(a)));
            Core(b.sched) && IdleOk(b.sched) && InOrder(s0, Reschedule(b).sched)
  {
    hide AllOk, Core, IdleOk, Reschedule, Grows, InOrder, Running, BlockActive;
    AllRunning(s);
    BlockRuns(s, AlarmQ(a));
    BlockGrows(s.sched, AlarmQ(a));
    GrowsTrans(s0, s.sched, BlockActive(s.sched, AlarmQ(a)));
    RescheduleInOrder(s0, s.(sched := BlockActive(s.sched, AlarmQ(a))));
  }

  lemma AddInOrder(s: State, a: nat, now: Time)
    requires AllOk(s) && a in s.alarms && !s.alarms[a].active && InRange(now) && s.sched.active != Some(IDLE)
    ensures InOrder(s.sched, AddAlarm(s, a, now).sched)
  {
    hide AllOk, Running, ScheduleAlarms, Reschedule, BlockActive, InOrder, Grows, Arm;
    ArmKeeps(s, a);
    var s1 := Arm(s, a);
    ScheduleAlarmsKeeps(s1, now);
    AlarmsGrow(s1, now);
    var r := ScheduleAlarms(s1, now);
    if r.state.alarms[a].active && r.state.alarms[a].wait {
      BlockInOrder(s.sched, r.state, a);
    } else {
      MaybeReschedule(s.sched, r.state, r.resched > 0);
    }
  }

  lemma AlarmInOrder(s: State, e: Runs.Event)
    requires AllOk(s) && Runs.IsAlarmCall(e) && Runs.AlarmEnabled(s, e)
    ensures InOrder(s.sched, Runs.AlarmCall(s, e).sched)
  {
    hide AllOk, Running, ScheduleAlarms, Reschedule, BlockActive, InOrder, Grows, AddAlarm, Dropped, AlarmValid;
    AllRunning(s);
    SameGrows(s.sched, s.sched);
    match e {
      case AlarmNew(a, al, now) =>
        NewKeeps(s, a, al);
        AddInOrder(WithNew(s, a, al), a, now);
      case AlarmSet(a, al, now) =>
        if Cmp(s.alarms[a].exp, al.exp) != 0 {
          DetachKeeps(s, a, al);
          AddInOrder(Detached(s, a, al), a, now);
        } else {
          GrowsInOrder(s.sched, s.sched);
        }
      case AlarmRemove(a, now) =>
        RemoveInOrder(s, a, now);
      case AlarmWait(a, wait) =>
        if s.alarms[a].active && wait {
          BlockInOrder(s.sched, s, a);
        } else {
          GrowsInOrder(s.sched, s.sched);
        }
      case Interrupt(now) =>
        ScheduleAlarmsKeeps(s, now);
        AlarmsGrow(s, now);
        MaybeReschedule(s.sched, ScheduleAlarms(s, now).state, ScheduleAlarms(s, now).resched > 0);
    }
  }

  lemma RemoveInOrder(s: State, a: nat, now: Time)
    requires AllOk(s) && a in s.alarms && InRange(now)
    ensures InOrder(s.sched, RemoveAlarm(s, a, now).sched)
  {
    hide AllOk, Running, ScheduleAlarms, Reschedule, InOrder, Grows, Dropped;
    AllRunning(s);
    DropKeeps(s, a);
    DropGrows(s, a);
    var s1 := Dropped(s, a);
    ScheduleAlarmsKeeps(s1, now);
    AlarmsGrow(s1, now);
    var r := ScheduleAlarms(s1, now);
    GrowsTrans(s.sched, s1.sched, r.state.sched);
    MaybeReschedule(s.sched, r.state, |Q(s.sched, AlarmQ(a))| + r.resched > 0);
  }

  lemma DropGrows(s: State, a: nat)
    requires Running(s)
    ensures Grows(s.sched, Dropped(s, a).sched)
  {
    hide Placement, RefsOk, ReleaseAll, Grows;
    RunningPlaced(s);
    ReleaseAllGrows(s.sched, AlarmQ(a));
  }

  lemma GrowsAwake(s: Sched, s': Sched, t: Tid)
    requires Placement(s, None) && Placement(s', None) && Grows(s, s') && t in s.threads && s.threads[t].state == Ready
    ensures Awake(s', t)
  {
    QueuedIsPlaced(s, t);
    var q := ReadyQ(s.threads[t].prio);
    assert t in Q(s', q) by {
      assert Q(s, q) <= Q(s', q);
    }
    AllPlaced(s', q);
  }

  // Removing an alarm makes every thread that waits for it ready or active.
  lemma RemoveReleases(s: State, a: nat, now: Time, t: Tid)
    requires AllOk(s) && a in s.alarms && InRange(now) && t in Q(s.sched, AlarmQ(a))
    ensures Awake(RemoveAlarm(s, a, now).sched, t)
  {
    hide AllOk, Running, ScheduleAlarms, Reschedule, Grows, Dropped, Core, IdleOk, Awake;
    AllRunning(s);
    DropKeeps(s, a);
    DropReady(s, a, t);
    var s1 := Dropped(s, a);
    ScheduleAlarmsKeeps(s1, now);
    AlarmsGrow(s1, now);
    var r := ScheduleAlarms(s1, now).state;
    AllRunning(s1);
    AllRunning(r);
    RunningPlaced(s1);
    RunningPlaced(r);
    GrowsAwake(s1.sched, r.sched, t);
    RescheduleAwake(r, t);
  }

  lemma DropReady(s: State, a: nat, t: Tid)
    requires Running(s) && t in Q(s.sched, AlarmQ(a))
    ensures t in Dropped(s, a).sched.threads && Dropped(s, a).sched.threads[t].state == Ready
  {
    hide Placement, RefsOk, ReleaseAll, OfPrio;
    RunningPlaced(s);
    AllPlaced(s.sched, AlarmQ(a));
    ReleaseAllEffect(s.sched, AlarmQ(a));
  }

  // -- every step -----------------------------------------------------------------------

  /** What a step does to the order of ready threads. */
  ghost predicate StepInOrder(s: Sched, e: Runs.Event, s': Sched) {
    if e.CancelThread? then CancelledInOrder(s, s', e.thread) else InOrder(s, s')
  }

  lemma ThreadInOrder(s: State, e: Runs.Event)
    requires AllOk(s) && Runs.IsThreadCall(e) && Runs.Enabled(s, e)
    ensures StepInOrder(s.sched, e, Runs.ThreadCall(s, e).sched)
  {
    hide AllOk, Running, Core, IdleOk, InOrder, Grows, CancelledInOrder, CreateThread, Exit, Join, Cancel,
         Reschedule, SameActive;
    AllRunning(s);
    match e {
      case CreateThread(prio) =>
        ThreadCalls.CreateRuns(s, prio);
        CreateGrows(s.sched, prio);
        CreateActive(s.sched, prio);
        RescheduleInOrder(s.sched, s.(sched := CreateThread(s.sched, prio, true)));
      case ExitThread(status) =>
        ThreadCalls.ExitRuns(s, status);
        ExitGrows(s.sched, status);
        RescheduleInOrder(s.sched, s.(sched := Exit(s.sched, status)));
      case JoinThread(t, wait) =>
        ThreadCalls.JoinRuns(s, t, wait);
        JoinGrows(s.sched, t, wait);
        ActiveKept(s.sched, Join(s.sched, t, wait));
        RescheduleInOrder(s.sched, s.(sched := Join(s.sched, t, wait)));
        GrowsInOrder(s.sched, Join(s.sched, t, wait));
      case CancelThread(t) =>
        ThreadCalls.CancelRuns(s, t);
        CancelGrows(s.sched, t);
    }
  }

  lemma CreateActive(s: Sched, prio: int)
    ensures SameActive(s, CreateThread(s, prio, true))
  {
  }

  lemma ActiveKept(s: Sched, s': Sched)
    requires s'.active == s.active
    ensures SameActive(s, s')
  {
  }

  lemma ReleaseInOrder(s: State, s1: State, q: QueueId)
    requires Running(s) && Q(s.sched, q) != [] && !q.ReadyQ? && Q(s.sched, q)[0] in s.sched.threads
    requires s1.sched == ReleaseFirst(s.sched, q)
    ensures Core(s1.sched) && IdleOk(s1.sched) && InOrder(s.sched, Reschedule(s1).sched)
  {
    hide Running, Core, IdleOk, Reschedule, InOrder, Grows;
    ReleaseRuns(s, q);
    ReleaseFirstGrows(s.sched, q);
    RescheduleInOrder(s.sched, s1);
  }

  lemma BlockedInOrder(s: State, s1: State, q: QueueId)
    requires Running(s) && s.sched.active != Some(IDLE) && IsResourceQ(q, None)
    requires IsRunning(s.sched) && s1.sched == BlockActive(s.sched, q)
    ensures Core(s1.sched) && IdleOk(s1.sched) && InOrder(s.sched, Reschedule(s1).sched)
  {
    hide Running, Core, IdleOk, Reschedule, InOrder, Grows, BlockActive;
    BlockRuns(s, q);
    BlockGrows(s.sched, q);
    RescheduleInOrder(s.sched, s1);
  }

  lemma SemInOrder(s: State, i: nat)
    requires AllOk(s) && i in s.sems && Runs.MayCall(s)
    ensures InOrder(s.sched, Semaphores.Post(s, i).sched) && InOrder(s.sched, Semaphores.Wait(s, i).sched)
  {
    hide AllOk, Running, Core, IdleOk, Reschedule, InOrder, Grows, BlockActive, ReleaseFirst;
    AllRunning(s);
    SameGrows(s.sched, s.sched);
    GrowsInOrder(s.sched, s.sched);
    var m := s.sems[i];
    if Q(s.sched, SemQ(i)) != [] {
      Semaphores.PostReady(s, i);
      ReleaseInOrder(s,
        s.(sched := ReleaseFirst(s.sched, SemQ(i)),
           sems := s.sems[i := m.(posts := m.posts + 1, grants := m.grants + 1)]), SemQ(i));
    }
    if m.value <= 0 {
      BlockedInOrder(s, s.(sched := BlockActive(s.sched, SemQ(i))), SemQ(i));
    }
  }

  lemma LockInOrder(s: State, d: nat, wait: bool)
    requires AllOk(s) && d in s.devs && Runs.MayCall(s)
    ensures InOrder(s.sched, Devices.Lock(s, d, wait).sched)
  {
    hide AllOk, Running, Core, IdleOk, Reschedule, InOrder, Grows, BlockActive;
    AllRunning(s);
    SameGrows(s.sched, s.sched);
    GrowsInOrder(s.sched, s.sched);
    if wait && s.devs[d].locked {
      BlockedInOrder(s,
        s.(sched := BlockActive(s.sched, DevQ(d)), resuming := s.resuming[s.sched.active.value := d]), DevQ(d));
    }
  }

  lemma UnlockInOrder(s: State, d: nat)
    requires AllOk(s) && d in s.devs && Runs.MayCall(s)
    ensures InOrder(s.sched, Devices.Unlock(s, d).sched)
  {
    hide AllOk, Running, Core, IdleOk, Reschedule, InOrder, Grows, ReleaseFirst;
    AllRunning(s);
    SameGrows(s.sched, s.sched);
    GrowsInOrder(s.sched, s.sched);
    var q, dev := DevQ(d), s.devs[d];
    if Q(s.sched, q) != [] {
      ReleaseRuns(s, q);
      ReleaseInOrder(s,
        s.(sched := ReleaseFirst(s.sched, q),
           devs := s.devs[d := dev.(holders := dev.holders - {s.sched.active.value} + {Q(s.sched, q)[0]})]), q);
    }
  }

  // Every step keeps the order of ready threads.
  lemma EveryStepInOrder(s: State, e: Runs.Event)
    requires AllOk(s) && Runs.Enabled(s, e)
    ensures StepInOrder(s.sched, e, Runs.Step(s, e).sched)
  {
    hide AllOk, InOrder, CancelledInOrder, Grows, Runs.ThreadCall, Runs.AlarmCall, Semaphores.Post, Semaphores.Wait,
         Devices.Lock, Devices.Unlock;
    SameGrows(s.sched, s.sched);
    GrowsInOrder(s.sched, s.sched);
    if Runs.IsThreadCall(e) {
      ThreadInOrder(s, e);
    } else if Runs.IsAlarmCall(e) {
      AlarmInOrder(s, e);
    } else {
      match e {
        case SemInit(_, _) =>
        case SemPost(i) => SemInOrder(s, i);
        case SemWait(i) => SemInOrder(s, i);
        case DevLock(d, wait) => LockInOrder(s, d, wait);
        case DevResume => Runs.ResumingDev(s);
        case DevUnlock(d) => UnlockInOrder(s, d);
      }
    }
  }
}
