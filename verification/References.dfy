/**
 The references to thread descriptors: what every step adds and drops, and so when descriptors are
 made and freed.
 */
module References {
  import opened Options
  import opened Seqs
  import opened Time
  import opened Scheduler
  import opened KernelState
  import opened Alarms
  import opened AlarmFrames
  import ThreadCalls
  import Semaphores
  import Devices
  import Runs

  /** 1 for the threads that were created from s to s': each starts with a reference to itself. */
  function Born(s: Sched, s': Sched, t: Tid): int {
    if s.next <= t < s'.next then 1 else 0
  }

  /** References only come with new threads, and descriptors stay with their priorities and exit
      statuses. */
  ghost predicate Kept(s: Sched, s': Sched) {
    && s.next <= s'.next
    && (forall t: Tid :: Count(s', t) == Count(s, t) + Born(s, s', t))
    && (forall t :: t in s.threads ==> t in s'.threads && SameData(s.threads[t], s'.threads[t]))
  }

  predicate SameData(th: Thread, th': Thread) {
    th'.prio == th.prio && th'.exitStatus == th.exitStatus
  }

  lemma KeptTrans(s: Sched, s1: Sched, s2: Sched)
    requires Kept(s, s1) && Kept(s1, s2)
    ensures Kept(s, s2)
  {
    forall t: Tid ensures Count(s2, t) == Count(s, t) + Born(s, s2, t) {
      assert Count(s2, t) == Count(s1, t) + Born(s1, s2, t);
    }
  }

  lemma KeptRefl(s: Sched)
    ensures Kept(s, s)
  {
  }

  // -- primitives ------------------------------------------------------------------------

  lemma CreateCounts(s: Sched, prio: int)
    requires Placement(s, None)
    ensures Kept(s, CreateThread(s, prio, true))
  {
    NewThreadPlaces(s, prio);
  }

  lemma ScheduleCounts(s: Sched)
    requires Core(s) && CanSchedule(s)
    ensures QueuedExist(s) && Kept(s, Schedule(s))
  {
    hide Placement, RefsOk, TopBelow;
    PlacementExist(s, None);
    var first := TopReady(s);
    if !IsRunning(s) {
      HeadPlaced(s, None, ReadyQ(first));
    } else if first >= s.threads[s.active.value].prio {
      HeadPlaced(s, None, ReadyQ(first));
    }
  }

  lemma RescheduleCounts(s: State)
    requires Core(s.sched) && IdleOk(s.sched)
    ensures Kept(s.sched, Reschedule(s).sched)
  {
    hide Core, IdleOk, Kept;
    IdleCanRun(s.sched);
    ScheduleCounts(s.sched);
  }

  lemma MadeReadyCounts(s: Sched, s': Sched, ts: seq<Tid>)
    requires MadeReady(s, s', ts)
    ensures Kept(s, s')
  {
    hide OfPrio;
  }

  lemma ReleaseAllCounts(s: Sched, q: QueueId)
    requires Placement(s, None) && !q.ReadyQ?
    ensures QueuedExist(s) && Kept(s, ReleaseAll(s, q))
  {
    hide Placement, ReleaseAll, MadeReady, Kept;
    ReleaseAllEffect(s, q);
    MadeReadyCounts(s, ReleaseAll(s, q), Q(s, q));
  }

  lemma ReleaseFirstCounts(s: Sched, q: QueueId)
    requires Q(s, q) != [] && Q(s, q)[0] in s.threads
    ensures Kept(s, ReleaseFirst(s, q))
  {
  }

  lemma BlockCounts(s: Sched, q: QueueId)
    requires IsRunning(s)
    ensures Kept(s, BlockActive(s, q))
  {
  }

  // A thread that ends drops the reference to itself.
  lemma RemoveCounts(s: Sched, t: Tid)
    requires t in s.threads && Placement(s, Some(t)) && RefsOk(s, None) && s.threads[t].state != Passive
    requires OnlyActive(s, s.active)
    ensures QueuedExist(s) && RemoveThread(s, t).next == s.next
    ensures forall u: Tid :: Count(RemoveThread(s, t), u) == Count(s, u) - if u == t then 1 else 0
  {
    hide Placement, RefsOk, RemoveThread, OnlyActive, OfPrio;
    RemoveThreadKeeps(s, t);
    RemoveThreadKeys(s, t);
    SelfNotJoining(s, t);
  }

  lemma SelfNotJoining(s: Sched, t: Tid)
    requires Placement(s, Some(t))
    ensures t !in Q(s, JoinQ(t))
  {
  }

  lemma ExitCounts(s: Sched, status: int)
    requires Inv(s)
    ensures QueuedExist(s) && Exit(s, status).next == s.next
    ensures forall u: Tid :: Count(Exit(s, status), u) == Count(s, u) - if Some(u) == s.active then 1 else 0
  {
    hide Placement, RefsOk, RemoveThread, Exit;
    var t := s.active.value;
    var s1 := ExitMarks(s, status);
    RemoveCounts(s1, t);
    forall u: Tid ensures Count(Exit(s, status), u) == Count(s, u) - if Some(u) == s.active then 1 else 0 {
      assert Count(Exit(s, status), u) == Count(RemoveThread(s1, t), u) && Count(s1, u) == Count(s, u);
    }
  }

  lemma CancelCounts(s: Sched, t: Tid)
    requires Inv(s)
    ensures QueuedExist(s) && Cancel(s, t).next == s.next
    ensures forall u: Tid :: Count(Cancel(s, t), u) == Count(s, u) - if u == t && IsCancelled(s, t) then 1 else 0
  {
    hide Placement, RefsOk, Without, OfPrio, RemoveThread, Cancel;
    if IsCancelled(s, t) {
      var s2 := CancelPulls(s, t);
      RemoveCounts(s2, t);
    } else {
      CancelSkips(s, t);
    }
  }

  // -- alarms ------------------------------------------------------------------------------

  lemma WakeCounts(s: Sched, al: Alarm, a: nat)
    requires Inv(s)
    ensures Kept(s, Wake(s, al, a))
  {
    hide Placement, RefsOk, ReleaseAll, Kept, CreateThread;
    WakeReady(s, al, a);
    var c := if al.action then CreateThread(s, al.ownerPrio + 1, true) else s;
    CreateCounts(s, al.ownerPrio + 1);
    KeptRefl(s);
    ReleaseAllCounts(c, AlarmQ(a));
    KeptTrans(s, c, ReleaseAll(c, AlarmQ(a)));
  }

  lemma {:induction false} LoopCounts(s: State, ref: Time)
    requires AllOk(s) && InRange(ref)
    ensures Kept(s.sched, AlarmLoop(s, ref).state.sched)
    decreases Lag(s.list, s.alarms, ref)
  {
    hide AllOk, Lag, Kept, Wake, NextList, Running;
    KeptRefl(s.sched);
    if IsDue(s, ref) {
      OkParts(s);
      AllRunning(s);
      FireKeeps(s);
      FireLag(s, ref);
      WakeCounts(s.sched, s.alarms[s.list[0]], s.list[0]);
      LoopCounts(FireFirst(s), ref);
      KeptTrans(s.sched, FireFirst(s).sched, AlarmLoop(FireFirst(s), ref).state.sched);
    }
  }

  lemma AlarmsCounts(s: State, now: Time)
    requires AllOk(s) && InRange(now)
    ensures Kept(s.sched, ScheduleAlarms(s, now).state.sched)
  {
    hide AllOk, AlarmLoop, Kept;
    ThresholdOk(s);
    LoopCounts(s, Add(now, s.threshold));
  }

  // The end of every call on alarms: k_schedule_threads if somebody was made ready.
  lemma MaybeReschedule(s0: Sched, s: State, resched: bool)
    requires AllOk(s) && Kept(s0, s.sched)
    ensures Core(s.sched) && IdleOk(s.sched)
    ensures Kept(s0, if resched then Reschedule(s).sched else s.sched)
  {
    hide AllOk, Core, IdleOk, Reschedule, Kept;
    AllRunning(s);
    if resched {
      RescheduleCounts(s);
      KeptTrans(s0, s.sched, Reschedule(s).sched);
    }
  }

  lemma BlockOnAlarmCounts(s0: Sched, s: State, a: nat)
    requires AllOk(s) && Kept(s0, s.sched) && s.sched.active != Some(IDLE)
    ensures IsRunning(s.sched)
    ensures var b := s.(sched := BlockActive(s.sched, AlarmQ(a)));
            Core(b.sched) && IdleOk(b.sched) && Kept(s0, Reschedule(b).sched)
  {
    hide AllOk, Core, IdleOk, Reschedule, Kept, Running, BlockActive;
    AllRunning(s);
    BlockRuns(s, AlarmQ(a));
    BlockCounts(s.sched, AlarmQ(a));
    var b := s.(sched := BlockActive(s.sched, AlarmQ(a)));
    RescheduleCounts(b);
    KeptTrans(s0, s.sched, b.sched);
    KeptTrans(s0, b.sched, Reschedule(b).sched);
  }

  lemma AddCounts(s: State, a: nat, now: Time)
    requires AllOk(s) && a in s.alarms && !s.alarms[a].active && InRange(now) && s.sched.active != Some(IDLE)
    ensures Kept(s.sched, AddAlarm(s, a, now).sched)
  {
    hide AllOk, Running, ScheduleAlarms, Reschedule, BlockActive, Kept, Arm;
    ArmKeeps(s, a);
    var s1 := Arm(s, a);
    ScheduleAlarmsKeeps(s1, now);
    AlarmsCounts(s1, now);
    var r := ScheduleAlarms(s1, now);
    if r.state.alarms[a].active && r.state.alarms[a].wait {
      BlockOnAlarmCounts(s.sched, r.state, a);
    } else {
      MaybeReschedule(s.sched, r.state, r.resched > 0);
    }
  }

  lemma RemoveAlarmCounts(s: State, a: nat, now: Time)
    requires AllOk(s) && a in s.alarms && InRange(now)
    ensures Kept(s.sched, RemoveAlarm(s, a, now).sched)
  {
    hide AllOk, Running, ScheduleAlarms, Reschedule, Kept, Dropped;
    AllRunning(s);
    DropKeeps(s, a);
    DropCounts(s, a);
    var s1 := Dropped(s, a);
    ScheduleAlarmsKeeps(s1, now);
    AlarmsCounts(s1, now);
    var r := ScheduleAlarms(s1, now);
    KeptTrans(s.sched, s1.sched, r.state.sched);
    MaybeReschedule(s.sched, r.state, |Q(s.sched, AlarmQ(a))| + r.resched > 0);
  }

  lemma DropCounts(s: State, a: nat)
    requires Running(s)
    ensures Kept(s.sched, Dropped(s, a).sched)
  {
    hide Placement, RefsOk, ReleaseAll, Kept;
    RunningPlaced(s);
    ReleaseAllCounts(s.sched, AlarmQ(a));
  }

  lemma AlarmCallCounts(s: State, e: Runs.Event)
    requires AllOk(s) && Runs.IsAlarmCall(e) && Runs.AlarmEnabled(s, e)
    ensures Kept(s.sched, Runs.AlarmCall(s, e).sched)
  {
    hide AllOk, Running, ScheduleAlarms, Reschedule, BlockActive, Kept, AddAlarm, RemoveAlarm, AlarmValid;
    AllRunning(s);
    KeptRefl(s.sched);
    match e {
      case AlarmNew(a, al, now) =>
        NewKeeps(s, a, al);
        AddCounts(WithNew(s, a, al), a, now);
      case AlarmSet(a, al, now) =>
        if Cmp(s.alarms[a].exp, al.exp) != 0 {
          DetachKeeps(s, a, al);
          AddCounts(Detached(s, a, al), a, now);
        }
      case AlarmRemove(a, now) => RemoveAlarmCounts(s, a, now);
      case AlarmWait(a, wait) =>
        if s.alarms[a].active && wait {
          BlockOnAlarmCounts(s.sched, s, a);
        }
      case Interrupt(now) =>
        ScheduleAlarmsKeeps(s, now);
        AlarmsCounts(s, now);
        MaybeReschedule(s.sched, ScheduleAlarms(s, now).state, ScheduleAlarms(s, now).resched > 0);
    }
  }

  // -- semaphores and devices ------------------------------------------------------------------

  lemma ReleasedCounts(s: State, s1: State, q: QueueId)
    requires Running(s) && Q(s.sched, q) != [] && !q.ReadyQ? && Q(s.sched, q)[0] in s.sched.threads
    requires s1.sched == ReleaseFirst(s.sched, q)
    ensures Core(s1.sched) && IdleOk(s1.sched) && Kept(s.sched, Reschedule(s1).sched)
  {
    hide Running, Core, IdleOk, Reschedule, Kept, ReleaseFirst;
    ReleaseRuns(s, q);
    ReleaseFirstCounts(s.sched, q);
    RescheduleCounts(s1);
    KeptTrans(s.sched, s1.sched, Reschedule(s1).sched);
  }

  lemma BlockedCounts(s: State, s1: State, q: QueueId)
    requires Running(s) && s.sched.active != Some(IDLE) && IsResourceQ(q, None)
    requires IsRunning(s.sched) && s1.sched == BlockActive(s.sched, q)
    ensures Core(s1.sched) && IdleOk(s1.sched) && Kept(s.sched, Reschedule(s1).sched)
  {
    hide Running, Core, IdleOk, Reschedule, Kept, BlockActive;
    BlockRuns(s, q);
    BlockCounts(s.sched, q);
    RescheduleCounts(s1);
    KeptTrans(s.sched, s1.sched, Reschedule(s1).sched);
  }

  lemma SemCounts(s: State, i: nat)
    requires AllOk(s) && i in s.sems && Runs.MayCall(s)
    ensures Kept(s.sched, Semaphores.Post(s, i).sched) && Kept(s.sched, Semaphores.Wait(s, i).sched)
  {
    hide AllOk, Running, Core, IdleOk, Reschedule, Kept, BlockActive, ReleaseFirst;
    AllRunning(s);
    KeptRefl(s.sched);
    var m := s.sems[i];
    if Q(s.sched, SemQ(i)) != [] {
      Semaphores.PostReady(s, i);
      var served := m.(posts := m.posts + 1, grants := m.grants + 1);
      ReleasedCounts(s, s.(sched := ReleaseFirst(s.sched, SemQ(i)), sems := s.sems[i := served]), SemQ(i));
    }
    if m.value <= 0 {
      BlockedCounts(s, s.(sched := BlockActive(s.sched, SemQ(i))), SemQ(i));
    }
  }

  lemma DevCounts(s: State, d: nat, wait: bool)
    requires AllOk(s) && d in s.devs && Runs.MayCall(s)
    ensures Kept(s.sched, Devices.Lock(s, d, wait).sched) && Kept(s.sched, Devices.Unlock(s, d).sched)
  {
    hide AllOk, Running, Core, IdleOk, Reschedule, Kept, BlockActive, ReleaseFirst;
    AllRunning(s);
    KeptRefl(s.sched);
    var t, q, dev := s.sched.active.value, DevQ(d), s.devs[d];
    if wait && dev.locked {
      BlockedCounts(s, s.(sched := BlockActive(s.sched, q), resuming := s.resuming[t := d]), q);
    }
    if Q(s.sched, q) != [] {
      ReleaseRuns(s, q);
      var handed := dev.(holders := dev.holders - {t} + {Q(s.sched, q)[0]});
      ReleasedCounts(s, s.(sched := ReleaseFirst(s.sched, q), devs := s.devs[d := handed]), q);
    }
  }

  // -- every step ------------------------------------------------------------------------------

  /** The event ends thread t. */
  predicate Ends(s: Sched, e: Runs.Event, t: Tid) {
    (e.ExitThread? && s.active == Some(t)) || (e == Runs.CancelThread(t) && IsCancelled(s, t))
  }

  /** The active thread blocks until thread t ends. */
  predicate Joins(s: Sched, e: Runs.Event, t: Tid) {
    e.JoinThread? && e.thread == t && e.wait && Live(s, t)
  }

  /** The active thread collects the status of thread t. */
  predicate Collects(s: Sched, e: Runs.Event, t: Tid) {
    e.JoinThread? && e.thread == t && t in s.threads && !Live(s, t)
  }

  /** The references to thread t that the event adds or drops. */
  function CountChange(s: Sched, e: Runs.Event, t: Tid): int {
    if Joins(s, e, t) then 1 else if Collects(s, e, t) || Ends(s, e, t) then -1 else 0
  }

  ghost predicate StepCounts(s: Sched, e: Runs.Event, s': Sched) {
    s.next <= s'.next && forall t: Tid :: Count(s', t) == Count(s, t) + Born(s, s', t) + CountChange(s, e, t)
  }

  lemma OtherCounts(s: Sched, e: Runs.Event, s': Sched)
    requires Kept(s, s') && !e.ExitThread? && !e.JoinThread? && !e.CancelThread?
    ensures StepCounts(s, e, s')
  {
  }

  // A call that changes the counts and then reschedules.
  lemma ThenReschedule(s: Sched, e: Runs.Event, s1: Sched, s': Sched)
    requires s1.next == s.next && (forall t: Tid :: Count(s1, t) == Count(s, t) + CountChange(s, e, t)) && Kept(s1, s')
    ensures StepCounts(s, e, s')
  {
    forall t: Tid ensures Count(s', t) == Count(s, t) + Born(s, s', t) + CountChange(s, e, t) {
      assert Count(s', t) == Count(s1, t) + Born(s1, s', t);
    }
  }

  lemma ExitStep(s: State, status: int)
    requires AllOk(s) && s.sched.active != Some(IDLE)
    ensures Running(s) && StepCounts(s.sched, Runs.ExitThread(status), ThreadCalls.ExitThread(s, status).sched)
  {
    hide AllOk, Running, Core, IdleOk, Exit, Kept, Reschedule, StepCounts;
    AllRunning(s);
    ThreadCalls.ExitRuns(s, status);
    ExitCounts(s.sched, status);
    var s1 := s.(sched := Exit(s.sched, status));
    RescheduleCounts(s1);
    ThenReschedule(s.sched, Runs.ExitThread(status), s1.sched, Reschedule(s1).sched);
  }

  lemma JoinStep(s: State, t: Tid, wait: bool)
    requires AllOk(s) && s.sched.active != Some(IDLE)
    ensures Running(s) && StepCounts(s.sched, Runs.JoinThread(t, wait), ThreadCalls.JoinThread(s, t, wait).sched)
  {
    hide AllOk, Running, Core, IdleOk, Join, Kept, Reschedule, StepCounts;
    AllRunning(s);
    ThreadCalls.JoinRuns(s, t, wait);
    JoinKeeps(s.sched, t, wait);
    var s1 := s.(sched := Join(s.sched, t, wait));
    KeptRefl(s1.sched);
    ThenReschedule(s.sched, Runs.JoinThread(t, wait), s1.sched, s1.sched);
    if JoinOutcome(s.sched, t, wait) == Blocked {
      RescheduleCounts(s1);
      ThenReschedule(s.sched, Runs.JoinThread(t, wait), s1.sched, Reschedule(s1).sched);
    }
  }

  lemma CancelStep(s: State, t: Tid)
    requires AllOk(s) && t != IDLE
    ensures Running(s) && StepCounts(s.sched, Runs.CancelThread(t), ThreadCalls.CancelThread(s, t).sched)
  {
    hide AllOk, Running, Core, IdleOk, Cancel, Kept, StepCounts;
    AllRunning(s);
    ThreadCalls.CancelRuns(s, t);
    CancelCounts(s.sched, t);
    KeptRefl(Cancel(s.sched, t));
    ThenReschedule(s.sched, Runs.CancelThread(t), Cancel(s.sched, t), Cancel(s.sched, t));
  }

  lemma CreateStep(s: State, prio: int)
    requires AllOk(s)
    ensures Running(s) && Kept(s.sched, ThreadCalls.Create(s, prio).sched)
  {
    hide AllOk, Running, Core, IdleOk, CreateThread, Kept, Reschedule;
    AllRunning(s);
    RunningPlaced(s);
    ThreadCalls.CreateRuns(s, prio);
    CreateCounts(s.sched, prio);
    var s1 := s.(sched := CreateThread(s.sched, prio, true));
    RescheduleCounts(s1);
    KeptTrans(s.sched, s1.sched, Reschedule(s1).sched);
  }

  // A thread starts with one reference; a join that blocks adds one, a collected status and the end
  // of the thread drop one, and nothing else changes the count.
  lemma EveryStepCounts(s: State, e: Runs.Event)
    requires AllOk(s) && Runs.Enabled(s, e)
    ensures StepCounts(s.sched, e, Runs.Step(s, e).sched)
  {
    hide AllOk, Kept, StepCounts, Runs.AlarmCall, Runs.AlarmEnabled, Semaphores.Post, Semaphores.Wait, Devices.Lock,
         Devices.Unlock,
         ThreadCalls.Create, ThreadCalls.ExitThread, ThreadCalls.JoinThread, ThreadCalls.CancelThread, Running;
    KeptRefl(s.sched);
    match e {
      case CreateThread(prio) => CreateStep(s, prio);
      case ExitThread(status) => ExitStep(s, status);
      case JoinThread(t, wait) => JoinStep(s, t, wait);
      case CancelThread(t) => CancelStep(s, t);
      case SemInit(_, _) =>
      case SemPost(i) => SemCounts(s, i);
      case SemWait(i) => SemCounts(s, i);
      case DevLock(d, wait) => DevCounts(s, d, wait);
      case DevResume => Runs.ResumingDev(s);
      case DevUnlock(d) => DevCounts(s, d, false);
      case _ => AlarmCallCounts(s, e);
    }
    if !e.ExitThread? && !e.JoinThread? && !e.CancelThread? {
      OtherCounts(s.sched, e, Runs.Step(s, e).sched);
    }
  }

  /** The status with which the event ends a thread. */
  function EndStatus(e: Runs.Event): int {
    if e.ExitThread? then e.status else -E_CANCELED
  }

  // An event that ends a thread does so, and leaves its status.
  lemma EndsLeavesStatus(s: State, e: Runs.Event, t: Tid)
    requires AllOk(s) && Runs.Enabled(s, e) && Ends(s.sched, e, t)
    ensures Live(s.sched, t) && ThreadCalls.LeftStatus(Runs.Step(s, e).sched, t, EndStatus(e))
            && t < Runs.Step(s, e).sched.next
  {
    hide AllOk, Runs.LocksStep, Core, IdleOk, Ages, ThreadCalls.LeftStatus, Exit, Cancel;
    AllRunning(s);
    Positive(s, t);
    Runs.StepKeeps(s, e);
    StepAges(s, e);
    if e.ExitThread? {
      ThreadCalls.ExitLeavesStatus(s, e.status);
    } else {
      ThreadCalls.CancelStatusLeft(s.sched, t);
    }
  }

  lemma StepAges(s: State, e: Runs.Event)
    requires AllOk(s) && Runs.Enabled(s, e)
    ensures s.sched.next <= Runs.Step(s, e).sched.next
  {
    hide AllOk, Runs.Step, Runs.Enabled;
    EveryStepCounts(s, e);
  }

  // So a descriptor is freed exactly by the event that drops its last reference.
  lemma FreedIff(s: State, e: Runs.Event, t: Tid)
    requires AllOk(s) && Runs.Enabled(s, e) && t in s.sched.threads
    ensures t !in Runs.Step(s, e).sched.threads <==>
            s.sched.threads[t].refCnt == 1 && (Ends(s.sched, e, t) || Collects(s.sched, e, t))
  {
    hide AllOk, Runs.Step, Runs.Enabled, Runs.LocksStep;
    EveryStepCounts(s, e);
    Runs.StepKeeps(s, e);
    Positive(s, t);
    Positive(Runs.Step(s, e), t);
  }

  lemma Positive(s: State, t: Tid)
    requires AllOk(s)
    ensures Count(s.sched, t) >= 0 && (t in s.sched.threads <==> Count(s.sched, t) >= 1)
    ensures t in s.sched.threads ==> t < s.sched.next
    ensures Live(s.sched, t) ==> t in s.sched.threads
  {
    hide SemsOk, DevsOk, AlarmsOk;
    CountPositive(s.sched, t);
  }
}
