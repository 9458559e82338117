/**
 Runs of the whole kernel: any sequence of system calls and timer interrupts from the state that
 the kernel starts in.  Interrupts are off inside the kernel, so every call is one step; only
 k_device_lock has code behind k_schedule_threads, which is a step of its own.
 */
module Runs {
  import opened Options
  import opened Seqs
  import opened Time
  import opened Scheduler
  import opened KernelState
  import opened Alarms
  import opened AlarmFrames
  import ThreadCalls
  import Semaphores
  import Devices

  datatype Event =
    | CreateThread(prio: int)
    | ExitThread(status: int)
    | JoinThread(thread: Tid, wait: bool)
    | CancelThread(thread: Tid)
    | SemInit(sem: nat, value: int)
    | SemPost(sem: nat)
    | SemWait(sem: nat)
    | DevLock(dev: nat, wait: bool)
    | DevResume
    | DevUnlock(dev: nat)
    | AlarmNew(alarm: nat, data: Alarm, now: Time)
    | AlarmSet(alarm: nat, data: Alarm, now: Time)
    | AlarmRemove(alarm: nat, now: Time)
    | AlarmWait(alarm: nat, wait: bool)
    | Interrupt(now: Time)

  /** The active thread may make a system call: it is not idle and not still inside one. */
  predicate MayCall(s: State) {
    s.sched.active.Some? && s.sched.active != Some(IDLE) && s.sched.active.value !in s.resuming
  }

  predicate IsAlarmCall(e: Event) {
    e.AlarmNew? || e.AlarmSet? || e.AlarmRemove? || e.AlarmWait? || e.Interrupt?
  }

  predicate AlarmEnabled(s: State, e: Event)
    requires IsAlarmCall(e)
  {
    match e
    case AlarmNew(a, al, now) => MayCall(s) && a !in s.alarms && AlarmValid(al) && InRange(now)
    case AlarmSet(a, al, now) => MayCall(s) && a in s.alarms && AlarmValid(al) && InRange(now)
    case AlarmRemove(a, now) => MayCall(s) && a in s.alarms && InRange(now)
    case AlarmWait(a, _) => MayCall(s) && a in s.alarms
    case Interrupt(now) => InRange(now)
  }

  /** What can happen next.  Clients name existing objects, give alarms sensible times, do not cancel
      the idle thread, and unlock only devices they may unlock. */
  ghost predicate Enabled(s: State, e: Event)
    requires AllOk(s)
  {
    match e
    case CreateThread(_) => MayCall(s)
    case ExitThread(_) => MayCall(s)
    case JoinThread(_, _) => MayCall(s)
    case CancelThread(t) => MayCall(s) && t != IDLE
    case SemInit(i, _) => MayCall(s) && i !in s.sems
    case SemPost(i) => MayCall(s) && i in s.sems
    case SemWait(i) => MayCall(s) && i in s.sems
    case DevLock(d, _) => MayCall(s) && d in s.devs
    case DevResume => s.sched.active.value in s.resuming
    case DevUnlock(d) => MayCall(s) && d in s.devs && Devices.MayUnlock(s, d)
    case _ => AlarmEnabled(s, e)
  }

  predicate IsThreadCall(e: Event) {
    e.CreateThread? || e.ExitThread? || e.JoinThread? || e.CancelThread?
  }

  ghost function AlarmCall(s: State, e: Event): State
    requires AllOk(s) && IsAlarmCall(e) && AlarmEnabled(s, e)
  {
    match e
    case AlarmNew(a, al, now) => NewAlarm(s, a, al, now)
    case AlarmSet(a, al, now) => SetAlarm(s, a, al, now)
    case AlarmRemove(a, now) => RemoveAlarm(s, a, now)
    case AlarmWait(a, wait) => WaitAlarm(s, a, wait)
    case Interrupt(now) => Timer(s, now)
  }

  ghost function ThreadCall(s: State, e: Event): State
    requires AllOk(s) && Enabled(s, e) && IsThreadCall(e)
  {
    match e
    case CreateThread(prio) => ThreadCalls.Create(s, prio)
    case ExitThread(status) => ThreadCalls.ExitThread(s, status)
    case JoinThread(t, wait) => ThreadCalls.JoinThread(s, t, wait)
    case CancelThread(t) => ThreadCalls.CancelThread(s, t)
  }

  ghost function Step(s: State, e: Event): State
    requires AllOk(s) && Enabled(s, e)
  {
    if IsThreadCall(e) then ThreadCall(s, e)
    else if IsAlarmCall(e) then AlarmCall(s, e)
    else
      match e
      case SemInit(i, value) => Semaphores.Init(s, i, value)
      case SemPost(i) => Semaphores.Post(s, i)
      case SemWait(i) => Semaphores.Wait(s, i)
      case DevLock(d, wait) => Devices.Lock(s, d, wait)
      case DevResume => Devices.Resume(s)
      case DevUnlock(d) => Devices.Unlock(s, d)
  }

  // -- what every step keeps ------------------------------------------------------------

  /** The step forgets nobody who waits for an alarm. */
  predicate Wakes(s: State, e: Event) {
    e.AlarmSet? && e.alarm in s.alarms ==> SetWakes(s, e.alarm, e.data)
  }

  /** The step makes no thread ready that should preempt the active one without a reschedule. */
  predicate Yields(s: State, e: Event) {
    e.CancelThread? && IsRunning(s.sched) ==> ThreadCalls.JoinersBelow(s.sched, e.thread)
  }

  /** The threads that a step lets go from the front of a lock queue. */
  function Served(s: State, e: Event, q: QueueId): seq<Tid> {
    if ((e.SemPost? && q == SemQ(e.sem)) || (e.DevUnlock? && q == DevQ(e.dev))) && Q(s.sched, q) != []
    then [Q(s.sched, q)[0]] else []
  }

  /** The threads that a step puts at its end. */
  function Arriving(s: State, e: Event, q: QueueId): seq<Tid> {
    if s.sched.active.Some?
       && (|| (e.SemWait? && q == SemQ(e.sem) && e.sem in s.sems && s.sems[e.sem].value <= 0)
           || (e.DevLock? && q == DevQ(e.dev) && e.dev in s.devs && e.wait && s.devs[e.dev].locked))
    then [s.sched.active.value] else []
  }

  /** The queues of blocked threads, except those that a call of this kind is about. */
  predicate Tracked(e: Event, q: QueueId) {
    IsLockQ(q) || (q.AlarmQ? && !IsAlarmCall(e)) || (q.JoinQ? && !IsThreadCall(e))
  }

  /** Such a queue after a step. */
  function QueueAfter(s: State, e: Event, q: QueueId): seq<Tid> {
    if e.CancelThread? then Without(Q(s.sched, q), e.thread)
    else if Served(s, e, q) != [] then Q(s.sched, q)[1..]
    else if Arriving(s, e, q) != [] then Q(s.sched, q) + Arriving(s, e, q)
    else Q(s.sched, q)
  }

  ghost predicate LocksStep(s: State, e: Event, s': State) {
    && (forall q :: Tracked(e, q) ==> Q(s'.sched, q) == QueueAfter(s, e, q))
    && Ages(s.sched, s'.sched)
    && (forall i :: i in s.sems ==> i in s'.sems && s'.sems[i] == SemAfter(s, e, i))
  }

  /** A semaphore after a step. */
  function SemAfter(s: State, e: Event, i: nat): Sem
    requires i in s.sems
  {
    var m := s.sems[i];
    if e == SemPost(i) && Q(s.sched, SemQ(i)) == [] then m.(value := m.value + 1, posts := m.posts + 1)
    else if e == SemPost(i) then m.(posts := m.posts + 1, grants := m.grants + 1)
    else if e == SemWait(i) && m.value > 0 then m.(value := m.value - 1, grants := m.grants + 1)
    else m
  }

  ghost predicate StepOk(s: State, e: Event, s': State) {
    && AllOk(s')
    && (NoneForgotten(s) ==> (NoneForgotten(s') <==> Wakes(s, e)))
    && (TopRuns(s.sched) ==> (TopRuns(s'.sched) <==> Yields(s, e)))
    && LocksStep(s, e, s')
  }

  // A step on a lock leaves alarms alone.
  lemma LockStep(s: State, s': State, q0: QueueId)
    requires AllOk(s) && Running(s') && SemsOk(s') && DevsOk(s') && SchedFrame(s.sched, s'.sched, Some(q0))
             && IsLockQ(q0)
    requires s'.alarms == s.alarms && s'.list == s.list && s'.threshold == s.threshold
    ensures AllOk(s') && (NoneForgotten(s) ==> NoneForgotten(s'))
  {
    hide Running, SemsOk, DevsOk, SchedFrame, ListOk;
    if NoneForgotten(s) {
      forall a: nat | Q(s'.sched, AlarmQ(a)) != [] ensures a in s'.alarms && s'.alarms[a].active {
        if Q(s.sched, AlarmQ(a)) == [] {
          EmptyStays(s.sched, s'.sched, Some(q0), AlarmQ(a));
        }
      }
    }
  }

  // A step that leaves the locks alone.
  lemma OtherStep(s: State, e: Event, s': State)
    requires !e.CancelThread? && !e.SemPost? && !e.SemWait? && !e.DevLock? && !e.DevUnlock?
    requires s'.sems == s.sems && Ages(s.sched, s'.sched)
    requires forall q :: Tracked(e, q) ==> Q(s'.sched, q) == Q(s.sched, q)
    ensures LocksStep(s, e, s')
  {
    hide Ages;
  }

  lemma AlarmLocks(s: State, e: Event, s': State)
    requires SameLocks(s, s') && IsAlarmCall(e)
    ensures LocksStep(s, e, s')
  {
    OtherStep(s, e, s');
  }

  lemma ThreadLocks(s: State, e: Event, s': State)
    requires IsThreadCall(e) && !e.CancelThread? && Ages(s.sched, s'.sched) && s' == s.(sched := s'.sched)
    requires forall q: QueueId :: IsResourceQ(q, None) ==> Q(s'.sched, q) == Q(s.sched, q)
    ensures LocksStep(s, e, s')
  {
    hide Ages;
    OtherStep(s, e, s');
  }

  lemma ThreadEvent(s: State, e: Event)
    requires AllOk(s) && Enabled(s, e) && (e.CreateThread? || e.ExitThread? || e.JoinThread?)
    ensures StepOk(s, e, Step(s, e))
  {
    hide AllOk, TopRuns, NoneForgotten, LocksStep, Ages;
    var s' := Step(s, e);
    ThreadAges(s, e);
    match e {
      case CreateThread(prio) => ThreadCalls.CreateKeeps(s, prio);
      case ExitThread(status) => ThreadCalls.ExitThreadKeeps(s, status);
      case JoinThread(t, wait) => ThreadCalls.JoinThreadKeeps(s, t, wait);
    }
    ThreadLocks(s, e, s');
  }

  lemma RescheduleAges(s: Sched, s1: State)
    requires Core(s1.sched) && IdleOk(s1.sched) && SchedFrame(s, s1.sched, None)
    ensures Ages(s, Reschedule(s1).sched)
  {
    hide Core, IdleOk, Reschedule;
    RescheduleRuns(s1);
    AgesTrans(s, s1.sched, Reschedule(s1).sched);
  }

  lemma ThreadAges(s: State, e: Event)
    requires AllOk(s) && Enabled(s, e) && (e.CreateThread? || e.ExitThread? || e.JoinThread?)
    ensures Ages(s.sched, Step(s, e).sched)
  {
    hide AllOk, Ages, Core, IdleOk, Running, Scheduler.CreateThread, Exit, Join, JoinOutcome, Reschedule;
    AllRunning(s);
    match e {
      case CreateThread(prio) =>
        ThreadCalls.CreateRuns(s, prio);
        RescheduleAges(s.sched, s.(sched := Scheduler.CreateThread(s.sched, prio, true)));
      case ExitThread(status) =>
        ThreadCalls.ExitRuns(s, status);
        RescheduleAges(s.sched, s.(sched := Exit(s.sched, status)));
      case JoinThread(t, wait) =>
        ThreadCalls.JoinRuns(s, t, wait);
        RescheduleAges(s.sched, s.(sched := Join(s.sched, t, wait)));
    }
  }

  lemma CancelEvent(s: State, e: Event)
    requires AllOk(s) && Enabled(s, e) && e.CancelThread?
    ensures StepOk(s, e, Step(s, e))
  {
    hide AllOk, TopRuns, NoneForgotten, Cancel, Running, Core, Without, ThreadCalls.JoinersBelow;
    AllRunning(s);
    ThreadCalls.CancelThreadKeeps(s, e.thread);
    ThreadCalls.CancelRuns(s, e.thread);
    if TopRuns(s.sched) {
      ThreadCalls.CancelTopIff(s.sched, e.thread);
    }
  }

  lemma AlarmEvent(s: State, e: Event)
    requires AllOk(s) && IsAlarmCall(e) && AlarmEnabled(s, e)
    ensures StepOk(s, e, AlarmCall(s, e))
  {
    hide AllOk, TopRuns, NoneForgotten, LocksStep, SameLocks, Running, AddAlarm, SetWakes, NewAlarm, SetAlarm,
         RemoveAlarm, WaitAlarm, Timer, AlarmValid;
    AllRunning(s);
    match e {
      case AlarmNew(a, al, now) => NewAlarmKeeps(s, a, al, now); NewSame(s, a, al, now);
      case AlarmSet(a, al, now) => SetKeeps(s, a, al, now); SetSame(s, a, al, now);
      case AlarmRemove(a, now) => RemoveKeeps(s, a, now); RemoveSame(s, a, now);
      case AlarmWait(a, wait) => WaitKeeps(s, a, wait); WaitSame(s, a, wait);
      case Interrupt(now) => TimerKeeps(s, now); TimerSame(s, now);
    }
    AlarmLocks(s, e, AlarmCall(s, e));
  }

  // A new alarm keeps everything in order.  If its time is not zero it becomes active, and moves on
  // past the expirations that are due already; the caller blocks if and only if it wants to wait and
  // the alarm is still active then.
  lemma NewAlarmKeeps(s: State, a: nat, al: Alarm, now: Time)
    requires AllOk(s) && a !in s.alarms && AlarmValid(al) && InRange(now) && s.sched.active != Some(IDLE)
    ensures var s' := NewAlarm(s, a, al, now);
            AllOk(s') && (TopRuns(s.sched) ==> TopRuns(s'.sched)) && (NoneForgotten(s) ==> NoneForgotten(s'))
    ensures IsRunning(s.sched)
    ensures var s', prio := NewAlarm(s, a, al, now), s.sched.threads[s.sched.active.value].prio;
            var made := al.(active := al.exp.sec + al.exp.nsec > 0, ownerPrio := prio);
            && AlarmValid(made) && InRange(s.threshold) && s.sched.active.Some?
            && a in s'.alarms && s'.alarms[a] == AdvanceAll(made, Add(now, s.threshold))
            && (s.sched.active.value in Q(s'.sched, AlarmQ(a)) <==> s'.alarms[a].active && s'.alarms[a].wait)
  {
    hide AllOk, TopRuns, NoneForgotten, AlarmValid, AddAlarm, AdvanceAll, Running;
    AllRunning(s);
    NewKeeps(s, a, al);
    var s1 := WithNew(s, a, al);
    AddKeeps(s1, a, now);
    AddActivates(s1, a, now);
    AddBlocksIff(s1, a, now);
    RunningIs(s);
  }

  // -- semaphores and devices -----------------------------------------------------------

  lemma ReleasedQueues(s: Sched, q: QueueId)
    requires Q(s, q) != [] && Q(s, q)[0] in s.threads && !q.ReadyQ?
    ensures forall p: QueueId :: !p.ReadyQ? ==> Q(ReleaseFirst(s, q), p) == if p == q then Q(s, q)[1..] else Q(s, p)
  {
  }

  lemma BlockedQueues(s: Sched, q: QueueId)
    requires IsRunning(s)
    ensures forall p: QueueId :: p != q ==> Q(BlockActive(s, q), p) == Q(s, p)
  {
  }

  lemma ReleaseLocks(s: State, s1: State, q: QueueId)
    requires Running(s) && IsLockQ(q) && Q(s.sched, q) != [] && Q(s.sched, q)[0] in s.sched.threads
    requires s1.sched == ReleaseFirst(s.sched, q)
    ensures Core(s1.sched) && IdleOk(s1.sched) && Reschedule(s1) == s1.(sched := Reschedule(s1).sched)
    ensures forall p: QueueId :: !p.ReadyQ? ==>
                Q(Reschedule(s1).sched, p) == if p == q then Q(s.sched, p)[1..] else Q(s.sched, p)
  {
    hide Running, SchedFrame, Core, IdleOk, Reschedule, ReleaseFirst;
    ReleaseRuns(s, q);
    RescheduleFields(s1);
    RescheduleRuns(s1);
    ReleasedQueues(s.sched, q);
  }

  lemma PostLocks(s: State, i: nat)
    requires Running(s) && i in s.sems && Ages(s.sched, Semaphores.Post(s, i).sched)
    ensures LocksStep(s, SemPost(i), Semaphores.Post(s, i))
  {
    hide Running, Ages, Core, IdleOk, Reschedule, ReleaseFirst;
    var q := SemQ(i);
    if Q(s.sched, q) != [] {
      Semaphores.PostReady(s, i);
      var m := s.sems[i];
      ReleaseLocks(s,
        s.(sched := ReleaseFirst(s.sched, q),
           sems := s.sems[i := m.(posts := m.posts + 1, grants := m.grants + 1)]), q);
    }
  }

  lemma PostEvent(s: State, i: nat)
    requires AllOk(s) && MayCall(s) && i in s.sems
    ensures StepOk(s, SemPost(i), Semaphores.Post(s, i))
  {
    hide TopRuns, NoneForgotten, Running, SemsOk, DevsOk, AlarmsOk, SchedFrame, Ages, LocksStep, Core, IdleOk,
         Reschedule, ReleaseFirst, AllOk;
    OkParts(s);
    Semaphores.PostKeeps(s, i);
    var s' := Semaphores.Post(s, i);
    FrameAges(s.sched, s'.sched, Some(SemQ(i)));
    PostLocks(s, i);
    PostAlarms(s, i);
    LockStep(s, s', SemQ(i));
  }

  lemma PostAlarms(s: State, i: nat)
    requires Running(s) && i in s.sems
    ensures var s' := Semaphores.Post(s, i); s'.alarms == s.alarms && s'.list == s.list && s'.threshold == s.threshold
  {
    hide Running, Core, IdleOk, ReleaseFirst;
  }

  lemma FrameAges(s: Sched, s': Sched, q0: Option<QueueId>)
    requires SchedFrame(s, s', q0)
    ensures Ages(s, s')
  {
  }

  lemma BlockLocks(s: State, s1: State, q: QueueId)
    requires Running(s) && s.sched.active != Some(IDLE) && IsLockQ(q) && IsRunning(s.sched)
             && s1.sched == BlockActive(s.sched, q)
    ensures Core(s1.sched) && IdleOk(s1.sched) && Reschedule(s1) == s1.(sched := Reschedule(s1).sched)
    ensures forall p: QueueId :: !p.ReadyQ? ==>
                Q(Reschedule(s1).sched, p) == Q(s.sched, p) + if p == q then [s.sched.active.value] else []
  {
    hide Running, SchedFrame, Core, IdleOk, Reschedule, BlockActive;
    BlockRuns(s, q);
    RescheduleFields(s1);
    RescheduleRuns(s1);
    BlockedQueues(s.sched, q);
  }

  lemma WaitLocks(s: State, i: nat)
    requires Running(s) && i in s.sems && MayCall(s) && Ages(s.sched, Semaphores.Wait(s, i).sched)
    ensures LocksStep(s, SemWait(i), Semaphores.Wait(s, i))
  {
    hide Running, Ages, Core, IdleOk, Reschedule, BlockActive;
    RunningIs(s);
    if s.sems[i].value <= 0 {
      var s1 := s.(sched := BlockActive(s.sched, SemQ(i)));
      BlockLocks(s, s1, SemQ(i));
      WaitLocksStep(s, i, Reschedule(s1));
    } else {
      WaitLocksStep(s, i, Semaphores.Wait(s, i));
    }
  }

  lemma WaitLocksStep(s: State, i: nat, s': State)
    requires i in s.sems && s.sched.active.Some? && Ages(s.sched, s'.sched)
    requires var m := s.sems[i];
             s'.sems == if m.value > 0 then s.sems[i := m.(value := m.value - 1, grants := m.grants + 1)] else s.sems
    requires forall p: QueueId :: !p.ReadyQ? ==>
               Q(s'.sched, p) ==
                 Q(s.sched, p) + if p == SemQ(i) && s.sems[i].value <= 0 then [s.sched.active.value] else []
    ensures LocksStep(s, SemWait(i), s')
  {
    hide Ages;
  }

  lemma WaitEvent(s: State, i: nat)
    requires AllOk(s) && MayCall(s) && i in s.sems
    ensures StepOk(s, SemWait(i), Semaphores.Wait(s, i))
  {
    hide TopRuns, NoneForgotten, Running, SemsOk, DevsOk, AlarmsOk, SchedFrame, Ages, LocksStep, Core, IdleOk,
         Reschedule, BlockActive, AllOk;
    OkParts(s);
    Semaphores.WaitKeeps(s, i);
    var s' := Semaphores.Wait(s, i);
    FrameAges(s.sched, s'.sched, Some(SemQ(i)));
    WaitLocks(s, i);
    WaitAlarms(s, i);
    LockStep(s, s', SemQ(i));
  }

  lemma WaitAlarms(s: State, i: nat)
    requires Running(s) && i in s.sems && MayCall(s)
    ensures var s' := Semaphores.Wait(s, i); s'.alarms == s.alarms && s'.list == s.list && s'.threshold == s.threshold
  {
    hide Running, Core, IdleOk, BlockActive;
  }

  lemma InitEvent(s: State, i: nat, value: int)
    requires AllOk(s) && MayCall(s) && i !in s.sems
    ensures StepOk(s, SemInit(i, value), Semaphores.Init(s, i, value))
    ensures var s' := Semaphores.Init(s, i, value);
            s'.sems[i].value == s'.sems[i].initial == value && Q(s'.sched, SemQ(i)) == []
  {
    hide TopRuns, NoneForgotten, Running, SemsOk, DevsOk, AlarmsOk, SchedFrame, AllOk;
    OkParts(s);
    var s' := Semaphores.Init(s, i, value);
    NewSem(s, i, value);
    RunningFields(s, s');
    DevsFields(s, s');
    FrameRefl(s.sched, Some(SemQ(i)));
    FrameAges(s.sched, s.sched, Some(SemQ(i)));
    LockStep(s, s', SemQ(i));
  }

  lemma NewSem(s: State, i: nat, value: int)
    requires SemsOk(s) && i !in s.sems
    ensures SemsOk(Semaphores.Init(s, i, value)) && Q(s.sched, SemQ(i)) == []
  {
  }

  lemma LockLocks(s: State, d: nat)
    requires Running(s) && d in s.devs && MayCall(s) && s.devs[d].locked
             && Ages(s.sched, Devices.Lock(s, d, true).sched)
    ensures LocksStep(s, DevLock(d, true), Devices.Lock(s, d, true))
    ensures var s' := Devices.Lock(s, d, true);
            s'.alarms == s.alarms && s'.list == s.list && s'.threshold == s.threshold
  {
    hide Running, Ages, Core, IdleOk, Reschedule, BlockActive;
    RunningIs(s);
    BlockLocks(s,
      s.(sched := BlockActive(s.sched, DevQ(d)), resuming := s.resuming[s.sched.active.value := d]), DevQ(d));
  }

  lemma LockEvent(s: State, d: nat, wait: bool)
    requires AllOk(s) && MayCall(s) && d in s.devs
    ensures StepOk(s, DevLock(d, wait), Devices.Lock(s, d, wait))
  {
    hide TopRuns, NoneForgotten, Running, SemsOk, DevsOk, AlarmsOk, SchedFrame, Ages, Core, IdleOk, Reschedule,
         BlockActive, AllOk;
    OkParts(s);
    var q := DevQ(d);
    var s' := Devices.Lock(s, d, wait);
    FrameRefl(s.sched, Some(q));
    FrameAges(s.sched, s.sched, Some(q));
    if !s.devs[d].locked {
      Devices.LockTakes(s, d, wait);
      RunningFields(s, s');
      SemsFrame(s, s', Some(q));
      LockStep(s, s', q);
    } else if wait {
      LockWaits(s, d);
    }
  }

  lemma LockWaits(s: State, d: nat)
    requires AllOk(s) && MayCall(s) && d in s.devs && s.devs[d].locked
    ensures StepOk(s, DevLock(d, true), Devices.Lock(s, d, true))
  {
    hide TopRuns, NoneForgotten, Running, SemsOk, DevsOk, AlarmsOk, SchedFrame, Ages, LocksStep, Core, IdleOk,
         Reschedule, BlockActive, AllOk;
    OkParts(s);
    var s' := Devices.Lock(s, d, true);
    Devices.LockBlocks(s, d);
    FrameAges(s.sched, s'.sched, Some(DevQ(d)));
    LockLocks(s, d);
    SemsFrame(s, s', Some(DevQ(d)));
    LockStep(s, s', DevQ(d));
  }

  lemma ResumeEvent(s: State, t: Tid)
    requires AllOk(s) && s.sched.active == Some(t) && t in s.resuming && s.resuming[t] in s.devs
    ensures StepOk(s, DevResume, Devices.Resume(s))
  {
    hide TopRuns, NoneForgotten, Running, SemsOk, DevsOk, AlarmsOk, SchedFrame, AllOk;
    OkParts(s);
    AllRunning(s);
    Devices.ResumeChangesNothing(s);
    var s' := Devices.Resume(s);
    var q := DevQ(s.resuming[s.sched.active.value]);
    FrameRefl(s.sched, Some(q));
    FrameAges(s.sched, s.sched, Some(q));
    RunningFields(s, s');
    SemsFrame(s, s', Some(q));
    LockStep(s, s', q);
  }

  lemma RunningIs(s: State)
    requires Running(s)
    ensures IsRunning(s.sched)
  {
  }

  lemma UnlockLocks(s: State, d: nat)
    requires Running(s) && d in s.devs && Ages(s.sched, Devices.Unlock(s, d).sched)
    ensures LocksStep(s, DevUnlock(d), Devices.Unlock(s, d))
    ensures var s' := Devices.Unlock(s, d); s'.alarms == s.alarms && s'.list == s.list && s'.threshold == s.threshold
  {
    hide Running, Ages, Core, IdleOk, Reschedule, ReleaseFirst, Placement;
    var q := DevQ(d);
    RunningIs(s);
    RunningPlaced(s);
    if Q(s.sched, q) != [] {
      HeadPlaced(s.sched, None, q);
      var dev := s.devs[d];
      ReleaseLocks(s,
        s.(sched := ReleaseFirst(s.sched, q),
           devs := s.devs[d := dev.(holders := dev.holders - {s.sched.active.value} + {Q(s.sched, q)[0]})]), q);
    }
  }

  lemma UnlockEvent(s: State, d: nat)
    requires AllOk(s) && MayCall(s) && d in s.devs && Devices.MayUnlock(s, d)
    ensures StepOk(s, DevUnlock(d), Devices.Unlock(s, d))
  {
    hide TopRuns, NoneForgotten, Running, SemsOk, DevsOk, AlarmsOk, SchedFrame, Ages, LocksStep, Core, IdleOk,
         Reschedule, ReleaseFirst, AllOk, Devices.MayUnlock;
    OkParts(s);
    Devices.UnlockKeepsIff(s, d);
    var s' := Devices.Unlock(s, d);
    FrameAges(s.sched, s'.sched, Some(DevQ(d)));
    UnlockLocks(s, d);
    SemsFrame(s, s', Some(DevQ(d)));
    LockStep(s, s', DevQ(d));
  }

  // Every step keeps the whole kernel in order.
  lemma StepKeeps(s: State, e: Event)
    requires AllOk(s) && Enabled(s, e)
    ensures StepOk(s, e, Step(s, e))
  {
    hide AllOk, StepOk, ThreadCall, AlarmCall;
    match e {
      case CreateThread(_) => ThreadEvent(s, e);
      case ExitThread(_) => ThreadEvent(s, e);
      case JoinThread(_, _) => ThreadEvent(s, e);
      case CancelThread(_) => CancelEvent(s, e);
      case SemInit(i, value) => InitEvent(s, i, value);
      case SemPost(i) => PostEvent(s, i);
      case SemWait(i) => WaitEvent(s, i);
      case DevLock(d, wait) => LockEvent(s, d, wait);
      case DevResume => ResumingDev(s); ResumeEvent(s, s.sched.active.value);
      case DevUnlock(d) => UnlockEvent(s, d);
      case _ => AlarmEvent(s, e);
    }
  }

  lemma ResumingDev(s: State)
    requires AllOk(s) && Enabled(s, DevResume)
    ensures s.resuming[s.sched.active.value] in s.devs && s.sched.active.Some?
  {
  }
}
