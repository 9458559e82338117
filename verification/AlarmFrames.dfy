/** What alarm calls leave alone. */
module AlarmFrames {
  import opened Options
  import opened Time
  import opened Scheduler
  import opened KernelState
  import opened Alarms

  /** The queues of semaphores and devices. */
  predicate IsLockQ(q: QueueId) {
    q.SemQ? || q.DevQ?
  }

  /** Semaphores, devices and the threads blocked on them, or on the end of a thread, are the same. */
  ghost predicate SameLocks(s: State, s': State) {
    && s'.sems == s.sems && s'.devs == s.devs && s'.resuming == s.resuming
    && (forall q: QueueId :: !q.ReadyQ? && !q.AlarmQ? ==> Q(s'.sched, q) == Q(s.sched, q))
    && Ages(s.sched, s'.sched)
  }

  lemma SameTrans(s: State, s1: State, s2: State)
    requires SameLocks(s, s1) && SameLocks(s1, s2)
    ensures SameLocks(s, s2)
  {
    hide Ages;
    AgesTrans(s.sched, s1.sched, s2.sched);
  }

  lemma FireSame(s: State)
    requires AllOk(s) && s.list != []
    ensures s.list[0] in s.alarms && SameLocks(s, FireFirst(s))
  {
    hide AllOk, Wake, NextList, Running;
    OkParts(s);
    FirstListed(s);
    AllRunning(s);
    FireKeeps(s);
    WakeKeeps(s.sched, s.alarms[s.list[0]], s.list[0]);
  }

  lemma {:induction false} LoopSame(s: State, ref: Time)
    requires AllOk(s) && InRange(ref)
    ensures SameLocks(s, AlarmLoop(s, ref).state)
    decreases Lag(s.list, s.alarms, ref)
  {
    hide AllOk, Lag, FireFirst, SameLocks;
    if IsDue(s, ref) {
      OkParts(s);
      FireKeeps(s);
      FireLag(s, ref);
      FireSame(s);
      LoopSame(FireFirst(s), ref);
      SameTrans(s, FireFirst(s), AlarmLoop(FireFirst(s), ref).state);
    } else {
      SameRefl(s);
    }
  }

  lemma FireLag(s: State, ref: Time)
    requires AllOk(s) && InRange(ref) && IsDue(s, ref)
    ensures s.list[0] in s.alarms && Lag(FireFirst(s).list, FireFirst(s).alarms, ref) < Lag(s.list, s.alarms, ref)
  {
    LagDrops(s, ref);
  }

  lemma SameRefl(s: State)
    ensures SameLocks(s, s)
  {
  }

  lemma ScheduleAlarmsSame(s: State, now: Time)
    requires AllOk(s) && InRange(now)
    ensures SameLocks(s, ScheduleAlarms(s, now).state)
  {
    hide AllOk, AlarmLoop;
    ThresholdOk(s);
    LoopSame(s, Add(now, s.threshold));
  }

  lemma RescheduleSame(s: State)
    requires Core(s.sched) && IdleOk(s.sched)
    ensures SameLocks(s, Reschedule(s))
  {
    hide Core, IdleOk;
    RescheduleRuns(s);
    RescheduleFields(s);
  }

  lemma BlockSame(s: State, a: nat)
    requires Running(s) && s.sched.active != Some(IDLE)
    ensures IsRunning(s.sched)
    ensures var b := BlockActive(s.sched, AlarmQ(a)); Core(b) && IdleOk(b) && SameLocks(s, Reschedule(s.(sched := b)))
  {
    hide Inv, Core, IdleOk, Reschedule;
    BlockRuns(s, AlarmQ(a));
    BlockedSame(s, a);
    var s1 := s.(sched := BlockActive(s.sched, AlarmQ(a)));
    RescheduleSame(s1);
    SameTrans(s, s1, Reschedule(s1));
  }

  lemma BlockedSame(s: State, a: nat)
    requires Running(s)
    ensures SameLocks(s, s.(sched := BlockActive(s.sched, AlarmQ(a))))
  {
    hide Placement, RefsOk;
  }

  lemma AddSame(s: State, a: nat, now: Time)
    requires AllOk(s) && a in s.alarms && !s.alarms[a].active && InRange(now) && s.sched.active != Some(IDLE)
    ensures SameLocks(s, AddAlarm(s, a, now))
  {
    hide AllOk, Running, ScheduleAlarms, Reschedule, BlockActive, SameLocks;
    ArmKeeps(s, a);
    ArmSame(s, a);
    var s1 := Arm(s, a);
    ScheduleAlarmsKeeps(s1, now);
    ScheduleAlarmsSame(s1, now);
    var r := ScheduleAlarms(s1, now);
    AllRunning(r.state);
    SameTrans(s, s1, r.state);
    if r.state.alarms[a].active && r.state.alarms[a].wait {
      BlockSame(r.state, a);
      SameTrans(s, r.state, Reschedule(r.state.(sched := BlockActive(r.state.sched, AlarmQ(a)))));
    } else if r.resched > 0 {
      RescheduleSame(r.state);
      SameTrans(s, r.state, Reschedule(r.state));
    }
  }

  lemma ArmSame(s: State, a: nat)
    requires a in s.alarms
    ensures SameLocks(s, Arm(s, a))
  {
  }

  lemma TimerSame(s: State, now: Time)
    requires AllOk(s) && InRange(now)
    ensures SameLocks(s, Timer(s, now))
  {
    hide AllOk, Running, ScheduleAlarms, Reschedule, SameLocks;
    ScheduleAlarmsKeeps(s, now);
    ScheduleAlarmsSame(s, now);
    var r := ScheduleAlarms(s, now);
    if r.resched > 0 {
      AllRunning(r.state);
      RescheduleSame(r.state);
      SameTrans(s, r.state, Reschedule(r.state));
    }
  }

  lemma NewSame(s: State, a: nat, al: Alarm, now: Time)
    requires AllOk(s) && a !in s.alarms && AlarmValid(al) && InRange(now) && s.sched.active != Some(IDLE)
    ensures SameLocks(s, NewAlarm(s, a, al, now))
  {
    hide AllOk, AddAlarm;
    NewKeeps(s, a, al);
    AddSame(WithNew(s, a, al), a, now);
    SameTrans(s, WithNew(s, a, al), NewAlarm(s, a, al, now));
  }

  lemma SetSame(s: State, a: nat, al: Alarm, now: Time)
    requires AllOk(s) && a in s.alarms && AlarmValid(al) && InRange(now) && s.sched.active != Some(IDLE)
    ensures SameLocks(s, SetAlarm(s, a, al, now))
  {
    hide AllOk, AddAlarm;
    if Cmp(s.alarms[a].exp, al.exp) != 0 {
      DetachKeeps(s, a, al);
      AddSame(Detached(s, a, al), a, now);
      SameTrans(s, Detached(s, a, al), SetAlarm(s, a, al, now));
    }
  }

  lemma RemoveSame(s: State, a: nat, now: Time)
    requires AllOk(s) && a in s.alarms && InRange(now)
    ensures SameLocks(s, RemoveAlarm(s, a, now))
  {
    hide AllOk, Running, ScheduleAlarms, Reschedule, SameLocks, Dropped;
    AllRunning(s);
    DropKeeps(s, a);
    DropSame(s, a);
    var s1 := Dropped(s, a);
    ScheduleAlarmsKeeps(s1, now);
    ScheduleAlarmsSame(s1, now);
    var r := ScheduleAlarms(s1, now);
    SameTrans(s, s1, r.state);
    if |Q(s.sched, AlarmQ(a))| + r.resched > 0 {
      AllRunning(r.state);
      RescheduleSame(r.state);
      SameTrans(s, r.state, Reschedule(r.state));
    }
  }

  lemma DropSame(s: State, a: nat)
    requires Running(s)
    ensures SameLocks(s, Dropped(s, a))
  {
    hide Placement, RefsOk, OfPrio, IdleOk;
    RunningPlaced(s);
    ReleaseRunning(s.sched, AlarmQ(a));
    ReleaseAllEffect(s.sched, AlarmQ(a));
  }

  lemma WaitSame(s: State, a: nat, wait: bool)
    requires AllOk(s) && a in s.alarms && s.sched.active != Some(IDLE)
    ensures SameLocks(s, WaitAlarm(s, a, wait))
  {
    hide AllOk, Running, Reschedule, BlockActive, SameLocks;
    AllRunning(s);
    SameRefl(s);
    if s.alarms[a].active && wait {
      BlockSame(s, a);
    }
  }
}
