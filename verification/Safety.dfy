/**
 What holds in every state that the kernel can reach: theorems over all runs.
 */
module Safety {
  import opened Options
  import opened Seqs
  import opened Time
  import opened Scheduler
  import opened KernelState
  import opened Alarms
  import opened AlarmFrames
  import opened Runs
  import opened ReadyOrder
  import opened References
  import opened ThreadEffects
  import ThreadCalls

  // -- runs --------------------------------------------------------------------------

  /** Each event of es can happen when its turn comes. */
  ghost predicate CanRun(s: State, es: seq<Event>)
    requires AllOk(s)
    decreases |es|
  {
    es == [] || (Enabled(s, es[0]) && (StepKeeps(s, es[0]); CanRun(Step(s, es[0]), es[1..])))
  }

  ghost function Run(s: State, es: seq<Event>): (r: State)
    requires AllOk(s) && CanRun(s, es)
    ensures AllOk(r)
    decreases |es|
  {
    if es == [] then s else StepKeeps(s, es[0]); Run(Step(s, es[0]), es[1..])
  }

  // Every run can go on: the timer may interrupt at any time.
  lemma {:induction false} RunsGoOn(s: State, es: seq<Event>, now: Time)
    requires AllOk(s) && CanRun(s, es) && InRange(now)
    ensures CanRun(s, es + [Interrupt(now)])
    decreases |es|
  {
    hide AllOk, LocksStep, Step;
    if es != [] {
      StepKeeps(s, es[0]);
      RunsGoOn(Step(s, es[0]), es[1..], now);
      assert (es + [Interrupt(now)])[1..] == es[1..] + [Interrupt(now)];
    } else {
      StepKeeps(s, Interrupt(now));
    }
  }

  const THR_DEFAULT_PRIO: int := 20

  function BootThreads(prio: int): Sched {
    Scheduler.CreateThread(Scheduler.CreateThread(Sched(map[], map[], None, 0), 0, true),
      if prio == 0 then THR_DEFAULT_PRIO else prio, true)
  }

  ghost function BootState(prio: int, devs: set<nat>, interval: Time): State
    requires InRange(interval) && interval.sec >= 0
  {
    State(BootThreads(prio), map[], map d | d in devs :: Dev(false, {}), map[], map[], [], None, [], Half(interval))
  }

  /** k_time_init, k_devices_init and k_threads_init: the idle thread and the first user thread. */
  ghost function Boot(prio: int, devs: set<nat>, interval: Time): (r: State)
    requires InRange(interval) && interval.sec >= 0
    ensures AllOk(r) && TopRuns(r.sched) && NoneForgotten(r) && r.list == []
  {
    BootReady(prio);
    BootOk(prio, devs, interval);
    Reschedule(BootState(prio, devs, interval))
  }

  lemma BootReady(prio: int)
    ensures Core(BootThreads(prio)) && IdleOk(BootThreads(prio))
    ensures forall q: QueueId :: !q.ReadyQ? ==> Q(BootThreads(prio), q) == []
  {
    hide ClampPrio;
    var s0 := Sched(map[], map[], None, 0);
    assert Core(s0);
    CreateKeepsIff(s0, 0, true);
    var s1 := Scheduler.CreateThread(s0, 0, true);
    BootIdle();
    var p := if prio == 0 then THR_DEFAULT_PRIO else prio;
    CreateKeepsIff(s1, p, true);
    CreateFrame(s1, p);
    CreateFrame(s0, 0);
  }

  lemma BootIdle()
    ensures IdleOk(Scheduler.CreateThread(Sched(map[], map[], None, 0), 0, true))
  {
  }

  lemma BootOk(prio: int, devs: set<nat>, interval: Time)
    requires InRange(interval) && interval.sec >= 0
    ensures var s0 := BootState(prio, devs, interval);
            && Core(s0.sched) && IdleOk(s0.sched)
            && var s := Reschedule(s0); AllOk(s) && TopRuns(s.sched) && NoneForgotten(s) && s.list == []
  {
    hide Core, IdleOk, BootThreads, Reschedule, TopRuns;
    BootReady(prio);
    var s0 := BootState(prio, devs, interval);
    RescheduleRuns(s0);
    RescheduleFields(s0);
    BootLocks(Reschedule(s0), devs);
  }

  // The kernel starts with the idle thread of priority 0 and the first user thread, whose priority is the
  // given one within the levels, or the default.  The user thread runs unless its priority is 0 too.
  lemma BootIs(prio: int, devs: set<nat>, interval: Time)
    requires InRange(interval) && interval.sec >= 0
    ensures var s := Boot(prio, devs, interval);
            && s.sched.next == 2 && s.sched.threads.Keys == {0, 1} && s.sched.threads[0].prio == 0
            && s.sched.threads[1].prio == (if prio == 0 then 20 else Level(prio))
            && s.sched.active == Some(if s.sched.threads[1].prio > 0 then 1 else 0)
            && Count(s.sched, 0) == 1 && Count(s.sched, 1) == 1
            && s.sems == map[] && s.alarms == map[] && s.list == [] && s.fired == [] && s.resuming == map[]
            && s.devs.Keys == devs && (forall d :: d in devs ==> s.devs[d] == Dev(false, {}))
            && Instant(s.threshold) == Instant(interval) / 2
  {
    hide Core, IdleOk, TopRuns, AllOk, NoneForgotten, Rescheduled, BootThreads, Schedule;
    BootReady(prio);
    var s0 := BootState(prio, devs, interval);
    BootThreadsAre(prio);
    IdleCanRun(s0.sched);
    RescheduleFields(s0);
    RescheduleCounts(s0);
    ScheduleOrder(s0.sched);
    ScheduleSame(s0.sched);
    BootTop(s0.sched, if prio == 0 then 20 else Level(prio));
  }

  lemma BootThreadsAre(prio: int)
    ensures var c, level := BootThreads(prio), if prio == 0 then 20 else Level(prio);
            && c.active == None && c.next == 2
            && c.threads.Keys == {0, 1} && c.threads[0] == Thread(Ready, 0, Some(ReadyQ(0)), 0, 1)
            && c.threads[1] == Thread(Ready, level, Some(ReadyQ(level)), 0, 1)
            && forall p: nat :: Q(c, ReadyQ(p)) ==
                 (if p == 0 then [0] else []) + if p == level then [1] else []
  {
    var s1 := Scheduler.CreateThread(Sched(map[], map[], None, 0), 0, true);
    assert s1.threads == map[0 := Thread(Ready, 0, Some(ReadyQ(0)), 0, 1)];
    assert forall p: nat :: Q(s1, ReadyQ(p)) == if p == 0 then [0] else [];
    var level := if prio == 0 then 20 else Level(prio);
    assert BootThreads(prio).threads == s1.threads[1 := Thread(Ready, level, Some(ReadyQ(level)), 0, 1)];
  }

  lemma BootTop(s: Sched, level: nat)
    requires level < PRIO_LEVELS
    requires forall p: nat :: Q(s, ReadyQ(p)) == (if p == 0 then [0] else []) + if p == level then [1] else []
    ensures TopReady(s) == level && Q(s, ReadyQ(level))[0] == if level == 0 then 0 else 1
  {
    assert Q(s, ReadyQ(level)) != [];
  }

  lemma BootLocks(s: State, devs: set<nat>)
    requires s.sems == map[] && s.devs == (map d | d in devs :: Dev(false, {})) && s.resuming == map[]
    requires s.alarms == map[] && s.list == []
    requires forall q: QueueId :: !q.ReadyQ? ==> Q(s.sched, q) == []
    ensures SemsOk(s) && DevsOk(s) && NoneForgotten(s) && ListOk(s.list, s.alarms)
  {
    forall d | d in s.devs ensures DevOk(s, d) {
    }
  }

  // -- the state at every point of every run --------------------------------------------

  /** Thread t is where its state says, and nowhere else. */
  ghost predicate InPlace(s: Sched, t: Tid)
    requires t in s.threads
  {
    match s.threads[t].state
    case Active => s.active == Some(t) && forall q :: t !in Q(s, q)
    case Ready => forall q :: t in Q(s, q) <==> q == ReadyQ(s.threads[t].prio)
    case Wait =>
      && s.threads[t].queue.Some? && !s.threads[t].queue.value.ReadyQ?
      && forall q :: t in Q(s, q) <==> Some(q) == s.threads[t].queue
    case Passive => forall q :: t !in Q(s, q)
  }

  /** Each thread is exactly one of the active thread, ready, blocked or ended. */
  ghost predicate Partitioned(s: Sched) {
    && (forall t :: t in s.threads ==> InPlace(s, t))
    && (forall q :: Distinct(Q(s, q)))
    && (forall q, t :: t in Q(s, q) ==> t in s.threads)
    && s.active.Some? && s.active.value in s.threads && s.threads[s.active.value].state == Active
  }

  lemma PartitionHolds(s: Sched)
    requires Inv(s)
    ensures Partitioned(s)
  {
    forall t | t in s.threads ensures InPlace(s, t) {
      PlaceHolds(s, t);
    }
    PlacementExist(s, None);
  }

  lemma PlaceHolds(s: Sched, t: Tid)
    requires Inv(s) && t in s.threads
    ensures InPlace(s, t)
  {
    hide RefsOk;
    forall q | t in Q(s, q) ensures Placed(s, t, q) {
    }
  }

  /** A thread that has not ended holds a reference to itself and one for each thread that waits for
      its end; of an ended thread, only a status that somebody may still collect is left. */
  ghost predicate Referenced(s: Sched) {
    && (forall t :: t in s.threads && s.threads[t].state != Passive ==> s.threads[t].refCnt >= 1 + |Q(s, JoinQ(t))|)
    && (forall t :: t in s.threads && s.threads[t].state == Passive ==>
          s.threads[t].refCnt >= 1 && Q(s, JoinQ(t)) == [])
    && (forall t: Tid :: t !in s.threads ==> Q(s, JoinQ(t)) == [])
  }

  lemma ReferencesHold(s: Sched)
    requires Inv(s)
    ensures Referenced(s)
  {
    forall t | t in s.threads ensures RefOk(s, t) {
    }
  }

  /** Devices are locked by at most one thread, and nobody waits for a free device. */
  ghost predicate Exclusive(s: State) {
    forall d :: d in s.devs ==>
      && |s.devs[d].holders| == (if s.devs[d].locked then 1 else 0)
      && (!s.devs[d].locked ==> Q(s.sched, DevQ(d)) == [])
  }

  lemma ExclusiveHolds(s: State)
    requires DevsOk(s)
    ensures Exclusive(s)
  {
    forall d | d in s.devs
      ensures |s.devs[d].holders| == (if s.devs[d].locked then 1 else 0)
              && (!s.devs[d].locked ==> Q(s.sched, DevQ(d)) == [])
    {
      assert DevOk(s, d);
      if s.devs[d].locked {
        var t :| t in s.devs[d].holders;
        assert s.devs[d].holders == {t};
      }
    }
  }

  // In every reachable state the threads are partitioned, the reference counts suffice, the
  // semaphores are balanced, the locks exclusive, the alarm list sorted and exactly the active
  // alarms, and there is a thread to return to.
  lemma KernelIsSafe(prio: int, devs: set<nat>, interval: Time, es: seq<Event>)
    requires InRange(interval) && interval.sec >= 0
    requires CanRun(Boot(prio, devs, interval), es)
    ensures var s := Run(Boot(prio, devs, interval), es);
            && Partitioned(s.sched) && Referenced(s.sched) && CanSchedule(s.sched) && SemsOk(s) && Exclusive(s)
            && ListOk(s.list, s.alarms)
  {
    hide Boot, Run, CanRun;
    PartsHold(Run(Boot(prio, devs, interval), es));
  }

  lemma PartsHold(s: State)
    requires AllOk(s)
    ensures Partitioned(s.sched) && Referenced(s.sched) && CanSchedule(s.sched) && SemsOk(s) && Exclusive(s)
            && ListOk(s.list, s.alarms)
  {
    hide SemsOk, DevsOk, Partitioned, Referenced, Exclusive;
    PartitionHolds(s.sched);
    ReferencesHold(s.sched);
    ExclusiveHolds(s);
  }

  // -- priorities ---------------------------------------------------------------------

  /** No cancel of the run makes a thread ready that has a higher priority than the caller. */
  ghost predicate AlwaysYields(s: State, es: seq<Event>)
    requires AllOk(s) && CanRun(s, es)
    decreases |es|
  {
    es == [] || (Yields(s, es[0]) && (StepKeeps(s, es[0]); AlwaysYields(Step(s, es[0]), es[1..])))
  }

  // Then no ready thread ever has a higher priority than the active one.
  lemma {:induction false} TopPriorityRuns(s: State, es: seq<Event>)
    requires AllOk(s) && CanRun(s, es) && TopRuns(s.sched) && AlwaysYields(s, es)
    ensures TopRuns(Run(s, es).sched)
    decreases |es|
  {
    hide AllOk, TopRuns, LocksStep, Yields, Enabled, Step;
    if es != [] {
      StepKeeps(s, es[0]);
      TopPriorityRuns(Step(s, es[0]), es[1..]);
    }
  }

  // A run without cancel is of that kind.
  lemma {:induction false} WithoutCancel(s: State, es: seq<Event>)
    requires AllOk(s) && CanRun(s, es) && forall k :: 0 <= k < |es| ==> !es[k].CancelThread?
    ensures AlwaysYields(s, es)
    decreases |es|
  {
    hide AllOk, LocksStep, Enabled, Step;
    if es != [] {
      StepKeeps(s, es[0]);
      WithoutCancel(Step(s, es[0]), es[1..]);
    }
  }

  // -- alarms -------------------------------------------------------------------------

  /** No alarm is given the time zero while threads wait for it. */
  ghost predicate AlwaysWakes(s: State, es: seq<Event>)
    requires AllOk(s) && CanRun(s, es)
    decreases |es|
  {
    es == [] || (Wakes(s, es[0]) && (StepKeeps(s, es[0]); AlwaysWakes(Step(s, es[0]), es[1..])))
  }

  // Then every thread that waits for an alarm waits for one that will be activated.
  lemma {:induction false} NoWakeUpIsLost(s: State, es: seq<Event>)
    requires AllOk(s) && CanRun(s, es) && NoneForgotten(s) && AlwaysWakes(s, es)
    ensures NoneForgotten(Run(s, es))
    decreases |es|
  {
    hide AllOk, NoneForgotten, LocksStep, Wakes, Enabled, Step;
    if es != [] {
      StepKeeps(s, es[0]);
      NoWakeUpIsLost(Step(s, es[0]), es[1..]);
    }
  }

  lemma {:induction false} WithoutZeroTimes(s: State, es: seq<Event>)
    requires AllOk(s) && CanRun(s, es) && forall k :: 0 <= k < |es| ==> es[k].AlarmSet? ==> es[k].data.exp != Time(0, 0)
    ensures AlwaysWakes(s, es)
    decreases |es|
  {
    hide AllOk, LocksStep, Enabled, Step;
    if es != [] {
      StepKeeps(s, es[0]);
      WithoutZeroTimes(Step(s, es[0]), es[1..]);
    }
  }

  /** The timer was set, when the clock showed `at`, to the time until the earliest alarm. */
  predicate ArmedAt(s: State, at: Time) {
    s.list != [] ==> s.timer == Some(Sub(ExpOf(s.alarms, s.list[0]), at))
  }

  lemma ArmedByAlarms(s: State, now: Time)
    requires AllOk(s) && InRange(now)
    ensures ArmedAt(ScheduleAlarms(s, now).state, now)
  {
    hide AllOk, AlarmLoop;
  }

  lemma ArmedByAdd(s: State, a: nat, now: Time)
    requires AllOk(s) && a in s.alarms && !s.alarms[a].active && InRange(now) && s.sched.active != Some(IDLE)
    ensures ArmedAt(AddAlarm(s, a, now), now)
  {
    hide AllOk, Running, ScheduleAlarms, BlockActive, Core, IdleOk, Arm;
    ArmKeeps(s, a);
    ArmedByAlarms(Arm(s, a), now);
  }

  /** The clock of the last k_schedule_alarms: an event brings a new one, except a call that changes
      no time. */
  function ClockAfter(s: State, e: Event, at: Time): Time {
    match e
    case AlarmNew(_, _, now) => now
    case AlarmSet(a, al, now) => if a in s.alarms && Cmp(s.alarms[a].exp, al.exp) == 0 then at else now
    case AlarmRemove(_, now) => now
    case Interrupt(now) => now
    case _ => at
  }

  lemma ArmedBySet(s: State, a: nat, al: Alarm, now: Time, at: Time)
    requires AllOk(s) && a in s.alarms && AlarmValid(al) && InRange(now) && s.sched.active != Some(IDLE)
             && ArmedAt(s, at)
    ensures ArmedAt(SetAlarm(s, a, al, now), ClockAfter(s, AlarmSet(a, al, now), at))
  {
    hide AllOk, AddAlarm, AlarmValid;
    if Cmp(s.alarms[a].exp, al.exp) != 0 {
      DetachKeeps(s, a, al);
      ArmedByAdd(Detached(s, a, al), a, now);
    }
  }

  lemma ArmedByRest(s: State, now: Time)
    requires AllOk(s) && InRange(now)
    ensures var r := ScheduleAlarms(s, now).state;
            Core(r.sched) && IdleOk(r.sched) && ArmedAt(r, now) && ArmedAt(Reschedule(r), now)
  {
    hide AllOk, ScheduleAlarms, Running, Core, IdleOk;
    ScheduleAlarmsKeeps(s, now);
    ArmedByAlarms(s, now);
    AllRunning(ScheduleAlarms(s, now).state);
  }

  lemma AlarmCallArms(s: State, e: Event, at: Time)
    requires AllOk(s) && IsAlarmCall(e) && AlarmEnabled(s, e) && ArmedAt(s, at)
    ensures ArmedAt(AlarmCall(s, e), ClockAfter(s, e, at))
  {
    hide AllOk, Running, ScheduleAlarms, BlockActive, Core, IdleOk, AddAlarm, SetAlarm, Dropped, AlarmValid;
    AllRunning(s);
    match e {
      case AlarmNew(a, al, now) =>
        NewKeeps(s, a, al);
        ArmedByAdd(WithNew(s, a, al), a, now);
      case AlarmSet(a, al, now) => ArmedBySet(s, a, al, now, at);
      case AlarmRemove(a, now) =>
        DropKeeps(s, a);
        ArmedByRest(Dropped(s, a), now);
      case AlarmWait(_, _) =>
      case Interrupt(now) => ArmedByRest(s, now);
    }
  }

  lemma ThreadCallKeepsTimer(s: State, e: Event)
    requires AllOk(s) && IsThreadCall(e) && Enabled(s, e)
    ensures var s' := ThreadCall(s, e); s'.list == s.list && s'.timer == s.timer && s'.alarms == s.alarms
  {
    hide AllOk, Running, Core, IdleOk, Scheduler.CreateThread, Exit, Join, Cancel;
  }

  lemma StepArms(s: State, e: Event, at: Time)
    requires AllOk(s) && Enabled(s, e) && ArmedAt(s, at)
    ensures ArmedAt(Step(s, e), ClockAfter(s, e, at))
  {
    hide AllOk, ThreadCall, AlarmCall, Running, Core, IdleOk, ReleaseFirst, BlockActive;
    if IsThreadCall(e) {
      ThreadCallKeepsTimer(s, e);
    } else if IsAlarmCall(e) {
      AlarmCallArms(s, e, at);
    }
  }

  ghost function ClockIn(s: State, es: seq<Event>, at: Time): Time
    requires AllOk(s) && CanRun(s, es)
    decreases |es|
  {
    if es == [] then at else StepKeeps(s, es[0]); ClockIn(Step(s, es[0]), es[1..], ClockAfter(s, es[0], at))
  }

  // Over every run the timer is set to the time from the last k_schedule_alarms to the earliest
  // alarm.
  lemma {:induction false} TimerIsArmed(s: State, es: seq<Event>, at: Time)
    requires AllOk(s) && CanRun(s, es) && ArmedAt(s, at)
    ensures ArmedAt(Run(s, es), ClockIn(s, es, at))
    decreases |es|
  {
    hide AllOk, LocksStep, Enabled, Step, ArmedAt, ClockAfter;
    if es != [] {
      StepKeeps(s, es[0]);
      StepArms(s, es[0], at);
      TimerIsArmed(Step(s, es[0]), es[1..], ClockAfter(s, es[0], at));
    }
  }

  // -- ended threads --------------------------------------------------------------------

  // A descriptor is freed once, and a thread that has ended or was cancelled never runs again.
  lemma {:induction false} EndedStaysEnded(s: State, es: seq<Event>)
    requires AllOk(s) && CanRun(s, es)
    ensures Ages(s.sched, Run(s, es).sched)
    decreases |es|
  {
    hide AllOk, Enabled, Step, Ages;
    if es != [] {
      StepKeeps(s, es[0]);
      EndedStaysEnded(Step(s, es[0]), es[1..]);
      AgesTrans(s.sched, Step(s, es[0]).sched, Run(s, es).sched);
    } else {
      AgesRefl(s.sched);
    }
  }

  // However the kernel goes on after a thread has ended with a status, whoever still finds its
  // descriptor collects that status; for a cancelled thread it is -E_CANCELED.
  lemma StatusIsCollected(s: State, es: seq<Event>, t: Tid, wait: bool)
    requires AllOk(s) && CanRun(s, es) && es != [] && Ends(s.sched, es[0], t)
    ensures var r := Run(s, es).sched;
            JoinOutcome(r, t, wait) == if t in r.threads then Status(EndStatus(es[0])) else Gone
  {
    hide AllOk, Ages, Step, Enabled, LocksStep, Ends, EndStatus;
    StepKeeps(s, es[0]);
    EndsLeavesStatus(s, es[0], t);
    var s1 := Step(s, es[0]);
    EndedStaysEnded(s1, es[1..]);
    ThreadCalls.StatusStays(s1.sched, Run(s1, es[1..]).sched, t, EndStatus(es[0]));
  }

  // -- references ----------------------------------------------------------------------------

  /** How often a run had threads block on the end of t, collected its status, and ended it. */
  datatype Tally = Tally(joins: nat, collections: nat, ends: nat)

  ghost function TallyIn(s: State, es: seq<Event>, t: Tid): Tally
    requires AllOk(s) && CanRun(s, es)
    decreases |es|
  {
    if es == [] then Tally(0, 0, 0)
    else
      StepKeeps(s, es[0]);
      var later := TallyIn(Step(s, es[0]), es[1..], t);
      Tally(later.joins + (if Joins(s.sched, es[0], t) then 1 else 0),
            later.collections + (if Collects(s.sched, es[0], t) then 1 else 0),
            later.ends + if Ends(s.sched, es[0], t) then 1 else 0)
  }

  // Over every run the references to a thread are those before, one if it was created, and one for
  // each join that blocked, less one for each collected status and one for its end.  Its descriptor
  // is there exactly as long as that is not zero.
  lemma {:induction false} ReferencesBalance(s: State, es: seq<Event>, t: Tid)
    requires AllOk(s) && CanRun(s, es)
    ensures var r, n := Run(s, es).sched, TallyIn(s, es, t);
            && Count(r, t) == Count(s.sched, t) + Born(s.sched, r, t) + n.joins - n.collections - n.ends
            && Count(r, t) >= 0 && (t in r.threads <==> Count(r, t) > 0)
            && s.sched.next <= r.next
    decreases |es|
  {
    hide AllOk, Step, Enabled, LocksStep, Count, Joins, Collects, Ends;
    Positive(s, t);
    if es != [] {
      StepKeeps(s, es[0]);
      EveryStepCounts(s, es[0]);
      OneAtATime(s, es[0], t);
      ReferencesBalance(Step(s, es[0]), es[1..], t);
      assert StepCounts(s.sched, es[0], Step(s, es[0]).sched);
    }
  }

  lemma OneAtATime(s: State, e: Event, t: Tid)
    requires AllOk(s) && Enabled(s, e)
    ensures !(Joins(s.sched, e, t) && Collects(s.sched, e, t)) && !(Joins(s.sched, e, t) && Ends(s.sched, e, t))
    ensures !(Collects(s.sched, e, t) && Ends(s.sched, e, t))
  {
  }

  // A thread ends at most once.
  lemma {:induction false} EndsOnce(s: State, es: seq<Event>, t: Tid)
    requires AllOk(s) && CanRun(s, es)
    ensures TallyIn(s, es, t).ends <= if Live(s.sched, t) || t >= s.sched.next then 1 else 0
    decreases |es|
  {
    hide AllOk, Step, Enabled, Ends, ThreadCalls.LeftStatus, StepCounts;
    if es != [] {
      StepKeeps(s, es[0]);
      var s1 := Step(s, es[0]);
      EndsOnce(s1, es[1..], t);
      if Ends(s.sched, es[0], t) {
        EndsLeavesStatus(s, es[0], t);
        assert !Live(s1.sched, t) by { StatusEnded(s1.sched, t, EndStatus(es[0])); }
        Positive(s, t);
      }
    }
  }

  lemma StatusEnded(s: Sched, t: Tid, status: int)
    requires ThreadCalls.LeftStatus(s, t, status)
    ensures !Live(s, t)
  {
  }

  /** The threads that blocked on the end of t and have not collected its status since. */
  function OwedAfter(owed: multiset<Tid>, s: Sched, e: Event, t: Tid): multiset<Tid> {
    if s.active == None then owed
    else if Joins(s, e, t) then owed + multiset{s.active.value}
    else if Collects(s, e, t) then owed - multiset{s.active.value}
    else owed
  }

  ghost function OwedIn(s: State, es: seq<Event>, t: Tid, owed: multiset<Tid>): multiset<Tid>
    requires AllOk(s) && CanRun(s, es)
    decreases |es|
  {
    if es == [] then owed
    else
      StepKeeps(s, es[0]);
      OwedIn(Step(s, es[0]), es[1..], t, OwedAfter(owed, s.sched, es[0], t))
  }

  /** Only threads that blocked on the end of t collect its status, each once for each time. */
  ghost predicate OnlyJoinersCollect(s: State, es: seq<Event>, t: Tid, owed: multiset<Tid>)
    requires AllOk(s) && CanRun(s, es)
    decreases |es|
  {
    es == []
    || (&& (Collects(s.sched, es[0], t) ==> s.sched.active.Some? && s.sched.active.value in owed)
        && (StepKeeps(s, es[0]);
            OnlyJoinersCollect(Step(s, es[0]), es[1..], t, OwedAfter(owed, s.sched, es[0], t))))
  }

  /** There is a reference for each thread in `owed`, and one for t itself until it ends. */
  ghost predicate Covered(s: Sched, t: Tid, owed: multiset<Tid>) {
    Count(s, t) >= |owed| + if Live(s, t) then 1 else 0
  }

  lemma CoveredStep(s: State, e: Event, t: Tid, owed: multiset<Tid>)
    requires AllOk(s) && Enabled(s, e) && AllOk(Step(s, e)) && Covered(s.sched, t, owed)
    requires Collects(s.sched, e, t) ==> s.sched.active.Some? && s.sched.active.value in owed
    ensures Covered(Step(s, e).sched, t, OwedAfter(owed, s.sched, e, t))
  {
    hide AllOk, Step, Enabled, Joins, Collects, Ends, ThreadCalls.LeftStatus, LocksStep;
    StepKeeps(s, e);
    EveryStepCounts(s, e);
    OneAtATime(s, e, t);
    CallerIsActive(s, e, t);
    Positive(s, t);
    Positive(Step(s, e), t);
    StepEnds(s, e, t);
    if Ends(s.sched, e, t) {
      EndsLeavesStatus(s, e, t);
      StatusEnded(Step(s, e).sched, t, EndStatus(e));
    }
  }

  lemma CallerIsActive(s: State, e: Event, t: Tid)
    requires AllOk(s) && Enabled(s, e)
    ensures Joins(s.sched, e, t) || Collects(s.sched, e, t) ==> s.sched.active.Some?
  {
  }

  lemma StepEnds(s: State, e: Event, t: Tid)
    requires AllOk(s) && Enabled(s, e)
    ensures Live(Step(s, e).sched, t) ==> Live(s.sched, t) || t >= s.sched.next
  {
    hide AllOk, Step, Enabled;
    StepKeeps(s, e);
  }

  lemma {:induction false} CoveredInRun(s: State, es: seq<Event>, t: Tid, owed: multiset<Tid>)
    requires AllOk(s) && CanRun(s, es) && Covered(s.sched, t, owed) && OnlyJoinersCollect(s, es, t, owed)
    ensures Covered(Run(s, es).sched, t, OwedIn(s, es, t, owed))
    decreases |es|
  {
    hide AllOk, Step, Enabled, LocksStep, Covered, Collects, OwedAfter;
    if es != [] {
      StepKeeps(s, es[0]);
      CoveredStep(s, es[0], t, owed);
      CoveredInRun(Step(s, es[0]), es[1..], t, OwedAfter(owed, s.sched, es[0], t));
    }
  }

  // Along every run in which only threads that waited for the end of t collect its status, each of
  // them still finds the descriptor of t.
  lemma WaitersFindDescriptor(s: State, es: seq<Event>, t: Tid, u: Tid)
    requires AllOk(s) && CanRun(s, es) && OnlyJoinersCollect(s, es, t, multiset{})
    requires u in OwedIn(s, es, t, multiset{})
    ensures t in Run(s, es).sched.threads
  {
    hide AllOk, CanRun, Run, OnlyJoinersCollect, OwedIn;
    Positive(s, t);
    CoveredInRun(s, es, t, multiset{});
    Positive(Run(s, es), t);
  }

  lemma AgesRefl(s: Sched)
    ensures Ages(s, s)
  {
  }

  // -- service order ----------------------------------------------------------------------

  /** The threads that were let go from the front of lock queue q, in order. */
  ghost function ServedIn(s: State, es: seq<Event>, q: QueueId): seq<Tid>
    requires AllOk(s) && CanRun(s, es)
    decreases |es|
  {
    if es == [] then [] else StepKeeps(s, es[0]); Served(s, es[0], q) + ServedIn(Step(s, es[0]), es[1..], q)
  }

  /** The threads that blocked on q, in order. */
  ghost function ArrivedIn(s: State, es: seq<Event>, q: QueueId): seq<Tid>
    requires AllOk(s) && CanRun(s, es)
    decreases |es|
  {
    if es == [] then [] else StepKeeps(s, es[0]); Arriving(s, es[0], q) + ArrivedIn(Step(s, es[0]), es[1..], q)
  }

  /** x is y without some of its elements. */
  ghost predicate Subsequence(x: seq<Tid>, y: seq<Tid>) {
    x == [] || (y != [] && ((x[0] == y[0] && Subsequence(x[1..], y[1..])) || Subsequence(x, y[1..])))
  }

  lemma {:induction false} SubsequenceRefl(x: seq<Tid>)
    ensures Subsequence(x, x)
  {
    if x != [] {
      SubsequenceRefl(x[1..]);
    }
  }

  lemma {:induction false} SubsequenceMore(x: seq<Tid>, t: Tid, y: seq<Tid>)
    requires Subsequence(x, y)
    ensures Subsequence(x, [t] + y) && Subsequence([t] + x, [t] + y)
  {
    assert ([t] + y)[1..] == y && ([t] + x)[1..] == x;
  }

  lemma {:induction false} SubsequenceWithout(x: seq<Tid>, y: seq<Tid>, t: Tid, z: seq<Tid>)
    requires Subsequence(x, Without(y, t) + z)
    ensures Subsequence(x, y + z)
    decreases |y|
  {
    if y != [] && x != [] {
      assert y + z == [y[0]] + (y[1..] + z);
      if y[0] == t {
        SubsequenceMore(x, t, y[1..] + z);
      } else {
        var w := Without(y[1..], t);
        assert (Without(y, t) + z)[1..] == w + z;
        if x[0] == y[0] && Subsequence(x[1..], w + z) {
          SubsequenceWithout(x[1..], y[1..], t, z);
          SubsequenceMore(x[1..], y[0], y[1..] + z);
          assert x == [y[0]] + x[1..];
        } else {
          SubsequenceWithout(x, y[1..], t, z);
          SubsequenceMore(x, y[0], y[1..] + z);
        }
      }
    }
  }

  lemma Regroup(x: seq<Tid>, y: seq<Tid>, z: seq<Tid>)
    ensures (x + y) + z == x + (y + z)
  {
  }

  // Semaphores and device locks are granted in the order of arrival: those served so far, followed
  // by those still waiting, are all that waited or arrived, in that order, except the cancelled.
  lemma {:induction false} ServiceIsFifo(s: State, es: seq<Event>, q: QueueId)
    requires AllOk(s) && CanRun(s, es) && IsLockQ(q)
    ensures Subsequence(ServedIn(s, es, q) + Q(Run(s, es).sched, q), Q(s.sched, q) + ArrivedIn(s, es, q))
    ensures (forall k :: 0 <= k < |es| ==> !es[k].CancelThread?) ==>
              ServedIn(s, es, q) + Q(Run(s, es).sched, q) == Q(s.sched, q) + ArrivedIn(s, es, q)
    decreases |es|
  {
    hide AllOk, Enabled, Step, Ages, Without, Subsequence, Served, Arriving;
    if es != [] {
      StepKeeps(s, es[0]);
      var s1 := Step(s, es[0]);
      ServiceIsFifo(s1, es[1..], q);
      var x, later := ServedIn(s1, es[1..], q) + Q(Run(s1, es[1..]).sched, q), ArrivedIn(s1, es[1..], q);
      ServiceStep(s, es[0], q, s1, x, later);
      assert ServedIn(s, es, q) + Q(Run(s, es).sched, q) == Served(s, es[0], q) + x;
    } else {
      assert ServedIn(s, es, q) + Q(s.sched, q) == Q(s.sched, q) == Q(s.sched, q) + ArrivedIn(s, es, q);
      SubsequenceRefl(Q(s.sched, q));
    }
  }

  lemma ServiceStep(s: State, e: Event, q: QueueId, s1: State, x: seq<Tid>, later: seq<Tid>)
    requires LocksStep(s, e, s1) && IsLockQ(q) && Subsequence(x, Q(s1.sched, q) + later)
    ensures Subsequence(Served(s, e, q) + x, Q(s.sched, q) + (Arriving(s, e, q) + later))
    ensures x == Q(s1.sched, q) + later && !e.CancelThread? ==>
              Served(s, e, q) + x == Q(s.sched, q) + (Arriving(s, e, q) + later)
  {
    hide Without, Subsequence, Ages;
    var q0, q1 := Q(s.sched, q), Q(s1.sched, q);
    assert q1 == QueueAfter(s, e, q);
    if e.CancelThread? {
      SubsequenceWithout(x, q0, e.thread, later);
      assert [] + x == x && [] + later == later;
    } else if Served(s, e, q) != [] {
      var t := q0[0];
      assert q0 == [t] + q1 && [] + later == later;
      Regroup([t], q1, later);
      SubsequenceMore(x, t, q1 + later);
    } else {
      assert [] + x == x;
      assert q0 + [] == q0;
      Regroup(q0, Arriving(s, e, q), later);
    }
  }

  // -- service order within one priority ----------------------------------------------------

  /** The threads of priority p that were made active, in order. */
  ghost function DispatchedIn(s: State, es: seq<Event>, p: nat): seq<Tid>
    requires AllOk(s) && CanRun(s, es)
    decreases |es|
  {
    if es == [] then []
    else
      StepKeeps(s, es[0]);
      Dispatched(s.sched, Step(s, es[0]).sched, p) + DispatchedIn(Step(s, es[0]), es[1..], p)
  }

  /** Who is served first among those that were ready: they come before all others, in their order,
      and only cancelled ones may be missing. */
  ghost predicate ServedFirst(q: seq<Tid>, first: seq<Tid>, served: seq<Tid>, es: seq<Event>) {
    first <= served && Subsequence(first, q) && forall t :: t in q && CancelThread(t) !in es ==> t in first
  }

  // A subsequence of a concatenation is one of the first part followed by one of the second.
  lemma {:induction false} SubsequenceSplit(x: seq<Tid>, y: seq<Tid>, z: seq<Tid>) returns (f: seq<Tid>, g: seq<Tid>)
    requires Subsequence(x, y + z)
    ensures x == f + g && Subsequence(f, y) && (forall t :: t in g ==> t in z)
    decreases |y|
  {
    if x == [] {
      f, g := [], [];
    } else if y == [] {
      assert y + z == z;
      SubsequenceMembers(x, z);
      f, g := [], x;
    } else {
      assert y + z == [y[0]] + (y[1..] + z);
      if x[0] == y[0] && Subsequence(x[1..], y[1..] + z) {
        var f', g' := SubsequenceSplit(x[1..], y[1..], z);
        f, g := [x[0]] + f', g';
        SubsequenceMore(f', x[0], y[1..]);
        assert y == [y[0]] + y[1..];
      } else {
        f, g := SubsequenceSplit(x, y[1..], z);
        SubsequenceMore(f, y[0], y[1..]);
        assert y == [y[0]] + y[1..];
      }
    }
  }

  lemma {:induction false} SubsequenceMembers(x: seq<Tid>, y: seq<Tid>)
    requires Subsequence(x, y)
    ensures forall t :: t in x ==> t in y
    decreases |y|
  {
    if x != [] {
      if x[0] == y[0] && Subsequence(x[1..], y[1..]) {
        SubsequenceMembers(x[1..], y[1..]);
        assert x == [x[0]] + x[1..];
      } else {
        SubsequenceMembers(x, y[1..]);
      }
    }
  }

  // Those who were ready at priority p are dispatched in their order and before all who became
  // ready later; of those that were not cancelled, none is passed over.
  lemma {:induction false} ReadyServiceIsFifo(s: State, es: seq<Event>, p: nat) returns (first: seq<Tid>)
    requires AllOk(s) && CanRun(s, es)
    ensures ServedFirst(Q(s.sched, ReadyQ(p)), first, DispatchedIn(s, es, p) + Q(Run(s, es).sched, ReadyQ(p)), es)
    decreases |es|
  {
    hide AllOk, Enabled, Step, LocksStep, Dispatched, ServedFirst, Without, Subsequence;
    var q := Q(s.sched, ReadyQ(p));
    if es == [] {
      assert DispatchedIn(s, es, p) + q == q;
      first := q;
      ServedAll(q, es);
    } else {
      StepKeeps(s, es[0]);
      EveryStepInOrder(s, es[0]);
      var s1 := Step(s, es[0]);
      var d, later := Dispatched(s.sched, s1.sched, p), DispatchedIn(s1, es[1..], p) + Q(Run(s, es).sched, ReadyQ(p));
      var first1 := ReadyServiceIsFifo(s1, es[1..], p);
      ReadyDistinct(s1, p);
      assert DispatchedIn(s, es, p) + Q(Run(s, es).sched, ReadyQ(p)) == d + later;
      first := FirstBefore(q, Q(s1.sched, ReadyQ(p)), s.sched, s1.sched, p, es, first1, later);
    }
  }

  lemma ServedAll(q: seq<Tid>, es: seq<Event>)
    ensures ServedFirst(q, q, q, es)
  {
    SubsequenceRefl(q);
  }

  lemma ReadyDistinct(s: State, p: nat)
    requires AllOk(s)
    ensures Distinct(Q(s.sched, ReadyQ(p)))
  {
  }

  // One step of the theorem above.
  lemma FirstBefore(q: seq<Tid>, q1: seq<Tid>, s: Sched, s1: Sched, p: nat, es: seq<Event>, first1: seq<Tid>,
                    later: seq<Tid>)
    returns (first: seq<Tid>)
    requires es != [] && StepInOrder(s, es[0], s1) && q == Q(s, ReadyQ(p)) && q1 == Q(s1, ReadyQ(p)) && Distinct(q1)
    requires ServedFirst(q1, first1, later, es[1..])
    ensures ServedFirst(q, first, Dispatched(s, s1, p) + later, es)
  {
    hide Subsequence, Without, Distinct;
    var d := Dispatched(s, s1, p);
    assert es == [es[0]] + es[1..];
    if es[0].CancelThread? {
      assert d + later == later;
      first := FirstCancelled(q, q1, es[0].thread, es, first1, later);
    } else if d == [] {
      assert d + q1 == q1 && d + later == later;
      first := FirstKept(q, q1, es, first1, later);
    } else if q == [] {
      first := [];
      SubsequenceRefl(q);
    } else {
      first := FirstServed(q, q1, d[0], es, first1, later);
      assert d == [d[0]];
    }
  }

  lemma FirstKept(q: seq<Tid>, q1: seq<Tid>, es: seq<Event>, first1: seq<Tid>, later: seq<Tid>)
    returns (first: seq<Tid>)
    requires es != [] && q <= q1 && Distinct(q1) && ServedFirst(q1, first1, later, es[1..])
    ensures ServedFirst(q, first, later, es)
  {
    hide Subsequence;
    var added := q1[|q|..];
    assert q1 == q + added && es == [es[0]] + es[1..];
    var f, g := SubsequenceSplit(first1, q, added);
    first := f;
    forall t | t in q && CancelThread(t) !in es ensures t in f {
      assert t in q1 && CancelThread(t) !in es[1..] && t in first1;
      Apart(q, added, t);
    }
  }

  lemma Apart(q: seq<Tid>, added: seq<Tid>, t: Tid)
    requires Distinct(q + added) && t in q
    ensures t !in added
  {
    var i :| 0 <= i < |q| && q[i] == t;
    assert (q + added)[i] == t;
    assert forall j :: 0 <= j < |added| ==> (q + added)[|q| + j] == added[j];
  }

  lemma FirstServed(q: seq<Tid>, q1: seq<Tid>, h: Tid, es: seq<Event>, first1: seq<Tid>, later: seq<Tid>)
    returns (first: seq<Tid>)
    requires es != [] && q != [] && q <= [h] + q1 && Distinct(q1) && ServedFirst(q1, first1, later, es[1..])
    ensures ServedFirst(q, first, [h] + later, es)
  {
    hide Subsequence, Distinct;
    var rest := q[1..];
    assert q == [h] + rest;
    assert rest <= q1;
    var f := FirstKept(rest, q1, es, first1, later);
    first := [h] + f;
    SubsequenceMore(f, h, rest);
  }

  lemma FirstCancelled(q: seq<Tid>, q1: seq<Tid>, c: Tid, es: seq<Event>, first1: seq<Tid>, later: seq<Tid>)
    returns (first: seq<Tid>)
    requires es != [] && es[0] == CancelThread(c) && Without(q, c) <= q1 && Distinct(q1)
             && ServedFirst(q1, first1, later, es[1..])
    ensures ServedFirst(q, first, later, es)
  {
    hide Subsequence, Distinct, Without;
    first := FirstKept(Without(q, c), q1, es, first1, later);
    assert Without(q, c) + [] == Without(q, c) && q + [] == q;
    SubsequenceWithout(first, q, c, []);
    forall t | t in q && CancelThread(t) !in es ensures t in first {
      assert t != c;
      WithoutOthers(q, c, t);
    }
  }

  lemma {:induction false} WithoutOthers(q: seq<Tid>, c: Tid, t: Tid)
    requires t in q && t != c
    ensures t in Without(q, c)
  {
    if q[0] != c && q[0] != t {
      WithoutOthers(q[1..], c, t);
    }
  }

  // Without cancel nobody is missing: all who were ready are served first, in their order.
  lemma {:induction false} ReadyServiceIsFifoWithoutCancel(s: State, es: seq<Event>, p: nat)
    requires AllOk(s) && CanRun(s, es) && forall k :: 0 <= k < |es| ==> !es[k].CancelThread?
    ensures Q(s.sched, ReadyQ(p)) <= DispatchedIn(s, es, p) + Q(Run(s, es).sched, ReadyQ(p))
    decreases |es|
  {
    hide AllOk, Enabled, Step, LocksStep, Dispatched;
    if es != [] {
      StepKeeps(s, es[0]);
      EveryStepInOrder(s, es[0]);
      var s1 := Step(s, es[0]);
      ReadyServiceIsFifoWithoutCancel(s1, es[1..], p);
      var d, later := Dispatched(s.sched, s1.sched, p), DispatchedIn(s1, es[1..], p);
      Regroup(d, later, Q(Run(s, es).sched, ReadyQ(p)));
      PrefixTrans(Q(s.sched, ReadyQ(p)), d, Q(s1.sched, ReadyQ(p)), later + Q(Run(s, es).sched, ReadyQ(p)));
    }
  }

  lemma PrefixTrans(q: seq<Tid>, d: seq<Tid>, q1: seq<Tid>, x: seq<Tid>)
    requires q <= d + q1 && q1 <= x
    ensures q <= d + x
  {
  }

  // -- semaphores --------------------------------------------------------------------------

  /** How many threads were cancelled while they waited for semaphore i. */
  ghost function CancelledIn(s: State, es: seq<Event>, i: nat): nat
    requires AllOk(s) && CanRun(s, es)
    decreases |es|
  {
    if es == [] then 0
    else
      StepKeeps(s, es[0]);
      (if es[0].CancelThread? && es[0].thread in Q(s.sched, SemQ(i)) then 1 else 0)
      + CancelledIn(Step(s, es[0]), es[1..], i)
  }

  // The balance of a semaphore over a run: what was there and was posted is still there or was
  // taken by a wait, except waits that still block and waits that were cancelled.
  lemma {:induction false} SemaphoreBalance(s: State, es: seq<Event>, i: nat)
    requires AllOk(s) && CanRun(s, es) && i in s.sems
    ensures i in Run(s, es).sems
    ensures Run(s, es).sems[i].value + multiset(es)[SemWait(i)] ==
            s.sems[i].value + multiset(es)[SemPost(i)]
            + |Q(Run(s, es).sched, SemQ(i))| - |Q(s.sched, SemQ(i))| + CancelledIn(s, es, i)
    decreases |es|
  {
    hide AllOk, Enabled, Step, LocksStep;
    if es != [] {
      StepKeeps(s, es[0]);
      var s1 := Step(s, es[0]);
      BalanceStep(s, es[0], i, s1);
      SemaphoreBalance(s1, es[1..], i);
      assert es == [es[0]] + es[1..];
      assert multiset(es) == multiset{es[0]} + multiset(es[1..]);
    }
  }

  lemma BalanceStep(s: State, e: Event, i: nat, s1: State)
    requires AllOk(s) && Enabled(s, e) && LocksStep(s, e, s1) && i in s.sems
    ensures i in s1.sems
    ensures s1.sems[i].value + (if e == SemWait(i) then 1 else 0) ==
            s.sems[i].value + (if e == SemPost(i) then 1 else 0)
            + |Q(s1.sched, SemQ(i))| - |Q(s.sched, SemQ(i))|
            + if e.CancelThread? && e.thread in Q(s.sched, SemQ(i)) then 1 else 0
  {
    hide AllOk, Ages, Without;
    assert Q(s1.sched, SemQ(i)) == QueueAfter(s, e, SemQ(i));
  }
}
