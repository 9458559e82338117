/**
 The state of the kernel as a value: threads, semaphores, device locks and alarms.

 Fields that the kernel does not have, but that say what its clients have been granted so far, are
 marked as history.
 */
module KernelState {
  import opened Options
  import opened Seqs
  import opened Time
  import opened Scheduler

  datatype Sem = Sem(
    value: int,
    initial: int,   // history: the value given to sem_init
    posts: nat,     // history: completed sem_post calls
    grants: nat)    // history: sem_wait calls that were let through

  datatype Dev = Dev(
    locked: bool,
    holders: set<Tid>)   // history: threads that were given the lock and have not returned it

  datatype Alarm = Alarm(
    exp: Time,
    period: Time,
    periodic: bool,    // ALARM_PERIODIC
    wait: bool,        // IPC_WAIT
    action: bool,      // an activation function is given
    ownerPrio: int,    // priority of the thread that made the alarm
    active: bool)

  datatype Firing = Firing(alarm: nat, time: Time)

  datatype State = State(
    sched: Sched,
    sems: map<nat, Sem>,
    devs: map<nat, Dev>,
    resuming: map<Tid, nat>,   // threads inside k_device_lock, behind or inside k_schedule_threads
    alarms: map<nat, Alarm>,
    list: seq<nat>,            // kalarms
    timer: Option<Time>,       // last interval given to arch_timer_set
    fired: seq<Firing>,        // history: alarm activations
    threshold: Time)

  /** Between system calls: every thread is in its place, one runs, and idle can run. */
  ghost predicate Running(s: State) {
    Inv(s.sched) && IdleOk(s.sched)
  }

  /** k_schedule_threads */
  ghost function Reschedule(s: State): State
    requires Core(s.sched) && IdleOk(s.sched)
  {
    IdleCanRun(s.sched);
    s.(sched := Schedule(s.sched))
  }

  lemma RescheduleRuns(s: State)
    requires Core(s.sched) && IdleOk(s.sched)
    ensures Running(Reschedule(s)) && TopRuns(Reschedule(s).sched)
    ensures SchedFrame(s.sched, Reschedule(s).sched, None) && Reschedule(s).sched.next == s.sched.next
    ensures forall q: QueueId :: !q.ReadyQ? ==> Q(Reschedule(s).sched, q) == Q(s.sched, q)
  {
    hide Core, Inv, IdleOk, TopRuns, SchedFrame, Schedule;
    IdleCanRun(s.sched);
    ScheduleKeeps(s.sched);
    ScheduleFrame(s.sched);
    ScheduleRunsTop(s.sched);
  }

  lemma RescheduleAwake(s: State, t: Tid)
    requires Core(s.sched) && IdleOk(s.sched) && Awake(s.sched, t)
    ensures Awake(Reschedule(s).sched, t)
  {
    hide Core, IdleOk, Awake;
    IdleCanRun(s.sched);
    ScheduleAwake(s.sched, t);
  }

  lemma ReleaseRuns(s: State, q: QueueId)
    requires Running(s) && Q(s.sched, q) != [] && !q.ReadyQ?
    ensures Q(s.sched, q)[0] in s.sched.threads
    ensures SchedFrame(s.sched, ReleaseFirst(s.sched, q), Some(q)) && ReleaseFirst(s.sched, q).next == s.sched.next
    ensures Q(ReleaseFirst(s.sched, q), q) == Q(s.sched, q)[1..] && Awake(ReleaseFirst(s.sched, q), Q(s.sched, q)[0])
    ensures Core(ReleaseFirst(s.sched, q)) && IdleOk(ReleaseFirst(s.sched, q))
  {
    ReleaseFirstKeeps(s.sched, q);
    ReleaseFirstFrame(s.sched, q);
  }

  lemma RescheduleFields(s: State)
    requires Core(s.sched) && IdleOk(s.sched)
    ensures Reschedule(s) == s.(sched := Reschedule(s).sched)
  {
  }

  lemma RunningPlaced(s: State)
    requires Running(s)
    ensures Placement(s.sched, None)
  {
  }

  lemma RunningFields(s: State, s': State)
    requires Running(s) && s'.sched == s.sched
    ensures Running(s')
  {
  }

  lemma DevsFields(s: State, s': State)
    requires DevsOk(s) && s'.sched == s.sched && s'.devs == s.devs && s'.resuming == s.resuming
    ensures DevsOk(s')
  {
    assert forall d :: d in s.devs ==> DevOk(s, d);
  }

  lemma BlockRuns(s: State, q: QueueId)
    requires Running(s) && IsResourceQ(q, None) && s.sched.active != Some(IDLE)
    ensures IsRunning(s.sched)
    ensures var b := BlockActive(s.sched, q);
            && Core(b) && IdleOk(b) && SchedFrame(s.sched, b, Some(q)) && b.next == s.sched.next
            && Q(b, q) == Q(s.sched, q) + [s.sched.active.value]
  {
    BlockKeeps(s.sched, q);
  }

  // -- semaphores ---------------------------------------------------------------

  function Min(a: int, b: int): int {
    if a < b then a else b
  }

  /** Nothing is lost: initial value and posts are either still there or were granted. */
  predicate Conserved(m: Sem) {
    m.initial + m.posts == m.value + m.grants && m.value >= Min(0, m.initial)
  }

  ghost predicate SemsOk(s: State) {
    && (forall i :: i in s.sems ==> Conserved(s.sems[i]) && (s.sems[i].value > 0 ==> Q(s.sched, SemQ(i)) == []))
    && (forall i: nat :: i !in s.sems ==> Q(s.sched, SemQ(i)) == [])
  }

  lemma SemsFrame(s: State, s': State, q0: Option<QueueId>)
    requires SemsOk(s) && s'.sems == s.sems && SchedFrame(s.sched, s'.sched, q0)
    requires q0.Some? ==> !q0.value.SemQ?
    ensures SemsOk(s')
  {
    forall i: nat | Q(s.sched, SemQ(i)) == [] ensures Q(s'.sched, SemQ(i)) == [] {
      EmptyStays(s.sched, s'.sched, q0, SemQ(i));
    }
  }

  lemma EmptyStays(s: Sched, s': Sched, q0: Option<QueueId>, q: QueueId)
    requires SchedFrame(s, s', q0) && IsResourceQ(q, q0) && Q(s, q) == []
    ensures Q(s', q) == []
  {
    if Q(s', q) != [] {
      HasMember(Q(s', q));
    }
  }

  // -- device locks --------------------------------------------------------------

  /** A thread that has not ended and is inside k_device_lock waits in the queue or has the lock. */
  ghost predicate DevOk(s: State, d: nat)
    requires d in s.devs
  {
    var dev := s.devs[d];
    && (dev.locked <==> dev.holders != {})
    && (forall t, u :: t in dev.holders && u in dev.holders ==> t == u)
    && (!dev.locked ==> Q(s.sched, DevQ(d)) == [])
    && (forall t :: t in Q(s.sched, DevQ(d)) ==> t in s.resuming && s.resuming[t] == d)
    && (forall t :: t in s.resuming && s.resuming[t] == d && Live(s.sched, t) ==>
          t in Q(s.sched, DevQ(d)) || t in dev.holders)
  }

  ghost predicate DevsOk(s: State) {
    && (forall d :: d in s.devs ==> DevOk(s, d))
    && (forall d: nat :: d !in s.devs ==> Q(s.sched, DevQ(d)) == [])
    && (forall t :: t in s.resuming ==> t < s.sched.next && s.resuming[t] in s.devs)
  }

  lemma DevsFrame(s: State, s': State, q0: Option<QueueId>)
    requires DevsOk(s) && s'.devs == s.devs && s'.resuming == s.resuming && SchedFrame(s.sched, s'.sched, q0)
    requires q0.Some? ==> !q0.value.DevQ?
    ensures DevsOk(s')
  {
    forall d: nat | Q(s.sched, DevQ(d)) == [] ensures Q(s'.sched, DevQ(d)) == [] {
      EmptyStays(s.sched, s'.sched, q0, DevQ(d));
    }
    forall d | d in s'.devs ensures DevOk(s', d) {
      assert DevOk(s, d);
      forall t | t in s'.resuming && s'.resuming[t] == d && Live(s'.sched, t)
        ensures t in Q(s'.sched, DevQ(d)) || t in s'.devs[d].holders
      {
        assert Live(s.sched, t);
      }
    }
  }
}

/** kernel/semaphore.c */
module Semaphores {
  import opened Options
  import opened Scheduler
  import opened KernelState

  /** sys__sem_init; the new semaphore gets the unused name i. */
  function Init(s: State, i: nat, value: int): State {
    s.(sems := s.sems[i := Sem(value, value, 0, 0)])
  }

  /** sys__sem_post */
  ghost function Post(s: State, i: nat): State
    requires Running(s) && i in s.sems
  {
    var m := s.sems[i];
    if Q(s.sched, SemQ(i)) == [] then
      s.(sems := s.sems[i := m.(value := m.value + 1, posts := m.posts + 1)])
    else
      PostReady(s, i);
      Reschedule(s.(sched := ReleaseFirst(s.sched, SemQ(i)),
                    sems := s.sems[i := m.(posts := m.posts + 1, grants := m.grants + 1)]))
  }

  /** sys__sem_wait; the idle thread makes no system calls. */
  ghost function Wait(s: State, i: nat): State
    requires Running(s) && i in s.sems && s.sched.active != Some(IDLE)
  {
    var m := s.sems[i];
    if m.value > 0 then
      s.(sems := s.sems[i := m.(value := m.value - 1, grants := m.grants + 1)])
    else
      BlockKeeps(s.sched, SemQ(i));
      Reschedule(s.(sched := BlockActive(s.sched, SemQ(i))))
  }

  lemma PostReady(s: State, i: nat)
    requires Running(s) && Q(s.sched, SemQ(i)) != []
    ensures Q(s.sched, SemQ(i))[0] in s.sched.threads
    ensures Core(ReleaseFirst(s.sched, SemQ(i))) && IdleOk(ReleaseFirst(s.sched, SemQ(i)))
  {
    ReleaseFirstKeeps(s.sched, SemQ(i));
    ReleaseFirstFrame(s.sched, SemQ(i));
  }

  // A post hands the unit to the thread that waits longest, or stores it if nobody waits.
  lemma PostKeeps(s: State, i: nat)
    requires Running(s) && SemsOk(s) && DevsOk(s) && i in s.sems
    ensures var s' := Post(s, i);
            && Running(s') && SemsOk(s') && DevsOk(s') && s'.sched.next == s.sched.next
            && SchedFrame(s.sched, s'.sched, Some(SemQ(i)))
            && (Q(s.sched, SemQ(i)) != [] ==>
                  && Q(s'.sched, SemQ(i)) == Q(s.sched, SemQ(i))[1..] && Awake(s'.sched, Q(s.sched, SemQ(i))[0])
                  && s'.sems[i].value == s.sems[i].value && TopRuns(s'.sched))
            && (Q(s.sched, SemQ(i)) == [] ==> s'.sched == s.sched && s'.sems[i].value == s.sems[i].value + 1)
  {
    if Q(s.sched, SemQ(i)) != [] {
      PostHandsOver(s, i);
    } else {
      FrameRefl(s.sched, Some(SemQ(i)));
      DevsFields(s, Post(s, i));
    }
  }

  lemma PostHandsOver(s: State, i: nat)
    requires Running(s) && SemsOk(s) && DevsOk(s) && i in s.sems && Q(s.sched, SemQ(i)) != []
    ensures var s' := Post(s, i);
            && Running(s') && SemsOk(s') && DevsOk(s') && s'.sched.next == s.sched.next
            && SchedFrame(s.sched, s'.sched, Some(SemQ(i)))
            && Q(s'.sched, SemQ(i)) == Q(s.sched, SemQ(i))[1..] && Awake(s'.sched, Q(s.sched, SemQ(i))[0])
            && s'.sems[i].value == s.sems[i].value && TopRuns(s'.sched)
  {
    hide Running, Inv, Core, IdleOk, DevsOk, Reschedule, ReleaseFirst, TopRuns, SchedFrame, Awake;
    var q, m := SemQ(i), s.sems[i];
    PostReady(s, i);
    ReleaseRuns(s, q);
    var s1 := s.(sched := ReleaseFirst(s.sched, q),
                 sems := s.sems[i := m.(posts := m.posts + 1, grants := m.grants + 1)]);
    RescheduleRuns(s1);
    RescheduleFields(s1);
    RescheduleAwake(s1, Q(s.sched, q)[0]);
    var s' := Reschedule(s1);
    FrameSub(s1.sched, s'.sched, Some(q));
    RunningPlaced(s);
    FrameTrans(s.sched, s1.sched, s'.sched, Some(q));
    DevsFrame(s, s', Some(q));
    SemsFrameBut(s, s', i);
  }

  // Only the semaphore i and its queue change.
  lemma SemsFrameBut(s: State, s': State, i: nat)
    requires SemsOk(s) && SchedFrame(s.sched, s'.sched, Some(SemQ(i)))
    requires i in s.sems && s'.sems.Keys == s.sems.Keys && forall j :: j in s.sems && j != i ==> s'.sems[j] == s.sems[j]
    requires Conserved(s'.sems[i]) && (s'.sems[i].value > 0 ==> Q(s'.sched, SemQ(i)) == [])
    ensures SemsOk(s')
  {
    forall j: nat | j != i && Q(s.sched, SemQ(j)) == [] ensures Q(s'.sched, SemQ(j)) == [] {
      EmptyStays(s.sched, s'.sched, Some(SemQ(i)), SemQ(j));
    }
  }

  // A wait takes a stored unit, or blocks behind the threads that wait already.
  lemma WaitKeeps(s: State, i: nat)
    requires Running(s) && SemsOk(s) && DevsOk(s) && i in s.sems && s.sched.active != Some(IDLE)
    ensures var s' := Wait(s, i);
            && Running(s') && SemsOk(s') && DevsOk(s') && s'.sched.next == s.sched.next
            && SchedFrame(s.sched, s'.sched, Some(SemQ(i)))
            && (s.sems[i].value <= 0 ==>
                  && Q(s'.sched, SemQ(i)) == Q(s.sched, SemQ(i)) + [s.sched.active.value]
                  && s'.sems == s.sems && TopRuns(s'.sched))
            && (s.sems[i].value > 0 ==> s'.sched == s.sched && s'.sems[i].value == s.sems[i].value - 1)
  {
    hide Running, Inv, Core, IdleOk, DevsOk, Reschedule, BlockActive, TopRuns, SchedFrame;
    var q := SemQ(i);
    if s.sems[i].value <= 0 {
      BlockRuns(s, q);
      var s1 := s.(sched := BlockActive(s.sched, q));
      RescheduleRuns(s1);
      RescheduleFields(s1);
      var s' := Reschedule(s1);
      FrameSub(s1.sched, s'.sched, Some(q));
      RunningPlaced(s);
      FrameTrans(s.sched, s1.sched, s'.sched, Some(q));
      DevsFrame(s, s', Some(q));
      SemsFrameBut(s, s', i);
    } else {
      FrameRefl(s.sched, Some(q));
      RunningFields(s, Wait(s, i));
      DevsFields(s, Wait(s, i));
    }
  }
}
