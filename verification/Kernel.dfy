/**
 The kernel as it runs: global variables and linked lists changed in place by the functions of
 kernel/thread.c, kernel/semaphore.c, kernel/devices.c and kernel/time.c.  Each method is proved to
 do what the function of the same purpose in the value model does.
 */
module Kernel {
  import opened Options
  import opened Seqs
  import opened Time
  import opened SortedInsert
  import opened Scheduler
  import opened KernelState
  import opened Alarms
  import opened Lists
  import opened ReadyList
  import opened Safety
  import opened AlarmFrames
  import opened AlarmEffects
  import Runs
  import ThreadCalls
  import Semaphores
  import Devices

  const EMPTY: Sched := Sched(map[], map[], None, 0)

  datatype AlarmList = KALARMS

  /** Queued threads have descriptors, and priorities are levels of the ready list. */
  ghost predicate Bounded(s: Sched) {
    QueuedExist(s) && forall t :: t in s.threads ==> s.threads[t].prio < PRIO_LEVELS
  }

  /** Thread t is in no queue. */
  ghost predicate InNoQueue(s: Sched, t: Tid) {
    forall q :: t !in Q(s, q)
  }

  lemma CoreBounded(s: Sched)
    requires Core(s)
    ensures Bounded(s) && InNoQueue(s, s.next)
  {
    assert forall q, t :: t in Q(s, q) ==> Placed(s, t, q);
  }

  lemma RunningLoose(s: Sched)
    requires Core(s) && IsRunning(s)
    ensures InNoQueue(s, s.active.value)
  {
    assert forall q, t :: t in Q(s, q) ==> Placed(s, t, q);
  }

  lemma RunningFacts(s: State)
    requires Running(s)
    ensures Bounded(s.sched) && QueuedExist(s.sched) && IsRunning(s.sched) && Core(s.sched) && IdleOk(s.sched)
    ensures InNoQueue(s.sched, s.sched.next) && InNoQueue(s.sched, s.sched.active.value)
  {
    CoreBounded(s.sched);
    RunningLoose(s.sched);
  }

  lemma SameBounded(s: Sched, s': Sched)
    requires Bounded(s) && s'.queues == s.queues && s'.threads.Keys == s.threads.Keys
    requires forall t :: t in s.threads ==> s'.threads[t].prio == s.threads[t].prio
    ensures Bounded(s') && QueuedExist(s)
  {
    assert forall q :: Q(s', q) == Q(s, q);
  }

  class Kernel {
    const queues: Queues                  // ready_q, rdy_mask and the queues inside other objects
    const kalarms: Lists<AlarmList, nat>  // the list of active alarms

    var threads: map<Tid, Thread>         // all_threads and their descriptors
    var active: Option<Tid>               // active_thread
    var next: Tid

    var sems: map<nat, Sem>
    var devs: map<nat, Dev>
    var resuming: map<Tid, nat>

    var alarms: map<nat, Alarm>
    var timer: Option<Time>
    var fired: seq<Firing>
    var threshold: Time

    ghost function Threads(): Sched
      reads this, queues, queues.lists
    {
      Sched(threads, queues.Contents(), active, next)
    }

    ghost function List(): seq<nat>
      reads kalarms
    {
      kalarms.Contents(KALARMS)
    }

    /** The state of the value model. */
    ghost function Value(): State
      reads this, queues, queues.lists, kalarms
    {
      State(Threads(), sems, devs, resuming, alarms, List(), timer, fired, threshold)
    }

    /** The lists are linked, and the bitmap over the ready queues is exact. */
    ghost predicate Valid()
      reads this, queues, queues.Repr, kalarms, kalarms.Repr
    {
      && queues.Valid() && queues in queues.Repr && queues.lists in queues.Repr
      && kalarms.Valid() && kalarms in kalarms.Repr
      && queues.Repr !! kalarms.Repr && this !in queues.Repr && this !in kalarms.Repr
    }

    predicate IsActive()
      reads this
    {
      active.Some? && active.value in threads && threads[active.value].state == Active
    }

    /** k_time_init, k_devices_init and init_ready_list */
    constructor (devices: set<nat>, interval: Time)
      requires InRange(interval) && interval.sec >= 0
      ensures Valid() && fresh(queues.Repr) && fresh(kalarms.Repr)
      ensures Value() == BootState(0, devices, interval).(sched := EMPTY)
    {
      queues := new Queues();
      kalarms := new Lists<AlarmList, nat>();
      threads, active, next := map[], None, 0;
      sems, devs, resuming := map[], map d | d in devices :: Dev(false, {}), map[];
      alarms, timer, fired, threshold := map[], None, [], Half(interval);
    }

    // -- kernel/thread.c ------------------------------------------------------------

    /** get_top_ready */
    method GetTopReady() returns (first: int)
      requires Valid()
      ensures first == TopReady(Threads())
    {
      hide Queues.Valid, Lists.Valid;
      first := queues.Top();
      assert forall q :: Q(Threads(), q) == At(queues.Contents(), q);
    }

    /** move_to_ready */
    method MoveToReady(t: Tid)
      requires Valid() && t in threads && threads[t].prio < PRIO_LEVELS && InNoQueue(Threads(), t)
      modifies this, queues.Repr
      ensures Valid() && fresh(queues.Repr - old(queues.Repr))
      ensures Value() == old(Value()).(sched := Scheduler.MoveToReady(old(Threads()), t))
    {
      hide Queues.Valid, Lists.Valid;
      IsLoose(t);
      var p := threads[t].prio;
      threads := threads[t := threads[t].(state := Ready, queue := Some(ReadyQ(p)))];
      queues.AppendReady(p, t);
    }

    lemma IsLoose(t: Tid)
      requires InNoQueue(Threads(), t)
      ensures queues.Loose(t)
    {
      forall q ensures t !in At(queues.Contents(), q) {
        assert Q(Threads(), q) == At(queues.Contents(), q);
      }
    }

    /** The removal of the first thread of ready queue p, which becomes active. */
    method Activate(p: nat)
      requires Valid() && p < PRIO_LEVELS && Q(Threads(), ReadyQ(p)) != [] && Q(Threads(), ReadyQ(p))[0] in threads
      modifies this, queues.Repr
      ensures Valid() && queues.Repr == old(queues.Repr)
      ensures Value() == old(Value()).(sched := Scheduler.Activate(old(Threads()), p))
    {
      hide Queues.Valid, Lists.Valid;
      assert Q(Threads(), ReadyQ(p)) == At(queues.Contents(), ReadyQ(p));
      var t := queues.RemoveReady(p);
      active := Some(t);
      threads := threads[t := threads[t].(state := Active, queue := None)];
    }

    /** k_schedule_threads */
    method ScheduleThreads()
      requires Valid() && Core(Threads()) && IdleOk(Threads())
      modifies this, queues.Repr
      ensures Valid() && fresh(queues.Repr - old(queues.Repr))
      ensures Value() == Reschedule(old(Value()))
    {
      hide Queues.Valid, Lists.Valid, Core, IdleOk, TopBelow, InNoQueue;
      IdleCanRun(Threads());
      CoreBounded(Threads());
      var first := GetTopReady();
      var running := IsActive();
      if !running || first >= threads[active.value].prio {
        if running {
          RunningLoose(Threads());
          MoveToReady(active.value);
        }
        Activate(first);
      }
    }

    /** k_enqueue_thread for the active thread */
    method EnqueueThread(q: QueueId)
      requires Valid() && IsRunning(Threads()) && !q.ReadyQ? && InNoQueue(Threads(), active.value)
      modifies this, queues.Repr
      ensures Valid() && fresh(queues.Repr - old(queues.Repr))
      ensures Value() == old(Value()).(sched := BlockActive(old(Threads()), q))
    {
      hide Queues.Valid, Lists.Valid;
      var t := active.value;
      IsLoose(t);
      threads := threads[t := threads[t].(state := Wait, queue := Some(q))];
      queues.Append(q, t);
    }

    /** k_release_thread */
    method ReleaseThread(q: QueueId) returns (released: bool)
      requires Valid() && Bounded(Threads()) && !q.ReadyQ?
      modifies this, queues.Repr
      ensures Valid() && fresh(queues.Repr - old(queues.Repr)) && released == (Q(old(Threads()), q) != [])
      ensures Value() == old(Value()).(sched := ReleaseOne(old(Threads()), q))
    {
      hide Queues.Valid, Lists.Valid;
      assert forall o :: Q(Threads(), o) == At(queues.Contents(), o);
      var first := queues.First(q);
      released := first.Some?;
      if released {
        assert Q(Threads(), q)[0] in Q(Threads(), q);
        var t := queues.RemoveFirst(q);
        assert forall o :: Q(Threads(), o) == At(queues.Contents(), o);
        MoveToReady(t);
      }
    }

    /** k_release_all_threads */
    method ReleaseAllThreads(q: QueueId) returns (cnt: nat)
      requires Valid() && Bounded(Threads()) && !q.ReadyQ?
      modifies this, queues.Repr
      ensures Valid() && fresh(queues.Repr - old(queues.Repr)) && cnt == |Q(old(Threads()), q)|
      ensures Value() == old(Value()).(sched := ReleaseAll(old(Threads()), q))
    {
      hide Queues.Valid, Lists.Valid, Bounded;
      cnt := 0;
      ghost var s := Threads();
      ReleaseOneBounded(s, q);
      var released := true;
      while released
        invariant Valid() && fresh(queues.Repr - old(queues.Repr))
        invariant Bounded(Threads()) && !q.ReadyQ? && QueuedExist(Threads()) && QueuedExist(s)
        invariant ReleaseAll(Threads(), q) == ReleaseAll(s, q) && Value() == old(Value()).(sched := Threads())
        invariant cnt + |Q(Threads(), q)| == |Q(s, q)|
        invariant !released ==> Q(Threads(), q) == []
        decreases |Q(Threads(), q)|, released
      {
        ReleaseOneBounded(Threads(), q);
        released := ReleaseThread(q);
        if released {
          cnt := cnt + 1;
        }
      }
    }

    /** k_create_thread */
    method CreateThread(prio: int, run: bool) returns (t: Tid)
      requires Valid() && InNoQueue(Threads(), next)
      modifies this, queues.Repr
      ensures Valid() && fresh(queues.Repr - old(queues.Repr)) && t == old(next)
      ensures Value() == old(Value()).(sched := Scheduler.CreateThread(old(Threads()), prio, run))
    {
      hide Queues.Valid, Lists.Valid;
      t := next;
      next := next + 1;
      var level := prio;
      if level < 0 { level := 0; }
      if level >= PRIO_LEVELS { level := PRIO_LEVELS - 1; }
      threads := threads[t := Thread(Passive, level, None, 0, 0)];
      if run {
        assert forall q :: Q(Threads(), q) == Q(old(Threads()), q);
        Run(t);
      }
    }

    /** The part of k_create_thread for a thread that is to run. */
    method Run(t: Tid)
      requires Valid() && t in threads && threads[t].prio < PRIO_LEVELS && InNoQueue(Threads(), t)
      modifies this, queues.Repr
      ensures Valid() && fresh(queues.Repr - old(queues.Repr))
      ensures var s := Scheduler.MoveToReady(old(Threads()), t);
              Value() == old(Value()).(sched := SetThread(s, t, s.threads[t].(refCnt := 1)))
    {
      hide Queues.Valid, Lists.Valid, InNoQueue;
      MoveToReady(t);
      threads := threads[t := threads[t].(refCnt := 1)];
    }

    /** k_threads_init */
    method ThreadsInit(prio: int, ghost devices: set<nat>, ghost interval: Time)
      requires InRange(interval) && interval.sec >= 0
      requires Valid() && Value() == BootState(0, devices, interval).(sched := EMPTY)
      modifies this, queues.Repr
      ensures Valid() && fresh(queues.Repr - old(queues.Repr)) && Value() == Boot(prio, devices, interval)
    {
      hide Queues.Valid, Lists.Valid, Core, IdleOk, Scheduler.CreateThread, InNoQueue;
      EmptyLoose();
      var idle := CreateThread(0, true);
      var first := CreateThread(if prio == 0 then THR_DEFAULT_PRIO else prio, true);
      BootReady(prio);
      assert Value() == BootState(prio, devices, interval);
      ScheduleThreads();
    }

    /** k_remove_thread_descriptor; its id is not modelled here. */
    method RemoveThreadDescriptor(t: Tid)
      requires Valid()
      modifies this, queues.Repr
      ensures Valid() && queues.Repr == old(queues.Repr)
      ensures Value() == old(Value()).(sched := RemoveDescriptor(old(Threads()), t))
    {
      hide Queues.Valid, Lists.Valid;
      threads := threads - {t};
      queues.Drop(JoinQ(t));
    }

    /** k_remove_thread */
    method RemoveThread(t: Tid)
      requires Valid() && t in threads && Bounded(Threads())
      modifies this, queues.Repr
      ensures Valid() && fresh(queues.Repr - old(queues.Repr))
      ensures Value() == old(Value()).(sched := Scheduler.RemoveThread(old(Threads()), t))
    {
      hide Queues.Valid, Lists.Valid, ReleaseAll;
      threads := threads[t := threads[t].(state := Passive, refCnt := threads[t].refCnt - 1)];
      if threads[t].refCnt == 0 {
        RemoveThreadDescriptor(t);
      } else {
        SameBounded(old(Threads()), Threads());
        var cnt := ReleaseAllThreads(JoinQ(t));
      }
    }

    // -- system calls of kernel/thread.c ----------------------------------------------

    /** sys__create_thread */
    method SysCreateThread(prio: int) returns (t: Tid)
      requires Valid() && Running(Value())
      modifies this, queues.Repr
      ensures Valid() && fresh(queues.Repr - old(queues.Repr))
      ensures t == old(next) && Value() == ThreadCalls.Create(old(Value()), prio)
    {
      hide Queues.Valid, Lists.Valid, SchedFrame, Running, Core, IdleOk, Scheduler.CreateThread, Reschedule,
           InNoQueue, Bounded;
      RunningFacts(Value());
      ThreadCalls.CreateRuns(Value(), prio);
      t := CreateThread(prio, true);
      ScheduleThreads();
    }

    /** sys__thread_exit */
    method SysThreadExit(status: int)
      requires Valid() && Running(Value()) && active != Some(IDLE)
      modifies this, queues.Repr
      ensures Valid() && fresh(queues.Repr - old(queues.Repr))
      ensures Value() == ThreadCalls.ExitThread(old(Value()), status)
    {
      hide Queues.Valid, Lists.Valid, SchedFrame, Running, Core, IdleOk, Scheduler.RemoveThread, Reschedule,
           InNoQueue, Bounded;
      RunningFacts(Value());
      ThreadCalls.ExitRuns(Value(), status);
      var t := active.value;
      threads := threads[t := threads[t].(exitStatus := status)];
      SameBounded(old(Threads()), Threads());
      RemoveThread(t);
      active := None;
      ScheduleThreads();
    }

    /** sys__wait_for_thread */
    method SysWaitForThread(t: Tid, wait: bool) returns (r: JoinResult)
      requires Valid() && Running(Value()) && active != Some(IDLE)
      modifies this, queues.Repr
      ensures Valid() && fresh(queues.Repr - old(queues.Repr))
      ensures if t !in old(threads) then r == Gone
              else if old(threads[t]).state == Passive then r == Status(old(threads[t]).exitStatus)
              else r == if wait then Blocked else NotFinished
      ensures Value() == ThreadCalls.JoinThread(old(Value()), t, wait)
    {
      hide Queues.Valid, Lists.Valid, SchedFrame, Running, Core, IdleOk, Reschedule, Append, RemoveDescriptor,
           InNoQueue, Bounded;
      RunningFacts(Value());
      ThreadCalls.JoinRuns(Value(), t, wait);
      if t !in threads {
        r := Gone;
      } else if threads[t].state != Passive && !wait {
        r := NotFinished;
      } else if threads[t].state != Passive {
        r := Blocked;
        CountReference(t, 1);
        EnqueueThread(JoinQ(t));
        ScheduleThreads();
      } else {
        r := Status(threads[t].exitStatus);
        CountReference(t, -1);
        if threads[t].refCnt == 0 {
          RemoveThreadDescriptor(t);
        }
      }
    }

    method CountReference(t: Tid, n: int)
      requires Valid() && t in threads
      modifies this`threads
      ensures Valid()
      ensures Threads() == SetThread(old(Threads()), t, old(threads[t]).(refCnt := old(threads[t]).refCnt + n))
      ensures forall u :: InNoQueue(old(Threads()), u) ==> InNoQueue(Threads(), u)
    {
      hide Queues.Valid, Lists.Valid;
      threads := threads[t := threads[t].(refCnt := threads[t].refCnt + n)];
      assert forall q :: Q(Threads(), q) == Q(old(Threads()), q);
    }

    /** sys__cancel_thread; false if the thread is the caller itself. */
    method SysCancelThread(t: Tid) returns (ok: bool)
      requires Valid() && Running(Value()) && t != IDLE
      modifies this, queues.Repr
      ensures Valid() && fresh(queues.Repr - old(queues.Repr))
      ensures ok == (Some(t) != old(active)) && Value() == ThreadCalls.CancelThread(old(Value()), t)
    {
      hide Queues.Valid, Lists.Valid, SchedFrame, Running, Core, IdleOk, Scheduler.RemoveThread, Bounded, Without,
           Placement, InNoQueue;
      RunningFacts(Value());
      RunningPlaced(Value());
      OnlyOneActive(Value(), t);
      ok := !(t in threads && threads[t].state == Active);
      if t in threads && IsQueued(threads[t]) && threads[t].queue.Some? {
        QueuedIsPlaced(Threads(), t);
        TakeFromQueue(t, threads[t].queue.value);
        ghost var s := Threads();
        threads := threads[t := threads[t].(exitStatus := -E_CANCELED)];
        SameBounded(s, Threads());
        RemoveThread(t);
      }
    }

    /** The removal of a thread from its queue, with the update of the bitmap. */
    method TakeFromQueue(t: Tid, q: QueueId)
      requires Valid() && Bounded(Threads()) && Placed(Threads(), t, q) && t in Q(Threads(), q)
      modifies this, queues.Repr
      ensures Valid() && Bounded(Threads()) && queues.Repr == old(queues.Repr)
      ensures Value() == old(Value()).(sched := SetQueue(old(Threads()), q, Without(Q(old(Threads()), q), t)))
    {
      hide Queues.Valid, Lists.Valid, Without;
      CancelExist(Threads(), t, q);
      assert Q(Threads(), q) == At(queues.Contents(), q);
      queues.Remove(q, t);
    }

    // -- kernel/semaphore.c -----------------------------------------------------------

    /** sys__sem_init: the new semaphore is balanced and nobody waits for it. */
    method SemInit(i: nat, value: int)
      requires Valid()
      modifies this`sems
      ensures Valid() && Value() == Semaphores.Init(old(Value()), i, value)
      ensures old(SemsOk(Value()) && i !in sems) ==>
                      SemsOk(Value()) && sems[i].value == value && Q(Threads(), SemQ(i)) == []
    {
      hide Queues.Valid, Lists.Valid;
      sems := sems[i := Sem(value, value, 0, 0)];
    }

    /** sys__sem_post */
    method SemPost(i: nat)
      requires Valid() && Running(Value()) && i in sems
      modifies this, queues.Repr
      ensures Valid() && fresh(queues.Repr - old(queues.Repr))
      ensures Value() == Semaphores.Post(old(Value()), i)
    {
      hide Queues.Valid, Lists.Valid, SchedFrame, Running, Core, IdleOk, Reschedule, Bounded, ReleaseFirst,
           InNoQueue, Awake;
      RunningFacts(Value());
      var m := sems[i];
      var released := ReleaseThread(SemQ(i));
      if !released {
        sems := sems[i := m.(value := m.value + 1, posts := m.posts + 1)];
      } else {
        Semaphores.PostReady(old(Value()), i);
        sems := sems[i := m.(posts := m.posts + 1, grants := m.grants + 1)];
        ScheduleThreads();
      }
    }

    /** sys__sem_wait */
    method SemWait(i: nat)
      requires Valid() && Running(Value()) && i in sems && active != Some(IDLE)
      modifies this, queues.Repr
      ensures Valid() && fresh(queues.Repr - old(queues.Repr))
      ensures Value() == Semaphores.Wait(old(Value()), i)
    {
      hide Queues.Valid, Lists.Valid, SchedFrame, Running, Core, IdleOk, Reschedule, Bounded, BlockActive, InNoQueue;
      if sems[i].value > 0 {
        sems := sems[i := sems[i].(value := sems[i].value - 1, grants := sems[i].grants + 1)];
      } else {
        RunningFacts(Value());
        BlockRuns(Value(), SemQ(i));
        EnqueueThread(SemQ(i));
        ScheduleThreads();
      }
    }

    // -- kernel/devices.c -------------------------------------------------------------

    /** k_device_lock up to k_schedule_threads; false if the device is locked and the caller does not
        wait. */
    method DeviceLock(d: nat, wait: bool) returns (entered: bool)
      requires Valid() && Running(Value()) && d in devs && active != Some(IDLE)
      modifies this, queues.Repr
      ensures Valid() && fresh(queues.Repr - old(queues.Repr)) && entered == (wait || !old(devs[d]).locked)
      ensures Value() == Devices.Lock(old(Value()), d, wait)
    {
      hide Queues.Valid, Lists.Valid, SchedFrame, Running, Core, IdleOk, Reschedule, Bounded, BlockActive, InNoQueue;
      if !wait && devs[d].locked {
        return false;
      }
      entered := true;
      RunningFacts(Value());
      if devs[d].locked {
        BlockRuns(Value(), DevQ(d));
        resuming := resuming[active.value := d];
        EnqueueThread(DevQ(d));
        ScheduleThreads();
      } else {
        devs := devs[d := Dev(true, devs[d].holders + {active.value})];
      }
    }

    /** The rest of k_device_lock for a thread that had to wait.  If the kernel is in order, the
        thread is already the only holder, and setting the flag changes nothing. */
    method DeviceResume()
      requires Valid() && IsRunning(Threads()) && active.value in resuming && resuming[active.value] in devs
      modifies this`devs, this`resuming
      ensures Valid() && Value() == Devices.Resume(old(Value()))
      ensures old(AllOk(Value())) ==>
                      AllOk(Value()) && devs == old(devs)
                      && devs[old(resuming[active.value])] == Dev(true, {active.value})
    {
      hide Queues.Valid, Lists.Valid, AllOk;
      if AllOk(Value()) {
        Resumed(Value(), active.value);
      }
      var d := resuming[active.value];
      devs := devs[d := devs[d].(locked := true)];
      resuming := resuming - {active.value};
    }

    /** k_device_unlock */
    method DeviceUnlock(d: nat)
      requires Valid() && Running(Value()) && d in devs
      modifies this, queues.Repr
      ensures Valid() && fresh(queues.Repr - old(queues.Repr))
      ensures Value() == Devices.Unlock(old(Value()), d)
    {
      hide Queues.Valid, Lists.Valid, SchedFrame, Running, Core, IdleOk, Reschedule, Bounded, ReleaseFirst,
           InNoQueue, Awake;
      RunningFacts(Value());
      var t := active.value;
      var first := FirstWaiting(DevQ(d));
      var released := ReleaseThread(DevQ(d));
      if released {
        ReleaseRuns(old(Value()), DevQ(d));
        devs := devs[d := devs[d].(holders := devs[d].holders - {t} + {first.value})];
        ScheduleThreads();
      } else {
        devs := devs[d := Dev(false, devs[d].holders - {t})];
      }
    }

    method FirstWaiting(q: QueueId) returns (t: Option<Tid>)
      requires Valid()
      ensures t == if Q(Threads(), q) == [] then None else Some(Q(Threads(), q)[0])
    {
      hide Queues.Valid, Lists.Valid;
      assert Q(Threads(), q) == At(queues.Contents(), q);
      t := queues.First(q);
    }

    // -- kernel/time.c ----------------------------------------------------------------

    /** The first alarm leaves the list; a periodic one is put back with its next time. */
    method AdvanceFirst() returns (a: nat, al: Alarm)
      requires Valid() && List() != [] && List()[0] in alarms
      modifies this`alarms, this`fired, kalarms.Repr
      ensures Valid() && fresh(kalarms.Repr - old(kalarms.Repr)) && a == old(List())[0] && al == old(alarms)[a]
      ensures alarms == old(alarms)[a := Advance(old(alarms)[a])] && List() == NextList(old(List()), old(alarms))
      ensures fired == old(fired) + [Firing(a, old(alarms)[a].exp)]
    {
      hide Queues.Valid, Lists.Valid, InsertAt, SortAddPos;
      a := kalarms.RemoveFirst(KALARMS);
      al := alarms[a];
      fired := fired + [Firing(a, al.exp)];
      if al.periodic {
        alarms := alarms[a := al.(exp := Add(al.exp, al.period))];
        kalarms.SortAdd(KALARMS, a, ByTime(alarms));
      } else {
        alarms := alarms[a := al.(active := false)];
      }
    }

    /** The threads for an activated alarm; returns how many it makes ready. */
    method WakeThreads(a: nat, al: Alarm) returns (resched: nat)
      requires Valid() && Inv(Threads())
      modifies this, queues.Repr
      ensures Valid() && fresh(queues.Repr - old(queues.Repr))
      ensures Value() == old(Value()).(sched := Wake(old(Threads()), al, a))
      ensures resched == Woken(old(Threads()), al, a)
    {
      hide Queues.Valid, Lists.Valid, Core, SchedFrame, Bounded, ReleaseAll, Scheduler.CreateThread, InNoQueue;
      WakeReady(Threads(), al, a);
      WakeBounded(Threads(), al, a);
      resched := 0;
      if al.action {
        var t := CreateThread(al.ownerPrio + 1, true);
        resched := 1;
      }
      var cnt := ReleaseAllThreads(AlarmQ(a));
      resched := resched + cnt;
    }

    /** One iteration of the loop in k_schedule_alarms: the first alarm is activated.  Returns how
        many threads that makes ready. */
    method ActivateFirst() returns (resched: nat)
      requires Valid() && AllOk(Value()) && List() != [] && List()[0] in alarms
      modifies this, queues.Repr, kalarms.Repr
      ensures Valid() && fresh(queues.Repr - old(queues.Repr)) && fresh(kalarms.Repr - old(kalarms.Repr))
      ensures Value() == FireFirst(old(Value()))
      ensures next == old(next) + if old(alarms[List()[0]]).action then 1 else 0
      ensures |ReadySet(Threads())| == |ReadySet(old(Threads()))| + resched
      ensures resched == Woken(old(Threads()), old(alarms[List()[0]]), old(List()[0]))
    {
      hide ClockRun, Quiet, Yields, ReadySet, Queues.Valid, Lists.Valid, AllOk, Running, Inv, IdleOk, NextList,
           Advance, Wake, Woken;
      AllRunning(Value());
      FireKeeps(Value());
      WokenIs(Threads(), alarms[List()[0]], List()[0]);
      var a, al := AdvanceFirst();
      resched := WakeThreads(a, al);
    }

    /** k_schedule_alarms */
    method ScheduleAlarms(now: Time) returns (resched: nat)
      requires Valid() && AllOk(Value()) && InRange(now)
      modifies this, queues.Repr, kalarms.Repr
      ensures Valid() && fresh(queues.Repr - old(queues.Repr)) && fresh(kalarms.Repr - old(kalarms.Repr))
      ensures LoopResult(Value(), resched) == Alarms.ScheduleAlarms(old(Value()), now)
      ensures |ReadySet(Threads())| == |ReadySet(old(Threads()))| + resched
      ensures old(AllValid(alarms) && InRange(threshold))
      ensures ClockRun(old(alarms), old(Value()), Value(), Add(now, old(threshold)), None)
      ensures resched == 0 <==> Quiet(old(alarms), old(Threads()), Add(now, old(threshold)))
    {
      hide ClockRun, Quiet, Yields, ReadySet, Queues.Valid, Lists.Valid, AllOk, Running, Woken, Lag, FireFirst,
           Lists.Contents, AlarmLoop;
      ThresholdOk(Value());
      ScheduleClock(Value(), now);
      var ref := Add(now, threshold);
      resched := 0;
      ghost var s := Value();
      var first := FirstAlarm();
      while first.Some?
        invariant Valid() && fresh(queues.Repr - old(queues.Repr)) && fresh(kalarms.Repr - old(kalarms.Repr))
        invariant AllOk(Value()) && AllOk(s) && InRange(ref)
        invariant first == if List() == [] then None else Some(List()[0])
        invariant AlarmLoop(s, ref) ==
                  LoopResult(AlarmLoop(Value(), ref).state, resched + AlarmLoop(Value(), ref).resched)
        decreases Lag(List(), alarms, ref)
      {
        LoopFirst(Value());
        if Cmp(alarms[first.value].exp, ref) > 0 {
          break;
        }
        LoopStep(Value(), ref);
        var cnt := ActivateFirst();
        resched := resched + cnt;
        first := FirstAlarm();
      }
      LoopEnd(Value(), ref);
      if first.Some? {
        timer := Some(Sub(ExpOf(alarms, first.value), now));
      }
    }

    method FirstAlarm() returns (a: Option<nat>)
      requires Valid()
      ensures a == if List() == [] then None else Some(List()[0])
    {
      hide Queues.Valid, Lists.Valid;
      a := kalarms.First(KALARMS);
    }

    /** k_timer_interrupt */
    method TimerInterrupt(now: Time)
      requires Valid() && AllOk(Value()) && InRange(now)
      modifies this, queues.Repr, kalarms.Repr
      ensures Valid() && fresh(queues.Repr - old(queues.Repr)) && fresh(kalarms.Repr - old(kalarms.Repr))
      ensures Value() == Timer(old(Value()), now) && old(AllValid(alarms) && InRange(threshold))
      ensures ClockRun(old(alarms), old(Value()), Value(), Add(now, old(threshold)), None)
      ensures Yields(old(alarms), old(Threads()), Threads(), Add(now, old(threshold)), false, false)
    {
      hide ClockRun, Quiet, Yields, ReadySet, Queues.Valid, Lists.Valid, SchedFrame, NoneForgotten, AllOk, Running,
           Alarms.ScheduleAlarms, Reschedule,
           Core, IdleOk, Inv;
      TimerEffect(Value(), now);
      ScheduleAlarmsKeeps(Value(), now);
      var resched := ScheduleAlarms(now);
      if resched > 0 {
        AllRunning(Value());
        ScheduleThreads();
      }
    }

    /** The first part of k_alarm_add */
    method ArmAlarm(a: nat)
      requires Valid() && AllOk(Value()) && a in alarms && !alarms[a].active
      modifies this`alarms, kalarms.Repr
      ensures Valid() && fresh(kalarms.Repr - old(kalarms.Repr))
      ensures Value() == Arm(old(Value()), a)
    {
      hide Queues.Valid, Lists.Valid, AllOk, InsertAt, SortAddPos;
      NotListed(Value(), a);
      if alarms[a].exp.sec + alarms[a].exp.nsec > 0 {
        alarms := alarms[a := alarms[a].(active := true)];
        AlarmLoose(a);
        kalarms.SortAdd(KALARMS, a, ByTime(alarms));
      }
    }

    lemma AlarmLoose(a: nat)
      requires a !in List()
      ensures kalarms.Loose(a)
    {
      forall k | k in kalarms.contents ensures a !in kalarms.contents[k] {
        assert k == KALARMS;
      }
    }

    /** k_alarm_add */
    method AlarmAdd(a: nat, now: Time)
      requires Valid() && AllOk(Value()) && a in alarms && !alarms[a].active && InRange(now) && active != Some(IDLE)
      modifies this, queues.Repr, kalarms.Repr
      ensures Valid() && fresh(queues.Repr - old(queues.Repr)) && fresh(kalarms.Repr - old(kalarms.Repr))
      ensures Value() == AddAlarm(old(Value()), a, now)
    {
      hide ClockRun, Quiet, Yields, ReadySet, AllValid, Queues.Valid, Lists.Valid, SchedFrame, NoneForgotten, AllOk,
           Running, Alarms.ScheduleAlarms, Reschedule,
           Core, IdleOk, Inv,
           BlockActive, Arm, InNoQueue, Bounded;
      ArmKeeps(Value(), a);
      ArmAlarm(a);
      ScheduleAlarmsKeeps(Value(), now);
      var resched := ScheduleAlarms(now);
      AllRunning(Value());
      if alarms[a].active && alarms[a].wait {
        RunningFacts(Value());
        BlockRuns(Value(), AlarmQ(a));
        EnqueueThread(AlarmQ(a));
        resched := 1;
      }
      if resched > 0 {
        ScheduleThreads();
      }
    }

    /** k_alarm_new */
    method AlarmNew(a: nat, al: Alarm, now: Time)
      requires Valid() && AllOk(Value()) && a !in alarms && AlarmValid(al) && InRange(now) && active != Some(IDLE)
      modifies this, queues.Repr, kalarms.Repr
      ensures Valid() && fresh(queues.Repr - old(queues.Repr)) && fresh(kalarms.Repr - old(kalarms.Repr))
      ensures Value() == NewAlarm(old(Value()), a, al, now)
      ensures a in alarms && IsRunning(old(Threads())) && InRange(old(threshold))
      ensures var prio := old(threads[active.value].prio);
              var made := al.(active := al.exp.sec + al.exp.nsec > 0, ownerPrio := prio);
              var blocked, ref := alarms[a].active && alarms[a].wait, Add(now, old(threshold));
              && AllValid(old(alarms)[a := made])
              && ClockRun(old(alarms)[a := made], old(Value()), Value(), ref, if blocked then Some(a) else None)
              && Yields(old(alarms)[a := made], old(Threads()), Threads(), ref, blocked, false)
    {
      hide ClockRun, Quiet, Yields, ReadySet, AllValid, Queues.Valid, Lists.Valid, AllOk, Running, AddAlarm, AlarmValid;
      NewEffect(Value(), a, al, now);
      AllRunning(Value());
      NewKeeps(Value(), a, al);
      alarms := alarms[a := al.(active := false, ownerPrio := threads[active.value].prio)];
      AlarmAdd(a, now);
    }

    /** An alarm leaves the list if it is active. */
    method Delist(a: nat)
      requires Valid() && AllOk(Value()) && a in alarms
      modifies kalarms.Repr
      ensures Valid() && kalarms.Repr == old(kalarms.Repr) && List() == Without(old(List()), a)
    {
      hide Queues.Valid, Lists.Valid, Without;
      Listed(Value(), a);
      if alarms[a].active {
        kalarms.Remove(KALARMS, a);
      }
    }

    /** k_alarm_set */
    method AlarmSet(a: nat, al: Alarm, now: Time)
      requires Valid() && AllOk(Value()) && a in alarms && AlarmValid(al) && InRange(now) && active != Some(IDLE)
      modifies this, queues.Repr, kalarms.Repr
      ensures Valid() && fresh(queues.Repr - old(queues.Repr)) && fresh(kalarms.Repr - old(kalarms.Repr))
      ensures Value() == SetAlarm(old(Value()), a, al, now) && a in alarms && InRange(old(threshold))
      ensures old(alarms[a]).exp == al.exp ==>
                alarms[a] == old(alarms[a]).(action := al.action, periodic := al.periodic,
                                              wait := al.wait, period := al.period)
      ensures var data := old(alarms[a]).(action := al.action, periodic := al.periodic,
                                           wait := al.wait, period := al.period);
              var updated := old(alarms)[a := data.(exp := al.exp, active := al.exp != Time(0, 0))];
              var blocked, ref := alarms[a].active && alarms[a].wait, Add(now, old(threshold));
              old(alarms[a]).exp != al.exp ==>
                && AllValid(updated) && ClockRun(updated, old(Value()), Value(), ref, if blocked then Some(a) else None)
                && Yields(updated, old(Threads()), Threads(), ref, blocked, false)
    {
      hide ClockRun, Quiet, Yields, ReadySet, AllValid, Queues.Valid, Lists.Valid, AllOk, Running, AddAlarm,
           AlarmValid, Without, Cmp, Lists.Contents;
      SetEffect(Value(), a, al, now);
      var was := alarms[a];
      var updated := was.(action := al.action, periodic := al.periodic, wait := al.wait, period := al.period);
      if Cmp(was.exp, al.exp) != 0 {
        DetachKeeps(Value(), a, al);
        Delist(a);
        alarms := alarms[a := updated.(exp := al.exp, active := false)];
        AlarmAdd(a, now);
      } else {
        alarms := alarms[a := updated];
      }
    }

    /** k_alarm_remove */
    method AlarmRemove(a: nat, now: Time)
      requires Valid() && AllOk(Value()) && a in alarms && InRange(now)
      modifies this, queues.Repr, kalarms.Repr
      ensures Valid() && fresh(queues.Repr - old(queues.Repr)) && fresh(kalarms.Repr - old(kalarms.Repr))
      ensures Value() == RemoveAlarm(old(Value()), a, now) && InRange(old(threshold)) && AllValid(old(alarms) - {a})
      ensures ClockRun(old(alarms) - {a}, old(Value()), Value(), Add(now, old(threshold)), None)
      ensures Yields(old(alarms) - {a}, old(Threads()), Threads(), Add(now, old(threshold)), false,
                     Q(old(Threads()), AlarmQ(a)) != [])
    {
      hide ClockRun, Quiet, Yields, ReadySet, AllValid, Queues.Valid, Lists.Valid, SchedFrame, NoneForgotten, AllOk,
           Running, Alarms.ScheduleAlarms, Reschedule,
           Core, IdleOk, Inv,
           Without, ReleaseAll, Bounded, InNoQueue, Lists.Contents;
      RemoveEffect(Value(), a, now);
      AllRunning(Value());
      RunningFacts(Value());
      DropKeeps(Value(), a);
      Delist(a);
      alarms := alarms - {a};
      var released := ReleaseAllThreads(AlarmQ(a));
      assert Value() == Dropped(old(Value()), a);
      ScheduleAlarmsKeeps(Value(), now);
      var resched := ScheduleAlarms(now);
      if released + resched > 0 {
        AllRunning(Value());
        ScheduleThreads();
      }
    }

    /** sys__wait_for_alarm; false if the alarm is active and the caller does not wait. */
    method WaitForAlarm(a: nat, wait: bool) returns (expired: bool)
      requires Valid() && Running(Value()) && a in alarms && active != Some(IDLE)
      modifies this, queues.Repr
      ensures Valid() && fresh(queues.Repr - old(queues.Repr)) && expired == (wait || !old(alarms[a]).active)
      ensures Value() == WaitAlarm(old(Value()), a, wait)
    {
      hide Queues.Valid, Lists.Valid, SchedFrame, Running, Core, IdleOk, Reschedule, Bounded, BlockActive, InNoQueue;
      expired := true;
      if alarms[a].active {
        if wait {
          RunningFacts(Value());
          BlockRuns(Value(), AlarmQ(a));
          EnqueueThread(AlarmQ(a));
          ScheduleThreads();
        } else {
          expired := false;
        }
      }
    }

    // -- runs -------------------------------------------------------------------------

    method PerformThreadCall(e: Runs.Event)
      requires Valid() && AllOk(Value()) && Runs.IsThreadCall(e) && Runs.Enabled(Value(), e)
      modifies this, queues.Repr
      ensures Valid() && fresh(queues.Repr - old(queues.Repr))
      ensures Value() == Runs.ThreadCall(old(Value()), e)
    {
      hide Queues.Valid, Lists.Valid, AllOk, Running, ThreadCalls.Create, ThreadCalls.ExitThread,
           ThreadCalls.JoinThread,
           ThreadCalls.CancelThread;
      AllRunning(Value());
      match e {
        case CreateThread(prio) => var t := SysCreateThread(prio);
        case ExitThread(status) => SysThreadExit(status);
        case JoinThread(t, wait) => var r := SysWaitForThread(t, wait);
        case CancelThread(t) => var ok := SysCancelThread(t);
      }
    }

    method PerformAlarmCall(e: Runs.Event)
      requires Valid() && AllOk(Value()) && Runs.IsAlarmCall(e) && Runs.AlarmEnabled(Value(), e)
      modifies this, queues.Repr, kalarms.Repr
      ensures Valid() && fresh(queues.Repr - old(queues.Repr)) && fresh(kalarms.Repr - old(kalarms.Repr))
      ensures Value() == Runs.AlarmCall(old(Value()), e)
    {
      hide Queues.Valid, Lists.Valid, AllOk, Running, NewAlarm, SetAlarm, RemoveAlarm, WaitAlarm, Timer, AlarmValid;
      AllRunning(Value());
      match e {
        case AlarmNew(a, al, now) => AlarmNew(a, al, now);
        case AlarmSet(a, al, now) => AlarmSet(a, al, now);
        case AlarmRemove(a, now) => AlarmRemove(a, now);
        case AlarmWait(a, wait) => var expired := WaitForAlarm(a, wait);
        case Interrupt(now) => TimerInterrupt(now);
      }
    }

    /** Any event that can happen: the kernel takes exactly the step of the value model, with its
        lists linked and its bitmap exact, and ends in order. */
    method Perform(e: Runs.Event)
      requires Valid() && AllOk(Value()) && Runs.Enabled(Value(), e)
      modifies this, queues.Repr, kalarms.Repr
      ensures Valid() && fresh(queues.Repr - old(queues.Repr)) && fresh(kalarms.Repr - old(kalarms.Repr))
      ensures Value() == Runs.Step(old(Value()), e) && AllOk(Value())
    {
      hide Queues.Valid, Lists.Valid, AllOk, Running, Runs.ThreadCall, Runs.AlarmCall, Runs.AlarmEnabled,
           Runs.LocksStep, NoneForgotten, TopRuns,
           Semaphores.Post, Semaphores.Wait, Devices.Lock, Devices.Unlock, Devices.MayUnlock;
      Runs.StepKeeps(Value(), e);
      if Runs.IsThreadCall(e) {
        PerformThreadCall(e);
      } else if Runs.IsAlarmCall(e) {
        PerformAlarmCall(e);
      } else {
        PerformLockCall(e);
      }
    }

    method PerformLockCall(e: Runs.Event)
      requires Valid() && AllOk(Value()) && Runs.Enabled(Value(), e) && !Runs.IsThreadCall(e) && !Runs.IsAlarmCall(e)
      modifies this, queues.Repr
      ensures Valid() && fresh(queues.Repr - old(queues.Repr))
      ensures Value() == Runs.Step(old(Value()), e)
    {
      hide Queues.Valid, Lists.Valid, AllOk, Running, Semaphores.Post, Semaphores.Wait, Devices.Lock, Devices.Unlock,
           Devices.MayUnlock,
           Runs.AlarmEnabled, Runs.AlarmCall, Runs.ThreadCall;
      AllRunning(Value());
      match e {
        case SemInit(i, value) => SemInit(i, value);
        case SemPost(i) => SemPost(i);
        case SemWait(i) => SemWait(i);
        case DevLock(d, wait) => var entered := DeviceLock(d, wait);
        case DevResume => Runs.ResumingDev(Value()); DeviceResume();
        case DevUnlock(d) => DeviceUnlock(d);
      }
    }
  }

  lemma LoopFirst(s: State)
    requires AllOk(s) && s.list != []
    ensures s.list[0] in s.alarms
  {
    hide AllOk;
    OkParts(s);
    FirstListed(s);
  }

  lemma LoopStep(s: State, ref: Time)
    requires AllOk(s) && InRange(ref) && s.list != [] && s.list[0] in s.alarms && Cmp(s.alarms[s.list[0]].exp, ref) <= 0
    ensures Running(s)
    ensures var a, s' := s.list[0], FireFirst(s);
            && AllOk(s') && Lag(s'.list, s'.alarms, ref) < Lag(s.list, s.alarms, ref)
            && var r := AlarmLoop(s', ref);
               AlarmLoop(s, ref) == LoopResult(r.state, Woken(s.sched, s.alarms[a], a) + r.resched)
  {
    hide AllOk, Running, Lag, FireFirst, Woken;
    OkParts(s);
    FireKeeps(s);
    FireLag(s, ref);
  }

  lemma LoopEnd(s: State, ref: Time)
    requires AllOk(s) && InRange(ref)
    ensures !IsDue(s, ref) ==> AlarmLoop(s, ref) == LoopResult(s, 0)
  {
  }

  lemma NotListed(s: State, a: nat)
    requires AllOk(s) && a in s.alarms && !s.alarms[a].active
    ensures a !in s.list
  {
  }

  lemma Listed(s: State, a: nat)
    requires AllOk(s) && a in s.alarms
    ensures s.alarms[a].active <==> a in s.list
  {
  }

  lemma Resumed(s: State, t: Tid)
    requires AllOk(s) && s.sched.active == Some(t) && t in s.resuming && s.resuming[t] in s.devs && IsRunning(s.sched)
    ensures AllOk(Devices.Resume(s)) && Devices.Resume(s).devs == s.devs && s.devs[s.resuming[t]] == Dev(true, {t})
  {
    hide AllOk, Runs.LocksStep, TopRuns, NoneForgotten, Running, DevsOk;
    OkParts(s);
    Devices.ResumeChangesNothing(s);
    Runs.ResumeEvent(s, t);
  }

  lemma WakeBounded(s: Sched, al: Alarm, a: nat)
    requires Inv(s)
    ensures var c := if al.action then Scheduler.CreateThread(s, al.ownerPrio + 1, true) else s; Bounded(c)
    ensures InNoQueue(s, s.next)
  {
    hide Core, Bounded, InNoQueue;
    WakeReady(s, al, a);
    CoreBounded(s);
    CoreBounded(if al.action then Scheduler.CreateThread(s, al.ownerPrio + 1, true) else s);
  }

  lemma EmptyLoose()
    ensures InNoQueue(EMPTY, EMPTY.next)
    ensures var s := Scheduler.CreateThread(EMPTY, 0, true); InNoQueue(s, s.next)
  {
    hide Core;
    assert Core(EMPTY) by { EmptyCore(); }
    CreateKeepsIff(EMPTY, 0, true);
    CoreBounded(Scheduler.CreateThread(EMPTY, 0, true));
  }

  lemma EmptyCore()
    ensures Core(EMPTY) && InNoQueue(EMPTY, EMPTY.next)
  {
  }

  lemma OnlyOneActive(s: State, t: Tid)
    requires Running(s)
    ensures Some(t) == s.sched.active <==> t in s.sched.threads && s.sched.threads[t].state == Active
  {
  }

  // What k_release_thread does, seen from the whole queue.
  lemma ReleaseOneBounded(s: Sched, q: QueueId)
    requires Bounded(s) && !q.ReadyQ?
    ensures QueuedExist(s)
    ensures var s' := ReleaseOne(s, q);
            && Bounded(s') && QueuedExist(s') && ReleaseAll(s', q) == ReleaseAll(s, q)
            && (Q(s, q) != [] ==> Q(s', q) == Q(s, q)[1..])
  {
    if Q(s, q) != [] {
      assert Q(s, q)[0] in Q(s, q);
      ReleaseKeepsExist(s, q);
    }
  }
}
