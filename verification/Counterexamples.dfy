/**
 Runs from the start of the kernel after which a call does what a client would not expect.  Each
 has a partner elsewhere that says exactly when the call is harmless.
 */
module Counterexamples {
  import opened Options
  import opened Seqs
  import opened Time
  import opened Scheduler
  import opened KernelState
  import opened Alarms
  import opened Runs
  import opened References
  import opened Safety
  import ThreadCalls
  import Semaphores
  import Devices

  // -- following a run --------------------------------------------------------------

  lemma RunCons(s: State, e: Event, es: seq<Event>)
    requires AllOk(s) && Enabled(s, e)
    ensures AllOk(Step(s, e))
    ensures CanRun(Step(s, e), es) ==> CanRun(s, [e] + es) && Run(s, [e] + es) == Run(Step(s, e), es)
  {
    hide AllOk, Enabled, Step, LocksStep;
    StepKeeps(s, e);
    assert ([e] + es)[1..] == es;
  }

  /** The ready threads by priority, the active thread, and the next name. */
  ghost predicate Shows(s: Sched, ready: map<nat, seq<Tid>>, a: Tid, n: nat) {
    && s.active == Some(a) && a in s.threads && s.threads[a].state == Active && s.next == n
    && forall p: nat :: Q(s, ReadyQ(p)) == if p in ready then ready[p] else []
  }

  /** p is the highest priority in `ready`. */
  ghost predicate Highest(ready: map<nat, seq<Tid>>, p: nat) {
    p < PRIO_LEVELS && p in ready && ready[p] != [] && forall k :: k in ready && k > p ==> ready[k] == []
  }

  lemma TopIs(s: Sched, ready: map<nat, seq<Tid>>, p: nat)
    requires Highest(ready, p) && forall k: nat :: Q(s, ReadyQ(k)) == if k in ready then ready[k] else []
    ensures TopReady(s) == p
  {
    assert Q(s, ReadyQ(p)) != [];
  }

  function Put(ready: map<nat, seq<Tid>>, p: nat, t: Tid): map<nat, seq<Tid>> {
    ready[p := (if p in ready then ready[p] else []) + [t]]
  }

  function NewThread(p: nat): Thread {
    Thread(Ready, p, Some(ReadyQ(p)), 0, 1)
  }

  function Activated(th: Thread): Thread {
    th.(state := Active, queue := None)
  }

  lemma CreateShows(s: Sched, ready: map<nat, seq<Tid>>, a: Tid, n: nat, p: nat)
    requires Shows(s, ready, a, n) && a != n && p < PRIO_LEVELS
    ensures var c := Scheduler.CreateThread(s, p, true);
            && Shows(c, Put(ready, p, n), a, n + 1) && c.threads == s.threads[n := NewThread(p)]
            && forall q: QueueId :: !q.ReadyQ? ==> Q(c, q) == Q(s, q)
  {
    var c := Scheduler.CreateThread(s, p, true);
    assert c.threads == s.threads[n := NewThread(p)];
  }

  lemma GoesOn(s: Sched, ready: map<nat, seq<Tid>>, a: Tid, n: nat, top: nat)
    requires Shows(s, ready, a, n) && Highest(ready, top) && top < s.threads[a].prio && QueuedExist(s)
    ensures CanSchedule(s) && Schedule(s) == s
  {
    TopIs(s, ready, top);
  }

  lemma IsPreempted(s: Sched, ready: map<nat, seq<Tid>>, a: Tid, n: nat, h: Tid, top: nat)
    requires Shows(s, ready, a, n) && Highest(ready, top) && ready[top] == [h] && top > s.threads[a].prio
             && QueuedExist(s)
    requires h != a && h in s.threads
    ensures CanSchedule(s)
    ensures var s', ap := Schedule(s), s.threads[a].prio;
            && Shows(s', Put(ready[top := []], ap, a), h, n)
            && s'.threads == s.threads[a := s.threads[a].(state := Ready, queue := Some(ReadyQ(ap)))]
                               [h := Activated(s.threads[h])]
            && forall q: QueueId :: !q.ReadyQ? ==> Q(s', q) == Q(s, q)
  {
    hide TopBelow, QueuedExist;
    TopIs(s, ready, top);
    var m := MoveToReady(s, a);
    assert Q(m, ReadyQ(top)) == [h];
    assert Schedule(s) == Activate(m, top);
  }

  lemma IsTaken(s: Sched, ready: map<nat, seq<Tid>>, h: Tid, top: nat)
    requires !IsRunning(s) && QueuedExist(s) && Highest(ready, top) && ready[top] == [h] && h in s.threads
    requires forall k: nat :: Q(s, ReadyQ(k)) == if k in ready then ready[k] else []
    ensures CanSchedule(s)
    ensures var s' := Schedule(s);
            && Shows(s', ready[top := []], h, s.next) && s'.threads == s.threads[h := Activated(s.threads[h])]
            && forall q: QueueId :: !q.ReadyQ? ==> Q(s', q) == Q(s, q)
  {
    hide TopBelow, QueuedExist;
    TopIs(s, ready, top);
    assert Schedule(s) == Activate(s, top);
  }

  // -- the first steps --------------------------------------------------------------------

  const BOOTED: map<nat, seq<Tid>> := map[0 := [0], 20 := []]

  lemma BootedThreads(prio: int)
    requires prio == 20
    ensures var c := BootThreads(prio);
            && c.threads == map[0 := NewThread(0), 1 := NewThread(20)] && c.active == None && c.next == 2
            && (forall k: nat :: Q(c, ReadyQ(k)) == if k in BOOTED[20 := [1]] then BOOTED[20 := [1]][k] else [])
            && forall q: QueueId :: !q.ReadyQ? ==> Q(c, q) == []
  {
    var s1 := Scheduler.CreateThread(Sched(map[], map[], None, 0), 0, true);
    assert s1.threads == map[0 := NewThread(0)];
    assert forall k: nat :: Q(s1, ReadyQ(k)) == if k == 0 then [0] else [];
    var c := BootThreads(prio);
    assert c == Scheduler.CreateThread(s1, prio, true);
    assert c.threads == map[0 := NewThread(0), 1 := NewThread(20)];
  }

  /** The kernel has started with the first thread at priority 20. */
  ghost predicate Started(s: State, devs: set<nat>, interval: Time)
    requires InRange(interval) && interval.sec >= 0
  {
    && s == BootState(20, devs, interval).(sched := s.sched)
    && s.sched.threads == map[0 := NewThread(0), 1 := Activated(NewThread(20))]
    && Shows(s.sched, BOOTED, 1, 2) && (forall q: QueueId :: !q.ReadyQ? ==> Q(s.sched, q) == [])
  }

  lemma BootStarts(prio: int, devs: set<nat>, interval: Time)
    requires prio == 20 && InRange(interval) && interval.sec >= 0
    ensures Started(Boot(prio, devs, interval), devs, interval)
  {
    hide Core, IdleOk, BootThreads, TopRuns, AllOk, NoneForgotten;
    BootReady(prio);
    BootedThreads(prio);
    var s0 := BootState(prio, devs, interval);
    IdleCanRun(s0.sched);
    IsTaken(s0.sched, BOOTED[20 := [1]], 1, 20);
    assert BOOTED[20 := [1]][20 := []] == BOOTED;
    assert s0.sched.threads[1 := Activated(NewThread(20))] == map[0 := NewThread(0), 1 := Activated(NewThread(20))];
  }

  lemma CreateEnabled(s: State, a: Tid, p: int)
    requires AllOk(s) && s.sched.active == Some(a) && a != IDLE && a !in s.resuming
    ensures Enabled(s, CreateThread(p)) && a in s.sched.threads && a != s.sched.next
    ensures var c := s.(sched := Scheduler.CreateThread(s.sched, p, true));
            && QueuedExist(c.sched) && Core(c.sched) && IdleOk(c.sched)
            && Step(s, CreateThread(p)) == Reschedule(c)
  {
    hide SemsOk, DevsOk, AlarmsOk, IdleOk, RefsOk;
    AllRunning(s);
    ThreadCalls.CreateRuns(s, p);
    IdleCanRun(Scheduler.CreateThread(s.sched, p, true));
  }

  // A thread of lower priority than the caller is created: the caller goes on.
  lemma CreateBelow(s: State, ready: map<nat, seq<Tid>>, a: Tid, n: nat, p: nat, top: nat)
    requires AllOk(s) && Shows(s.sched, ready, a, n) && a != IDLE && a !in s.resuming && p < PRIO_LEVELS
    requires Highest(Put(ready, p, n), top) && top < s.sched.threads[a].prio
    ensures Enabled(s, CreateThread(p))
    ensures var s' := Step(s, CreateThread(p));
            && s' == s.(sched := s'.sched) && s'.sched.threads == s.sched.threads[n := NewThread(p)]
            && Shows(s'.sched, Put(ready, p, n), a, n + 1)
            && forall q: QueueId :: !q.ReadyQ? ==> Q(s'.sched, q) == Q(s.sched, q)
  {
    hide AllOk, Enabled, Step, Core, IdleOk, Scheduler.CreateThread, Schedule, Put, Highest;
    CreateEnabled(s, a, p);
    CreateShows(s.sched, ready, a, n, p);
    GoesOn(Scheduler.CreateThread(s.sched, p, true), Put(ready, p, n), a, n + 1, top);
  }

  lemma NewUnknown(s: State)
    requires AllOk(s)
    ensures s.sched.next !in s.sched.threads
  {
  }

  // A thread of higher priority than all others is created: it preempts the caller.
  lemma CreateAbove(s: State, ready: map<nat, seq<Tid>>, a: Tid, n: nat, p: nat)
    requires AllOk(s) && Shows(s.sched, ready, a, n) && a != IDLE && a !in s.resuming
             && s.sched.threads[a].prio < p < PRIO_LEVELS
    requires p !in ready && forall k :: k in ready && k > p ==> ready[k] == []
    ensures Enabled(s, CreateThread(p))
    ensures var s', ap := Step(s, CreateThread(p)), s.sched.threads[a].prio;
            && s' == s.(sched := s'.sched)
            && n in s'.sched.threads && s'.sched.threads[n].prio == p
            && a in s'.sched.threads && s'.sched.threads[a].prio == ap && s'.sched.threads[a].state == Ready
            && (forall t :: t in s.sched.threads && t != a ==>
                  t in s'.sched.threads && s'.sched.threads[t] == s.sched.threads[t])
            && Shows(s'.sched, Put(Put(ready, p, n)[p := []], ap, a), n, n + 1)
            && forall q: QueueId :: !q.ReadyQ? ==> Q(s'.sched, q) == Q(s.sched, q)
  {
    hide AllOk, Enabled, Step, Core, IdleOk, Scheduler.CreateThread, Schedule;
    CreateEnabled(s, a, p);
    CreateShows(s.sched, ready, a, n, p);
    assert n !in s.sched.threads by { NewUnknown(s); }
    IsPreempted(Scheduler.CreateThread(s.sched, p, true), Put(ready, p, n), a, n + 1, n, p);
  }

  // -- cancel does not preempt --------------------------------------------------------------

  // The caller waits for a thread that has not ended, and the first ready thread takes over.
  lemma JoinTakes(s: State, ready: map<nat, seq<Tid>>, a: Tid, n: nat, t: Tid, h: Tid, top: nat)
    requires AllOk(s) && Shows(s.sched, ready, a, n) && a != IDLE && a !in s.resuming
    requires t in s.sched.threads && s.sched.threads[t].state == Ready
    requires Highest(ready, top) && ready[top] == [h] && h != a
    ensures Enabled(s, JoinThread(t, true)) && h in s.sched.threads
    ensures var s' := Step(s, JoinThread(t, true));
            && s' == s.(sched := s'.sched) && Shows(s'.sched, ready[top := []], h, n)
            && t in s'.sched.threads && s'.sched.threads[t].state == (if t == h then Active else Ready)
            && s'.sched.threads[h].prio == s.sched.threads[h].prio
            && a in s'.sched.threads && s'.sched.threads[a].prio == s.sched.threads[a].prio
            && a in Q(s'.sched, JoinQ(t))
  {
    hide SemsOk, DevsOk, AlarmsOk, IdleOk, RefsOk, Placement, TopBelow, Schedule;
    AllRunning(s);
    RunningPlaced(s);
    ThreadCalls.JoinRuns(s, t, true);
    HeadPlaced(s.sched, None, ReadyQ(top));
    var j := Join(s.sched, t, true);
    IdleCanRun(j);
    assert j.threads[a].state == Wait;
    IsTaken(j, ready, h, top);
  }

  ghost predicate ReadyOne(ready: map<nat, seq<Tid>>) {
    ready.Keys == {0, 10, 20} && ready[0] == [0] && ready[10] == [2] && ready[20] == []
  }

  lemma OneCreated(s: State, devs: set<nat>, interval: Time) returns (s1: State, ready: map<nat, seq<Tid>>)
    requires AllOk(s) && InRange(interval) && interval.sec >= 0 && Started(s, devs, interval)
    ensures Enabled(s, CreateThread(10)) && s1 == Step(s, CreateThread(10)) && s1 == s.(sched := s1.sched)
    ensures AllOk(s1) && (NoneForgotten(s) ==> NoneForgotten(s1))
    ensures Shows(s1.sched, ready, 1, 3) && ReadyOne(ready) && Highest(ready, 10)
    ensures s1.sched.threads[1].prio == 20 && 2 in s1.sched.threads && s1.sched.threads[2] == NewThread(10)
  {
    hide Enabled, Step, AllOk, TopRuns, LocksStep, NoneForgotten;
    ready := Put(BOOTED, 10, 2);
    CreateBelow(s, BOOTED, 1, 2, 10, 10);
    StepKeeps(s, CreateThread(10));
    s1 := Step(s, CreateThread(10));
  }

  lemma ReadyTwo(ready1: map<nat, seq<Tid>>)
    requires ReadyOne(ready1)
    ensures var ready := Put(Put(ready1, 30, 3)[30 := []], 20, 1); Highest(ready, 20) && ready[20] == [1]
    ensures 30 !in ready1 && forall k :: k in ready1 && k > 30 ==> ready1[k] == []
  {
  }

  lemma TwoCreated(s: State, devs: set<nat>, interval: Time) returns (s2: State, ready: map<nat, seq<Tid>>)
    requires AllOk(s) && InRange(interval) && interval.sec >= 0 && Started(s, devs, interval)
    ensures Enabled(s, CreateThread(10)) && AllOk(Step(s, CreateThread(10)))
    ensures Enabled(Step(s, CreateThread(10)), CreateThread(30))
            && s2 == Step(Step(s, CreateThread(10)), CreateThread(30))
    ensures AllOk(s2) && s2.resuming == map[] && Shows(s2.sched, ready, 3, 4) && Highest(ready, 20) && ready[20] == [1]
    ensures 2 in s2.sched.threads && s2.sched.threads[2].state == Ready && 1 in s2.sched.threads
            && s2.sched.threads[1].prio == 20
    ensures s2.sched.threads[3].prio == 30
  {
    hide Enabled, Step, AllOk, TopRuns, LocksStep, NoneForgotten, Highest, ReadyOne, Put;
    var s1, ready1 := OneCreated(s, devs, interval);
    ReadyTwo(ready1);
    CreateAbove(s1, ready1, 1, 3, 30);
    StepKeeps(s1, CreateThread(30));
    s2 := Step(s1, CreateThread(30));
    ready := Put(Put(ready1, 30, 3)[30 := []], 20, 1);
  }

  // Threads 2 and 3 have priorities 10 and 30; thread 3 waits for thread 2, and thread 1, of
  // priority 20, cancels thread 2.  Thread 3 is ready again, but thread 1 goes on.  See
  // ThreadCalls.CancelTopIff.
  lemma CancelDoesNotPreempt(devs: set<nat>, interval: Time)
    requires InRange(interval) && interval.sec >= 0
    ensures var s, es := Boot(20, devs, interval),
                [CreateThread(10), CreateThread(30), JoinThread(2, true), CancelThread(2)];
            CanRun(s, es) && !TopRuns(Run(s, es).sched)
  {
    hide Enabled, Step, AllOk, CanRun, Run, TopRuns, LocksStep, NoneForgotten, Started, Highest;
    var s0 := Boot(20, devs, interval);
    BootStarts(20, devs, interval);
    var s2, ready := TwoCreated(s0, devs, interval);
    JoinTakes(s2, ready, 3, 4, 2, 1, 20);
    StepKeeps(s2, JoinThread(2, true));
    var s3 := Step(s2, JoinThread(2, true));
    TopAfterJoin(s2);
    CancelMatters(s3);
    RunFour(s0, CreateThread(10), CreateThread(30), JoinThread(2, true), CancelThread(2));
  }

  lemma TopAfterJoin(s: State)
    requires AllOk(s) && Enabled(s, JoinThread(2, true)) && JoinOutcome(s.sched, 2, true) == Blocked
    ensures TopRuns(Step(s, JoinThread(2, true)).sched)
  {
    hide AllOk, Core, IdleOk, Join, Running, TopRuns;
    AllRunning(s);
    ThreadCalls.JoinRuns(s, 2, true);
    RescheduleRuns(s.(sched := Join(s.sched, 2, true)));
  }

  lemma CancelMatters(s: State)
    requires AllOk(s) && TopRuns(s.sched) && s.resuming == map[] && s.sched.active == Some(1)
    requires 2 in s.sched.threads && s.sched.threads[2].state == Ready && 3 in s.sched.threads
             && 3 in Q(s.sched, JoinQ(2))
    requires 1 in s.sched.threads && s.sched.threads[1].prio == 20 && s.sched.threads[3].prio == 30
    ensures Enabled(s, CancelThread(2)) && !TopRuns(Step(s, CancelThread(2)).sched)
  {
    hide AllOk, TopRuns, Step, LocksStep, NoneForgotten;
    AllRunning(s);
    StepKeeps(s, CancelThread(2));
  }

  lemma RunFour(s: State, e1: Event, e2: Event, e3: Event, e4: Event)
    requires AllOk(s) && Enabled(s, e1)
    requires AllOk(Step(s, e1)) && Enabled(Step(s, e1), e2)
    requires AllOk(Step(Step(s, e1), e2)) && Enabled(Step(Step(s, e1), e2), e3)
    requires AllOk(Step(Step(Step(s, e1), e2), e3)) && Enabled(Step(Step(Step(s, e1), e2), e3), e4)
    ensures CanRun(s, [e1, e2, e3, e4]) && Run(s, [e1, e2, e3, e4]) == Step(Step(Step(Step(s, e1), e2), e3), e4)
  {
    hide AllOk, Enabled, Step;
    RunThree(Step(s, e1), e2, e3, e4);
    RunCons(s, e1, [e2, e3, e4]);
    assert [e1] + [e2, e3, e4] == [e1, e2, e3, e4];
  }

  lemma RunThree(s: State, e1: Event, e2: Event, e3: Event)
    requires AllOk(s) && Enabled(s, e1)
    requires AllOk(Step(s, e1)) && Enabled(Step(s, e1), e2)
    requires AllOk(Step(Step(s, e1), e2)) && Enabled(Step(Step(s, e1), e2), e3)
    ensures CanRun(s, [e1, e2, e3]) && Run(s, [e1, e2, e3]) == Step(Step(Step(s, e1), e2), e3)
  {
    hide AllOk, Enabled, Step;
    RunTwo(Step(s, e1), e2, e3);
    RunCons(s, e1, [e2, e3]);
    assert [e1] + [e2, e3] == [e1, e2, e3];
  }

  lemma RunTwo(s: State, e1: Event, e2: Event)
    requires AllOk(s) && Enabled(s, e1) && AllOk(Step(s, e1)) && Enabled(Step(s, e1), e2)
    ensures CanRun(s, [e1, e2]) && Run(s, [e1, e2]) == Step(Step(s, e1), e2)
  {
    hide AllOk, Enabled, Step;
    RunCons(Step(s, e1), e2, []);
    RunCons(s, e1, [e2]);
    assert [e2] + [] == [e2] && [e1] + [e2] == [e1, e2];
  }

  // -- anybody can collect a status ------------------------------------------------------------

  lemma OwedCons(s: State, e: Event, es: seq<Event>, t: Tid, owed: multiset<Tid>)
    requires AllOk(s) && Enabled(s, e) && AllOk(Step(s, e)) && CanRun(Step(s, e), es)
    ensures CanRun(s, [e] + es) && Run(s, [e] + es) == Run(Step(s, e), es)
    ensures OwedIn(s, [e] + es, t, owed) == OwedIn(Step(s, e), es, t, OwedAfter(owed, s.sched, e, t))
  {
    hide AllOk, Enabled, Step, LocksStep, OwedAfter;
    RunCons(s, e, es);
    assert ([e] + es)[1..] == es;
  }

  // The first two events: thread 1 blocks on the end of thread 2, which takes over.
  lemma OneWaits(s: State, devs: set<nat>, interval: Time) returns (s1: State, s2: State, ready: map<nat, seq<Tid>>)
    requires AllOk(s) && InRange(interval) && interval.sec >= 0 && Started(s, devs, interval)
    ensures Enabled(s, CreateThread(10)) && s1 == Step(s, CreateThread(10)) && AllOk(s1)
    ensures Enabled(s1, JoinThread(2, true)) && s2 == Step(s1, JoinThread(2, true)) && AllOk(s2)
    ensures s1.sched.active == Some(1) && Joins(s1.sched, JoinThread(2, true), 2)
    ensures s2.resuming == map[] && Shows(s2.sched, ready, 2, 3) && s2.sched.threads[2].prio == 10
    ensures 30 !in ready && forall k :: k in ready && k > 30 ==> ready[k] == []
    ensures Count(s2.sched, 2) == 2
  {
    hide Enabled, Step, AllOk, TopRuns, LocksStep, NoneForgotten, Highest;
    s1, ready := OneCreated(s, devs, interval);
    JoinTakes(s1, ready, 1, 3, 2, 2, 10);
    ready := ready[10 := []];
    StepKeeps(s1, JoinThread(2, true));
    EveryStepCounts(s1, JoinThread(2, true));
    s2 := Step(s1, JoinThread(2, true));
  }

  // With the third event thread 3 takes over.
  lemma Waiting(s: State, devs: set<nat>, interval: Time) returns (s1: State, s2: State, s3: State)
    requires AllOk(s) && InRange(interval) && interval.sec >= 0 && Started(s, devs, interval)
    ensures Enabled(s, CreateThread(10)) && s1 == Step(s, CreateThread(10)) && AllOk(s1)
    ensures Enabled(s1, JoinThread(2, true)) && s2 == Step(s1, JoinThread(2, true)) && AllOk(s2)
    ensures Enabled(s2, CreateThread(30)) && s3 == Step(s2, CreateThread(30)) && AllOk(s3)
    ensures s1.sched.active == Some(1) && Joins(s1.sched, JoinThread(2, true), 2)
    ensures s3.sched.active == Some(3) && s3.resuming == map[] && IsCancelled(s3.sched, 2) && Count(s3.sched, 2) == 2
  {
    hide Enabled, Step, AllOk, TopRuns, LocksStep, NoneForgotten, Highest, Started, Put;
    var ready;
    s1, s2, ready := OneWaits(s, devs, interval);
    CreateAbove(s2, ready, 2, 3, 30);
    StepKeeps(s2, CreateThread(30));
    EveryStepCounts(s2, CreateThread(30));
    s3 := Step(s2, CreateThread(30));
  }

  // The other two: thread 3 cancels thread 2 and collects its status.
  lemma CancelAndCollect(s: State) returns (s4: State)
    requires AllOk(s) && s.sched.active == Some(3) && s.resuming == map[] && IsCancelled(s.sched, 2)
             && Count(s.sched, 2) == 2
    ensures Enabled(s, CancelThread(2)) && s4 == Step(s, CancelThread(2)) && AllOk(s4)
            && Enabled(s4, JoinThread(2, false))
    ensures s4.sched.active == Some(3) && AllOk(Step(s4, JoinThread(2, false)))
    ensures 2 !in Step(s4, JoinThread(2, false)).sched.threads
  {
    hide AllOk, Step, LocksStep, TopRuns, NoneForgotten;
    AllRunning(s);
    s4 := Step(s, CancelThread(2));
    CancelledState(s);
    StepKeeps(s, CancelThread(2));
    EveryStepCounts(s, CancelThread(2));
    EndsLeavesStatus(s, CancelThread(2), 2);
    Positive(s4, 2);
    StepKeeps(s4, JoinThread(2, false));
    EveryStepCounts(s4, JoinThread(2, false));
    Positive(Step(s4, JoinThread(2, false)), 2);
  }

  lemma CancelledState(s: State)
    requires AllOk(s) && Enabled(s, CancelThread(2))
    ensures var s4 := Step(s, CancelThread(2));
            s4.sched.active == s.sched.active && s4.resuming == s.resuming && s4.sched.next == s.sched.next
  {
    hide AllOk, Cancel, Running, Core, IdleOk;
    AllRunning(s);
    ThreadCalls.CancelRuns(s, 2);
    CancelCounts(s.sched, 2);
  }

  // Thread 1 waits for the end of thread 2.  Thread 3, which never waited for it, cancels thread 2 and
  // collects its status: the descriptor is gone before thread 1, which is ready, can look at it.  See
  // Safety.WaitersFindDescriptor.
  lemma StrangerCollects(devs: set<nat>, interval: Time)
    requires InRange(interval) && interval.sec >= 0
    ensures var s := Boot(20, devs, interval);
            var es := [CreateThread(10), JoinThread(2, true), CreateThread(30), CancelThread(2), JoinThread(2, false)];
            CanRun(s, es) && 1 in OwedIn(s, es, 2, multiset{}) && 2 !in Run(s, es).sched.threads
  {
    hide Enabled, Step, AllOk, CanRun, Run, Started, OwedIn, Joins, Collects, Count, IsCancelled;
    var s0 := Boot(20, devs, interval);
    BootStarts(20, devs, interval);
    var s1, s2, s3 := Waiting(s0, devs, interval);
    var s4 := CancelAndCollect(s3);
    StrangerRun(s0, s1, s2, s3, s4);
    assert [CreateThread(10)] + ([JoinThread(2, true)] + ([CreateThread(30)]
           + ([CancelThread(2)] + ([JoinThread(2, false)] + []))))
        == [CreateThread(10), JoinThread(2, true), CreateThread(30), CancelThread(2), JoinThread(2, false)];
  }

  lemma StrangerRun(s0: State, s1: State, s2: State, s3: State, s4: State)
    requires AllOk(s0) && Enabled(s0, CreateThread(10)) && s1 == Step(s0, CreateThread(10)) && AllOk(s1)
    requires Enabled(s1, JoinThread(2, true)) && s2 == Step(s1, JoinThread(2, true)) && AllOk(s2)
    requires Enabled(s2, CreateThread(30)) && s3 == Step(s2, CreateThread(30)) && AllOk(s3)
    requires Enabled(s3, CancelThread(2)) && s4 == Step(s3, CancelThread(2)) && AllOk(s4)
             && Enabled(s4, JoinThread(2, false))
    requires AllOk(Step(s4, JoinThread(2, false)))
    requires s1.sched.active == Some(1) && Joins(s1.sched, JoinThread(2, true), 2) && s4.sched.active == Some(3)
    ensures var e4 := [CancelThread(2)] + ([JoinThread(2, false)] + []);
            var es := [CreateThread(10)] + ([JoinThread(2, true)] + ([CreateThread(30)] + e4));
            && CanRun(s0, es) && Run(s0, es) == Step(s4, JoinThread(2, false))
            && 1 in OwedIn(s0, es, 2, multiset{})
  {
    hide Enabled, Step, AllOk, OwedAfter, Joins;
    var e5: seq<Event> := [JoinThread(2, false)] + [];
    var e4 := [CancelThread(2)] + e5;
    StrangerEnd(s3, s4, e5);
    var e3 := [CreateThread(30)] + e4;
    OwedOthers(s2.sched, CreateThread(30), multiset{1});
    OwedCons(s2, CreateThread(30), e4, 2, multiset{1});
    OwedJoin(s1.sched);
    OwedCons(s1, JoinThread(2, true), e3, 2, multiset{});
    OwedOthers(s0.sched, CreateThread(10), multiset{});
    OwedCons(s0, CreateThread(10), [JoinThread(2, true)] + e3, 2, multiset{});
  }

  lemma StrangerEnd(s3: State, s4: State, e5: seq<Event>)
    requires AllOk(s3) && Enabled(s3, CancelThread(2)) && s4 == Step(s3, CancelThread(2))
    requires AllOk(s4) && Enabled(s4, JoinThread(2, false)) && AllOk(Step(s4, JoinThread(2, false)))
    requires s4.sched.active == Some(3) && e5 == [JoinThread(2, false)] + []
    ensures var e4 := [CancelThread(2)] + e5;
            && CanRun(s3, e4) && Run(s3, e4) == Step(s4, JoinThread(2, false))
            && 1 in OwedIn(s3, e4, 2, multiset{1})
  {
    hide Enabled, Step, AllOk, OwedAfter;
    OwedCollected(s4.sched);
    OwedCons(s4, JoinThread(2, false), [], 2, multiset{1});
    OwedOthers(s3.sched, CancelThread(2), multiset{1});
    OwedCons(s3, CancelThread(2), e5, 2, multiset{1});
  }

  lemma OwedOthers(s: Sched, e: Event, owed: multiset<Tid>)
    requires !e.JoinThread?
    ensures OwedAfter(owed, s, e, 2) == owed
  {
  }

  lemma OwedJoin(s: Sched)
    requires s.active == Some(1) && Joins(s, JoinThread(2, true), 2)
    ensures OwedAfter(multiset{}, s, JoinThread(2, true), 2) == multiset{1}
  {
    hide Joins;
    var none: multiset<Tid> := multiset{};
    assert none + multiset{1} == multiset{1};
  }

  lemma OwedCollected(s: Sched)
    requires s.active == Some(3)
    ensures 1 in OwedAfter(multiset{1}, s, JoinThread(2, false), 2)
  {
  }

  // -- anybody can unlock ---------------------------------------------------------------------

  // Thread 1 locks device 0; thread 2 unlocks it without holding it, and then locks it as well.  See
  // Devices.UnlockKeepsIff.
  lemma ForeignUnlockFrees(devs: set<nat>, interval: Time)
    requires InRange(interval) && interval.sec >= 0 && 0 in devs
    ensures var s, es := Boot(20, devs, interval), [DevLock(0, true), CreateThread(30)];
            && CanRun(s, es)
            && var r := Run(s, es);
               && AllOk(r) && Running(r) && MayCall(r) && 0 in r.devs && r.devs[0].holders == {1}
               && !DevsOk(Devices.Unlock(r, 0)) && Devices.Unlock(r, 0).devs[0] == Dev(false, {1})
               && Running(Devices.Unlock(r, 0))
               && Devices.Lock(Devices.Unlock(r, 0), 0, true).devs[0] == Dev(true, {1, 2})
  {
    hide Enabled, Step, AllOk, CanRun, Run, TopRuns, LocksStep, NoneForgotten, Running, Core, IdleOk, Put;
    hide Devices.Unlock, Devices.Lock, DevsOk, Highest;
    var s0 := Boot(20, devs, interval);
    BootStarts(20, devs, interval);
    LockFirst(s0);
    StepKeeps(s0, DevLock(0, true));
    var s1 := Step(s0, DevLock(0, true));
    CreateAbove(s1, BOOTED, 1, 2, 30);
    StepKeeps(s1, CreateThread(30));
    RunTwo(s0, DevLock(0, true), CreateThread(30));
    UnlockForeign(Step(s1, CreateThread(30)));
  }

  lemma LockFirst(s: State)
    requires AllOk(s) && s.sched.active == Some(1) && s.resuming == map[] && 0 in s.devs && s.devs[0] == Dev(false, {})
    ensures Enabled(s, DevLock(0, true)) && Step(s, DevLock(0, true)) == s.(devs := s.devs[0 := Dev(true, {1})])
  {
    hide AllOk, Running;
    AllRunning(s);
    assert {} + {1} == {1};
  }

  lemma UnlockForeign(s: State)
    requires AllOk(s) && s.sched.active == Some(2) && 0 in s.devs && s.devs[0] == Dev(true, {1})
             && Q(s.sched, DevQ(0)) == []
    ensures Running(s) && Devices.Unlock(s, 0).devs[0] == Dev(false, {1}) && !DevsOk(Devices.Unlock(s, 0))
    ensures Running(Devices.Unlock(s, 0)) && Devices.Lock(Devices.Unlock(s, 0), 0, true).devs[0] == Dev(true, {1, 2})
  {
    hide AllOk, Running;
    AllRunning(s);
    var u := Devices.Unlock(s, 0);
    assert {1} - {2} == {1};
    RunningFields(s, u);
    assert 1 in u.devs[0].holders;
    assert !DevOk(u, 0);
    assert {1} + {2} == {1, 2};
  }

  // -- an alarm at time zero --------------------------------------------------------------------

  const ONE_SHOT: Alarm := Alarm(Time(5, 0), Time(0, 0), false, true, false, 0, false)

  // Thread 1 makes an alarm for second 5 and waits for it; thread 2 sets the alarm to time zero, and
  // nothing will wake thread 1.  See Alarms.SetKeeps.
  lemma ZeroTimeForgets(devs: set<nat>, now: Time, al: Alarm, zero: Alarm)
    requires al == ONE_SHOT && zero == ONE_SHOT.(exp := Time(0, 0)) && InRange(now) && Instant(now) < 5 * NS
    ensures var s, es := Boot(20, devs, Time(0, 0)), [CreateThread(10), AlarmNew(0, al, now), AlarmSet(0, zero, now)];
            && CanRun(s, es)
            && var r := Run(s, es); !NoneForgotten(r)
  {
    hide Enabled, Step, AllOk, CanRun, Run, TopRuns, LocksStep, NoneForgotten, Highest, Shows;
    var s0 := Boot(20, devs, Time(0, 0));
    BootStarts(20, devs, Time(0, 0));
    var s1, ready := OneCreated(s0, devs, Time(0, 0));
    assert ready[10] == [2];
    NewWaits(s1, ready, al, now);
    StepKeeps(s1, AlarmNew(0, al, now));
    var s2 := Step(s1, AlarmNew(0, al, now));
    SetForgets(s2, zero, now);
    RunThree(s0, CreateThread(10), AlarmNew(0, al, now), AlarmSet(0, zero, now));
  }

  lemma SetForgets(s: State, zero: Alarm, now: Time)
    requires AllOk(s) && NoneForgotten(s) && s.sched.active == Some(2) && s.resuming == map[] && InRange(now)
    requires zero == ONE_SHOT.(exp := Time(0, 0)) && Q(s.sched, AlarmQ(0)) != [] && 0 in s.alarms
             && s.alarms[0].exp == Time(5, 0)
    ensures Enabled(s, AlarmSet(0, zero, now)) && !NoneForgotten(Step(s, AlarmSet(0, zero, now)))
  {
    hide AllOk, NoneForgotten, Step, LocksStep, TopRuns;
    StepKeeps(s, AlarmSet(0, zero, now));
  }

  lemma NewWaits(s: State, ready: map<nat, seq<Tid>>, al: Alarm, now: Time)
    requires AllOk(s) && Shows(s.sched, ready, 1, 3) && s.resuming == map[] && s.alarms == map[] && s.list == []
    requires Highest(ready, 10) && ready[10] == [2] && al == ONE_SHOT && InRange(now) && Instant(now) < 5 * NS
             && s.threshold == Time(0, 0)
    ensures Enabled(s, AlarmNew(0, al, now))
    ensures var s' := Step(s, AlarmNew(0, al, now));
            && s'.sched.active == Some(2) && s'.resuming == map[]
            && Q(s'.sched, AlarmQ(0)) != [] && 0 in s'.alarms && s'.alarms[0].exp == Time(5, 0)
  {
    hide AllOk, Put, ScheduleAlarms, BlockActive, Reschedule, Core, IdleOk, Highest, Running;
    AllRunning(s);
    NewKeeps(s, 0, al);
    var s1 := WithNew(s, 0, al);
    ArmKeeps(s1, 0);
    var s2 := Arm(s1, 0);
    OneArmed(s1);
    NothingYet(s2, now);
    var r := ScheduleAlarms(s2, now);
    ScheduleAlarmsKeeps(s2, now);
    BlocksAndTakes(r.state, ready, 1, 3, 2, 10);
  }

  lemma OneArmed(s: State)
    requires 0 in s.alarms && s.alarms[0].exp == Time(5, 0) && s.list == []
    ensures Arm(s, 0) == s.(alarms := s.alarms[0 := s.alarms[0].(active := true)], list := [0])
  {
  }

  lemma NothingYet(s: State, now: Time)
    requires AllOk(s) && s.list == [0] && 0 in s.alarms && s.alarms[0].exp == Time(5, 0)
    requires InRange(now) && Instant(now) < 5 * NS && s.threshold == Time(0, 0)
    ensures var r := ScheduleAlarms(s, now); r.resched == 0 && r.state == s.(timer := r.state.timer)
  {
    hide AllOk;
    var ref := Add(now, s.threshold);
    assert Instant(ref) == Instant(now);
    assert Cmp(Time(5, 0), ref) > 0;
  }

  // The caller blocks on alarm 0, and the first ready thread takes over.
  lemma BlocksAndTakes(s: State, ready: map<nat, seq<Tid>>, a: Tid, n: nat, h: Tid, top: nat)
    requires AllOk(s) && Shows(s.sched, ready, a, n) && a != IDLE && Highest(ready, top) && ready[top] == [h] && h != a
    ensures var b := s.(sched := BlockActive(s.sched, AlarmQ(0)));
            && Core(b.sched) && IdleOk(b.sched)
            && var s' := Reschedule(b);
               s' == s.(sched := s'.sched) && s'.sched.active == Some(h) && Q(s'.sched, AlarmQ(0)) != []
  {
    hide SemsOk, DevsOk, AlarmsOk, IdleOk, RefsOk, Placement, TopBelow, Schedule;
    AllRunning(s);
    RunningPlaced(s);
    BlockRuns(s, AlarmQ(0));
    HeadPlaced(s.sched, None, ReadyQ(top));
    var b := BlockActive(s.sched, AlarmQ(0));
    IdleCanRun(b);
    assert b.threads[a].state == Wait;
    IsTaken(b, ready, h, top);
  }

  // -- a semaphore below zero ---------------------------------------------------------------------

  // A wait blocks whenever the value is not positive, also below zero, and a value below zero
  // comes only from an initial value below zero.
  lemma WaitBlocksIff(s: State, i: nat)
    requires AllOk(s) && MayCall(s) && i in s.sems
    ensures s.sched.active.value in Q(Semaphores.Wait(s, i).sched, SemQ(i)) <==> s.sems[i].value <= 0
    ensures s.sems[i].value < 0 ==> s.sems[i].initial < 0
  {
    hide Running, DevsOk, AlarmsOk, SchedFrame, TopRuns, Semaphores.Wait;
    Semaphores.WaitKeeps(s, i);
    Devices.ActiveInNoQueue(s, SemQ(i));
  }

  lemma NegativeValueBlocks(devs: set<nat>, interval: Time)
    requires InRange(interval) && interval.sec >= 0
    ensures var s, es := Boot(20, devs, interval), [SemInit(0, -1), SemWait(0)];
            && CanRun(s, es)
            && var r := Run(s, es); 0 in r.sems && r.sems[0].value == -1 && 1 in Q(r.sched, SemQ(0))
  {
    hide Enabled, Step, AllOk, CanRun, Run, TopRuns, LocksStep, NoneForgotten;
    var s0 := Boot(20, devs, interval);
    BootStarts(20, devs, interval);
    InitFirst(s0);
    StepKeeps(s0, SemInit(0, -1));
    var s1 := Step(s0, SemInit(0, -1));
    WaitNegative(s1);
    RunTwo(s0, SemInit(0, -1), SemWait(0));
  }

  lemma InitFirst(s: State)
    requires AllOk(s) && s.sched.active == Some(1) && s.resuming == map[] && s.sems == map[]
    ensures Enabled(s, SemInit(0, -1)) && Step(s, SemInit(0, -1)) == s.(sems := map[0 := Sem(-1, -1, 0, 0)])
  {
    hide AllOk;
    assert map[][0 := Sem(-1, -1, 0, 0)] == map[0 := Sem(-1, -1, 0, 0)];
  }

  lemma WaitNegative(s: State)
    requires AllOk(s) && s.sched.active == Some(1) && s.resuming == map[] && 0 in s.sems && s.sems[0].value == -1
    ensures Enabled(s, SemWait(0))
    ensures var s' := Step(s, SemWait(0)); 0 in s'.sems && s'.sems[0].value == -1 && 1 in Q(s'.sched, SemQ(0))
  {
    hide Running, DevsOk, AlarmsOk, SchedFrame, TopRuns, Semaphores.Wait;
    Semaphores.WaitKeeps(s, 0);
  }
}
