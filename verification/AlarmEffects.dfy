/**
 What calls on alarms and the timer interrupt do, said of the state alone: which data alarms have
 afterwards, which threads are created and woken, and whether the processor is given away.
 */
module AlarmEffects {
  import opened Options
  import opened Seqs
  import opened Time
  import opened Scheduler
  import opened KernelState
  import opened Alarms
  import opened AlarmFrames
  import opened References
  import opened ThreadEffects

  // -- one activation -----------------------------------------------------------------------

  /** The threads that are ready. */
  ghost function ReadySet(s: Sched): set<Tid> {
    set t | t in s.threads && s.threads[t].state == Ready
  }

  // An activation creates a thread exactly if the alarm has an action, one priority above its owner,
  // and then makes all waiters ready, in their order; nothing else changes.
  lemma WakeEffect(s: Sched, al: Alarm, a: nat)
    requires Inv(s) && IdleOk(s)
    ensures var w, level := Wake(s, al, a), Level(al.ownerPrio + 1);
            && w.active == s.active && w.next == s.next + (if al.action then 1 else 0) && s.next !in s.threads
            && (forall t :: t in w.threads <==> t in s.threads || (al.action && t == s.next))
            && (al.action ==> w.threads[s.next] == Thread(Ready, level, Some(ReadyQ(level)), 0, 1))
            && (forall t :: t in s.threads ==>
                  w.threads[t] == if t in Q(s, AlarmQ(a)) then Readied(s.threads[t]) else s.threads[t])
            && (forall p: nat :: Q(w, ReadyQ(p)) ==
                  Q(s, ReadyQ(p)) + (if al.action && p == level then [s.next] else []) + OfPrio(s, Q(s, AlarmQ(a)), p))
            && (forall q: QueueId :: !q.ReadyQ? ==> Q(w, q) == if q == AlarmQ(a) then [] else Q(s, q))
  {
    hide Placement, RefsOk, CreateThread, OfPrio, ReleaseAll, IdleOk, SchedFrame, OnlyActive, Inv;
    InvParts(s);
    WakeReady(s, al, a);
    var ts := Q(s, AlarmQ(a));
    NewName(s, AlarmQ(a));
    CreateIs(s, al.ownerPrio + 1);
    var c := if al.action then CreateThread(s, al.ownerPrio + 1, true) else s;
    InvParts(c);
    ReleaseAllEffect(c, AlarmQ(a));
    forall p: nat ensures OfPrio(c, ts, p) == OfPrio(s, ts, p) {
      OfPrioOld(s, c, ts, p);
    }
  }

  lemma InvParts(s: Sched)
    requires Inv(s)
    ensures Placement(s, None)
  {
  }

  lemma NewName(s: Sched, q: QueueId)
    requires Inv(s)
    ensures s.next !in s.threads && s.next !in Q(s, q) && forall t :: t in Q(s, q) ==> t in s.threads
  {
    AllPlaced(s, q);
  }

  lemma {:induction false} OfPrioOld(s: Sched, c: Sched, ts: seq<Tid>, p: nat)
    requires forall t :: t in ts ==> t in s.threads && t in c.threads && c.threads[t].prio == s.threads[t].prio
    ensures OfPrio(c, ts, p) == OfPrio(s, ts, p)
  {
    if ts != [] {
      assert ts[0] in ts && forall t :: t in ts[1..] ==> t in ts;
      OfPrioOld(s, c, ts[1..], p);
    }
  }

  // The number of threads that k_schedule_alarms counts is the number it makes ready.
  lemma WokenIs(s: Sched, al: Alarm, a: nat)
    requires Inv(s) && IdleOk(s)
    ensures |ReadySet(Wake(s, al, a))| == |ReadySet(s)| + Woken(s, al, a)
  {
    hide Placement, RefsOk, Wake, OfPrio, IdleOk, ReadySet;
    WakeEffect(s, al, a);
    AllPlaced(s, AlarmQ(a));
    QueuesDistinct(s, AlarmQ(a));
    ReadyAfter(s, Wake(s, al, a), Q(s, AlarmQ(a)), if al.action then {s.next} else {});
  }

  lemma ReadyAfter(s: Sched, w: Sched, ts: seq<Tid>, made: set<Tid>)
    requires forall t :: t in w.threads <==> t in s.threads || t in made
    requires forall t :: t in made ==> t !in s.threads && t in w.threads && w.threads[t].state == Ready
    requires Distinct(ts) && forall t :: t in ts ==> t in s.threads && s.threads[t].state != Ready
    requires forall t :: t in s.threads ==> w.threads[t].state == if t in ts then Ready else s.threads[t].state
    ensures |ReadySet(w)| == |ReadySet(s)| + |made| + |ts|
  {
    hide Distinct;
    ElemsSize(ts);
    var both := ReadySet(s) + Elems(ts);
    assert ReadySet(s) !! Elems(ts) && both !! made;
    assert |both| == |ReadySet(s)| + |ts|;
    assert ReadySet(w) == both + made;
  }

  // -- the loop ---------------------------------------------------------------------------------

  /** The alarms with an action in a log of activations. */
  function Actors(log: seq<Firing>, alarms: map<nat, Alarm>): seq<nat> {
    if log == [] then []
    else
      (if log[0].alarm in alarms && alarms[log[0].alarm].action then [log[0].alarm] else []) + Actors(log[1..], alarms)
  }

  /** The threads for these alarms, named from `next` on: one priority above the owners. */
  ghost predicate Started(s: Sched, next: nat, actors: seq<nat>, alarms: map<nat, Alarm>) {
    forall j :: 0 <= j < |actors| ==> IsActor(s, next + j, actors[j], alarms)
  }

  predicate IsActor(s: Sched, t: Tid, a: nat, alarms: map<nat, Alarm>) {
    t in s.threads && a in alarms && s.threads[t].prio == Level(alarms[a].ownerPrio + 1)
  }

  /** Alarms differ at most in time and activity. */
  ghost predicate SameMakers(alarms: map<nat, Alarm>, alarms': map<nat, Alarm>) {
    && alarms'.Keys == alarms.Keys
    && forall a :: a in alarms ==> alarms'[a].action == alarms[a].action && alarms'[a].ownerPrio == alarms[a].ownerPrio
  }

  lemma {:induction false} ActorsFrame(log: seq<Firing>, alarms: map<nat, Alarm>, alarms': map<nat, Alarm>)
    requires SameMakers(alarms, alarms')
    ensures Actors(log, alarms') == Actors(log, alarms)
  {
    if log != [] {
      ActorsFrame(log[1..], alarms, alarms');
    }
  }

  lemma AdvanceMakers(s: State)
    requires AllOk(s) && s.list != []
    ensures s.list[0] in s.alarms && SameMakers(s.alarms, FireFirst(s).alarms)
    ensures FireFirst(s).sched == Wake(s.sched, s.alarms[s.list[0]], s.list[0])
  {
    hide Wake, NextList;
    FirstListed(s);
  }

  // A thread is started for each activation of an alarm with an action, and for nothing else.
  lemma {:induction false} LoopStarts(s: State, ref: Time)
    requires AllOk(s) && InRange(ref)
    ensures var r, actors := AlarmLoop(s, ref).state.sched, Actors(Firings(s, ref), s.alarms);
            r.next == s.sched.next + |actors| && Started(r, s.sched.next, actors, s.alarms)
    decreases Lag(s.list, s.alarms, ref)
  {
    hide AllOk, Lag, Wake, NextList, FireFirst, Kept;
    if IsDue(s, ref) {
      AllRunning(s);
      FireKeeps(s);
      FireLag(s, ref);
      AdvanceMakers(s);
      var s', f := FireFirst(s), Firing(s.list[0], s.alarms[s.list[0]].exp);
      WakeEffect(s.sched, s.alarms[s.list[0]], s.list[0]);
      LoopStarts(s', ref);
      LoopCounts(s', ref);
      ActorsFrame(Firings(s', ref), s.alarms, s'.alarms);
      assert ([f] + Firings(s', ref))[1..] == Firings(s', ref);
      StartedFirst(s, s'.sched, AlarmLoop(s', ref).state.sched, Actors(Firings(s', ref), s.alarms), s'.alarms);
    }
  }

  lemma StartedFirst(s: State, s': Sched, r: Sched, actors: seq<nat>, alarms': map<nat, Alarm>)
    requires s.list != [] && s.list[0] in s.alarms && SameMakers(s.alarms, alarms')
    requires Kept(s', r) && Started(r, s'.next, actors, alarms') && forall a :: a in actors ==> a in s.alarms
    requires var al := s.alarms[s.list[0]];
             && s'.next == s.sched.next + (if al.action then 1 else 0)
             && (al.action ==> s.sched.next in s'.threads && s'.threads[s.sched.next].prio == Level(al.ownerPrio + 1))
    ensures var all := (if s.alarms[s.list[0]].action then [s.list[0]] else []) + actors;
            Started(r, s.sched.next, all, s.alarms)
  {
    hide Kept;
    var next, al := s.sched.next, s.alarms[s.list[0]];
    var all := (if al.action then [s.list[0]] else []) + actors;
    if al.action {
      KeptThread(s', r, next);
    }
    forall j | 0 <= j < |all| ensures IsActor(r, next + j, all[j], s.alarms) {
      var i := if al.action then j - 1 else j;
      if i >= 0 {
        assert all[j] == actors[i] && next + j == s'.next + i;
        assert IsActor(r, s'.next + i, actors[i], alarms');
      }
    }
  }

  lemma KeptThread(s: Sched, s': Sched, t: Tid)
    requires Kept(s, s') && t in s.threads
    ensures t in s'.threads && SameData(s.threads[t], s'.threads[t])
  {
  }

  lemma {:induction false} ActorsKnown(log: seq<Firing>, alarms: map<nat, Alarm>)
    ensures forall a :: a in Actors(log, alarms) ==> a in alarms
  {
    if log != [] {
      ActorsKnown(log[1..], alarms);
    }
  }

  lemma {:induction false} LoopMakesReady(s: State, ref: Time)
    requires AllOk(s) && InRange(ref)
    ensures |ReadySet(AlarmLoop(s, ref).state.sched)| == |ReadySet(s.sched)| + AlarmLoop(s, ref).resched
    decreases Lag(s.list, s.alarms, ref)
  {
    hide AllOk, Lag, Wake, NextList, FireFirst, Woken, ReadySet;
    if IsDue(s, ref) {
      AllRunning(s);
      FireKeeps(s);
      FireLag(s, ref);
      AdvanceMakers(s);
      WokenIs(s.sched, s.alarms[s.list[0]], s.list[0]);
      LoopMakesReady(FireFirst(s), ref);
    }
  }

  // -- the queues of alarms ------------------------------------------------------------------------

  lemma NotDue(s: State, ref: Time, b: nat)
    requires AllOk(s) && InRange(ref) && !IsDue(s, ref) && b in s.alarms
    ensures AlarmValid(s.alarms[b]) && DueTimes(s.alarms[b], ref) == []
  {
    NothingDue(s, ref, b);
  }

  lemma DueAfterFirst(s: State, ref: Time, b: nat)
    requires AllOk(s) && InRange(ref) && IsDue(s, ref) && b in s.alarms
    ensures s.list[0] in s.alarms && Running(s)
    ensures var s' := FireFirst(s);
            && b in s'.alarms && AlarmValid(s.alarms[b]) && AlarmValid(s'.alarms[b])
            && DueTimes(s.alarms[b], ref) ==
               (if b == s.list[0] then [s.alarms[b].exp] else []) + DueTimes(s'.alarms[b], ref)
  {
    hide Running, SemsOk, DevsOk, Wake, NextList, ListOk;
    FirstListed(s);
    AdvanceValid(s.alarms[s.list[0]]);
    if b != s.list[0] {
      assert [] + DueTimes(s.alarms[b], ref) == DueTimes(s.alarms[b], ref);
    }
  }

  // The waiters of exactly those alarms are released that are activated.
  lemma {:induction false} LoopQueues(s: State, ref: Time, b: nat)
    requires AllOk(s) && InRange(ref) && b in s.alarms
    ensures AlarmValid(s.alarms[b])
    ensures Q(AlarmLoop(s, ref).state.sched, AlarmQ(b)) ==
            if DueTimes(s.alarms[b], ref) != [] then [] else Q(s.sched, AlarmQ(b))
    decreases Lag(s.list, s.alarms, ref)
  {
    hide AllOk, Lag, FireFirst, DueTimes, Woken;
    if IsDue(s, ref) {
      OkParts(s);
      FireKeeps(s);
      FireLag(s, ref);
      DueAfterFirst(s, ref, b);
      LoopQueues(FireFirst(s), ref, b);
    } else {
      NotDue(s, ref, b);
    }
  }

  /** The alarm has valid data, so that its expirations can be computed. */
  ghost predicate AllValid(alarms: map<nat, Alarm>) {
    forall b :: b in alarms ==> AlarmValid(alarms[b])
  }

  /** No alarm that is due has an action or waiters. */
  ghost predicate Quiet(alarms: map<nat, Alarm>, s: Sched, ref: Time)
    requires AllValid(alarms) && InRange(ref)
  {
    forall b :: b in alarms && DueTimes(alarms[b], ref) != [] ==> !alarms[b].action && Q(s, AlarmQ(b)) == []
  }

  lemma OkValid(s: State)
    requires AllOk(s)
    ensures AllValid(s.alarms)
  {
  }

  lemma QuietAfterFirst(s: State, ref: Time)
    requires AllOk(s) && InRange(ref) && IsDue(s, ref)
    ensures s.list[0] in s.alarms && Running(s) && AllValid(s.alarms)
    ensures var s', a := FireFirst(s), s.list[0];
            && AllValid(s'.alarms)
            && (Quiet(s.alarms, s.sched, ref) <==>
                  Woken(s.sched, s.alarms[a], a) == 0 && Quiet(s'.alarms, s'.sched, ref))
  {
    hide AllOk, Running, DueTimes, FireFirst, AlarmValid, SameMakers, Quiet, Woken, Wake;
    OkParts(s);
    FireKeeps(s);
    OkValid(s);
    OkValid(FireFirst(s));
    var s', a := FireFirst(s), s.list[0];
    forall b | b in s.alarms
      ensures b in s'.alarms && DueTimes(s.alarms[b], ref) ==
              (if b == a then [s.alarms[b].exp] else []) + DueTimes(s'.alarms[b], ref)
    {
      DueAfterFirst(s, ref, b);
    }
    AdvanceMakers(s);
    MakersAction(s.alarms, s'.alarms);
    QuietStep(s.alarms, s'.alarms, s.sched, s'.sched, a, ref);
  }

  lemma QuietStep(alarms: map<nat, Alarm>, alarms': map<nat, Alarm>, s: Sched, s': Sched, a: nat, ref: Time)
    requires AllValid(alarms) && AllValid(alarms') && InRange(ref) && a in alarms && alarms'.Keys == alarms.Keys
    requires forall b :: b in alarms ==>
               && alarms'[b].action == alarms[b].action
               && DueTimes(alarms[b], ref) == (if b == a then [alarms[b].exp] else []) + DueTimes(alarms'[b], ref)
    requires Q(s', AlarmQ(a)) == [] && forall b: nat :: b != a ==> Q(s', AlarmQ(b)) == Q(s, AlarmQ(b))
    ensures Quiet(alarms, s, ref) <==> Woken(s, alarms[a], a) == 0 && Quiet(alarms', s', ref)
  {
    hide DueTimes, AlarmValid;
    assert DueTimes(alarms[a], ref) != [];
    forall b | b in alarms && b != a ensures DueTimes(alarms'[b], ref) == DueTimes(alarms[b], ref) {
      assert [] + DueTimes(alarms'[b], ref) == DueTimes(alarms'[b], ref);
    }
  }

  lemma MakersAction(alarms: map<nat, Alarm>, alarms': map<nat, Alarm>)
    requires SameMakers(alarms, alarms')
    ensures alarms'.Keys == alarms.Keys && forall a :: a in alarms ==> alarms'[a].action == alarms[a].action
  {
  }

  // k_schedule_alarms reports that nobody was made ready exactly if no alarm that is due has an action or
  // waiters.
  lemma {:induction false} LoopQuietIff(s: State, ref: Time)
    requires AllOk(s) && InRange(ref)
    ensures AllValid(s.alarms) && (AlarmLoop(s, ref).resched == 0 <==> Quiet(s.alarms, s.sched, ref))
    decreases Lag(s.list, s.alarms, ref)
  {
    hide AllOk, Lag, FireFirst, DueTimes, Woken, Quiet;
    OkValid(s);
    if IsDue(s, ref) {
      OkParts(s);
      FireKeeps(s);
      FireLag(s, ref);
      QuietAfterFirst(s, ref);
      LoopQuietIff(FireFirst(s), ref);
    } else {
      NothingDueQuiet(s, ref);
    }
  }

  lemma NothingDueQuiet(s: State, ref: Time)
    requires AllOk(s) && InRange(ref) && !IsDue(s, ref)
    ensures AllValid(s.alarms) && Quiet(s.alarms, s.sched, ref)
  {
    hide AllOk, DueTimes;
    OkValid(s);
    forall b | b in s.alarms ensures DueTimes(s.alarms[b], ref) == [] {
      NotDue(s, ref, b);
    }
  }

  // -- the whole effect of k_schedule_alarms --------------------------------------------------------

  /** The log of activations: every alarm at exactly its due expirations, in time order. */
  ghost predicate Logged(alarms: map<nat, Alarm>, log: seq<Firing>, ref: Time)
    requires AllValid(alarms) && InRange(ref)
  {
    && (forall b :: b in alarms ==> TimesOf(b, log) == DueTimes(alarms[b], ref))
    && (forall i, j :: 0 <= i < j < |log| ==> Cmp(log[i].time, log[j].time) <= 0)
  }

  /** From state s, with these alarms, up to state s': all alarms moved on past what was due by `ref`, a
      thread was started for each activation of an alarm with an action, the waiters of activated alarms
      have left, and the caller perhaps waits for an alarm. */
  ghost predicate ClockRun(alarms: map<nat, Alarm>, s: State, s': State, ref: Time, blocked: Option<nat>)
    requires AllValid(alarms) && InRange(ref)
  {
    && s'.alarms.Keys == alarms.Keys
    && (forall b :: b in alarms ==> s'.alarms[b] == AdvanceAll(alarms[b], ref))
    && |s'.fired| >= |s.fired| && s'.fired[..|s.fired|] == s.fired
    && Logged(alarms, s'.fired[|s.fired|..], ref)
    && s'.sched.next == s.sched.next + |Actors(s'.fired[|s.fired|..], alarms)|
    && Started(s'.sched, s.sched.next, Actors(s'.fired[|s.fired|..], alarms), alarms)
    && (forall b :: b in alarms ==>
          Q(s'.sched, AlarmQ(b)) == WaitersAfter(alarms[b], s.sched, b, ref) + CallerIf(s.sched, blocked == Some(b)))
  }

  function WaitersAfter(al: Alarm, s: Sched, b: nat, ref: Time): seq<Tid>
    requires AlarmValid(al) && InRange(ref)
  {
    if DueTimes(al, ref) != [] then [] else Q(s, AlarmQ(b))
  }

  function CallerIf(s: Sched, blocked: bool): seq<Tid> {
    if blocked && s.active.Some? then [s.active.value] else []
  }

  lemma LoopClock(s: State, ref: Time)
    requires AllOk(s) && InRange(ref)
    ensures AllValid(s.alarms) && ClockRun(s.alarms, s, AlarmLoop(s, ref).state, ref, None)
  {
    hide AllOk, AlarmLoop, DueTimes, AdvanceAll, Actors, Firings, Started;
    OkValid(s);
    LoopKeeps(s, ref);
    LoopStarts(s, ref);
    var r, log := AlarmLoop(s, ref).state, Firings(s, ref);
    assert r.fired[..|s.fired|] == s.fired && r.fired[|s.fired|..] == log;
    forall b | b in s.alarms
      ensures TimesOf(b, log) == DueTimes(s.alarms[b], ref) && r.alarms[b] == AdvanceAll(s.alarms[b], ref)
      ensures Q(r.sched, AlarmQ(b)) == WaitersAfter(s.alarms[b], s.sched, b, ref) + CallerIf(s.sched, false)
    {
      LoopFiresExactly(s, ref, b);
      LoopQueues(s, ref, b);
    }
    LoopSorted(s, ref);
  }

  lemma LoopSorted(s: State, ref: Time)
    requires AllOk(s) && InRange(ref)
    ensures forall i, j :: 0 <= i < j < |Firings(s, ref)| ==> Cmp(Firings(s, ref)[i].time, Firings(s, ref)[j].time) <= 0
  {
    hide Running, SemsOk, DevsOk, Cmp, Firings;
    if s.list == [] {
      LoopFiresInOrder(s, ref, Time(0, 0));
    } else {
      var t := ExpOf(s.alarms, s.list[0]);
      forall a | a in s.list ensures Cmp(t, ExpOf(s.alarms, a)) <= 0 {
        FirstIsEarliest(s, a);
      }
      LoopFiresInOrder(s, ref, t);
    }
  }

  // What happens before the clock is looked at and after does not matter here.
  lemma ClockBase(alarms: map<nat, Alarm>, s: State, s1: State, s': State, ref: Time)
    requires AllValid(alarms) && InRange(ref) && ClockRun(alarms, s1, s', ref, None)
    requires s1.fired == s.fired && s1.sched.next == s.sched.next
    requires forall b :: b in alarms ==> Q(s1.sched, AlarmQ(b)) == Q(s.sched, AlarmQ(b))
    ensures ClockRun(alarms, s, s', ref, None)
  {
    hide Logged, Started, Actors, AdvanceAll, DueTimes;
  }

  lemma ClockThen(alarms: map<nat, Alarm>, s: State, r: State, s': State, ref: Time, blocked: Option<nat>)
    requires AllValid(alarms) && InRange(ref) && ClockRun(alarms, s, r, ref, None)
    requires s'.alarms == r.alarms && s'.fired == r.fired && s'.sched.next == r.sched.next && Kept(r.sched, s'.sched)
    requires forall b: nat :: Q(s'.sched, AlarmQ(b)) == Q(r.sched, AlarmQ(b)) + CallerIf(s.sched, blocked == Some(b))
    ensures ClockRun(alarms, s, s', ref, blocked)
  {
    hide Logged, Actors, AdvanceAll, DueTimes, Kept;
    var actors := Actors(s'.fired[|s.fired|..], alarms);
    forall j | 0 <= j < |actors| ensures IsActor(s'.sched, s.sched.next + j, actors[j], alarms) {
      assert IsActor(r.sched, s.sched.next + j, actors[j], alarms);
      KeptThread(r.sched, s'.sched, s.sched.next + j);
    }
  }

  /** The processor: given away if the caller blocks, kept if nobody was released or started, and else
      given to a thread of at least the priority of the caller, if there is one. */
  ghost predicate Yields(alarms: map<nat, Alarm>, s: Sched, s': Sched, ref: Time, blocked: bool, released: bool)
    requires AllValid(alarms) && InRange(ref)
  {
    if blocked then s'.active != s.active
    else if !released && Quiet(alarms, s, ref) then s' == s
    else Rescheduled(s, s')
  }

  lemma ScheduleClock(s: State, now: Time)
    requires AllOk(s) && InRange(now)
    ensures AllValid(s.alarms) && InRange(s.threshold)
    ensures var r, ref := ScheduleAlarms(s, now), Add(now, s.threshold);
            && ClockRun(s.alarms, s, r.state, ref, None)
            && (r.resched == 0 <==> Quiet(s.alarms, s.sched, ref))
            && |ReadySet(r.state.sched)| == |ReadySet(s.sched)| + r.resched
            && AllOk(r.state) && r.state.sched.active == s.sched.active && (r.resched == 0 ==> r.state.sched == s.sched)
  {
    hide AllOk, AlarmLoop, Quiet, Logged, Started, Actors, AdvanceAll, DueTimes, ReadySet;
    ThresholdOk(s);
    var ref := Add(now, s.threshold);
    LoopClock(s, ref);
    LoopQuietIff(s, ref);
    LoopMakesReady(s, ref);
    ScheduleAlarmsKeeps(s, now);
  }

  lemma RescheduleClock(alarms: map<nat, Alarm>, s: State, r: State, ref: Time)
    requires AllValid(alarms) && InRange(ref) && ClockRun(alarms, s, r, ref, None) && AllOk(r)
    requires r.sched.active == s.sched.active
    ensures Core(r.sched) && IdleOk(r.sched)
    ensures ClockRun(alarms, s, Reschedule(r), ref, None) && Rescheduled(s.sched, Reschedule(r).sched)
  {
    hide AllOk, ClockRun, Core, IdleOk, Reschedule, Rescheduled, Kept, SchedFrame;
    AllRunning(r);
    RescheduleRuns(r);
    RescheduleFields(r);
    RescheduleCounts(r);
    RescheduleYields(s.sched, r);
    ClockThen(alarms, s, r, Reschedule(r), ref, None);
  }

  // k_timer_interrupt: what was due is activated, and the interrupted thread goes on if nobody was made
  // ready.
  lemma TimerEffect(s: State, now: Time)
    requires AllOk(s) && InRange(now)
    ensures AllValid(s.alarms) && InRange(s.threshold)
    ensures var s', ref := Timer(s, now), Add(now, s.threshold);
            && ClockRun(s.alarms, s, s', ref, None)
            && Yields(s.alarms, s.sched, s'.sched, ref, false, false)
  {
    hide AllOk, ClockRun, ScheduleAlarms, Quiet, Core, IdleOk, Reschedule, Rescheduled, ReadySet;
    ScheduleClock(s, now);
    RescheduleClock(s.alarms, s, ScheduleAlarms(s, now).state, Add(now, s.threshold));
  }

  // k_alarm_add
  lemma AddEffect(s: State, a: nat, now: Time)
    requires AllOk(s) && a in s.alarms && !s.alarms[a].active && InRange(now) && s.sched.active != Some(IDLE)
    ensures InRange(s.threshold) && a in AddAlarm(s, a, now).alarms
    ensures var alarms := s.alarms[a := s.alarms[a].(active := s.alarms[a].exp.sec + s.alarms[a].exp.nsec > 0)];
            var s', ref := AddAlarm(s, a, now), Add(now, s.threshold);
            var blocked := s'.alarms[a].active && s'.alarms[a].wait;
            && AllValid(alarms) && ClockRun(alarms, s, s', ref, if blocked then Some(a) else None)
            && Yields(alarms, s.sched, s'.sched, ref, blocked, false)
  {
    hide AllOk, ClockRun, ScheduleAlarms, Quiet, Core, IdleOk, Reschedule, Rescheduled, BlockActive, Running,
         AddSorted, ReadySet,
         AlarmValid;
    ArmKeeps(s, a);
    var s1 := Arm(s, a);
    ArmedAlarms(s, a);
    ScheduleClock(s1, now);
    var r, ref := ScheduleAlarms(s1, now).state, Add(now, s.threshold);
    ClockBase(s1.alarms, s, s1, r, ref);
    ClockKeys(s1.alarms, s, r, ref);
    RescheduleClock(s1.alarms, s, r, ref);
    if r.alarms[a].active && r.alarms[a].wait {
      BlockClock(s1.alarms, s, r, ref, a);
    }
    RescheduleFields(r);
  }

  lemma ArmedAlarms(s: State, a: nat)
    requires a in s.alarms && !s.alarms[a].active
    ensures var s1 := Arm(s, a);
            && s1.alarms == s.alarms[a := s.alarms[a].(active := s.alarms[a].exp.sec + s.alarms[a].exp.nsec > 0)]
            && s1.fired == s.fired && s1.sched == s.sched && s1.threshold == s.threshold
  {
  }

  lemma ClockKeys(alarms: map<nat, Alarm>, s: State, r: State, ref: Time)
    requires AllValid(alarms) && InRange(ref) && ClockRun(alarms, s, r, ref, None)
    ensures r.alarms.Keys == alarms.Keys
  {
  }

  lemma BlockClock(alarms: map<nat, Alarm>, s: State, r: State, ref: Time, a: nat)
    requires AllValid(alarms) && InRange(ref) && ClockRun(alarms, s, r, ref, None) && AllOk(r)
    requires r.sched.active == s.sched.active && s.sched.active != Some(IDLE)
    ensures IsRunning(r.sched)
    ensures var b := r.(sched := BlockActive(r.sched, AlarmQ(a)));
            && Core(b.sched) && IdleOk(b.sched)
            && Reschedule(b) == r.(sched := Reschedule(b).sched) && Reschedule(b).sched.active != s.sched.active
            && ClockRun(alarms, s, Reschedule(b), ref, Some(a))
  {
    hide AllOk, ClockRun, Core, IdleOk, Reschedule, Kept, BlockActive, Running, SchedFrame;
    AllRunning(r);
    var b := r.(sched := BlockActive(r.sched, AlarmQ(a)));
    KeptRefl(r.sched);
    BlockOnAlarmCounts(r.sched, r, a);
    BlockYields(r, b, AlarmQ(a));
    RescheduleRuns(b);
    BlockQueuesOf(r.sched, AlarmQ(a));
    ClockThen(alarms, s, r, Reschedule(b), ref, Some(a));
  }

  lemma BlockQueuesOf(s: Sched, q: QueueId)
    requires IsRunning(s)
    ensures BlockActive(s, q).next == s.next
    ensures forall p :: Q(BlockActive(s, q), p) == Q(s, p) + if p == q then [s.active.value] else []
  {
  }

  // k_alarm_new: the alarm has the caller's data, belongs to the caller, and is active if its time is not
  // zero.
  lemma NewEffect(s: State, a: nat, al: Alarm, now: Time)
    requires AllOk(s) && a !in s.alarms && AlarmValid(al) && InRange(now) && s.sched.active != Some(IDLE)
    ensures IsRunning(s.sched) && InRange(s.threshold) && a in NewAlarm(s, a, al, now).alarms
    ensures var made := al.(active := al.exp.sec + al.exp.nsec > 0,
                            ownerPrio := s.sched.threads[s.sched.active.value].prio);
            var s', ref, alarms := NewAlarm(s, a, al, now), Add(now, s.threshold), s.alarms[a := made];
            var blocked := s'.alarms[a].active && s'.alarms[a].wait;
            && AllValid(alarms) && ClockRun(alarms, s, s', ref, if blocked then Some(a) else None)
            && Yields(alarms, s.sched, s'.sched, ref, blocked, false)
  {
    hide AllOk, ClockRun, Yields, AddAlarm, AlarmValid, Running, WithNew, Inv;
    AllRunning(s);
    NewKeeps(s, a, al);
    var s1 := WithNew(s, a, al);
    InvRuns(s.sched);
    NewData(s, a, al);
    AddEffect(s1, a, now);
    var made := al.(active := al.exp.sec + al.exp.nsec > 0, ownerPrio := s.sched.threads[s.sched.active.value].prio);
    ClockSame(s.alarms[a := made], s1, s, NewAlarm(s, a, al, now), Add(now, s.threshold));
  }

  lemma InvRuns(s: Sched)
    requires Inv(s)
    ensures IsRunning(s)
  {
  }

  lemma NewData(s: State, a: nat, al: Alarm)
    requires IsRunning(s.sched) && a !in s.alarms
    ensures var s1, prio := WithNew(s, a, al), s.sched.threads[s.sched.active.value].prio;
            && s1.sched == s.sched && s1.fired == s.fired && s1.threshold == s.threshold && a in s1.alarms
            && s1.alarms[a := s1.alarms[a].(active := s1.alarms[a].exp.sec + s1.alarms[a].exp.nsec > 0)] ==
               s.alarms[a := al.(active := al.exp.sec + al.exp.nsec > 0, ownerPrio := prio)]
  {
  }

  lemma ClockSame(alarms: map<nat, Alarm>, s1: State, s: State, s': State, ref: Time)
    requires AllValid(alarms) && InRange(ref) && s1.sched == s.sched && s1.fired == s.fired
    ensures forall blocked :: ClockRun(alarms, s1, s', ref, blocked) ==> ClockRun(alarms, s, s', ref, blocked)
  {
    hide Logged, Started, Actors, AdvanceAll, DueTimes;
  }

  // k_alarm_set: the alarm takes over the caller's data; with a new time it is armed again, with the old
  // one nothing else happens.
  lemma SetEffect(s: State, a: nat, al: Alarm, now: Time)
    requires AllOk(s) && a in s.alarms && AlarmValid(al) && InRange(now) && s.sched.active != Some(IDLE)
    ensures InRange(s.threshold) && a in SetAlarm(s, a, al, now).alarms
    ensures var data := s.alarms[a].(action := al.action, periodic := al.periodic,
                                      wait := al.wait, period := al.period);
            s.alarms[a].exp == al.exp ==> SetAlarm(s, a, al, now) == s.(alarms := s.alarms[a := data])
    ensures var data := s.alarms[a].(action := al.action, periodic := al.periodic,
                                      wait := al.wait, period := al.period);
            var alarms := s.alarms[a := data.(exp := al.exp, active := al.exp != Time(0, 0))];
            var s', ref := SetAlarm(s, a, al, now), Add(now, s.threshold);
            var blocked := s'.alarms[a].active && s'.alarms[a].wait;
            s.alarms[a].exp != al.exp ==>
              && AllValid(alarms) && ClockRun(alarms, s, s', ref, if blocked then Some(a) else None)
              && Yields(alarms, s.sched, s'.sched, ref, blocked, false)
  {
    hide AllOk, ClockRun, Yields, AddAlarm, AlarmValid, Without;
    ThresholdOk(s);
    if s.alarms[a].exp != al.exp {
      DetachKeeps(s, a, al);
      var s1 := Detached(s, a, al);
      AddEffect(s1, a, now);
      var data := s.alarms[a].(action := al.action, periodic := al.periodic, wait := al.wait, period := al.period);
      var alarms := s.alarms[a := data.(exp := al.exp, active := al.exp != Time(0, 0))];
      TimeNotZero(al);
      assert s1.alarms[a := s1.alarms[a].(active := s1.alarms[a].exp.sec + s1.alarms[a].exp.nsec > 0)] == alarms;
      ClockSame(alarms, s1, s, SetAlarm(s, a, al, now), Add(now, s.threshold));
    }
  }

  lemma TimeNotZero(al: Alarm)
    requires AlarmValid(al)
    ensures al.exp.sec + al.exp.nsec > 0 <==> al.exp != Time(0, 0)
  {
  }

  // k_alarm_remove: the other alarms stay as they are, apart from what is due.
  lemma RemoveEffect(s: State, a: nat, now: Time)
    requires AllOk(s) && a in s.alarms && InRange(now)
    ensures InRange(s.threshold)
    ensures var alarms, s', ref := s.alarms - {a}, RemoveAlarm(s, a, now), Add(now, s.threshold);
            && AllValid(alarms) && ClockRun(alarms, s, s', ref, None)
            && Yields(alarms, s.sched, s'.sched, ref, false, Q(s.sched, AlarmQ(a)) != [])
  {
    hide AllOk, ClockRun, ScheduleAlarms, Quiet, Core, IdleOk, Reschedule, Rescheduled, Running, Without, ReleaseAll,
         ReadySet,
         AlarmValid;
    AllRunning(s);
    DropKeeps(s, a);
    var s1 := Dropped(s, a);
    DropQueues(s, a);
    ScheduleClock(s1, now);
    var r, ref := ScheduleAlarms(s1, now).state, Add(now, s.threshold);
    ClockBase(s1.alarms, s, s1, r, ref);
    RescheduleClock(s1.alarms, s, r, ref);
  }

  lemma DropQueues(s: State, a: nat)
    requires Running(s)
    ensures var s1 := Dropped(s, a);
            && s1.alarms == s.alarms - {a} && s1.fired == s.fired && s1.sched.next == s.sched.next
            && s1.threshold == s.threshold
            && forall b: nat :: b != a ==> Q(s1.sched, AlarmQ(b)) == Q(s.sched, AlarmQ(b))
  {
    hide Placement, RefsOk, OfPrio, ReleaseAll, Without;
    RunningPlaced(s);
    ReleaseAllEffect(s.sched, AlarmQ(a));
  }
}
