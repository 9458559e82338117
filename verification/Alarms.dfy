/**
 The alarm queue of kernel/time.c: a list of active alarms sorted by expiration time, the timer
 interrupt that activates and re-inserts them, and the system calls on alarms.
 */
module Alarms {
  import opened Options
  import opened Seqs
  import opened SortedInsert
  import opened Time
  import opened Scheduler
  import opened KernelState

  // -- the sorted list ------------------------------------------------------------

  function ExpOf(alarms: map<nat, Alarm>, a: nat): Time {
    if a in alarms then alarms[a].exp else Time(0, 0)
  }

  /** alarm_cmp */
  function ByTime(alarms: map<nat, Alarm>): (nat, nat) -> int {
    (a: nat, b: nat) => Cmp(ExpOf(alarms, a), ExpOf(alarms, b))
  }

  /** list_sort_add on kalarms */
  function AddSorted(list: seq<nat>, a: nat, alarms: map<nat, Alarm>): seq<nat> {
    InsertAt(list, SortAddPos(list, a, ByTime(alarms)), a)
  }

  ghost predicate SortedByTime(list: seq<nat>, alarms: map<nat, Alarm>) {
    forall i, j :: 0 <= i < j < |list| ==> Cmp(ExpOf(alarms, list[i]), ExpOf(alarms, list[j])) <= 0
  }

  lemma AddSortedKeeps(list: seq<nat>, a: nat, alarms: map<nat, Alarm>)
    requires SortedByTime(list, alarms) && Distinct(list) && a !in list
    ensures var r := AddSorted(list, a, alarms);
            SortedByTime(r, alarms) && Distinct(r) && |r| == |list| + 1 && forall x :: x in r <==> x in list || x == a
  {
    var cmp := ByTime(alarms);
    assert TotalPreorder(cmp);
    forall i, j | 0 <= i < j < |list| ensures Le(cmp, list[i], list[j]) {
    }
    SortAddBelongs(list, a, cmp);
    var p := SortAddPos(list, a, cmp);
    BelongsSorted(list, a, p, cmp);
    var r := AddSorted(list, a, alarms);
    forall i, j | 0 <= i < j < |r| ensures Cmp(ExpOf(alarms, r[i]), ExpOf(alarms, r[j])) <= 0 {
      assert Le(cmp, r[i], r[j]);
    }
    InsertMembers(list, p, a);
  }

  lemma InsertMembers(list: seq<nat>, p: nat, a: nat)
    requires p <= |list| && Distinct(list) && a !in list
    ensures Distinct(InsertAt(list, p, a)) && forall x :: x in InsertAt(list, p, a) <==> x in list || x == a
  {
    var r := InsertAt(list, p, a);
    assert r[p] == a;
    assert forall i :: 0 <= i < |list| ==> list[i] == r[if i < p then i else i + 1];
  }

  // -- alarms -----------------------------------------------------------------------

  /** Alarm data the kernel can work with; it does not check them itself. */
  predicate AlarmValid(al: Alarm) {
    && InRange(al.exp) && al.exp.sec >= 0
    && InRange(al.period)
    && (al.periodic ==> Instant(al.period) > 0)
  }

  /** The list holds exactly the active alarms, once each, in time order. */
  ghost predicate ListOk(list: seq<nat>, alarms: map<nat, Alarm>) {
    && Distinct(list)
    && (forall a :: a in list ==> a in alarms && alarms[a].active)
    && (forall a :: a in alarms && alarms[a].active ==> a in list)
    && SortedByTime(list, alarms)
  }

  ghost predicate AlarmsOk(s: State) {
    && ListOk(s.list, s.alarms)
    && (forall a :: a in s.alarms ==> AlarmValid(s.alarms[a]))
    && InRange(s.threshold) && Instant(s.threshold) >= 0 && s.threshold.sec >= 0
  }

  /** Every thread that waits for an alarm waits for an active one. */
  ghost predicate NoneForgotten(s: State) {
    forall a: nat :: Q(s.sched, AlarmQ(a)) != [] ==> a in s.alarms && s.alarms[a].active
  }

  /** The alarm data and list after alarm a, the first of the list, was activated. */
  function Advance(al: Alarm): Alarm {
    if al.periodic then al.(exp := Add(al.exp, al.period)) else al.(active := false)
  }

  function NextList(list: seq<nat>, alarms: map<nat, Alarm>): seq<nat>
    requires list != [] && list[0] in alarms
  {
    if alarms[list[0]].periodic then AddSorted(list[1..], list[0], alarms[list[0] := Advance(alarms[list[0]])])
    else list[1..]
  }

  lemma {:induction false} SortedTail(list: seq<nat>, alarms: map<nat, Alarm>, alarms': map<nat, Alarm>)
    requires SortedByTime(list, alarms) && forall a :: a in list ==> ExpOf(alarms', a) == ExpOf(alarms, a)
    ensures SortedByTime(list, alarms')
  {
    assert forall i :: 0 <= i < |list| ==> list[i] in list;
  }

  lemma NextListKeeps(list: seq<nat>, alarms: map<nat, Alarm>)
    requires ListOk(list, alarms) && list != []
    ensures ListOk(NextList(list, alarms), alarms[list[0] := Advance(alarms[list[0]])])
  {
    hide AddSorted, Advance;
    var a, rest := list[0], list[1..];
    var alarms' := alarms[a := Advance(alarms[a])];
    RestOk(list, alarms);
    assert forall x :: x in list <==> x == a || x in rest;
    SortedTail(rest, alarms, alarms');
    AdvanceActive(alarms[a]);
    if alarms[a].periodic {
      AddSortedKeeps(rest, a, alarms');
    }
  }

  lemma AdvanceActive(al: Alarm)
    ensures Advance(al).active == (al.active && al.periodic)
    ensures Advance(al).periodic == al.periodic
  {
  }

  lemma RestOk(list: seq<nat>, alarms: map<nat, Alarm>)
    requires Distinct(list) && SortedByTime(list, alarms) && list != []
    ensures list[0] !in list[1..] && Distinct(list[1..]) && SortedByTime(list[1..], alarms)
  {
    var rest := list[1..];
    forall i, j | 0 <= i < j < |rest| ensures Cmp(ExpOf(alarms, rest[i]), ExpOf(alarms, rest[j])) <= 0 {
      assert rest[i] == list[i + 1] && rest[j] == list[j + 1];
    }
  }

  /** Effect on the threads: a thread for the action, then all waiters. */
  ghost function Wake(sched: Sched, al: Alarm, a: nat): Sched
    requires Inv(sched)
  {
    WakeReady(sched, al, a);
    ReleaseAll(if al.action then CreateThread(sched, al.ownerPrio + 1, true) else sched, AlarmQ(a))
  }

  /** How many threads that makes ready. */
  function Woken(sched: Sched, al: Alarm, a: nat): nat {
    (if al.action then 1 else 0) + |Q(sched, AlarmQ(a))|
  }

  lemma WakeReady(sched: Sched, al: Alarm, a: nat)
    requires Inv(sched)
    ensures var c := if al.action then CreateThread(sched, al.ownerPrio + 1, true) else sched;
            QueuedExist(c) && Inv(c) && c.active == sched.active && Q(c, AlarmQ(a)) == Q(sched, AlarmQ(a))
            && c.next == sched.next + (if al.action then 1 else 0)
            && SchedFrame(sched, c, None) && (IdleOk(sched) ==> IdleOk(c))
            && (forall q: QueueId :: !q.ReadyQ? ==> Q(c, q) == Q(sched, q))
  {
    hide Placement, RefsOk;
    if al.action {
      CreateKeepsIff(sched, al.ownerPrio + 1, true);
      CreateFrame(sched, al.ownerPrio + 1);
      PlacementExist(CreateThread(sched, al.ownerPrio + 1, true), None);
    } else {
      PlacementExist(sched, None);
    }
  }

  lemma WakeKeeps(sched: Sched, al: Alarm, a: nat)
    requires Inv(sched) && IdleOk(sched)
    ensures var w := Wake(sched, al, a);
            && Inv(w) && IdleOk(w) && w.active == sched.active
            && SchedFrame(sched, w, Some(AlarmQ(a))) && Q(w, AlarmQ(a)) == []
            && w.next == sched.next + (if al.action then 1 else 0)
            && (forall q: QueueId :: !q.ReadyQ? && q != AlarmQ(a) ==> Q(w, q) == Q(sched, q))
            && (Woken(sched, al, a) == 0 ==> w == sched)
  {
    hide Placement, RefsOk, OfPrio, CreateThread;
    WakeReady(sched, al, a);
    var c := if al.action then CreateThread(sched, al.ownerPrio + 1, true) else sched;
    ReleaseAllKeeps(c, AlarmQ(a), None, c.active);
    ReleaseAllEffect(c, AlarmQ(a));
    ReleaseAllFrame(c, AlarmQ(a));
    NotQueued(c, None, c.active.value, AlarmQ(a));
    FrameSub(sched, c, Some(AlarmQ(a)));
    FrameTrans(sched, c, ReleaseAll(c, AlarmQ(a)), Some(AlarmQ(a)));
  }

  /** One iteration of the loop in k_schedule_alarms: activate the first alarm. */
  ghost function FireFirst(s: State): State
    requires Running(s) && s.list != [] && s.list[0] in s.alarms
  {
    var a := s.list[0];
    var al := s.alarms[a];
    s.(alarms := s.alarms[a := Advance(al)],
       list := NextList(s.list, s.alarms),
       sched := Wake(s.sched, al, a),
       fired := s.fired + [Firing(a, al.exp)])
  }

  /** Everything that holds around k_schedule_alarms. */
  ghost predicate AllOk(s: State) {
    Running(s) && SemsOk(s) && DevsOk(s) && AlarmsOk(s)
  }

  lemma AdvanceValid(al: Alarm)
    requires AlarmValid(al)
    ensures AlarmValid(Advance(al))
  {
  }

  // Activating an alarm keeps everything in order, and leaves nobody waiting for that alarm.
  lemma FireKeeps(s: State)
    requires AllOk(s) && s.list != []
    ensures s.list[0] in s.alarms
    ensures var s', a := FireFirst(s), s.list[0];
            && AllOk(s') && (NoneForgotten(s) ==> NoneForgotten(s'))
            && s'.sched.active == s.sched.active && Q(s'.sched, AlarmQ(a)) == []
            && s'.sched.next == s.sched.next + (if s.alarms[a].action then 1 else 0)
            && s'.alarms.Keys == s.alarms.Keys
            && (forall q: QueueId :: !q.ReadyQ? && q != AlarmQ(a) ==> Q(s'.sched, q) == Q(s.sched, q))
            && (Woken(s.sched, s.alarms[a], a) == 0 ==> s'.sched == s.sched)
  {
    hide Inv, IdleOk, SemsOk, DevsOk, Wake, SchedFrame, NextList, Advance, AlarmValid, Woken;
    FirstListed(s);
    var a := s.list[0];
    WakeKeeps(s.sched, s.alarms[a], a);
    var s' := FireFirst(s);
    SemsFrame(s, s', Some(AlarmQ(a)));
    DevsFrame(s, s', Some(AlarmQ(a)));
    NextListKeeps(s.list, s.alarms);
    AdvanceValid(s.alarms[a]);
    if NoneForgotten(s) {
      forall b: nat | Q(s'.sched, AlarmQ(b)) != [] ensures b in s'.alarms && s'.alarms[b].active {
        if Q(s.sched, AlarmQ(b)) == [] {
          EmptyStays(s.sched, s'.sched, Some(AlarmQ(a)), AlarmQ(b));
        }
      }
    }
  }

  lemma FirstListed(s: State)
    requires AlarmsOk(s) && s.list != []
    ensures s.list[0] in s.alarms && s.alarms[s.list[0]].active && AlarmValid(s.alarms[s.list[0]])
  {
    assert s.list[0] in s.list;
  }

  // -- termination --------------------------------------------------------------------

  /** How many nanoseconds the expiration lies before `ref`, counting `ref` itself. */
  function Late(exp: Time, ref: Time): nat {
    if Instant(exp) <= Instant(ref) then Instant(ref) - Instant(exp) + 1 else 0
  }

  function Lag(list: seq<nat>, alarms: map<nat, Alarm>, ref: Time): nat {
    if list == [] then 0 else Late(ExpOf(alarms, list[0]), ref) + Lag(list[1..], alarms, ref)
  }

  lemma {:induction false} LagConcat(x: seq<nat>, y: seq<nat>, alarms: map<nat, Alarm>, ref: Time)
    ensures Lag(x + y, alarms, ref) == Lag(x, alarms, ref) + Lag(y, alarms, ref)
  {
    if x == [] {
      assert x + y == y;
    } else {
      assert (x + y)[1..] == x[1..] + y;
      LagConcat(x[1..], y, alarms, ref);
    }
  }

  lemma LagInsert(list: seq<nat>, p: nat, a: nat, alarms: map<nat, Alarm>, ref: Time)
    requires p <= |list|
    ensures Lag(InsertAt(list, p, a), alarms, ref) == Lag(list, alarms, ref) + Late(ExpOf(alarms, a), ref)
  {
    var x, y := list[..p], list[p..];
    assert list == x + y;
    assert InsertAt(list, p, a) == x + ([a] + y);
    LagConcat(x, y, alarms, ref);
    LagConcat([a], y, alarms, ref);
    LagConcat(x, [a] + y, alarms, ref);
    assert [a][1..] == [];
  }

  lemma {:induction false} LagFrame(list: seq<nat>, alarms: map<nat, Alarm>, alarms': map<nat, Alarm>, ref: Time)
    requires forall a :: a in list ==> ExpOf(alarms', a) == ExpOf(alarms, a)
    ensures Lag(list, alarms', ref) == Lag(list, alarms, ref)
  {
    if list != [] {
      assert forall a :: a in list[1..] ==> a in list;
      LagFrame(list[1..], alarms, alarms', ref);
    }
  }

  /** The loop of k_schedule_alarms goes on. */
  predicate IsDue(s: State, ref: Time) {
    s.list != [] && Cmp(ExpOf(s.alarms, s.list[0]), ref) <= 0
  }

  // Each activation brings the end of the loop nearer: a periodic alarm moves on by its period.
  lemma LagDrops(s: State, ref: Time)
    requires AlarmsOk(s) && InRange(ref) && IsDue(s, ref)
    ensures s.list[0] in s.alarms
    ensures var a := s.list[0];
            Lag(NextList(s.list, s.alarms), s.alarms[a := Advance(s.alarms[a])], ref) < Lag(s.list, s.alarms, ref)
  {
    hide NextList, Lag, Advance;
    FirstListed(s);
    ListLagDrops(s.list, s.alarms, ref);
  }

  lemma ListLagDrops(list: seq<nat>, alarms: map<nat, Alarm>, ref: Time)
    requires ListOk(list, alarms) && list != [] && list[0] in alarms
    requires var al := alarms[list[0]];
             && InRange(ref) && InRange(al.exp) && Cmp(al.exp, ref) <= 0
             && (al.periodic ==> InRange(al.period) && Instant(al.period) > 0)
    ensures Lag(NextList(list, alarms), alarms[list[0] := Advance(alarms[list[0]])], ref) < Lag(list, alarms, ref)
  {
    hide SortAddPos, InsertAt;
    var a, rest := list[0], list[1..];
    var alarms' := alarms[a := Advance(alarms[a])];
    RestOk(list, alarms);
    LagFrame(rest, alarms, alarms', ref);
    assert Late(alarms[a].exp, ref) >= 1;
    if alarms[a].periodic {
      LagInsert(rest, SortAddPos(rest, a, ByTime(alarms')), a, alarms', ref);
    }
  }

  // -- alarms with a period that is not positive ------------------------------------------

  /** The loop of k_schedule_alarms makes at least n iterations. */
  ghost predicate GoesOn(list: seq<nat>, alarms: map<nat, Alarm>, ref: Time, n: nat)
    decreases n
  {
    n == 0
    || (&& list != [] && list[0] in alarms && Cmp(alarms[list[0]].exp, ref) <= 0
        && GoesOn(NextList(list, alarms), alarms[list[0] := Advance(alarms[list[0]])], ref, n - 1))
  }

  ghost predicate Endless(list: seq<nat>, alarms: map<nat, Alarm>, ref: Time) {
    forall n: nat :: GoesOn(list, alarms, ref, n)
  }

  /** Times in range; periods may be zero or negative. */
  ghost predicate TimesOk(alarms: map<nat, Alarm>) {
    forall a :: a in alarms ==> InRange(alarms[a].exp) && InRange(alarms[a].period)
  }

  /** The alarm is due, and advancing it does not change that. */
  predicate IsStuck(al: Alarm, ref: Time) {
    al.periodic && Instant(al.period) <= 0 && Cmp(al.exp, ref) <= 0
  }

  lemma AdvanceStuck(al: Alarm, ref: Time)
    requires InRange(al.exp) && InRange(al.period) && InRange(ref)
    ensures IsStuck(al, ref) ==> IsStuck(Advance(al), ref)
    ensures Instant(al.period) > 0 ==> !IsStuck(Advance(al), ref)
    ensures InRange(Advance(al).exp) && Advance(al).period == al.period
  {
  }

  lemma {:induction false} StuckGoesOn(list: seq<nat>, alarms: map<nat, Alarm>, ref: Time, a: nat, n: nat)
    requires ListOk(list, alarms) && TimesOk(alarms) && InRange(ref) && a in list && IsStuck(alarms[a], ref)
    ensures GoesOn(list, alarms, ref, n)
    decreases n
  {
    hide NextList, Advance, TimesOk;
    if n > 0 {
      FirstDue(list, alarms, ref, a);
      NextListKeeps(list, alarms);
      NextTimes(list, alarms, ref);
      var alarms' := alarms[list[0] := Advance(alarms[list[0]])];
      assert alarms'[a].active by { AdvanceActive(alarms[list[0]]); }
      StuckGoesOn(NextList(list, alarms), alarms', ref, a, n - 1);
    }
  }

  lemma FirstDue(list: seq<nat>, alarms: map<nat, Alarm>, ref: Time, a: nat)
    requires ListOk(list, alarms) && TimesOk(alarms) && InRange(ref) && a in list && Cmp(alarms[a].exp, ref) <= 0
    ensures list != [] && list[0] in alarms && Cmp(alarms[list[0]].exp, ref) <= 0
  {
    var i :| 0 <= i < |list| && list[i] == a;
    assert list[0] in list;
    assert i > 0 ==> Cmp(ExpOf(alarms, list[0]), ExpOf(alarms, list[i])) <= 0;
  }

  lemma NextTimes(list: seq<nat>, alarms: map<nat, Alarm>, ref: Time)
    requires TimesOk(alarms) && InRange(ref) && list != [] && list[0] in alarms
    ensures TimesOk(alarms[list[0] := Advance(alarms[list[0]])])
    ensures IsStuck(alarms[list[0]], ref) ==> IsStuck(Advance(alarms[list[0]]), ref)
    ensures Instant(alarms[list[0]].period) > 0 ==> !IsStuck(Advance(alarms[list[0]]), ref)
  {
    AdvanceStuck(alarms[list[0]], ref);
  }

  // Without an alarm that is stuck, the lag bounds the number of iterations.
  lemma {:induction false} LagBounds(list: seq<nat>, alarms: map<nat, Alarm>, ref: Time, n: nat)
    requires ListOk(list, alarms) && TimesOk(alarms) && InRange(ref) && GoesOn(list, alarms, ref, n)
    requires forall a :: a in alarms && alarms[a].active ==> !IsStuck(alarms[a], ref)
    ensures n <= Lag(list, alarms, ref)
    decreases n
  {
    hide NextList, Advance, Lag, IsStuck;
    if n > 0 {
      var alarms' := alarms[list[0] := Advance(alarms[list[0]])];
      HeadMoves(list, alarms, ref);
      ListLagDrops(list, alarms, ref);
      NextListKeeps(list, alarms);
      NextTimes(list, alarms, ref);
      AdvanceActive(alarms[list[0]]);
      LagBounds(NextList(list, alarms), alarms', ref, n - 1);
    }
  }

  lemma HeadMoves(list: seq<nat>, alarms: map<nat, Alarm>, ref: Time)
    requires ListOk(list, alarms) && TimesOk(alarms) && list != [] && Cmp(alarms[list[0]].exp, ref) <= 0
    requires forall a :: a in alarms && alarms[a].active ==> !IsStuck(alarms[a], ref)
    ensures list[0] in alarms && (alarms[list[0]].periodic ==> Instant(alarms[list[0]].period) > 0)
  {
    assert list[0] in list;
  }

  lemma StuckEndless(list: seq<nat>, alarms: map<nat, Alarm>, ref: Time, a: nat)
    requires ListOk(list, alarms) && TimesOk(alarms) && InRange(ref) && a in list && IsStuck(alarms[a], ref)
    ensures Endless(list, alarms, ref)
  {
    hide ListOk, TimesOk, IsStuck, GoesOn;
    forall n: nat ensures GoesOn(list, alarms, ref, n) {
      StuckGoesOn(list, alarms, ref, a, n);
    }
  }

  lemma NoneStuckStops(list: seq<nat>, alarms: map<nat, Alarm>, ref: Time)
    requires ListOk(list, alarms) && TimesOk(alarms) && InRange(ref)
    requires forall a :: a in list ==> !IsStuck(alarms[a], ref)
    ensures !Endless(list, alarms, ref)
  {
    hide GoesOn, IsStuck, TimesOk, Lag;
    var n := Lag(list, alarms, ref) + 1;
    if GoesOn(list, alarms, ref, n) {
      LagBounds(list, alarms, ref, n);
    }
    assert !GoesOn(list, alarms, ref, n);
  }

  // The loop of k_schedule_alarms never ends if and only if an active periodic alarm is due whose
  // period is not positive.
  lemma EndlessIff(list: seq<nat>, alarms: map<nat, Alarm>, ref: Time)
    requires ListOk(list, alarms) && TimesOk(alarms) && InRange(ref)
    ensures Endless(list, alarms, ref) <==> exists a :: a in list && IsStuck(alarms[a], ref)
  {
    hide Endless, IsStuck, TimesOk;
    if exists a :: a in list && IsStuck(alarms[a], ref) {
      var a :| a in list && IsStuck(alarms[a], ref);
      StuckEndless(list, alarms, ref, a);
    } else {
      NoneStuckStops(list, alarms, ref);
    }
  }

  // Such an alarm: every 0 seconds from second 1 on, at second 2.
  lemma EndlessExample(al: Alarm, list: seq<nat>, alarms: map<nat, Alarm>, ref: Time)
    requires al.active && al.periodic && al.exp == Time(1, 0) && al.period == Time(0, 0)
    requires list == [0] && alarms == map[0 := al] && ref == Time(2, 0)
    ensures ListOk(list, alarms) && Endless(list, alarms, ref)
  {
    hide Endless;
    assert 0 in list;
    StuckEndless(list, alarms, ref, 0);
  }

  datatype LoopResult = LoopResult(state: State, resched: nat)

  /** The loop of k_schedule_alarms */
  ghost function AlarmLoop(s: State, ref: Time): LoopResult
    requires AllOk(s) && InRange(ref)
    decreases Lag(s.list, s.alarms, ref)
  {
    if !IsDue(s, ref) then LoopResult(s, 0)
    else
      FireKeeps(s);
      LagDrops(s, ref);
      var r := AlarmLoop(FireFirst(s), ref);
      LoopResult(r.state, Woken(s.sched, s.alarms[s.list[0]], s.list[0]) + r.resched)
  }

  /** The activations of that loop, in order. */
  ghost function Firings(s: State, ref: Time): seq<Firing>
    requires AllOk(s) && InRange(ref)
    decreases Lag(s.list, s.alarms, ref)
  {
    if !IsDue(s, ref) then []
    else
      FireKeeps(s);
      LagDrops(s, ref);
      [Firing(s.list[0], s.alarms[s.list[0]].exp)] + Firings(FireFirst(s), ref)
  }

  /** k_schedule_alarms at time `now` */
  ghost function ScheduleAlarms(s: State, now: Time): LoopResult
    requires AllOk(s) && InRange(now)
  {
    var r := AlarmLoop(s, Add(now, s.threshold));
    if r.state.list == [] then r
    else r.(state := r.state.(timer := Some(Sub(ExpOf(r.state.alarms, r.state.list[0]), now))))
  }

  // The loop keeps everything in order and stops when nothing is due any more.
  lemma {:induction false} LoopKeeps(s: State, ref: Time)
    requires AllOk(s) && InRange(ref)
    ensures var r := AlarmLoop(s, ref);
            && AllOk(r.state) && !IsDue(r.state, ref)
            && (NoneForgotten(s) ==> NoneForgotten(r.state))
            && r.state.sched.active == s.sched.active && r.state.alarms.Keys == s.alarms.Keys
            && r.state.sems == s.sems && r.state.devs == s.devs && r.state.resuming == s.resuming
            && r.state.threshold == s.threshold
            && r.state.fired == s.fired + Firings(s, ref)
            && (r.resched == 0 ==> r.state.sched == s.sched)
    decreases Lag(s.list, s.alarms, ref)
  {
    hide AllOk, NoneForgotten, Lag, Wake, NextList, Woken, Advance, Running;
    if IsDue(s, ref) {
      OkParts(s);
      FireKeeps(s);
      LagDrops(s, ref);
      LoopKeeps(FireFirst(s), ref);
    }
  }

  lemma OkParts(s: State)
    requires AllOk(s)
    ensures Running(s) && SemsOk(s) && DevsOk(s) && AlarmsOk(s)
  {
  }

  // -- which expirations are activated --------------------------------------------------

  /** The expirations of an alarm that are due by `ref`, one after the other. */
  function DueTimes(al: Alarm, ref: Time): seq<Time>
    requires AlarmValid(al) && InRange(ref)
    decreases if al.active then 1 + Late(al.exp, ref) else 0
  {
    if !al.active || Cmp(al.exp, ref) > 0 then []
    else
      AdvanceValid(al);
      [al.exp] + DueTimes(Advance(al), ref)
  }

  /** The alarm after its due expirations. */
  function AdvanceAll(al: Alarm, ref: Time): Alarm
    requires AlarmValid(al) && InRange(ref)
    decreases if al.active then 1 + Late(al.exp, ref) else 0
  {
    if !al.active || Cmp(al.exp, ref) > 0 then al
    else
      AdvanceValid(al);
      AdvanceAll(Advance(al), ref)
  }

  /** The activations of alarm a in a log. */
  function TimesOf(a: nat, log: seq<Firing>): seq<Time> {
    if log == [] then []
    else (if log[0].alarm == a then [log[0].time] else []) + TimesOf(a, log[1..])
  }

  lemma NothingDue(s: State, ref: Time, a: nat)
    requires AlarmsOk(s) && InRange(ref) && !IsDue(s, ref) && a in s.alarms
    ensures DueTimes(s.alarms[a], ref) == [] && AdvanceAll(s.alarms[a], ref) == s.alarms[a]
  {
    var al := s.alarms[a];
    if al.active {
      assert a in s.list;
      var i :| 0 <= i < |s.list| && s.list[i] == a;
      FirstListed(s);
      assert i > 0 ==> Cmp(ExpOf(s.alarms, s.list[0]), ExpOf(s.alarms, s.list[i])) <= 0;
    }
  }

  // Every alarm is activated at exactly its due expirations, each once, and moves on past them.
  lemma {:induction false} LoopFiresExactly(s: State, ref: Time, a: nat)
    requires AllOk(s) && InRange(ref) && a in s.alarms
    ensures AlarmValid(s.alarms[a])
    ensures TimesOf(a, Firings(s, ref)) == DueTimes(s.alarms[a], ref)
    ensures a in AlarmLoop(s, ref).state.alarms && AlarmLoop(s, ref).state.alarms[a] == AdvanceAll(s.alarms[a], ref)
    decreases Lag(s.list, s.alarms, ref)
  {
    hide Lag, Running, SemsOk, DevsOk, Wake, NextList;
    if IsDue(s, ref) {
      FirstListed(s);
      FireKeeps(s);
      LagDrops(s, ref);
      LoopFiresExactly(FireFirst(s), ref, a);
      FirstLog(s, ref, a);
      AdvanceValid(s.alarms[s.list[0]]);
    } else {
      NothingDue(s, ref, a);
    }
  }

  lemma FirstLog(s: State, ref: Time, a: nat)
    requires AllOk(s) && InRange(ref) && IsDue(s, ref)
    ensures s.list[0] in s.alarms && AllOk(FireFirst(s)) && Firings(s, ref) != []
    ensures TimesOf(a, Firings(s, ref)) ==
            (if s.list[0] == a then [s.alarms[s.list[0]].exp] else []) + TimesOf(a, Firings(FireFirst(s), ref))
  {
    FireKeeps(s);
    LagDrops(s, ref);
    assert Firings(s, ref)[1..] == Firings(FireFirst(s), ref);
  }

  /** No activation in the log is earlier than t or than one before it, and none is after `ref`. */
  ghost predicate OrderedFrom(log: seq<Firing>, t: Time, ref: Time) {
    && (forall i :: 0 <= i < |log| ==> Cmp(t, log[i].time) <= 0 && Cmp(log[i].time, ref) <= 0)
    && (forall i, j :: 0 <= i < j < |log| ==> Cmp(log[i].time, log[j].time) <= 0)
  }

  // Activations happen in time order.
  lemma {:induction false} LoopFiresInOrder(s: State, ref: Time, t: Time)
    requires AllOk(s) && InRange(ref) && (forall a :: a in s.list ==> Cmp(t, ExpOf(s.alarms, a)) <= 0)
    ensures OrderedFrom(Firings(s, ref), t, ref)
    decreases Lag(s.list, s.alarms, ref)
  {
    hide Lag, AllOk, Wake, OrderedFrom, NextList, Cmp;
    if IsDue(s, ref) {
      OkParts(s);
      FirstListed(s);
      FireKeeps(s);
      LagDrops(s, ref);
      var s', e := FireFirst(s), s.alarms[s.list[0]].exp;
      forall a | a in s'.list ensures Cmp(e, ExpOf(s'.alarms, a)) <= 0 {
        LaterThanFirst(s, a);
      }
      LoopFiresInOrder(s', ref, e);
      assert s.list[0] in s.list;
      OrderedCons(Firing(s.list[0], e), Firings(s', ref), t, ref);
    } else {
      OrderedNil(t, ref);
    }
  }

  lemma OrderedNil(t: Time, ref: Time)
    ensures OrderedFrom([], t, ref)
  {
  }

  lemma OrderedCons(f: Firing, log: seq<Firing>, t: Time, ref: Time)
    requires OrderedFrom(log, f.time, ref) && Cmp(t, f.time) <= 0 && Cmp(f.time, ref) <= 0
    ensures OrderedFrom([f] + log, t, ref)
  {
  }

  lemma LaterThanFirst(s: State, a: nat)
    requires AllOk(s) && s.list != [] && s.list[0] in s.alarms && a in FireFirst(s).list
    ensures Cmp(s.alarms[s.list[0]].exp, ExpOf(FireFirst(s).alarms, a)) <= 0
  {
    hide Running, SemsOk, DevsOk, Wake, AddSorted;
    var f, rest := s.list[0], s.list[1..];
    var alarms' := s.alarms[f := Advance(s.alarms[f])];
    FirstListed(s);
    RestOk(s.list, s.alarms);
    SortedTail(rest, s.alarms, alarms');
    if s.alarms[f].periodic {
      AddSortedKeeps(rest, f, alarms');
    }
    if a != f {
      var i :| 0 <= i < |rest| && rest[i] == a;
      assert s.list[i + 1] == a;
    }
  }

  // In nanoseconds: the k-th activation of a periodic alarm is at exp + k * period; all of them
  // before `ref` happen and none after it.
  lemma {:induction false} DueInstants(al: Alarm, ref: Time, k: nat)
    requires AlarmValid(al) && InRange(ref) && al.active && al.periodic
    ensures k < |DueTimes(al, ref)| ==>
              Instant(DueTimes(al, ref)[k]) == Instant(al.exp) + k * Instant(al.period) <= Instant(ref)
    ensures Instant(al.exp) + k * Instant(al.period) < Instant(ref) ==> k < |DueTimes(al, ref)|
    decreases k
  {
    var p := Instant(al.period);
    AdvanceValid(al);
    if k == 0 {
    } else if Cmp(al.exp, ref) > 0 {
      assert k * p >= 0;
    } else {
      DueInstants(Advance(al), ref, k - 1);
      assert k * p == (k - 1) * p + p;
    }
  }

  // An alarm that is not periodic is activated at most once, when its time has come.
  lemma DueOnce(al: Alarm, ref: Time)
    requires AlarmValid(al) && InRange(ref) && al.active && !al.periodic
    ensures DueTimes(al, ref) == if Cmp(al.exp, ref) <= 0 then [al.exp] else []
    ensures Instant(al.exp) < Instant(ref) ==> DueTimes(al, ref) == [al.exp]
    ensures Instant(al.exp) > Instant(ref) ==> DueTimes(al, ref) == []
  {
    AdvanceValid(al);
    if Cmp(al.exp, ref) <= 0 {
      assert DueTimes(Advance(al), ref) == [];
    }
  }

  // An alarm after its due expirations: a periodic one is active, moved on by that many periods and past
  // `ref`; another one keeps its time, and is active if it was not due.  All other data stay.
  lemma AdvanceAllIs(al: Alarm, ref: Time)
    requires AlarmValid(al) && InRange(ref)
    ensures var r, n := AdvanceAll(al, ref), |DueTimes(al, ref)|;
            && r == al.(exp := r.exp, active := r.active)
            && (!al.active ==> r == al && n == 0)
            && (al.active && al.periodic ==>
                  r.active && Cmp(r.exp, ref) > 0 && Instant(r.exp) == Instant(al.exp) + n * Instant(al.period))
            && (al.active && !al.periodic ==> r.exp == al.exp && n <= 1 && (r.active <==> n == 0))
  {
    hide Instant, Late, Cmp;
    if al.active && al.periodic {
      AdvanceAllPeriodic(al, ref);
    } else if al.active {
      DueStep(al, ref);
      if Cmp(al.exp, ref) <= 0 {
        DueStep(Advance(al), ref);
      }
    }
  }

  lemma DueStep(al: Alarm, ref: Time)
    requires AlarmValid(al) && InRange(ref)
    ensures AlarmValid(Advance(al))
    ensures if al.active && Cmp(al.exp, ref) <= 0
            then DueTimes(al, ref) == [al.exp] + DueTimes(Advance(al), ref)
                 && AdvanceAll(al, ref) == AdvanceAll(Advance(al), ref)
            else DueTimes(al, ref) == [] && AdvanceAll(al, ref) == al
  {
    AdvanceValid(al);
  }

  lemma {:induction false} AdvanceAllPeriodic(al: Alarm, ref: Time)
    requires AlarmValid(al) && InRange(ref) && al.active && al.periodic
    ensures var r, n := AdvanceAll(al, ref), |DueTimes(al, ref)|;
            && r == al.(exp := r.exp) && Cmp(r.exp, ref) > 0
            && Instant(r.exp) == Instant(al.exp) + n * Instant(al.period)
    decreases |DueTimes(al, ref)|
  {
    hide DueTimes, AdvanceAll, Instant, Cmp, AlarmValid;
    DueStep(al, ref);
    if Cmp(al.exp, ref) <= 0 {
      var p, n := Instant(al.period), |DueTimes(Advance(al), ref)|;
      AdvanceAllPeriodic(Advance(al), ref);
      assert (1 + n) * p == p + n * p;
    }
  }

  /** The k-th activation of alarm al falls due by `ref`: its instant is before `ref`, or the same
      and it is not written (sec + 1, 0) where `ref` is written (sec, 10^9). */
  predicate FallsDue(al: Alarm, k: nat, ref: Time) {
    var t := Instant(al.exp) + k * Instant(al.period);
    || t < Instant(ref)
    || (t == Instant(ref) && !(ref.nsec == NS && al.exp.nsec == 0 && (k == 0 || al.period.nsec == 0)))
  }

  // Exactly how often a periodic alarm is activated, also when an activation falls on `ref` itself.
  lemma {:induction false} DueExactly(al: Alarm, ref: Time, k: nat)
    requires AlarmValid(al) && InRange(ref) && al.active && al.periodic
    ensures k < |DueTimes(al, ref)| <==> FallsDue(al, k, ref)
    decreases k
  {
    var p := Instant(al.period);
    AdvanceValid(al);
    if k == 0 {
    } else if Cmp(al.exp, ref) > 0 {
      assert k * p >= p;
    } else {
      DueExactly(Advance(al), ref, k - 1);
      assert k * p == (k - 1) * p + p;
    }
  }

  lemma DueOnceExactly(al: Alarm, ref: Time)
    requires AlarmValid(al) && InRange(ref) && al.active && !al.periodic
    ensures DueTimes(al, ref) == if FallsDue(al, 0, ref) then [al.exp] else []
  {
    DueOnce(al, ref);
  }

  // So an alarm at the very instant now + threshold may be missed: at half a second, with a threshold
  // of half a second, the alarm for second 1 does not fall due, because time_add does not carry at
  // 10^9, but the one for 10^9 nanoseconds does.
  lemma LimitMissed(al: Alarm, half: Time)
    requires half == Time(0, 500_000_000) && (al.exp == Time(1, 0) || al.exp == Time(0, NS))
    ensures Instant(al.exp) == Instant(Add(half, half))
    ensures FallsDue(al, 0, Add(half, half)) <==> al.exp.sec == 0
  {
    hide Instant, Add;
    NoCarryAtLimit(half);
    SameInstant(al.exp, Add(half, half));
    assert 0 * Instant(al.period) == 0;
  }

  lemma NoCarryAtLimit(half: Time)
    requires half == Time(0, 500_000_000)
    ensures Add(half, half) == Time(0, NS)
  {
  }

  lemma SameInstant(exp: Time, ref: Time)
    requires ref == Time(0, NS) && (exp == Time(1, 0) || exp == Time(0, NS))
    ensures Instant(exp) == Instant(ref)
  {
  }

  // After k_schedule_alarms only alarms at or after now + threshold are left, and the timer is set
  // to exactly the time until the earliest of them, which is not negative.
  lemma TimerArmed(s: State, now: Time)
    requires AllOk(s) && InRange(now)
    ensures var s' := ScheduleAlarms(s, now).state;
            && (forall a :: a in s'.alarms && s'.alarms[a].active ==>
                  Instant(s'.alarms[a].exp) >= Instant(now) + Instant(s.threshold))
            && (s'.list == [] ==> s'.timer == s.timer)
            && (s'.list != [] ==>
                  && s'.timer.Some? && s'.timer.value.sec >= 0 && InRange(s'.timer.value)
                  && (exists a ::
                        a in s'.alarms && s'.alarms[a].active
                        && Instant(s'.timer.value) == Instant(s'.alarms[a].exp) - Instant(now))
                  && (forall a :: a in s'.alarms && s'.alarms[a].active ==>
                        Instant(s'.timer.value) <= Instant(s'.alarms[a].exp) - Instant(now)))
  {
    hide Running, SemsOk, DevsOk, AlarmLoop;
    var ref := Add(now, s.threshold);
    LoopKeeps(s, ref);
    LoopTimer(s, ref);
    var r := AlarmLoop(s, ref).state;
    forall a | a in r.alarms && r.alarms[a].active
      ensures Cmp(r.alarms[a].exp, ref) > 0 && Cmp(ExpOf(r.alarms, r.list[0]), r.alarms[a].exp) <= 0
    {
      FirstListed(r);
      FirstIsEarliest(r, a);
    }
    if r.list != [] {
      FirstListed(r);
      assert r.alarms[r.list[0]].active;
    }
  }

  lemma FirstIsEarliest(s: State, a: nat)
    requires AlarmsOk(s) && a in s.alarms && s.alarms[a].active
    ensures s.list != [] && Cmp(ExpOf(s.alarms, s.list[0]), s.alarms[a].exp) <= 0
  {
    assert a in s.list;
    var i :| 0 <= i < |s.list| && s.list[i] == a;
  }

  lemma {:induction false} LoopTimer(s: State, ref: Time)
    requires AllOk(s) && InRange(ref)
    ensures AlarmLoop(s, ref).state.timer == s.timer
    decreases Lag(s.list, s.alarms, ref)
  {
    hide AllOk, Lag;
    if IsDue(s, ref) {
      OkParts(s);
      FireKeeps(s);
      LagDrops(s, ref);
      LoopTimer(FireFirst(s), ref);
    }
  }

  // An alarm that is not active keeps its queue.
  lemma {:induction false} LoopLeavesInactive(s: State, ref: Time, a: nat)
    requires AllOk(s) && InRange(ref) && (a in s.alarms ==> !s.alarms[a].active)
    ensures var r := AlarmLoop(s, ref).state;
            Q(r.sched, AlarmQ(a)) == Q(s.sched, AlarmQ(a))
            && (a in r.alarms ==> a in s.alarms && r.alarms[a] == s.alarms[a])
    decreases Lag(s.list, s.alarms, ref)
  {
    hide AllOk, Lag, Wake, NextList, Advance;
    if IsDue(s, ref) {
      OkParts(s);
      FirstListed(s);
      FireKeeps(s);
      LagDrops(s, ref);
      LoopLeavesInactive(FireFirst(s), ref, a);
    }
  }

  lemma ScheduleAlarmsKeeps(s: State, now: Time)
    requires AllOk(s) && InRange(now)
    ensures var r := ScheduleAlarms(s, now);
            && AllOk(r.state) && (NoneForgotten(s) ==> NoneForgotten(r.state))
            && r.state.sched.active == s.sched.active && r.state.alarms.Keys == s.alarms.Keys
            && r.state.sems == s.sems && r.state.devs == s.devs && r.state.resuming == s.resuming
            && (r.resched == 0 ==> r.state.sched == s.sched)
  {
    hide Running, SemsOk, DevsOk, ListOk, AlarmLoop, AlarmValid;
    var ref := Add(now, s.threshold);
    LoopKeeps(s, ref);
    var r, r' := AlarmLoop(s, ref).state, ScheduleAlarms(s, now).state;
    SchedFields(r, r');
  }

  lemma SchedFields(s: State, s': State)
    requires s'.sched == s.sched && s'.sems == s.sems && s'.devs == s.devs && s'.resuming == s.resuming
    ensures (SemsOk(s) ==> SemsOk(s')) && (DevsOk(s) ==> DevsOk(s')) && (Running(s) ==> Running(s'))
  {
    if DevsOk(s) {
      DevsFields(s, s');
    }
  }

  // -- system calls ---------------------------------------------------------------------

  /** The first part of k_alarm_add: an alarm with a time becomes active. */
  function Arm(s: State, a: nat): State
    requires a in s.alarms
  {
    var al := s.alarms[a];
    if al.exp.sec + al.exp.nsec > 0 then
      var alarms := s.alarms[a := al.(active := true)];
      s.(alarms := alarms, list := AddSorted(s.list, a, alarms))
    else s
  }

  /** k_alarm_add for an alarm that is in no list */
  ghost function AddAlarm(s: State, a: nat, now: Time): State
    requires AllOk(s) && a in s.alarms && !s.alarms[a].active && InRange(now) && s.sched.active != Some(IDLE)
  {
    ArmKeeps(s, a);
    var r := ScheduleAlarms(Arm(s, a), now);
    ScheduleAlarmsKeeps(Arm(s, a), now);
    if r.state.alarms[a].active && r.state.alarms[a].wait then
      BlockRuns(r.state, AlarmQ(a));
      Reschedule(r.state.(sched := BlockActive(r.state.sched, AlarmQ(a))))
    else if r.resched > 0 then Reschedule(r.state)
    else r.state
  }

  lemma ArmKeeps(s: State, a: nat)
    requires AllOk(s) && a in s.alarms && !s.alarms[a].active
    ensures AllOk(Arm(s, a)) && Arm(s, a).sched == s.sched && a in Arm(s, a).alarms
    ensures Arm(s, a).alarms.Keys == s.alarms.Keys && Arm(s, a).resuming == s.resuming
  {
    hide Running, SemsOk, DevsOk, AddSorted, ListOk;
    SchedFields(s, Arm(s, a));
    ListWith(s.list, s.alarms, a);
  }

  lemma ListWith(list: seq<nat>, alarms: map<nat, Alarm>, a: nat)
    requires ListOk(list, alarms) && a in alarms && !alarms[a].active
    ensures var alarms' := alarms[a := alarms[a].(active := true)]; ListOk(AddSorted(list, a, alarms'), alarms')
  {
    hide AddSorted, SortedByTime;
    var alarms' := alarms[a := alarms[a].(active := true)];
    SortedTail(list, alarms, alarms');
    AddSortedKeeps(list, a, alarms');
  }

  // Adding an alarm keeps everything in order; the caller may block on it.
  lemma AddKeeps(s: State, a: nat, now: Time)
    requires AllOk(s) && a in s.alarms && !s.alarms[a].active && InRange(now) && s.sched.active != Some(IDLE)
    ensures var s' := AddAlarm(s, a, now);
            AllOk(s') && (TopRuns(s.sched) ==> TopRuns(s'.sched)) && s'.resuming == s.resuming
            && (NoneForgotten(Arm(s, a)) ==> NoneForgotten(s'))
  {
    hide AllOk, Running, Arm, ScheduleAlarms, Reschedule, TopRuns, BlockActive, NoneForgotten, AlarmsOk;
    ArmKeeps(s, a);
    var s1 := Arm(s, a);
    ScheduleAlarmsKeeps(s1, now);
    var r := ScheduleAlarms(s1, now);
    if r.state.alarms[a].active && r.state.alarms[a].wait {
      BlockOnAlarm(r.state, a);
    } else if r.resched > 0 {
      RescheduleAll(r.state);
    }
  }

  // An alarm with a time becomes active and moves on past the expirations that are due already.
  lemma AddActivates(s: State, a: nat, now: Time)
    requires AllOk(s) && a in s.alarms && !s.alarms[a].active && InRange(now) && s.sched.active != Some(IDLE)
    ensures var al := s.alarms[a].(active := s.alarms[a].exp.sec + s.alarms[a].exp.nsec > 0);
            && AlarmValid(al) && InRange(s.threshold)
            && a in AddAlarm(s, a, now).alarms && AddAlarm(s, a, now).alarms[a] == AdvanceAll(al, Add(now, s.threshold))
  {
    hide AllOk, Running, ScheduleAlarms, AdvanceAll, Core, IdleOk, BlockActive, AddSorted, AlarmValid;
    ArmKeeps(s, a);
    var s1 := Arm(s, a);
    assert s1.alarms[a] == s.alarms[a].(active := s.alarms[a].exp.sec + s.alarms[a].exp.nsec > 0);
    ScheduleActivates(s1, a, now);
    ScheduleAlarmsKeeps(s1, now);
    var r := ScheduleAlarms(s1, now).state;
    AllRunning(r);
    BlockRuns(r, AlarmQ(a));
  }

  lemma ScheduleActivates(s: State, a: nat, now: Time)
    requires AllOk(s) && a in s.alarms && InRange(now)
    ensures AlarmValid(s.alarms[a]) && InRange(s.threshold)
    ensures var r := ScheduleAlarms(s, now).state;
            a in r.alarms && r.alarms[a] == AdvanceAll(s.alarms[a], Add(now, s.threshold))
  {
    hide AllOk, AlarmLoop, AdvanceAll;
    ThresholdOk(s);
    LoopFiresExactly(s, Add(now, s.threshold), a);
  }

  // The caller blocks if and only if it wants to wait and the alarm is active after that.
  lemma AddBlocksIff(s: State, a: nat, now: Time)
    requires AllOk(s) && a in s.alarms && !s.alarms[a].active && InRange(now) && s.sched.active != Some(IDLE)
    ensures a in AddAlarm(s, a, now).alarms && s.sched.active.Some?
    ensures var s' := AddAlarm(s, a, now);
            s.sched.active.value in Q(s'.sched, AlarmQ(a)) <==> s'.alarms[a].active && s'.alarms[a].wait
  {
    hide AllOk, Running, Arm, ScheduleAlarms, Reschedule, TopRuns, BlockActive, NoneForgotten, AlarmsOk, Core,
         IdleOk, SchedFrame;
    ArmKeeps(s, a);
    var s1 := Arm(s, a);
    ScheduleAlarmsKeeps(s1, now);
    var r := ScheduleAlarms(s1, now).state;
    AllRunning(r);
    CallerNotQueued(r, AlarmQ(a));
    if r.alarms[a].active && r.alarms[a].wait {
      BlockOnAlarm(r, a);
    } else {
      RescheduleRuns(r);
      RescheduleFields(r);
    }
  }

  lemma CallerNotQueued(s: State, q: QueueId)
    requires Running(s)
    ensures s.sched.active.Some? && s.sched.active.value !in Q(s.sched, q)
  {
    NotQueued(s.sched, None, s.sched.active.value, q);
  }

  lemma RescheduleAll(s: State)
    requires AllOk(s)
    ensures AllOk(Reschedule(s)) && TopRuns(Reschedule(s).sched) && Reschedule(s) == s.(sched := Reschedule(s).sched)
    ensures NoneForgotten(s) ==> NoneForgotten(Reschedule(s))
  {
    hide SemsOk, DevsOk, ListOk, SchedFrame, TopRuns, Inv, IdleOk;
    AllRunning(s);
    RescheduleRuns(s);
    RescheduleFields(s);
    SemsFrame(s, Reschedule(s), None);
    DevsFrame(s, Reschedule(s), None);
  }

  lemma AllRunning(s: State)
    requires AllOk(s)
    ensures Inv(s.sched) && IdleOk(s.sched) && Core(s.sched) && Running(s)
  {
  }

  // Blocking on an active alarm.
  lemma BlockOnAlarm(s: State, a: nat)
    requires AllOk(s) && a in s.alarms && s.alarms[a].active && s.sched.active != Some(IDLE)
    ensures IsRunning(s.sched) && Core(BlockActive(s.sched, AlarmQ(a))) && IdleOk(BlockActive(s.sched, AlarmQ(a)))
    ensures var s1 := s.(sched := BlockActive(s.sched, AlarmQ(a))); var s' := Reschedule(s1);
            && AllOk(s') && TopRuns(s'.sched) && s' == s.(sched := s'.sched)
            && (NoneForgotten(s) ==> NoneForgotten(s'))
            && Q(s'.sched, AlarmQ(a)) == Q(s.sched, AlarmQ(a)) + [s.sched.active.value]
  {
    hide SemsOk, DevsOk, ListOk, SchedFrame, TopRuns, Inv, IdleOk, BlockActive, Core;
    AllRunning(s);
    var q := AlarmQ(a);
    BlockRuns(s, q);
    var s1 := s.(sched := BlockActive(s.sched, q));
    RescheduleRuns(s1);
    RescheduleFields(s1);
    var s' := Reschedule(s1);
    FrameSub(s1.sched, s'.sched, Some(q));
    RunningPlaced(s);
    FrameTrans(s.sched, s1.sched, s'.sched, Some(q));
    SemsFrame(s, s', Some(q));
    DevsFrame(s, s', Some(q));
    if NoneForgotten(s) {
      forall b: nat | Q(s'.sched, AlarmQ(b)) != [] ensures b in s'.alarms && s'.alarms[b].active {
        if b != a && Q(s.sched, AlarmQ(b)) == [] {
          EmptyStays(s.sched, s'.sched, Some(q), AlarmQ(b));
        }
      }
    }
  }

  /** k_timer_interrupt */
  ghost function Timer(s: State, now: Time): State
    requires AllOk(s) && InRange(now)
  {
    ScheduleAlarmsKeeps(s, now);
    var r := ScheduleAlarms(s, now);
    if r.resched > 0 then Reschedule(r.state) else r.state
  }

  // After a timer interrupt nobody still waits for an alarm whose time has passed.
  lemma TimerKeeps(s: State, now: Time)
    requires AllOk(s) && InRange(now)
    ensures var s' := Timer(s, now);
            && AllOk(s') && (TopRuns(s.sched) ==> TopRuns(s'.sched)) && s'.resuming == s.resuming
            && (ScheduleAlarms(s, now).resched == 0 ==> s'.sched == s.sched)
            && (NoneForgotten(s) ==>
                  && NoneForgotten(s')
                  && forall a: nat :: Q(s'.sched, AlarmQ(a)) != [] ==>
                       a in s'.alarms && Instant(s'.alarms[a].exp) >= Instant(now) + Instant(s.threshold))
  {
    hide AllOk, ScheduleAlarms, Reschedule, TopRuns, AlarmsOk, Running;
    ScheduleAlarmsKeeps(s, now);
    TimerArmed(s, now);
    var r := ScheduleAlarms(s, now);
    if r.resched > 0 {
      RescheduleAll(r.state);
    }
  }

  /** k_alarm_new, naming the new alarm a */
  ghost function NewAlarm(s: State, a: nat, al: Alarm, now: Time): State
    requires AllOk(s) && a !in s.alarms && AlarmValid(al) && InRange(now) && s.sched.active != Some(IDLE)
  {
    NewKeeps(s, a, al);
    AddAlarm(WithNew(s, a, al), a, now)
  }

  function WithNew(s: State, a: nat, al: Alarm): State {
    var prio := if IsRunning(s.sched) then s.sched.threads[s.sched.active.value].prio else 0;
    s.(alarms := s.alarms[a := al.(active := false, ownerPrio := prio)])
  }

  lemma NewKeeps(s: State, a: nat, al: Alarm)
    requires AllOk(s) && a !in s.alarms && AlarmValid(al)
    ensures AllOk(WithNew(s, a, al)) && a in WithNew(s, a, al).alarms && !WithNew(s, a, al).alarms[a].active
    ensures NoneForgotten(s) ==> NoneForgotten(Arm(WithNew(s, a, al), a))
  {
    hide Running, SemsOk, DevsOk, AddSorted;
    var s' := WithNew(s, a, al);
    SchedFields(s, s');
    assert a !in s.list;
    SortedTail(s.list, s.alarms, s'.alarms);
  }

  /** k_alarm_set */
  ghost function SetAlarm(s: State, a: nat, al: Alarm, now: Time): State
    requires AllOk(s) && a in s.alarms && AlarmValid(al) && InRange(now) && s.sched.active != Some(IDLE)
  {
    if Cmp(s.alarms[a].exp, al.exp) == 0 then s.(alarms := s.alarms[a := Updated(s.alarms[a], al)])
    else
      DetachKeeps(s, a, al);
      AddAlarm(Detached(s, a, al), a, now)
  }

  function Updated(was: Alarm, al: Alarm): Alarm {
    was.(action := al.action, periodic := al.periodic, wait := al.wait, period := al.period)
  }

  /** The alarm is out of the list and has its new time. */
  function Detached(s: State, a: nat, al: Alarm): State
    requires a in s.alarms
  {
    s.(alarms := s.alarms[a := Updated(s.alarms[a], al).(exp := al.exp, active := false)],
       list := Without(s.list, a))
  }

  lemma ListWithout(list: seq<nat>, alarms: map<nat, Alarm>, alarms': map<nat, Alarm>, a: nat)
    requires ListOk(list, alarms)
    requires forall b :: b != a ==> (b in alarms' <==> b in alarms) && (b in alarms ==> alarms'[b] == alarms[b])
    requires a in alarms' ==> !alarms'[a].active
    ensures ListOk(Without(list, a), alarms')
  {
    hide Without, SortedByTime;
    WithoutDistinct(list, a);
    SortedWithout(list, alarms, a);
    SortedTail(Without(list, a), alarms, alarms');
  }

  lemma SortedWithout(list: seq<nat>, alarms: map<nat, Alarm>, a: nat)
    requires SortedByTime(list, alarms) && Distinct(list)
    ensures SortedByTime(Without(list, a), alarms)
  {
    hide Without, Cmp;
    if a in list {
      var k :| 0 <= k < |list| && list[k] == a;
      WithoutAt(list, k);
      var r := Without(list, a);
      forall i, j | 0 <= i < j < |r| ensures Cmp(ExpOf(alarms, r[i]), ExpOf(alarms, r[j])) <= 0 {
        assert r[i] == list[if i < k then i else i + 1] && r[j] == list[if j < k then j else j + 1];
      }
    }
  }

  lemma DetachKeeps(s: State, a: nat, al: Alarm)
    requires AllOk(s) && a in s.alarms && AlarmValid(al)
    ensures AllOk(Detached(s, a, al)) && a in Detached(s, a, al).alarms && !Detached(s, a, al).alarms[a].active
    ensures Detached(s, a, al).sched == s.sched && Detached(s, a, al).resuming == s.resuming
  {
    hide Running, SemsOk, DevsOk, ListOk, Without;
    var s' := Detached(s, a, al);
    SchedFields(s, s');
    ListWithout(s.list, s.alarms, s'.alarms, a);
  }

  /** The new time takes effect, or nobody waits for the alarm. */
  predicate SetWakes(s: State, a: nat, al: Alarm)
    requires a in s.alarms
  {
    Cmp(s.alarms[a].exp, al.exp) == 0 || al.exp != Time(0, 0) || Q(s.sched, AlarmQ(a)) == []
  }

  // Setting an alarm keeps everything in order; waiting threads are forgotten exactly when the
  // alarm is given a new time that is zero while somebody waits for it.
  lemma SetKeeps(s: State, a: nat, al: Alarm, now: Time)
    requires AllOk(s) && a in s.alarms && AlarmValid(al) && InRange(now) && s.sched.active != Some(IDLE)
    ensures var s' := SetAlarm(s, a, al, now);
            AllOk(s') && (TopRuns(s.sched) ==> TopRuns(s'.sched)) && s'.resuming == s.resuming
            && (NoneForgotten(s) ==> (NoneForgotten(s') <==> SetWakes(s, a, al)))
  {
    if Cmp(s.alarms[a].exp, al.exp) == 0 {
      UpdateKeeps(s, a, al);
    } else {
      DetachKeeps(s, a, al);
      var s1 := Detached(s, a, al);
      AddKeeps(s1, a, now);
      if NoneForgotten(s) {
        if SetWakes(s, a, al) {
          RearmedRemembers(s, a, al);
        } else {
          ZeroForgets(s, a, al, now);
        }
      }
    }
  }

  lemma UpdateKeeps(s: State, a: nat, al: Alarm)
    requires AllOk(s) && a in s.alarms && AlarmValid(al)
    ensures var s' := s.(alarms := s.alarms[a := Updated(s.alarms[a], al)]);
            AllOk(s') && (NoneForgotten(s) ==> NoneForgotten(s'))
  {
    hide Running, SemsOk, DevsOk;
    var s' := s.(alarms := s.alarms[a := Updated(s.alarms[a], al)]);
    SchedFields(s, s');
    SortedTail(s.list, s.alarms, s'.alarms);
  }

  lemma RearmedRemembers(s: State, a: nat, al: Alarm)
    requires NoneForgotten(s) && a in s.alarms && SetWakes(s, a, al) && AlarmValid(al)
             && Cmp(s.alarms[a].exp, al.exp) != 0
    ensures NoneForgotten(Arm(Detached(s, a, al), a))
  {
  }

  lemma ZeroForgets(s: State, a: nat, al: Alarm, now: Time)
    requires AllOk(s) && a in s.alarms && AlarmValid(al) && InRange(now) && s.sched.active != Some(IDLE)
    requires !SetWakes(s, a, al)
    ensures !NoneForgotten(SetAlarm(s, a, al, now))
  {
    hide AllOk, AlarmsOk, Running, AlarmLoop, Reschedule, BlockActive;
    DetachKeeps(s, a, al);
    var s1 := Detached(s, a, al);
    ArmKeeps(s1, a);
    ZeroArm(s1, a);
    ScheduleAlarmsKeeps(s1, now);
    ThresholdOk(s1);
    LoopLeavesInactive(s1, Add(now, s1.threshold), a);
    var r := ScheduleAlarms(s1, now);
    if r.resched > 0 {
      AllRunning(r.state);
      RescheduleRuns(r.state);
      RescheduleFields(r.state);
    }
  }

  lemma ZeroArm(s: State, a: nat)
    requires a in s.alarms && s.alarms[a].exp == Time(0, 0)
    ensures Arm(s, a) == s
  {
  }

  lemma ThresholdOk(s: State)
    requires AllOk(s)
    ensures InRange(s.threshold)
  {
  }

  /** k_alarm_remove */
  ghost function RemoveAlarm(s: State, a: nat, now: Time): State
    requires AllOk(s) && a in s.alarms && InRange(now)
  {
    DropKeeps(s, a);
    var s1 := Dropped(s, a);
    var r := ScheduleAlarms(s1, now);
    ScheduleAlarmsKeeps(s1, now);
    if |Q(s.sched, AlarmQ(a))| + r.resched > 0 then Reschedule(r.state) else r.state
  }

  /** The alarm is gone and its waiters are released. */
  ghost function Dropped(s: State, a: nat): State
    requires Running(s)
  {
    RunningPlaced(s);
    PlacementExist(s.sched, None);
    s.(alarms := s.alarms - {a}, list := Without(s.list, a), sched := ReleaseAll(s.sched, AlarmQ(a)))
  }

  lemma DropKeeps(s: State, a: nat)
    requires AllOk(s)
    ensures AllOk(Dropped(s, a)) && (NoneForgotten(s) ==> NoneForgotten(Dropped(s, a)))
    ensures Dropped(s, a).sched.active == s.sched.active && Dropped(s, a).resuming == s.resuming
    ensures Q(s.sched, AlarmQ(a)) == [] ==> Dropped(s, a).sched == s.sched
    ensures a !in Dropped(s, a).alarms && Q(Dropped(s, a).sched, AlarmQ(a)) == []
  {
    hide SemsOk, DevsOk, ListOk, Without, SchedFrame, Inv, Placement, RefsOk, OfPrio, IdleOk;
    AllRunning(s);
    RunningPlaced(s);
    ReleaseRunning(s.sched, AlarmQ(a));
    var s' := Dropped(s, a);
    ListWithout(s.list, s.alarms, s'.alarms, a);
    SemsFrame(s, s', Some(AlarmQ(a)));
    DevsFrame(s, s', Some(AlarmQ(a)));
    if NoneForgotten(s) {
      forall b: nat | Q(s'.sched, AlarmQ(b)) != [] ensures b in s'.alarms && s'.alarms[b].active {
        if b != a && Q(s.sched, AlarmQ(b)) == [] {
          EmptyStays(s.sched, s'.sched, Some(AlarmQ(a)), AlarmQ(b));
        }
      }
    }
  }

  lemma ReleaseRunning(sched: Sched, q: QueueId)
    requires Inv(sched) && IdleOk(sched) && IsResourceQ(q, None)
    ensures QueuedExist(sched)
    ensures var w := ReleaseAll(sched, q);
            Inv(w) && IdleOk(w) && w.active == sched.active && SchedFrame(sched, w, Some(q)) && Q(w, q) == []
  {
    hide Placement, RefsOk, OfPrio;
    ReleaseAllKeeps(sched, q, None, sched.active);
    ReleaseAllFrame(sched, q);
    NotQueued(sched, None, sched.active.value, q);
  }

  lemma RemoveKeeps(s: State, a: nat, now: Time)
    requires AllOk(s) && a in s.alarms && InRange(now)
    ensures var s' := RemoveAlarm(s, a, now);
            AllOk(s') && (TopRuns(s.sched) ==> TopRuns(s'.sched)) && s'.resuming == s.resuming
            && (NoneForgotten(s) ==> NoneForgotten(s'))
            && a !in s'.alarms && Q(s'.sched, AlarmQ(a)) == []
  {
    hide AllOk, ScheduleAlarms, Reschedule, TopRuns, NoneForgotten, Dropped, Running;
    AllRunning(s);
    DropKeeps(s, a);
    var s1 := Dropped(s, a);
    ScheduleAlarmsKeeps(s1, now);
    var r := ScheduleAlarms(s1, now);
    QueueStays(s1, now, a);
    if |Q(s.sched, AlarmQ(a))| + r.resched > 0 {
      RescheduleAll(r.state);
      AllRunning(r.state);
      RescheduleRuns(r.state);
    }
  }

  lemma QueueStays(s: State, now: Time, a: nat)
    requires AllOk(s) && InRange(now) && a !in s.alarms
    ensures Q(ScheduleAlarms(s, now).state.sched, AlarmQ(a)) == Q(s.sched, AlarmQ(a))
  {
    hide AllOk, AlarmLoop;
    ThresholdOk(s);
    LoopLeavesInactive(s, Add(now, s.threshold), a);
  }

  /** sys__wait_for_alarm */
  ghost function WaitAlarm(s: State, a: nat, wait: bool): State
    requires Running(s) && a in s.alarms && s.sched.active != Some(IDLE)
  {
    if s.alarms[a].active && wait then
      BlockRuns(s, AlarmQ(a));
      Reschedule(s.(sched := BlockActive(s.sched, AlarmQ(a))))
    else s
  }

  lemma WaitKeeps(s: State, a: nat, wait: bool)
    requires AllOk(s) && a in s.alarms && s.sched.active != Some(IDLE)
    ensures var s' := WaitAlarm(s, a, wait);
            AllOk(s') && (TopRuns(s.sched) ==> TopRuns(s'.sched)) && s'.resuming == s.resuming
            && (NoneForgotten(s) ==> NoneForgotten(s'))
            && (if s.alarms[a].active && wait then
                    Q(s'.sched, AlarmQ(a)) == Q(s.sched, AlarmQ(a)) + [s.sched.active.value]
                else s' == s)
            && s' == s.(sched := s'.sched)
  {
    hide Reschedule, TopRuns, NoneForgotten, SemsOk, DevsOk, ListOk;
    if s.alarms[a].active && wait {
      BlockOnAlarm(s, a);
    }
  }
}
