/** The device locks of kernel/devices.c. */
module Devices {
  import opened Options
  import opened Scheduler
  import opened KernelState

  /** k_device_lock up to k_schedule_threads; a thread that does not block also runs the rest. */
  ghost function Lock(s: State, d: nat, wait: bool): State
    requires Running(s) && d in s.devs && s.sched.active != Some(IDLE)
  {
    var dev, t := s.devs[d], s.sched.active.value;
    if !wait && dev.locked then s
    else if dev.locked then
      BlockKeeps(s.sched, DevQ(d));
      Reschedule(s.(sched := BlockActive(s.sched, DevQ(d)), resuming := s.resuming[t := d]))
    else
      s.(devs := s.devs[d := Dev(true, dev.holders + {t})])
  }

  /** The rest of k_device_lock, run by a thread that had to wait: `dev->locked = TRUE`. */
  function Resume(s: State): State
    requires IsRunning(s.sched) && s.sched.active.value in s.resuming && s.resuming[s.sched.active.value] in s.devs
  {
    var t := s.sched.active.value;
    var d := s.resuming[t];
    s.(devs := s.devs[d := s.devs[d].(locked := true)], resuming := s.resuming - {t})
  }

  /** k_device_unlock by the active thread. */
  ghost function Unlock(s: State, d: nat): State
    requires Running(s) && d in s.devs
  {
    var dev, t, q := s.devs[d], s.sched.active.value, DevQ(d);
    if Q(s.sched, q) == [] then
      s.(devs := s.devs[d := Dev(false, dev.holders - {t})])
    else
      ReleaseRuns(s, q);
      Reschedule(s.(sched := ReleaseFirst(s.sched, q),
                    devs := s.devs[d := dev.(holders := dev.holders - {t} + {Q(s.sched, q)[0]})]))
  }

  // Only device d, its queue and the entry of thread t among the resuming threads change.
  lemma DevsFrameBut(s: State, s': State, d: nat)
    requires DevsOk(s) && SchedFrame(s.sched, s'.sched, Some(DevQ(d))) && s'.sched.next == s.sched.next
    requires d in s.devs && s'.devs.Keys == s.devs.Keys && forall e :: e in s.devs && e != d ==> s'.devs[e] == s.devs[e]
    requires forall t :: t in s'.resuming ==> t < s'.sched.next && s'.resuming[t] in s'.devs
    requires forall t :: t in s'.resuming && s'.resuming[t] != d ==> t in s.resuming && s.resuming[t] == s'.resuming[t]
    requires forall t, e :: e != d && t in Q(s'.sched, DevQ(e)) ==> t in s'.resuming && s'.resuming[t] == e
    requires DevOk(s', d)
    ensures DevsOk(s')
  {
    forall e: nat | e != d && Q(s.sched, DevQ(e)) == [] ensures Q(s'.sched, DevQ(e)) == [] {
      EmptyStays(s.sched, s'.sched, Some(DevQ(d)), DevQ(e));
    }
    forall e | e in s'.devs && e != d ensures DevOk(s', e) {
      assert DevOk(s, e);
      forall t | t in s'.resuming && s'.resuming[t] == e && Live(s'.sched, t)
        ensures t in Q(s'.sched, DevQ(e)) || t in s'.devs[e].holders
      {
        assert t in s.resuming && Live(s.sched, t);
      }
    }
  }

  lemma ActiveInNoQueue(s: State, q: QueueId)
    requires Running(s)
    ensures IsRunning(s.sched) && s.sched.active.value !in Q(s.sched, q) && s.sched.active.value < s.sched.next
    ensures Live(s.sched, s.sched.active.value)
  {
    NotQueued(s.sched, None, s.sched.active.value, q);
  }

  lemma LockBlocks(s: State, d: nat)
    requires Running(s) && DevsOk(s) && d in s.devs && s.devs[d].locked && s.sched.active != Some(IDLE)
    requires s.sched.active.value !in s.resuming
    ensures var s' := Lock(s, d, true);
            Running(s') && DevsOk(s') && SchedFrame(s.sched, s'.sched, Some(DevQ(d))) && s'.sched.next == s.sched.next
            && s'.sems == s.sems && s'.devs == s.devs && TopRuns(s'.sched)
            && Q(s'.sched, DevQ(d)) == Q(s.sched, DevQ(d)) + [s.sched.active.value]
  {
    hide Running, Inv, Core, IdleOk, Reschedule, BlockActive, TopRuns, DevsOk;
    var q := DevQ(d);
    BlockRuns(s, q);
    ActiveInNoQueue(s, q);
    var t := s.sched.active.value;
    var s1 := s.(sched := BlockActive(s.sched, q), resuming := s.resuming[t := d]);
    RescheduleRuns(s1);
    RescheduleFields(s1);
    var s' := Reschedule(s1);
    FrameSub(s1.sched, s'.sched, Some(q));
    RunningPlaced(s);
    FrameTrans(s.sched, s1.sched, s'.sched, Some(q));
    QueuedBefore(s, s', d, t);
    DevsFrameBut(s, s', d);
  }

  // Thread t went to the end of the queue of device d; everybody else stayed.
  lemma QueuedBefore(s: State, s': State, d: nat, t: Tid)
    requires DevsOk(s) && SchedFrame(s.sched, s'.sched, Some(DevQ(d))) && d in s.devs && s'.devs == s.devs
             && s.devs[d].locked
    requires s'.resuming == s.resuming[t := d] && t !in s.resuming && t < s.sched.next
    requires Q(s'.sched, DevQ(d)) == Q(s.sched, DevQ(d)) + [t] && s'.sched.next == s.sched.next
    ensures DevOk(s', d)
    ensures forall u :: u in s'.resuming ==> u < s'.sched.next && s'.resuming[u] in s'.devs
    ensures forall u, e :: e != d && u in Q(s'.sched, DevQ(e)) ==> u in s'.resuming && s'.resuming[u] == e
  {
    assert DevOk(s, d);
    forall u, e | e != d && u in Q(s'.sched, DevQ(e)) ensures u in s'.resuming && s'.resuming[u] == e {
      InResuming(s, u, e);
    }
  }

  lemma InResuming(s: State, u: Tid, e: nat)
    requires DevsOk(s) && u in Q(s.sched, DevQ(e))
    ensures u in s.resuming && s.resuming[u] == e
  {
    assert e in s.devs ==> DevOk(s, e);
  }

  // Taking a free lock: the thread becomes its only holder.
  lemma LockTakes(s: State, d: nat, wait: bool)
    requires Running(s) && DevsOk(s) && d in s.devs && !s.devs[d].locked && s.sched.active != Some(IDLE)
    requires s.sched.active.value !in s.resuming
    ensures var s' := Lock(s, d, wait);
            && DevsOk(s') && s'.sched == s.sched && s'.sems == s.sems
            && s'.devs[d] == Dev(true, {s.sched.active.value})
  {
    hide Running;
    var s' := Lock(s, d, wait);
    assert DevOk(s, d);
    assert DevOk(s', d);
    forall e | e in s'.devs && e != d ensures DevOk(s', e) {
      assert DevOk(s, e);
    }
  }

  // The resumed waiter already has the lock: setting the flag changes nothing.
  lemma ResumeChangesNothing(s: State)
    requires Running(s) && DevsOk(s) && s.sched.active.value in s.resuming
    ensures var t := s.sched.active.value; var d := s.resuming[t];
            && d in s.devs && s.devs[d].locked && s.devs[d].holders == {t}
            && Resume(s) == s.(resuming := s.resuming - {t}) && DevsOk(Resume(s))
  {
    var t := s.sched.active.value;
    var d := s.resuming[t];
    ActiveInNoQueue(s, DevQ(d));
    assert DevOk(s, d);
    var s' := s.(resuming := s.resuming - {t});
    assert s.devs[d := s.devs[d].(locked := true)] == s.devs;
    forall e | e in s'.devs ensures DevOk(s', e) {
      assert DevOk(s, e);
      ActiveInNoQueue(s, DevQ(e));
    }
  }

  /** Unlocking is harmless: the active thread holds the lock, or nobody does, or the only holder is
      also the first to wait for it. */
  predicate MayUnlock(s: State, d: nat)
    requires IsRunning(s.sched) && d in s.devs
  {
    || s.sched.active.value in s.devs[d].holders
    || !s.devs[d].locked
    || (Q(s.sched, DevQ(d)) != [] && s.devs[d].holders == {Q(s.sched, DevQ(d))[0]})
  }

  // An unlock keeps the lock consistent and exclusive exactly if it is harmless in that sense.
  lemma UnlockKeepsIff(s: State, d: nat)
    requires Running(s) && DevsOk(s) && d in s.devs && s.sched.active.value !in s.resuming
    ensures DevsOk(Unlock(s, d)) <==> MayUnlock(s, d)
    ensures var s' := Unlock(s, d);
            && Running(s') && s'.sems == s.sems && s'.sched.next == s.sched.next
            && SchedFrame(s.sched, s'.sched, Some(DevQ(d)))
            && (Q(s.sched, DevQ(d)) != [] ==>
                  && Q(s'.sched, DevQ(d)) == Q(s.sched, DevQ(d))[1..] && TopRuns(s'.sched)
                  && Awake(s'.sched, Q(s.sched, DevQ(d))[0])
                  && (MayUnlock(s, d) ==> s'.devs[d] == Dev(true, {Q(s.sched, DevQ(d))[0]})))
            && (Q(s.sched, DevQ(d)) == [] ==>
                  s'.sched == s.sched && !s'.devs[d].locked && (MayUnlock(s, d) ==> s'.devs[d].holders == {}))
  {
    if Q(s.sched, DevQ(d)) == [] {
      UnlockFrees(s, d);
    } else {
      UnlockHandsOver(s, d);
    }
  }

  lemma UnlockFrees(s: State, d: nat)
    requires Running(s) && DevsOk(s) && d in s.devs && s.sched.active.value !in s.resuming && Q(s.sched, DevQ(d)) == []
    ensures DevsOk(Unlock(s, d)) <==> MayUnlock(s, d)
    ensures Unlock(s, d).sched == s.sched && Unlock(s, d).sems == s.sems && SchedFrame(s.sched, s.sched, Some(DevQ(d)))
    ensures !Unlock(s, d).devs[d].locked && (MayUnlock(s, d) ==> Unlock(s, d).devs[d].holders == {})
    ensures Running(Unlock(s, d))
  {
    var s', t := Unlock(s, d), s.sched.active.value;
    assert DevOk(s, d);
    forall e | e in s'.devs && e != d ensures DevOk(s', e) {
      assert DevOk(s, e);
    }
    if MayUnlock(s, d) {
      assert s'.devs[d] == Dev(false, {});
      assert DevOk(s', d);
    } else {
      assert s'.devs[d].holders == s.devs[d].holders;
      assert !DevOk(s', d);
    }
  }

  lemma UnlockHandsOver(s: State, d: nat)
    requires Running(s) && DevsOk(s) && d in s.devs && s.sched.active.value !in s.resuming && Q(s.sched, DevQ(d)) != []
    ensures DevsOk(Unlock(s, d)) <==> MayUnlock(s, d)
    ensures var s' := Unlock(s, d);
            && Running(s') && s'.sems == s.sems && s'.sched.next == s.sched.next
            && SchedFrame(s.sched, s'.sched, Some(DevQ(d)))
            && Q(s'.sched, DevQ(d)) == Q(s.sched, DevQ(d))[1..] && TopRuns(s'.sched)
            && Awake(s'.sched, Q(s.sched, DevQ(d))[0])
            && (MayUnlock(s, d) ==> s'.devs[d] == Dev(true, {Q(s.sched, DevQ(d))[0]}))
  {
    hide Running, Inv, Core, IdleOk, Reschedule, ReleaseFirst, TopRuns, DevsOk, Awake;
    var q, dev := DevQ(d), s.devs[d];
    ReleaseRuns(s, q);
    ActiveInNoQueue(s, q);
    var t := s.sched.active.value;
    var w := Q(s.sched, q)[0];
    var s1 := s.(sched := ReleaseFirst(s.sched, q), devs := s.devs[d := dev.(holders := dev.holders - {t} + {w})]);
    RescheduleRuns(s1);
    RescheduleFields(s1);
    RescheduleAwake(s1, w);
    var s' := Reschedule(s1);
    FrameSub(s1.sched, s'.sched, Some(q));
    RunningPlaced(s);
    FrameTrans(s.sched, s1.sched, s'.sched, Some(q));
    HandedOver(s, s', d, t);
    if MayUnlock(s, d) {
      DevsFrameBut(s, s', d);
    } else {
      DevsHas(s', d);
    }
  }

  lemma DevsHas(s: State, d: nat)
    requires d in s.devs
    ensures DevsOk(s) ==> DevOk(s, d)
  {
  }

  // The first waiter w left the queue and was added to the holders in place of t.
  lemma HandedOver(s: State, s': State, d: nat, t: Tid)
    requires DevsOk(s) && d in s.devs && SchedFrame(s.sched, s'.sched, Some(DevQ(d))) && s'.sched.next == s.sched.next
    requires Q(s.sched, DevQ(d)) != [] && Q(s'.sched, DevQ(d)) == Q(s.sched, DevQ(d))[1..]
    requires s.sched.active == Some(t) && IsRunning(s.sched) && t !in s.resuming && t !in Q(s.sched, DevQ(d))
             && t < s.sched.next
    requires s'.resuming == s.resuming
    requires s'.devs == s.devs[d := s.devs[d].(holders := s.devs[d].holders - {t} + {Q(s.sched, DevQ(d))[0]})]
    ensures DevOk(s', d) <==> MayUnlock(s, d)
    ensures MayUnlock(s, d) ==> s'.devs[d] == Dev(true, {Q(s.sched, DevQ(d))[0]})
    ensures forall u :: u in s'.resuming ==> u < s'.sched.next && s'.resuming[u] in s'.devs
    ensures forall u, e :: e != d && u in Q(s'.sched, DevQ(e)) ==> u in s'.resuming && s'.resuming[u] == e
  {
    hide SchedFrame, DevsOk;
    DevsHas(s, d);
    ResumingKnown(s);
    HandedOverLock(s, s', d, t);
    forall u, e | e != d && u in Q(s'.sched, DevQ(e)) ensures u in s'.resuming && s'.resuming[u] == e {
      StaysQueued(s.sched, s'.sched, DevQ(d), DevQ(e), u);
      InResuming(s, u, e);
    }
  }

  lemma ResumingKnown(s: State)
    requires DevsOk(s)
    ensures forall t :: t in s.resuming ==> t < s.sched.next && s.resuming[t] in s.devs
  {
  }

  lemma StaysQueued(s: Sched, s': Sched, q0: QueueId, q: QueueId, u: Tid)
    requires SchedFrame(s, s', Some(q0)) && IsResourceQ(q, Some(q0)) && u in Q(s', q)
    ensures u in Q(s, q)
  {
  }

  lemma HandedOverLock(s: State, s': State, d: nat, t: Tid)
    requires d in s.devs && DevOk(s, d) && Q(s.sched, DevQ(d)) != [] && Q(s'.sched, DevQ(d)) == Q(s.sched, DevQ(d))[1..]
    requires s.sched.active == Some(t) && IsRunning(s.sched) && t !in s.resuming
    requires forall u :: u in s.resuming ==> u < s.sched.next
    requires SchedFrame(s.sched, s'.sched, Some(DevQ(d)))
    requires s'.resuming == s.resuming
    requires s'.devs == s.devs[d := s.devs[d].(holders := s.devs[d].holders - {t} + {Q(s.sched, DevQ(d))[0]})]
    ensures DevOk(s', d) <==> MayUnlock(s, d)
    ensures MayUnlock(s, d) ==> s'.devs[d] == Dev(true, {Q(s.sched, DevQ(d))[0]})
  {
    var q := DevQ(d);
    var w, ws := Q(s.sched, q)[0], Q(s.sched, q)[1..];
    assert Q(s.sched, q) == [w] + ws && s.devs[d].locked;
    assert w in Q(s.sched, q);
    if MayUnlock(s, d) {
      assert s'.devs[d].holders == {w};
    } else {
      var h :| h in s.devs[d].holders;
      assert h != t && h != w by {
        assert s.devs[d].holders == {h};
      }
      assert h in s'.devs[d].holders && w in s'.devs[d].holders;
    }
  }
}
