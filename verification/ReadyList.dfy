/**
 The queues of threads as kernel/thread.c keeps them: linked lists of descriptors, among them one
 ready queue for each priority, and the bitmap over the ready queues that are not empty.
 */
module ReadyList {
  import opened Options
  import opened Seqs
  import opened Scheduler
  import opened ReadyMask
  import opened Lists

  /** Bit p is set exactly if ready queue p is not empty. */
  ghost predicate Indexes(levels: set<nat>, queues: map<QueueId, seq<Tid>>) {
    forall p: nat :: p in levels <==> p < PRIO_LEVELS && At(queues, ReadyQ(p)) != []
  }

  ghost function At(queues: map<QueueId, seq<Tid>>, q: QueueId): seq<Tid> {
    if q in queues then queues[q] else []
  }

  lemma IndexReady(levels: set<nat>, queues: map<QueueId, seq<Tid>>, p: nat, ts: seq<Tid>)
    requires Indexes(levels, queues) && p < PRIO_LEVELS
    ensures Indexes(if ts == [] then levels - {p} else levels + {p}, queues[ReadyQ(p) := ts])
    ensures ts != [] && At(queues, ReadyQ(p)) != [] ==> levels + {p} == levels
  {
  }

  lemma IndexOther(levels: set<nat>, queues: map<QueueId, seq<Tid>>, q: QueueId, ts: seq<Tid>)
    requires Indexes(levels, queues) && !q.ReadyQ?
    ensures Indexes(levels, queues[q := ts]) && Indexes(levels, queues - {q})
  {
  }

  class Queues {
    const mask: Mask                     // rdy_mask
    const lists: Lists<QueueId, Tid>     // ready_q and the queues inside other objects
    ghost var Repr: set<object>

    ghost predicate Valid()
      reads this, Repr
    {
      && this in Repr && mask in Repr && mask.words in Repr && lists in Repr && lists.Repr <= Repr
      && mask.words !in lists.Repr && mask !in lists.Repr && this !in lists.Repr
      && mask.Valid() && lists.Valid() && Indexes(mask.Levels(), lists.contents)
    }

    ghost function Contents(): map<QueueId, seq<Tid>>
      reads this, lists
    {
      lists.contents
    }

    /** The thread is in no queue. */
    ghost predicate Loose(t: Tid)
      reads this, lists
    {
      forall q :: t !in At(Contents(), q)
    }

    /** init_ready_list */
    constructor ()
      ensures Valid() && fresh(Repr) && this in Repr && lists in Repr && Contents() == map[]
    {
      mask := new Mask();
      lists := new Lists<QueueId, Tid>();
      new;
      Repr := {this, mask, mask.words} + lists.Repr;
    }

    /** get_top_ready */
    method Top() returns (first: int)
      requires Valid()
      ensures first == -1 || (0 <= first < PRIO_LEVELS && At(Contents(), ReadyQ(first)) != [])
      ensures forall p: nat :: first < p < PRIO_LEVELS ==> At(Contents(), ReadyQ(p)) == []
    {
      first := mask.GetTop();
      assert forall p: nat :: p !in mask.Levels() && p < PRIO_LEVELS ==> At(Contents(), ReadyQ(p)) == [];
    }

    method First(q: QueueId) returns (t: Option<Tid>)
      requires Valid()
      ensures t == if At(Contents(), q) == [] then None else Some(At(Contents(), q)[0])
    {
      t := lists.First(q);
    }

    /** k_threadq_append and set_got_ready */
    method AppendReady(p: nat, t: Tid)
      requires Valid() && Loose(t) && p < PRIO_LEVELS
      modifies Repr
      ensures Valid() && fresh(Repr - old(Repr)) && old(Repr) <= Repr
      ensures Contents() == old(Contents())[ReadyQ(p) := At(old(Contents()), ReadyQ(p)) + [t]]
    {
      hide Indexes, Holds, Injective, Exclusive, Lists.Valid, Mask.Valid, Mask.Levels;
      IndexReady(mask.Levels(), Contents(), p, At(Contents(), ReadyQ(p)) + [t]);
      LooseIn(t);
      lists.Append(ReadyQ(p), t);
      Repr := Repr + lists.Repr;
      mask.SetGotReady(p);
    }

    lemma LooseIn(t: Tid)
      requires Loose(t)
      ensures lists.Loose(t)
    {
      assert forall q :: q in lists.contents ==> At(Contents(), q) == lists.contents[q];
    }

    /** k_threadq_append to a queue of blocked threads */
    method Append(q: QueueId, t: Tid)
      requires Valid() && Loose(t) && !q.ReadyQ?
      modifies Repr
      ensures Valid() && fresh(Repr - old(Repr)) && old(Repr) <= Repr
      ensures Contents() == old(Contents())[q := At(old(Contents()), q) + [t]]
    {
      hide Indexes, Holds, Injective, Exclusive, Lists.Valid, Mask.Valid, Mask.Levels;
      IndexOther(mask.Levels(), Contents(), q, At(Contents(), q) + [t]);
      LooseIn(t);
      lists.Append(q, t);
      Repr := Repr + lists.Repr;
    }

    /** k_threadq_remove ( q, NULL ) on a queue of blocked threads */
    method RemoveFirst(q: QueueId) returns (t: Tid)
      requires Valid() && !q.ReadyQ? && At(Contents(), q) != []
      modifies Repr
      ensures Valid() && Repr == old(Repr) && t == At(old(Contents()), q)[0] && Loose(t)
      ensures Contents() == old(Contents())[q := At(old(Contents()), q)[1..]]
    {
      hide Indexes, Holds, Injective, Exclusive, Lists.Valid, Mask.Valid, Mask.Levels;
      IndexOther(mask.Levels(), Contents(), q, At(Contents(), q)[1..]);
      t := lists.RemoveFirst(q);
    }

    /** The same on a ready queue, with the update of the bitmap */
    method RemoveReady(p: nat) returns (t: Tid)
      requires Valid() && p < PRIO_LEVELS && At(Contents(), ReadyQ(p)) != []
      modifies Repr
      ensures Valid() && Repr == old(Repr) && t == At(old(Contents()), ReadyQ(p))[0] && Loose(t)
      ensures Contents() == old(Contents())[ReadyQ(p) := At(old(Contents()), ReadyQ(p))[1..]]
    {
      hide Indexes, Holds, Injective, Exclusive, Lists.Valid, Mask.Valid, Mask.Levels;
      IndexReady(mask.Levels(), Contents(), p, At(Contents(), ReadyQ(p))[1..]);
      t := lists.RemoveFirst(ReadyQ(p));
      var first := lists.First(ReadyQ(p));
      if first == None {
        mask.ClearGotReady(p);
      }
    }

    /** k_threadq_remove ( q, kthr ), with the update of the bitmap if q is a ready queue */
    method Remove(q: QueueId, t: Tid)
      requires Valid() && t in At(Contents(), q) && (q.ReadyQ? ==> q.prio < PRIO_LEVELS)
      modifies Repr
      ensures Valid() && Repr == old(Repr) && Loose(t)
      ensures Contents() == old(Contents())[q := Without(At(old(Contents()), q), t)]
    {
      hide Indexes, Without, Holds, Injective, Exclusive, Lists.Valid, Mask.Valid, Mask.Levels;
      if q.ReadyQ? {
        IndexReady(mask.Levels(), Contents(), q.prio, Without(At(Contents(), q), t));
      } else {
        IndexOther(mask.Levels(), Contents(), q, Without(At(Contents(), q), t));
      }
      lists.Remove(q, t);
      if q.ReadyQ? {
        var first := lists.First(q);
        if first == None {
          mask.ClearGotReady(q.prio);
        }
      }
    }

    /** The owner of queue q is freed. */
    method Drop(q: QueueId)
      requires Valid() && !q.ReadyQ?
      modifies Repr
      ensures Valid() && Repr == old(Repr) && Contents() == old(Contents()) - {q}
    {
      hide Indexes, Holds, Injective, Exclusive, Lists.Valid, Mask.Valid, Mask.Levels;
      IndexOther(mask.Levels(), Contents(), q, []);
      lists.Drop(q);
    }
  }
}
