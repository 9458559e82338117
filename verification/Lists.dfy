/**
 Linked lists with intrusive elements, as the kernel uses them: every object embeds one list
 element, so that it is in at most one list at a time, and lists are parts of other objects.  A
 list is made (k_threadq_init) when it is used first.
 */
module Lists {
  import opened Options
  import opened Seqs
  import opened SortedInsert
  import opened LinkedList

  /** The nodes are the elements embedded in the objects, in the same order. */
  ghost predicate Matches<T>(nodes: seq<Node<T>>, objs: seq<T>, hdrs: map<T, Node<T>>) {
    |nodes| == |objs| && forall i :: 0 <= i < |objs| ==> objs[i] in hdrs && hdrs[objs[i]] == nodes[i]
  }

  /** List l holds the objects in this order, each by the element embedded in it. */
  ghost predicate Holds<T>(l: List<T>, objs: seq<T>, hdrs: map<T, Node<T>>)
    reads l, l.nodes
  {
    l.Valid() && l.Objects() == objs && Matches(l.nodes, objs, hdrs)
  }

  /** No object is in two lists. */
  ghost predicate Exclusive<K, T>(contents: map<K, seq<T>>) {
    forall k, l, x :: k in contents && l in contents && x in contents[k] && x in contents[l] ==> k == l
  }

  ghost predicate Injective<K, V>(m: map<K, V>) {
    forall k, l :: k in m && l in m && m[k] == m[l] ==> k == l
  }

  lemma InjectiveNew<K, V>(m: map<K, V>, k: K, v: V)
    requires Injective(m) && forall j :: j in m ==> m[j] != v
    ensures Injective(m[k := v])
  {
  }

  lemma ExclusiveLess<K, T>(contents: map<K, seq<T>>, k: K, objs: seq<T>)
    requires Exclusive(contents) && forall x :: x in objs ==> k in contents && x in contents[k]
    ensures Exclusive(contents[k := objs])
  {
  }

  lemma ExclusiveMore<K, T>(contents: map<K, seq<T>>, k: K, objs: seq<T>, x: T)
    requires Exclusive(contents) && k in contents && forall j :: j in contents ==> x !in contents[j]
    requires forall y :: y in objs ==> y in contents[k] || y == x
    ensures Exclusive(contents[k := objs])
  {
  }

  lemma HoldsNil<T>(l: List<T>, hdrs: map<T, Node<T>>)
    requires l.Valid() && l.nodes == []
    ensures Holds(l, [], hdrs)
  {
  }

  lemma HoldsMore<T>(l: List<T>, objs: seq<T>, hdrs: map<T, Node<T>>, x: T, n: Node<T>)
    requires Holds(l, objs, hdrs) && x !in hdrs
    ensures Holds(l, objs, hdrs[x := n])
  {
  }

  // The element of an object that is not in the list is no node of it.
  lemma NotHeld<T>(l: List<T>, objs: seq<T>, hdrs: map<T, Node<T>>, x: T)
    requires Holds(l, objs, hdrs) && Injective(hdrs) && x in hdrs && x !in objs
    ensures l.Valid() && hdrs[x] !in l.nodes
  {
  }

  // Lists without a common object have no common node.
  lemma NoCommonNode<T>(l: List<T>, objs: seq<T>, l': List<T>, objs': seq<T>, hdrs: map<T, Node<T>>)
    requires Holds(l, objs, hdrs) && Holds(l', objs', hdrs) && Injective(hdrs)
    requires forall x :: x in objs ==> x !in objs'
    ensures forall n :: n in l.nodes ==> n !in l'.nodes
  {
    forall n | n in l.nodes ensures n !in l'.nodes {
      var i :| 0 <= i < |l.nodes| && l.nodes[i] == n;
      assert objs[i] in objs;
    }
  }

  method AppendTo<T>(l: List<T>, x: T, hdr: Node<T>, ghost objs: seq<T>, ghost hdrs: map<T, Node<T>>)
    requires Holds(l, objs, hdrs) && Injective(hdrs) && x in hdrs && hdrs[x] == hdr && x !in objs
    modifies l, l.nodes, hdr
    ensures Holds(l, objs + [x], hdrs) && l.nodes == old(l.nodes) + [hdr]
  {
    NotHeld(l, objs, hdrs, x);
    l.Append(x, hdr);
  }

  method SortAddTo<T>(l: List<T>, x: T, hdr: Node<T>, cmp: (T, T) -> int, ghost objs: seq<T>, ghost hdrs: map<T,
                      Node<T>>)
    requires Holds(l, objs, hdrs) && Injective(hdrs) && x in hdrs && hdrs[x] == hdr && x !in objs
    modifies l, l.nodes, hdr
    ensures Holds(l, InsertAt(objs, SortAddPos(objs, x, cmp), x), hdrs)
    ensures forall n :: n in l.nodes ==> n == hdr || n in old(l.nodes)
  {
    NotHeld(l, objs, hdrs, x);
    l.SortAdd(x, hdr, cmp);
  }

  method TakeFirst<T>(l: List<T>, ghost objs: seq<T>, ghost hdrs: map<T, Node<T>>) returns (x: T)
    requires Holds(l, objs, hdrs) && objs != []
    modifies l, l.nodes
    ensures x == objs[0] && Holds(l, objs[1..], hdrs)
    ensures forall n :: n in l.nodes ==> n in old(l.nodes)
  {
    var hdr, k := l.Remove(FIRST, null);
    assert RemoveAt(objs, 0) == objs[1..];
    x := hdr.obj;
  }

  method TakeOut<T>(l: List<T>, x: T, hdr: Node<T>, ghost objs: seq<T>, ghost hdrs: map<T, Node<T>>)
    requires Holds(l, objs, hdrs) && Injective(hdrs) && x in objs && x in hdrs && hdrs[x] == hdr
    modifies l, l.nodes
    ensures Holds(l, Without(objs, x), hdrs)
    ensures forall n :: n in l.nodes ==> n in old(l.nodes)
  {
    hide Without;
    ghost var i :| 0 <= i < |objs| && objs[i] == x;
    assert l.nodes[i] == hdr;
    HeldDistinct(l, objs, hdrs);
    var out, k := l.Remove(FIRST, hdr);
    assert k == i;
    RemoveAtIsWithout(objs, i);
  }

  lemma HeldDistinct<T>(l: List<T>, objs: seq<T>, hdrs: map<T, Node<T>>)
    requires Holds(l, objs, hdrs)
    ensures Distinct(objs)
  {
  }

  class Lists<K(==, !new), T(==, !new)> {
    var lists: map<K, List<T>>   // list_t of the owner
    var hdrs: map<T, Node<T>>    // list_h of the object
    ghost var contents: map<K, seq<T>>
    ghost var Repr: set<object>

    ghost predicate Valid()
      reads this, Repr
    {
      && this in Repr && lists.Keys == contents.Keys
      && (forall k :: k in lists ==> lists[k] in Repr && (forall n :: n in lists[k].nodes ==> n in Repr))
      && (forall k :: k in lists ==> Holds(lists[k], contents[k], hdrs))
      && (forall x :: x in hdrs ==> hdrs[x] in Repr)
      && Injective(lists) && Injective(hdrs) && Exclusive(contents)
    }

    ghost function Contents(k: K): seq<T>
      reads this
    {
      if k in contents then contents[k] else []
    }

    /** Object x is in no list. */
    ghost predicate Loose(x: T)
      reads this
    {
      forall k :: k in contents ==> x !in contents[k]
    }

    constructor ()
      ensures Valid() && fresh(Repr) && this in Repr && contents == map[]
    {
      lists, hdrs, contents := map[], map[], map[];
      Repr := {this};
    }

    /** k_threadq_init, on first use */
    method EnsureList(k: K)
      requires Valid()
      modifies this
      ensures Valid() && fresh(Repr - old(Repr)) && old(Repr) <= Repr
      ensures k in lists && contents == old(contents)[k := old(Contents(k))]
    {
      hide Holds, Injective, Exclusive;
      if k in lists {
        assert contents == contents[k := contents[k]];
      } else {
        var l := new List<T>();
        HoldsNil(l, hdrs);
        InjectiveNew(lists, k, l);
        ExclusiveLess(contents, k, []);
        lists := lists[k := l];
        contents := contents[k := []];
        Repr := Repr + {l};
      }
    }

    method EnsureHeader(x: T)
      requires Valid()
      modifies this
      ensures Valid() && fresh(Repr - old(Repr)) && old(Repr) <= Repr
      ensures x in hdrs && lists == old(lists) && contents == old(contents)
    {
      hide Holds, Injective, Exclusive;
      if x !in hdrs {
        var n := new Node<T>(x);
        InjectiveNew(hdrs, x, n);
        forall k | k in lists ensures Holds(lists[k], contents[k], hdrs[x := n]) {
          HoldsMore(lists[k], contents[k], hdrs, x, n);
        }
        hdrs := hdrs[x := n];
        Repr := Repr + {n};
      }
    }

    // What belongs to a list belongs to no other.
    lemma Apart(k: K)
      requires Valid() && k in lists
      ensures forall j :: j in lists && j != k ==>
                  lists[j] != lists[k]
                  && forall n :: n in lists[j].nodes ==> n !in lists[k].nodes
    {
      hide Holds;
      forall j | j in lists && j != k
        ensures lists[j] != lists[k] && forall n :: n in lists[j].nodes ==> n !in lists[k].nodes {
        NoCommonNode(lists[j], contents[j], lists[k], contents[k], hdrs);
      }
    }

    lemma LooseApart(x: T)
      requires Valid() && Loose(x) && x in hdrs
      ensures forall j :: j in lists ==> hdrs[x] !in lists[j].nodes
    {
      hide Holds;
      forall j | j in lists ensures hdrs[x] !in lists[j].nodes {
        NotHeld(lists[j], contents[j], hdrs, x);
      }
    }

    method Link(k: K, x: T)
      requires Valid() && Loose(x) && k in lists && x in hdrs
      modifies Repr
      ensures Valid() && Repr == old(Repr) && contents == old(contents)[k := old(contents[k]) + [x]]
    {
      hide Holds, Injective, Exclusive;
      ExclusiveMore(contents, k, contents[k] + [x], x);
      Apart(k);
      LooseApart(x);
      ghost var hdr, ns := hdrs[x], lists[k].nodes;
      label before: AppendTo(lists[k], x, hdrs[x], contents[k], hdrs);
      forall j | j in lists && j != k ensures Holds(lists[j], contents[j], hdrs) {
        assert old@before(Holds(lists[j], contents[j], hdrs)) && unchanged@before(lists[j]);
        forall i | 0 <= i < |lists[j].nodes| ensures unchanged@before(lists[j].nodes[i]) {
          assert lists[j].nodes[i] in lists[j].nodes;
          assert lists[j].nodes[i] !in ns && lists[j].nodes[i] != hdr;
        }
        assert unchanged@before(lists[j].nodes);
      }
      contents := contents[k := contents[k] + [x]];
    }

    method LinkSorted(k: K, x: T, cmp: (T, T) -> int)
      requires Valid() && Loose(x) && k in lists && x in hdrs
      modifies Repr
      ensures Valid() && Repr == old(Repr)
      ensures var objs := old(contents[k]); contents == old(contents)[k := InsertAt(objs, SortAddPos(objs, x, cmp), x)]
    {
      hide Holds, Injective, Exclusive, SortAddPos;
      ghost var objs := InsertAt(contents[k], SortAddPos(contents[k], x, cmp), x);
      ExclusiveMore(contents, k, objs, x);
      Apart(k);
      LooseApart(x);
      ghost var hdr, ns := hdrs[x], lists[k].nodes;
      label before: SortAddTo(lists[k], x, hdrs[x], cmp, contents[k], hdrs);
      forall j | j in lists && j != k ensures Holds(lists[j], contents[j], hdrs) {
        assert old@before(Holds(lists[j], contents[j], hdrs)) && unchanged@before(lists[j]);
        forall i | 0 <= i < |lists[j].nodes| ensures unchanged@before(lists[j].nodes[i]) {
          assert lists[j].nodes[i] in lists[j].nodes;
          assert lists[j].nodes[i] !in ns && lists[j].nodes[i] != hdr;
        }
        assert unchanged@before(lists[j].nodes);
      }
      contents := contents[k := objs];
    }

    /** k_threadq_append */
    method Append(k: K, x: T)
      requires Valid() && Loose(x)
      modifies Repr
      ensures Valid() && fresh(Repr - old(Repr)) && old(Repr) <= Repr
      ensures contents == old(contents)[k := old(Contents(k)) + [x]]
    {
      hide Holds, Injective, Exclusive, InsertAt, SortAddPos;
      EnsureList(k);
      EnsureHeader(x);
      assert Loose(x);
      Link(k, x);
    }

    /** list_sort_add */
    method SortAdd(k: K, x: T, cmp: (T, T) -> int)
      requires Valid() && Loose(x)
      modifies Repr
      ensures Valid() && fresh(Repr - old(Repr)) && old(Repr) <= Repr
      ensures var objs := old(Contents(k)); contents == old(contents)[k := InsertAt(objs, SortAddPos(objs, x, cmp), x)]
    {
      hide Holds, Injective, Exclusive, InsertAt, SortAddPos;
      EnsureList(k);
      EnsureHeader(x);
      assert Loose(x);
      LinkSorted(k, x, cmp);
    }

    /** k_threadq_remove ( q, NULL ) */
    method RemoveFirst(k: K) returns (x: T)
      requires Valid() && Contents(k) != []
      modifies Repr
      ensures Valid() && Repr == old(Repr) && x == old(Contents(k))[0] && Loose(x)
      ensures contents == old(contents)[k := old(Contents(k))[1..]]
    {
      hide Holds, Injective, Exclusive;
      ExclusiveLess(contents, k, contents[k][1..]);
      ExclusiveFirst(k);
      Apart(k);
      ghost var ns := lists[k].nodes;
      label before: x := TakeFirst(lists[k], contents[k], hdrs);
      forall j | j in lists && j != k ensures Holds(lists[j], contents[j], hdrs) {
        assert old@before(Holds(lists[j], contents[j], hdrs)) && unchanged@before(lists[j]);
        forall i | 0 <= i < |lists[j].nodes| ensures unchanged@before(lists[j].nodes[i]) {
          assert lists[j].nodes[i] in lists[j].nodes;
          assert lists[j].nodes[i] !in ns;
        }
        assert unchanged@before(lists[j].nodes);
      }
      contents := contents[k := contents[k][1..]];
    }

    /** k_threadq_remove ( q, kthr ) and list_remove of a given element */
    method Remove(k: K, x: T)
      requires Valid() && x in Contents(k)
      modifies Repr
      ensures Valid() && Repr == old(Repr) && Loose(x)
      ensures contents == old(contents)[k := Without(old(Contents(k)), x)]
    {
      hide Holds, Injective, Exclusive, Without;
      ExclusiveOut(k, x);
      ExclusiveLess(contents, k, Without(contents[k], x));
      Apart(k);
      ghost var ns := lists[k].nodes;
      label before: TakeOut(lists[k], x, hdrs[x], contents[k], hdrs);
      forall j | j in lists && j != k ensures Holds(lists[j], contents[j], hdrs) {
        assert old@before(Holds(lists[j], contents[j], hdrs)) && unchanged@before(lists[j]);
        forall i | 0 <= i < |lists[j].nodes| ensures unchanged@before(lists[j].nodes[i]) {
          assert lists[j].nodes[i] in lists[j].nodes;
          assert lists[j].nodes[i] !in ns;
        }
        assert unchanged@before(lists[j].nodes);
      }
      contents := contents[k := Without(contents[k], x)];
    }

    lemma ExclusiveFirst(k: K)
      requires Valid() && k in lists && contents[k] != []
      ensures forall j :: j in contents && j != k ==> contents[k][0] !in contents[j]
      ensures contents[k][0] !in contents[k][1..]
    {
      HeldDistinct(lists[k], contents[k], hdrs);
      assert contents[k][0] in contents[k];
    }

    lemma ExclusiveOut(k: K, x: T)
      requires Valid() && k in lists && x in contents[k]
      ensures x in hdrs && forall y :: y in Without(contents[k], x) <==> y in contents[k] && y != x
      ensures forall j :: j in contents && j != k ==> x !in contents[j]
    {
      HeldDistinct(lists[k], contents[k], hdrs);
      WithoutDistinct(contents[k], x);
    }

    /** k_threadq_get */
    method First(k: K) returns (x: Option<T>)
      requires Valid()
      ensures x == if Contents(k) == [] then None else Some(Contents(k)[0])
    {
      if k in lists {
        var hdr := lists[k].Get(FIRST);
        x := if hdr == null then None else Some(hdr.obj);
      } else {
        x := None;
      }
    }

    /** The owner of list k is freed. */
    method Drop(k: K)
      requires Valid()
      modifies this
      ensures Valid() && Repr == old(Repr) && contents == old(contents) - {k}
    {
      hide Holds;
      lists := lists - {k};
      contents := contents - {k};
    }
  }
}
