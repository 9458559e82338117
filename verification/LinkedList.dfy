/**
 The intrusive doubly linked list of lib/list.c, and the sequence it stands for.
 */
module SortedInsert {
  import opened Seqs

  function InsertAt<T>(s: seq<T>, k: nat, x: T): seq<T>
    requires k <= |s|
  {
    seq(|s| + 1, i requires 0 <= i <= |s| => if i < k then s[i] else if i == k then x else s[i - 1])
  }

  function RemoveAt<T>(s: seq<T>, k: nat): seq<T>
    requires k < |s|
  {
    seq(|s| - 1, i requires 0 <= i < |s| - 1 => if i < k then s[i] else s[i + 1])
  }

  // Removing a position and removing the element there is the same if nothing is repeated.
  lemma RemoveAtIsWithout<T>(s: seq<T>, k: nat)
    requires Distinct(s) && k < |s|
    ensures RemoveAt(s, k) == Without(s, s[k])
  {
    WithoutAt(s, k);
  }

  lemma SplitAt<T>(s: seq<T>, k: nat) returns (a: seq<T>, b: seq<T>)
    requires k <= |s|
    ensures s == a + b && |a| == k
  {
    a, b := s[..k], s[k..];
  }

  lemma SplitInsert<T>(a: seq<T>, b: seq<T>, x: T)
    ensures a + ([x] + b) == InsertAt(a + b, |a|, x)
  {
  }

  /** The plain scan: the first position from i on whose element is after x. */
  function ScanPos<T>(s: seq<T>, x: T, cmp: (T, T) -> int, i: nat): (p: nat)
    requires i <= |s|
    ensures i <= p <= |s|
    ensures forall j :: i <= j < p ==> cmp(x, s[j]) >= 0
    ensures p < |s| ==> cmp(x, s[p]) < 0
    decreases |s| - i
  {
    if i < |s| && cmp(x, s[i]) >= 0 then ScanPos(s, x, cmp, i + 1) else i
  }

  /** Where list_sort_add inserts: behind the last element if x is not before it, else by scan. */
  function SortAddPos<T>(s: seq<T>, x: T, cmp: (T, T) -> int): (p: nat)
    ensures p <= |s|
  {
    if s != [] && cmp(x, s[|s| - 1]) >= 0 then |s| else ScanPos(s, x, cmp, 0)
  }

  predicate Le<T>(cmp: (T, T) -> int, a: T, b: T) {
    cmp(a, b) <= 0
  }

  ghost predicate TotalPreorder<T(!new)>(cmp: (T, T) -> int) {
    && (forall a, b :: cmp(a, b) < 0 <==> cmp(b, a) > 0)
    && (forall a, b, c :: Le(cmp, a, b) && Le(cmp, b, c) ==> Le(cmp, a, c))
  }

  ghost predicate Sorted<T>(s: seq<T>, cmp: (T, T) -> int) {
    forall i, j :: 0 <= i < j < |s| ==> Le(cmp, s[i], s[j])
  }

  // On any list the shortcut and the plain scan agree exactly when the shortcut is not taken or
  // nothing in the list is after x.
  lemma FastPathIff<T>(s: seq<T>, x: T, cmp: (T, T) -> int)
    ensures SortAddPos(s, x, cmp) == ScanPos(s, x, cmp, 0)
       <==> s == [] || cmp(x, s[|s| - 1]) < 0 || forall j :: 0 <= j < |s| ==> cmp(x, s[j]) >= 0
  {
  }

  /** x belongs at p: behind everything not after it and before everything after it, so that
      elements equal to x keep their places before it. */
  ghost predicate Belongs<T>(s: seq<T>, x: T, p: nat, cmp: (T, T) -> int) {
    && p <= |s|
    && (forall j :: 0 <= j < p ==> Le(cmp, s[j], x))
    && (forall j :: p <= j < |s| ==> !Le(cmp, s[j], x))
  }

  // On a sorted list the shortcut gives the position of the plain scan, and it is where x belongs.
  lemma SortAddBelongs<T(!new)>(s: seq<T>, x: T, cmp: (T, T) -> int)
    requires TotalPreorder(cmp) && Sorted(s, cmp)
    ensures SortAddPos(s, x, cmp) == ScanPos(s, x, cmp, 0)
    ensures Belongs(s, x, SortAddPos(s, x, cmp), cmp)
  {
    var p := SortAddPos(s, x, cmp);
    if s != [] && cmp(x, s[|s| - 1]) >= 0 {
      var last := s[|s| - 1];
      assert Le(cmp, last, x);
      forall j | 0 <= j < |s| ensures Le(cmp, s[j], x) && cmp(x, s[j]) >= 0 {
        assert j < |s| - 1 ==> Le(cmp, s[j], last);
      }
      FastPathIff(s, x, cmp);
    } else {
      forall j | p <= j < |s| ensures !Le(cmp, s[j], x) {
        assert cmp(x, s[p]) < 0 && !Le(cmp, s[p], x);
        assert p < j ==> Le(cmp, s[p], s[j]);
      }
    }
  }

  lemma BelongsSorted<T(!new)>(s: seq<T>, x: T, p: nat, cmp: (T, T) -> int)
    requires TotalPreorder(cmp) && Sorted(s, cmp) && Belongs(s, x, p, cmp)
    ensures Sorted(InsertAt(s, p, x), cmp)
  {
    var r := InsertAt(s, p, x);
    forall i, j | 0 <= i < j < |r| ensures Le(cmp, r[i], r[j]) {
      if i == p {
        assert r[j] == s[j - 1] && !Le(cmp, s[j - 1], x);
      } else if j == p {
        assert r[i] == s[i];
      } else {
        var i', j' := if i < p then i else i - 1, if j < p then j else j - 1;
        assert r[i] == s[i'] && r[j] == s[j'];
      }
    }
  }
}

module LinkedList {
  import opened Seqs
  import opened SortedInsert

  datatype Which = FIRST | LAST

  /** list_h: the list element embedded in an object. */
  class Node<T> {
    var prev: Node?<T>
    var next: Node?<T>
    var obj: T

    constructor (x: T)
      ensures obj == x
    {
      prev, next, obj := null, null, x;
    }
  }

  ghost function FirstOr<T>(ns: seq<Node<T>>, after: Node?<T>): Node?<T> {
    if ns == [] then after else ns[0]
  }

  ghost function LastOr<T>(ns: seq<Node<T>>, before: Node?<T>): Node?<T> {
    if ns == [] then before else ns[|ns| - 1]
  }

  /** `ns` is a doubly linked segment between `before` and `after`. */
  ghost predicate Segment<T>(ns: seq<Node<T>>, before: Node?<T>, after: Node?<T>)
    reads ns
  {
    && (ns != [] ==> ns[0].prev == before && ns[|ns| - 1].next == after)
    && (forall i {:trigger ns[i].prev} :: 1 <= i < |ns| ==> ns[i].prev == ns[i - 1])
    && (forall i {:trigger ns[i].next} :: 0 <= i < |ns| - 1 ==> ns[i].next == ns[i + 1])
  }

  // A list is linked exactly when its two parts are linked to each other.
  lemma SegmentConcat<T>(a: seq<Node<T>>, b: seq<Node<T>>, before: Node?<T>, after: Node?<T>)
    ensures Segment(a + b, before, after)
       <==> Segment(a, before, FirstOr(b, after)) && Segment(b, LastOr(a, before), after)
  {
    var ns := a + b;
    if Segment(ns, before, after) {
      assert forall i :: 0 <= i < |a| ==> a[i] == ns[i];
      assert forall i :: 0 <= i < |b| ==> b[i] == ns[|a| + i];
      assert a != [] && b != [] ==> ns[|a| - 1].next == b[0] && ns[|a|].prev == a[|a| - 1];
    }
    if Segment(a, before, FirstOr(b, after)) && Segment(b, LastOr(a, before), after) {
      forall i | 1 <= i < |ns| ensures ns[i].prev == ns[i - 1] {
        assert ns[i].prev == if i < |a| then a[i].prev else b[i - |a|].prev;
      }
      forall i | 0 <= i < |ns| - 1 ensures ns[i].next == ns[i + 1] {
        assert ns[i].next == if i < |a| then a[i].next else b[i - |a|].next;
      }
    }
  }

  lemma DistinctConcat<T>(a: seq<Node<T>>, b: seq<Node<T>>)
    ensures Distinct(a + b) <==> Distinct(a) && Distinct(b) && forall x :: x in a ==> x !in b
  {
    var ns := a + b;
    if Distinct(ns) {
      forall i, j | 0 <= i < j < |a| ensures a[i] != a[j] { assert ns[i] != ns[j]; }
      forall i, j | 0 <= i < j < |b| ensures b[i] != b[j] { assert ns[|a| + i] != ns[|a| + j]; }
      forall x | x in a ensures x !in b {
        var i :| 0 <= i < |a| && a[i] == x;
        forall j | 0 <= j < |b| ensures b[j] != x { assert ns[i] != ns[|a| + j]; }
      }
    } else {
      var i, j :| 0 <= i < j < |ns| && ns[i] == ns[j];
      assert ns[i] == if i < |a| then a[i] else b[i - |a|];
      assert ns[j] == if j < |a| then a[j] else b[j - |a|];
      assert i < |a| <= j ==> a[i] in a && b[j - |a|] in b;
    }
  }

  lemma Spliced<T>(a: seq<Node<T>>, hdr: Node<T>, b: seq<Node<T>>)
    requires Segment(a, null, hdr) && Segment(b, hdr, null)
    requires hdr.prev == LastOr(a, null) && hdr.next == FirstOr(b, null)
    requires Distinct(a + b) && hdr !in a && hdr !in b
    ensures Segment(a + ([hdr] + b), null, null) && Distinct(a + ([hdr] + b))
    ensures FirstOr(a + ([hdr] + b), null) == FirstOr(a, hdr) && LastOr(a + ([hdr] + b), null) == LastOr(b, hdr)
  {
    SegmentConcat([hdr], b, LastOr(a, null), null);
    SegmentConcat(a, [hdr] + b, null, null);
    DistinctConcat(a, b);
    DistinctConcat([hdr], b);
    DistinctConcat(a, [hdr] + b);
  }

  lemma SplicedLast<T>(ns: seq<Node<T>>, hdr: Node<T>)
    requires Segment(ns, null, hdr) && hdr.prev == LastOr(ns, null) && hdr.next == null
    requires Distinct(ns) && hdr !in ns
    ensures Segment(ns + [hdr], null, null) && Distinct(ns + [hdr]) && FirstOr(ns + [hdr], null) == FirstOr(ns, hdr)
  {
    assert ns + [] == ns && [hdr] + [] == [hdr];
    Spliced(ns, hdr, []);
  }

  lemma SplicedFirst<T>(hdr: Node<T>, ns: seq<Node<T>>)
    requires Segment(ns, hdr, null) && hdr.prev == null && hdr.next == FirstOr(ns, null)
    requires Distinct(ns) && hdr !in ns
    ensures Segment([hdr] + ns, null, null) && Distinct([hdr] + ns) && LastOr([hdr] + ns, null) == LastOr(ns, hdr)
  {
    assert [] + ns == ns && [] + ([hdr] + ns) == [hdr] + ns;
    Spliced([], hdr, ns);
  }

  lemma SegmentOne<T>(hdr: Node<T>, before: Node?<T>, after: Node?<T>)
    ensures Segment([hdr], before, after) <==> hdr.prev == before && hdr.next == after
  {
  }

  /** `x->next = v` for the last node x of a segment (nothing if the segment is empty). */
  method SetNext<T>(x: Node?<T>, v: Node?<T>, ghost ns: seq<Node<T>>, ghost before: Node?<T>, ghost after: Node?<T>)
    requires Segment(ns, before, after) && Distinct(ns) && x == LastOr(ns, null)
    modifies (if x == null then {} else {x})`next
    ensures Segment(ns, before, v)
  {
    if x != null { x.next := v; }
  }

  /** `x->prev = v` for the first node x of a segment. */
  method SetPrev<T>(x: Node?<T>, v: Node?<T>, ghost ns: seq<Node<T>>, ghost before: Node?<T>, ghost after: Node?<T>)
    requires Segment(ns, before, after) && Distinct(ns) && x == FirstOr(ns, null)
    modifies (if x == null then {} else {x})`prev
    ensures Segment(ns, v, after)
  {
    if x != null { x.prev := v; }
  }

  /** list_t; `nodes` is the sequence of elements it links. */
  class List<T> {
    var first: Node?<T>
    var last: Node?<T>
    ghost var nodes: seq<Node<T>>

    ghost predicate Valid()
      reads this, nodes
    {
      && first == FirstOr(nodes, null) && last == LastOr(nodes, null)
      && Segment(nodes, null, null)
      && Distinct(nodes)
    }

    ghost function Objects(): (s: seq<T>)
      reads this, nodes
      ensures |s| == |nodes| && forall i :: 0 <= i < |s| ==> s[i] == nodes[i].obj
    {
      seq(|nodes|, i requires 0 <= i < |nodes| reads this, nodes => nodes[i].obj)
    }

    /** list_init */
    constructor ()
      ensures Valid() && nodes == [] && Objects() == []
    {
      first, last, nodes := null, null, [];
    }

    /** list_append */
    method Append(x: T, hdr: Node<T>)
      requires Valid() && hdr !in nodes
      modifies this, nodes, hdr
      ensures Valid() && nodes == old(nodes) + [hdr]
      ensures Objects() == old(Objects()) + [x]
    {
      hide Segment, Distinct;
      hdr.obj := x;
      ghost var ns := nodes;
      assert ns == old(nodes) && Segment(ns, null, null);
      assert ns != [] ==> ns[|ns| - 1] in nodes;
      LinkLast(hdr, ns);
      SplicedLast(ns, hdr);
      nodes := ns + [hdr];
      ObjectsAdded(ns, old(Objects()), hdr);
    }

    /** The pointer updates of list_append. */
    method LinkLast(hdr: Node<T>, ghost ns: seq<Node<T>>)
      requires Segment(ns, null, null) && Distinct(ns) && hdr !in ns
      requires first == FirstOr(ns, null) && last == LastOr(ns, null)
      modifies this`first, this`last, (if ns == [] then {} else {ns[|ns| - 1]})`next, hdr`prev, hdr`next
      ensures Segment(ns, null, hdr) && hdr.prev == LastOr(ns, null) && hdr.next == null
      ensures first == FirstOr(ns, hdr) && last == hdr
    {
      hdr.next := null;
      if first != null {
        SetNext(last, hdr, ns, null, null);
        hdr.prev := last;
        last := hdr;
      } else {
        first, last := hdr, hdr;
        hdr.prev := null;
      }
    }

    /** list_prepend */
    method Prepend(x: T, hdr: Node<T>)
      requires Valid() && hdr !in nodes
      modifies this, nodes, hdr
      ensures Valid() && nodes == [hdr] + old(nodes)
      ensures Objects() == [x] + old(Objects())
    {
      hide Segment, Distinct;
      hdr.obj := x;
      ghost var ns := nodes;
      assert ns == old(nodes) && Segment(ns, null, null);
      assert ns != [] ==> ns[0] in nodes;
      LinkFirst(hdr, ns);
      SplicedFirst(hdr, ns);
      nodes := [hdr] + ns;
      ObjectsPrepended(ns, old(Objects()), hdr);
    }

    /** The pointer updates of list_prepend. */
    method LinkFirst(hdr: Node<T>, ghost ns: seq<Node<T>>)
      requires Segment(ns, null, null) && Distinct(ns) && hdr !in ns
      requires first == FirstOr(ns, null) && last == LastOr(ns, null)
      modifies this`first, this`last, (if ns == [] then {} else {ns[0]})`prev, hdr`prev, hdr`next
      ensures Segment(ns, hdr, null) && hdr.prev == null && hdr.next == FirstOr(ns, null)
      ensures first == hdr && last == LastOr(ns, hdr)
    {
      hdr.prev := null;
      hdr.next := first;
      if first != null {
        SetPrev(first, hdr, ns, null, null);
      } else {
        last := hdr;
      }
      first := hdr;
    }

    lemma ObjectsAdded(ns: seq<Node<T>>, objs: seq<T>, hdr: Node<T>)
      requires |ns| == |objs| && nodes == ns + [hdr]
      requires forall i :: 0 <= i < |ns| ==> ns[i].obj == objs[i]
      ensures Objects() == objs + [hdr.obj]
    {
    }

    lemma ObjectsPrepended(ns: seq<Node<T>>, objs: seq<T>, hdr: Node<T>)
      requires |ns| == |objs| && nodes == [hdr] + ns
      requires forall i :: 0 <= i < |ns| ==> ns[i].obj == objs[i]
      ensures Objects() == [hdr.obj] + objs
    {
    }

    /** list_sort_add */
    method SortAdd(x: T, hdr: Node<T>, cmp: (T, T) -> int)
      requires Valid() && hdr !in nodes
      modifies this, nodes, hdr
      ensures Valid()
      ensures var p := SortAddPos(old(Objects()), x, cmp);
              && nodes == InsertAt(old(nodes), p, hdr)
              && Objects() == InsertAt(old(Objects()), p, x)
    {
      hide Segment, Distinct;
      hdr.obj := x;
      assert Objects() == old(Objects());
      var iter, k := FindPlace(x, cmp);
      assert k == SortAddPos(old(Objects()), x, cmp);
      InsertBefore(hdr, iter, k);
    }

    method InsertBefore(hdr: Node<T>, iter: Node?<T>, ghost k: nat)
      requires Valid() && hdr !in nodes && k <= |nodes|
      requires iter == if k < |nodes| then nodes[k] else null
      modifies this, nodes, hdr`prev, hdr`next
      ensures Valid() && nodes == InsertAt(old(nodes), k, hdr)
      ensures Objects() == InsertAt(old(Objects()), k, hdr.obj)
    {
      hide Segment, Distinct;
      ghost var a, b := SplitAt(nodes, k);
      SegmentConcat(a, b, null, null);
      DistinctConcat(a, b);
      assert (a != [] ==> a[|a| - 1] in nodes) && (b != [] ==> b[0] in nodes);
      LinkBefore(hdr, iter, a, b);
      Spliced(a, hdr, b);
      nodes := a + ([hdr] + b);
      SplitInsert(a, b, hdr);
      ObjectsInserted(old(nodes), old(Objects()), k, hdr);
    }

    lemma ObjectsInserted(ns: seq<Node<T>>, objs: seq<T>, k: nat, hdr: Node<T>)
      requires k <= |ns| == |objs| && nodes == InsertAt(ns, k, hdr)
      requires forall i :: 0 <= i < |ns| ==> ns[i].obj == objs[i]
      ensures Objects() == InsertAt(objs, k, hdr.obj)
    {
    }

    /** The search of list_sort_add: the node before which to insert. */
    method FindPlace(x: T, cmp: (T, T) -> int) returns (iter: Node?<T>, ghost k: nat)
      requires Valid()
      ensures k == SortAddPos(Objects(), x, cmp)
      ensures var p := SortAddPos(Objects(), x, cmp); iter == if p < |nodes| then nodes[p] else null
    {
      if last != null && cmp(x, last.obj) >= 0 {
        return null, |nodes|;
      }
      iter := first;
      k := 0;
      while iter != null && cmp(x, iter.obj) >= 0
        invariant k <= |nodes|
        invariant iter == if k < |nodes| then nodes[k] else null
        invariant ScanPos(Objects(), x, cmp, 0) == ScanPos(Objects(), x, cmp, k)
        decreases |nodes| - k
      {
        iter := iter.next;
        k := k + 1;
      }
    }

    /** The pointer updates at the end of list_sort_add: insert `hdr` before `iter`. */
    method LinkBefore(hdr: Node<T>, iter: Node?<T>, ghost a: seq<Node<T>>, ghost b: seq<Node<T>>)
      requires Segment(a, null, iter) && Segment(b, LastOr(a, null), null)
      requires Distinct(a) && Distinct(b) && (forall x :: x in a ==> x !in b) && hdr !in a && hdr !in b
      requires iter == FirstOr(b, null)
      requires first == FirstOr(a, iter) && last == LastOr(b, LastOr(a, null))
      modifies this`first, this`last,
               (if a == [] then {} else {a[|a| - 1]})`next, (if b == [] then {} else {b[0]})`prev, hdr`prev, hdr`next
      ensures Segment(a, null, hdr) && Segment(b, hdr, null)
      ensures hdr.prev == LastOr(a, null) && hdr.next == iter
      ensures first == FirstOr(a, hdr) && last == LastOr(b, hdr)
    {
      hdr.next := iter;
      if iter != null {
        hdr.prev := iter.prev;
        SetNext(iter.prev, hdr, a, null, iter);
        if iter.prev == null {
          first := hdr;
        }
        SetPrev(iter, hdr, b, LastOr(a, null), null);
      } else {
        hdr.prev := last;
        SetNext(last, hdr, a, null, null);
        if last == null {
          first := hdr;
        }
        last := hdr;
      }
    }

    /** list_get */
    method Get(which: Which) returns (hdr: Node?<T>)
      requires Valid()
      ensures nodes == [] <==> hdr == null
      ensures nodes != [] ==> hdr == if which == LAST then nodes[|nodes| - 1] else nodes[0]
    {
      hdr := if which == LAST then last else first;
    }

    /** list_get_next */
    method GetNext(hdr: Node?<T>, ghost k: nat) returns (next: Node?<T>)
      requires Valid() && (hdr != null ==> k < |nodes| && nodes[k] == hdr)
      ensures next == if hdr != null && k + 1 < |nodes| then nodes[k + 1] else null
    {
      next := if hdr == null then null else hdr.next;
    }

    /** list_remove: by reference if `ref` is given, else from the end named by `which`. */
    method Remove(which: Which, ref: Node?<T>) returns (hdr: Node?<T>, ghost k: nat)
      requires Valid()
      requires ref != null ==> ref in nodes
      modifies this, nodes
      ensures Valid()
      ensures old(nodes) == [] ==> hdr == null && nodes == []
      ensures old(nodes) != [] ==>
                && k < |old(nodes)| && hdr == old(nodes)[k]
                && hdr.obj == old(Objects())[k]
                && (if ref != null then hdr == ref else k == if which == LAST then |old(nodes)| - 1 else 0)
                && nodes == RemoveAt(old(nodes), k)
                && Objects() == RemoveAt(old(Objects()), k)
    {
      if ref != null {
        hdr := ref;
        k :| 0 <= k < |nodes| && nodes[k] == ref;
      } else if which == LAST {
        hdr := last;
        k := if nodes == [] then 0 else |nodes| - 1;
      } else {
        hdr := first;
        k := 0;
      }
      if hdr != null {
        RemoveNode(hdr, k);
      }
    }

    method RemoveNode(hdr: Node<T>, ghost k: nat)
      requires Valid() && k < |nodes| && nodes[k] == hdr
      modifies this, nodes
      ensures Valid() && nodes == RemoveAt(old(nodes), k) && hdr.obj == old(hdr.obj)
      ensures Objects() == RemoveAt(old(Objects()), k)
    {
      hide Segment, Distinct;
      ghost var a, hb := SplitAt(nodes, k);
      ghost var h, b := SplitAt(hb, 1);
      assert h == [hdr];
      SegmentConcat(a, [hdr] + b, null, null);
      SegmentConcat([hdr], b, LastOr(a, null), null);
      SegmentOne(hdr, LastOr(a, null), FirstOr(b, null));
      DistinctConcat(a, [hdr] + b);
      DistinctConcat([hdr], b);
      assert (a != [] ==> a[|a| - 1] in nodes) && (b != [] ==> b[0] in nodes);
      Unlink(hdr, a, b);
      SegmentConcat(a, b, null, null);
      DistinctConcat(a, b);
      nodes := a + b;
      assert nodes == RemoveAt(old(nodes), k);
      ObjectsRemoved(old(nodes), old(Objects()), k);
    }

    lemma ObjectsRemoved(ns: seq<Node<T>>, objs: seq<T>, k: nat)
      requires k < |ns| == |objs| && nodes == RemoveAt(ns, k)
      requires forall i :: 0 <= i < |ns| ==> ns[i].obj == objs[i]
      ensures Objects() == RemoveAt(objs, k)
    {
    }

    /** The pointer updates of list_remove. */
    method Unlink(hdr: Node<T>, ghost a: seq<Node<T>>, ghost b: seq<Node<T>>)
      requires Segment(a, null, hdr) && Segment(b, hdr, null)
      requires hdr.prev == LastOr(a, null) && hdr.next == FirstOr(b, null)
      requires Distinct(a) && Distinct(b) && (forall x :: x in a ==> x !in b) && hdr !in a && hdr !in b
      requires first == FirstOr(a, hdr) && last == LastOr(b, hdr)
      modifies this`first, this`last,
               (if a == [] then {} else {a[|a| - 1]})`next, (if b == [] then {} else {b[0]})`prev
      ensures Segment(a, null, FirstOr(b, null)) && Segment(b, LastOr(a, null), null)
      ensures first == FirstOr(a, FirstOr(b, null)) && last == LastOr(b, LastOr(a, null))
    {
      SetNext(hdr.prev, hdr.next, a, null, hdr);
      SetPrev(hdr.next, hdr.prev, b, hdr, null);
      if first == hdr { first := hdr.next; }
      if last == hdr { last := hdr.prev; }
    }
  }
}
