/**
 Unique ids of system resources (kernel/memory.c): a bitmap of ids in use and the last id
 handed out, searched circularly.

 The bitmap has `max / 32` words, so it covers only the ids below `32 * (max / 32)`; the scan
 runs over all ids below `max`.  Touching a word behind the array is the outcome `OutOfBounds`.
 */
module IdPool {
  import opened Bits
  import opened Seqs

  const MAX_RESOURCES: nat := 1000

  // A word has 32 bits (WBITS); the number stands literally where words are divided.

  datatype IdResult =
    | Id(id: nat)           // the id handed out
    | NoFreeId              // the system is halted
    | OutOfBounds(id: nat)  // the scan reads the bitmap behind its end

  /** Number of ids the bitmap covers. */
  function Covered(max: nat): nat {
    32 * (max / 32)
  }

  /** The scan passes over `c`: the bitmap covers it and it is in use. */
  predicate Taken(c: nat, inUse: set<nat>, max: nat) {
    c < Covered(max) && c in inUse
  }

  /** The k-th id that the scan looks at. */
  function Candidate(start: nat, k: nat, max: nat): nat
    requires start < max && k <= max
  {
    if start + k < max then start + k else start + k - max
  }

  /** The circular scan, from its k-th candidate on. */
  function Scan(inUse: set<nat>, start: nat, k: nat, max: nat): (r: IdResult)
    requires start < max && k >= 1
    ensures r.Id? ==> r.id < Covered(max) && r.id !in inUse && r.id != start
    decreases max - k
  {
    if k >= max then NoFreeId
    else
      var c := Candidate(start, k, max);
      if c >= Covered(max) then OutOfBounds(c)
      else if c !in inUse then Id(c)
      else Scan(inUse, start, k + 1, max)
  }

  // The scan inspects start+1, start+2, ... and stops at the first id that is free or not
  // covered by the bitmap; everything it passed is in use.
  lemma {:induction false} ScanStopsAtFirst(inUse: set<nat>, start: nat, k: nat, max: nat) returns (j: nat)
    requires start < max && 1 <= k <= max
    ensures k <= j <= max
    ensures forall i :: k <= i < j ==> Taken(Candidate(start, i, max), inUse, max)
    ensures j == max ==> Scan(inUse, start, k, max) == NoFreeId
    ensures j < max ==> var c := Candidate(start, j, max);
                        c != start &&
                        (if c >= Covered(max) then Scan(inUse, start, k, max) == OutOfBounds(c)
                         else c !in inUse && Scan(inUse, start, k, max) == Id(c))
    decreases max - k
  {
    j := k;
    if k < max {
      var c := Candidate(start, k, max);
      if Taken(c, inUse, max) {
        j := ScanStopsAtFirst(inUse, start, k + 1, max);
      }
    }
  }

  // Every id other than the starting one is some candidate.
  lemma CandidateOf(start: nat, c: nat, max: nat) returns (k: nat)
    requires start < max && c < max && c != start
    ensures 1 <= k < max && Candidate(start, k, max) == c
  {
    k := if c > start then c - start else c + max - start;
  }

  // The system halts exactly when every id other than the starting one is covered and taken.
  lemma HaltsIff(inUse: set<nat>, start: nat, max: nat)
    requires start < max
    ensures Scan(inUse, start, 1, max) == NoFreeId
       <==> forall c :: 0 <= c < max && c != start ==> Taken(c, inUse, max)
  {
    var j := ScanStopsAtFirst(inUse, start, 1, max);
    if j == max {
      forall c | 0 <= c < max && c != start ensures Taken(c, inUse, max) {
        var k := CandidateOf(start, c, max);
      }
    } else {
      var c := Candidate(start, j, max);
      assert !Taken(c, inUse, max);
    }
  }

  // A returned id was free, is not the starting one, and is the first free one in circular order.
  lemma ReturnsFirstFree(inUse: set<nat>, start: nat, max: nat, id: nat)
    requires start < max
    requires Scan(inUse, start, 1, max) == Id(id)
    ensures id < Covered(max) && id !in inUse && id != start
    ensures id > start ==> forall c :: start < c < id ==> c in inUse
    ensures id < start ==> forall c :: 0 <= c < id || start < c < max ==> c in inUse
  {
    var j := ScanStopsAtFirst(inUse, start, 1, max);
    forall c | 0 <= c < max && c != start && (if id > start then start < c < id else c < id || start < c)
      ensures c in inUse
    {
      var k := CandidateOf(start, c, max);
      assert k < j;
    }
  }

  // The comment "don't assign 0" is not kept: the `continue` goes to the loop test, so id 0 is
  // handed out exactly when the scan wraps before it meets a free id and 0 is free.
  lemma ZeroIsHandedOutIff(inUse: set<nat>, start: nat, max: nat)
    requires max >= 32 && start < max
    ensures Scan(inUse, start, 1, max) == Id(0)
       <==> start != 0 && 0 !in inUse && forall c :: start < c < max ==> Taken(c, inUse, max)
  {
    var j := ScanStopsAtFirst(inUse, start, 1, max);
    if Scan(inUse, start, 1, max) == Id(0) {
      forall c | start < c < max ensures Taken(c, inUse, max) {
        var k := CandidateOf(start, c, max);
        assert k < j;
      }
    }
    if start != 0 && 0 !in inUse && forall c :: start < c < max ==> Taken(c, inUse, max) {
      var k := CandidateOf(start, 0, max);
      assert j <= k by {
        assert Candidate(start, k, max) !in inUse;
      }
      assert j == k by {
        assert j < k ==> Taken(Candidate(start, j, max), inUse, max);
      }
    }
  }

  predicate StaysInBounds(inUse: set<nat>, start: nat, max: nat)
    requires start < max
  {
    !Scan(inUse, start, 1, max).OutOfBounds?
  }

  // The scan never leaves the bitmap, in any state, exactly when max is a multiple of the word
  // width.  MAX_RESOURCES, 1000, is not one.
  lemma StaysInBoundsIff(max: nat)
    requires max > 0
    ensures (forall inUse: set<nat>, start: nat :: start < max ==> StaysInBounds(inUse, start, max))
       <==> max % 32 == 0 || max == 1
  {
    if max % 32 == 0 || max == 1 {
      forall inUse: set<nat>, start: nat | start < max
        ensures StaysInBounds(inUse, start, max)
      {
        var j := ScanStopsAtFirst(inUse, start, 1, max);
      }
    } else {
      var limit := Covered(max);
      var start := if limit == 0 then 0 else limit - 1;
      var none: set<nat> := {};
      assert start < max && Candidate(start, 1, max) >= limit;
      assert !StaysInBounds(none, start, max);
    }
  }

  // -- runs ---------------------------------------------------------------

  /** The pool as its clients see it: the ids in use, the last id, and the ids its clients hold,
      oldest first. */
  datatype IdTable = IdTable(inUse: set<nat>, last: nat, held: seq<nat>)

  datatype Op = New | Free(id: nat)

  const INITIAL := IdTable({}, 0, [])

  predicate Enabled(p: IdTable, op: Op, max: nat)
    requires p.last < max
  {
    match op
    case New => Scan(p.inUse, p.last, 1, max).Id?   // the system goes on running
    case Free(id) => id > 0 && id in p.held         // the assertion of k_free_unique_id
  }

  function Step(p: IdTable, op: Op, max: nat): (p': IdTable)
    requires p.last < max && Enabled(p, op, max)
    ensures p'.last < max
  {
    match op
    case New => var id := Scan(p.inUse, p.last, 1, max).id; IdTable(p.inUse + {id}, id, p.held + [id])
    case Free(id) => p.(inUse := p.inUse - {id}, held := Without(p.held, id))
  }

  ghost predicate PoolOk(p: IdTable, max: nat) {
    && p.last < max
    && Distinct(p.held)
    && (forall id :: id in p.held <==> id in p.inUse)
    && (forall id :: id in p.inUse ==> id < Covered(max))
  }

  lemma StepKeepsOk(p: IdTable, op: Op, max: nat)
    requires PoolOk(p, max) && Enabled(p, op, max)
    ensures PoolOk(Step(p, op, max), max)
  {
    match op {
      case New =>
        var j := ScanStopsAtFirst(p.inUse, p.last, 1, max);
      case Free(id) => WithoutDistinct(p.held, id);
    }
  }

  ghost predicate IsRun(p: IdTable, ops: seq<Op>, max: nat)
    requires p.last < max
    decreases |ops|
  {
    ops == [] || (Enabled(p, ops[0], max) && IsRun(Step(p, ops[0], max), ops[1..], max))
  }

  ghost function Run(p: IdTable, ops: seq<Op>, max: nat): IdTable
    requires p.last < max && IsRun(p, ops, max)
    decreases |ops|
  {
    if ops == [] then p else Run(Step(p, ops[0], max), ops[1..], max)
  }

  // After any run the ids held at once are pairwise distinct and are exactly the ids in use.
  lemma {:induction false} HeldIdsAreUnique(p: IdTable, ops: seq<Op>, max: nat)
    requires PoolOk(p, max) && IsRun(p, ops, max)
    ensures PoolOk(Run(p, ops, max), max)
    decreases |ops|
  {
    if ops != [] {
      StepKeepsOk(p, ops[0], max);
      HeldIdsAreUnique(Step(p, ops[0], max), ops[1..], max);
    }
  }

  // -- a pool whose size is no multiple of the word width -----------------

  /** The largest number of ids such a pool can hand out. */
  function Limit(max: nat): nat {
    if Covered(max) == 0 then 0 else Covered(max) - 1
  }

  /** The ids in use are among the n handed out so far, n being the last one. */
  ghost predicate Counted(p: IdTable, n: nat) {
    p.last == n && forall id :: id in p.inUse ==> 1 <= id <= n
  }

  // Its scan never wraps: the result is always the next number, until it leaves the bitmap.
  lemma CountedScan(p: IdTable, n: nat, max: nat)
    requires Covered(max) < max && max >= 2 && Counted(p, n) && n <= Limit(max)
    ensures Scan(p.inUse, p.last, 1, max) == if n == Limit(max) then OutOfBounds(n + 1) else Id(n + 1)
  {
    assert Candidate(n, 1, max) == n + 1;
  }

  // Whatever is freed in between, the number of allocations decides: with fewer than Limit(max)
  // allocations the next one succeeds, and after Limit(max) it reads the bitmap behind its end.
  lemma {:induction false} UnevenPoolCounts(p: IdTable, n: nat, ops: seq<Op>, max: nat)
    requires Covered(max) < max && max >= 2 && Counted(p, n) && n <= Limit(max) && IsRun(p, ops, max)
    ensures var q, m := Run(p, ops, max), n + multiset(ops)[New];
            && m <= Limit(max) && Counted(q, m)
            && Scan(q.inUse, q.last, 1, max) == if m == Limit(max) then OutOfBounds(m + 1) else Id(m + 1)
    decreases |ops|
  {
    CountedScan(p, n, max);
    if ops != [] {
      assert ops == [ops[0]] + ops[1..];
      UnevenPoolCounts(Step(p, ops[0], max), if ops[0] == New then n + 1 else n, ops[1..], max);
    }
  }

  // With the configured 1000 ids every run from the start has at most 991 allocations, they hand
  // out 1, 2, 3, ..., and the next one reads behind the bitmap if and only if there were 991.  So
  // id 0 is never handed out.
  lemma ConfiguredPool(ops: seq<Op>)
    requires IsRun(INITIAL, ops, MAX_RESOURCES)
    ensures var q, m := Run(INITIAL, ops, MAX_RESOURCES), multiset(ops)[New];
            && m <= 991 && q.last == m
            && Scan(q.inUse, q.last, 1, MAX_RESOURCES) == if m == 991 then OutOfBounds(992) else Id(m + 1)
  {
    UnevenPoolCounts(INITIAL, 0, ops, MAX_RESOURCES);
  }

  /** n allocations */
  function News(n: nat): seq<Op> {
    if n == 0 then [] else [New] + News(n - 1)
  }

  lemma {:induction false} NewsCount(n: nat)
    ensures multiset(News(n))[New] == n
  {
    if n > 0 {
      NewsCount(n - 1);
    }
  }

  /** The ids k + 1, ..., k + n are in use on top of those in use before. */
  ghost predicate Grown(p: IdTable, q: IdTable, n: nat) {
    q.last == p.last + n && forall id: nat :: id in q.inUse <==> id in p.inUse || p.last < id <= q.last
  }

  // As long as the bitmap lasts, allocations without a free in between hand out the next numbers.
  lemma {:induction false} NewsRun(p: IdTable, n: nat, max: nat)
    requires p.last + n < Covered(max) && Counted(p, p.last)
    ensures p.last < max && IsRun(p, News(n), max) && Grown(p, Run(p, News(n), max), n)
    decreases n
  {
    if n > 0 {
      assert Candidate(p.last, 1, max) == p.last + 1;
      assert Scan(p.inUse, p.last, 1, max) == Id(p.last + 1);
      assert News(n)[1..] == News(n - 1);
      NewsRun(Step(p, New, max), n - 1, max);
    }
  }

  // The overrun does happen.
  lemma ConfiguredPoolOverruns()
    ensures IsRun(INITIAL, News(991), MAX_RESOURCES)
    ensures var q := Run(INITIAL, News(991), MAX_RESOURCES);
            q.last < MAX_RESOURCES && Scan(q.inUse, q.last, 1, MAX_RESOURCES) == OutOfBounds(992)
  {
    NewsRun(INITIAL, 991, MAX_RESOURCES);
    NewsCount(991);
    ConfiguredPool(News(991));
  }

  // A pool whose size is a multiple of the word width hands out 0 when all others are taken.
  lemma EvenPoolHandsOutZero(max: nat)
    requires max > 0 && max % 32 == 0
    ensures IsRun(INITIAL, News(max - 1), max)
    ensures var q := Run(INITIAL, News(max - 1), max); q.last < max && Scan(q.inUse, q.last, 1, max) == Id(0)
  {
    NewsRun(INITIAL, max - 1, max);
    var q := Run(INITIAL, News(max - 1), max);
    ZeroIsHandedOutIff(q.inUse, q.last, max);
  }

  // -- the bitmap ----------------------------------------------------------

  class Allocator {
    const max: nat
    var idmask: array<nat>
    var lastId: nat

    ghost predicate Valid()
      reads this, idmask
    {
      && max > 0
      && idmask.Length == max / 32
      && lastId < max
      && forall i :: 0 <= i < idmask.Length ==> idmask[i] < Pow2(32)
    }

    predicate InUse(id: nat)
      reads this`idmask, idmask
      requires id / 32 < idmask.Length
    {
      TestBit(idmask[id / 32], id % 32)
    }

    ghost function Ids(): set<nat>
      reads this`idmask, idmask
      requires idmask.Length == max / 32
    {
      set id: nat | id < Covered(max) && InUse(id)
    }

    constructor (max: nat)
      requires max > 0
      ensures Valid() && fresh(idmask) && this.max == max
      ensures Ids() == {} && lastId == 0
    {
      this.max := max;
      idmask := new nat[max / 32](_ => 0);
      lastId := 0;
      new;
      assert forall i :: 0 <= i < idmask.Length ==> idmask[i] == 0;
      forall id: nat | id < Covered(max) ensures !InUse(id) {
        ZeroHasNoBits(idmask[id / 32], id % 32);
      }
    }

    /** k_new_unique_id */
    method NewId() returns (r: IdResult)
      requires Valid()
      modifies this`lastId, idmask
      ensures Valid()
      ensures r == Scan(old(Ids()), old(lastId), 1, max)
      ensures r.Id? ==> Ids() == old(Ids()) + {r.id} && r.id !in old(Ids()) && lastId == r.id
      ensures !r.Id? ==> Ids() == old(Ids())
      ensures r.NoFreeId? ==> lastId == old(lastId)
    {
      hide TestBit, Pow2, InUse;
      var starting := lastId;
      ghost var k := 1;
      NextCandidate();
      while true
        invariant 1 <= k <= max
        invariant lastId == Candidate(starting, k, max)
        invariant lastId < max && unchanged(idmask)
        invariant Scan(old(Ids()), starting, 1, max) == Scan(old(Ids()), starting, k, max)
        decreases max - k
      {
        if lastId == starting {
          return NoFreeId;
        }
        if lastId / 32 >= idmask.Length {
          return OutOfBounds(lastId);
        }
        var used := Holds(lastId);
        if !used { break; }
        NextCandidate();
        k := k + 1;
      }
      MarkId(lastId, true);
      r := Id(lastId);
    }

    method Holds(id: nat) returns (used: bool)
      requires Valid() && id / 32 < idmask.Length
      ensures id < Covered(max) && (used <==> id in Ids())
    {
      used := InUse(id);
    }

    method NextCandidate()
      requires lastId < max
      modifies this`lastId
      ensures lastId == if old(lastId) + 1 < max then old(lastId) + 1 else 0
    {
      lastId := (lastId + 1) % max;
    }

    /** k_free_unique_id; the requirement is the assertion in the source. */
    method FreeId(id: nat)
      requires Valid()
      requires id > 0 && id in Ids()
      modifies idmask
      ensures Valid()
      ensures Ids() == old(Ids()) - {id}
    {
      MarkId(id, false);
    }

    /** `idmask[id / WBITS] |= bit` or `&= ~bit`: exactly the bit of `id` changes. */
    method MarkId(id: nat, used: bool)
      requires Valid() && id < Covered(max)
      modifies idmask
      ensures Valid()
      ensures Ids() == if used then old(Ids()) + {id} else old(Ids()) - {id}
    {
      hide TestBit, SetBit, ClearBit, Pow2;
      var i, j := id / 32, id % 32;
      BitsFit(idmask[i], j, 32);
      ghost var w := idmask[i];
      idmask[i] := if used then SetBit(idmask[i], j) else ClearBit(idmask[i], j);
      forall c: nat | c < Covered(max)
        ensures InUse(c) <==> if c == id then used else old(InUse(c))
      {
        SetBitTest(w, j, c % 32);
        ClearBitTest(w, j, c % 32);
      }
    }
  }
}
