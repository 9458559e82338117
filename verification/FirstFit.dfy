/**
 The first-fit allocator of lib/ff_simple.c at the level of chunks: which chunks tile the arena
 and in which order the free ones are listed.  Addresses and sizes are in bytes; a block handed
 to a client starts one word behind the header of its chunk.
 */
module FirstFit {
  import opened Options
  import opened Seqs

  const W: nat := 4                 // sizeof (size_t)
  const HEADER_SIZE: nat := 4 * W   // header: size, prev, next; tail: size
  const MODULUS: nat := 0x1_0000_0000

  datatype Chunk = Chunk(addr: nat, size: nat, used: bool) {
    function End(): nat { addr + size }
  }

  datatype Heap = Heap(lo: nat, hi: nat, chunks: seq<Chunk>, free: seq<nat>)

  // -- request size ---------------------------------------------------------

  predicate Aligned(n: nat) { n % 4 == 0 }   // a multiple of W

  function AlignDown(n: nat): nat { n - n % 4 }

  /** ALIGN_FW in 32-bit arithmetic. */
  function AlignUp(n: nat): nat { AlignDown((n + (W - 1)) % MODULUS) }

  /** The chunk size ffs_alloc looks for: header and tail added, at least HEADER_SIZE, aligned. */
  function ChunkSize(request: nat): nat {
    var size := (request + 2 * W) % MODULUS;
    AlignUp(if size < HEADER_SIZE then HEADER_SIZE else size)
  }

  // The rounded size leaves room for the request exactly when adding tags and alignment does not
  // wrap around; it degenerates to zero exactly when only the alignment wraps.
  lemma ChunkSizeFits(request: nat)
    requires request < MODULUS
    ensures Aligned(ChunkSize(request))
    ensures ChunkSize(request) >= request + 2 * W <==> request + 3 * W - 1 < MODULUS
    ensures ChunkSize(request) == 0 <==> request + 2 * W < MODULUS <= request + 3 * W - 1
    ensures ChunkSize(request) != 0 ==> ChunkSize(request) >= HEADER_SIZE
    ensures request + 3 * W - 1 < MODULUS ==> ChunkSize(request) < HEADER_SIZE + request + 2 * W
  {
    hide AlignUp, Aligned;
    var size := (request + 2 * W) % MODULUS;
    AlignUpFacts(if size < HEADER_SIZE then HEADER_SIZE else size);
  }

  lemma AlignUpFacts(n: nat)
    requires n < MODULUS
    ensures Aligned(AlignUp(n))
    ensures if n + W - 1 < MODULUS then n <= AlignUp(n) < n + W else AlignUp(n) == 0
    ensures n >= HEADER_SIZE && n + W - 1 < MODULUS ==> AlignUp(n) >= HEADER_SIZE
  {
  }

  // -- tilings --------------------------------------------------------------

  function Total(cs: seq<Chunk>): nat {
    if cs == [] then 0 else cs[0].size + Total(cs[1..])
  }

  predicate ChunkOk(c: Chunk) {
    c.size >= HEADER_SIZE && Aligned(c.size)
  }

  /** The chunks of `cs` cover [lo, hi) in order, without gap or overlap. */
  ghost predicate Tiles(cs: seq<Chunk>, lo: nat, hi: nat) {
    && (cs == [] ==> lo == hi)
    && (cs != [] ==> cs[0].addr == lo && cs[|cs| - 1].End() == hi)
    && (forall i :: 0 <= i < |cs| ==> ChunkOk(cs[i]))
    && (forall i, j :: 0 <= i < j < |cs| && j == i + 1 ==> cs[i].End() == cs[j].addr)
  }

  /** No two neighbours are both free. */
  ghost predicate Coalesced(cs: seq<Chunk>) {
    forall i, j :: 0 <= i < j < |cs| && j == i + 1 ==> cs[i].used || cs[j].used
  }

  ghost function FreeAddrs(cs: seq<Chunk>): set<nat> {
    set c | c in cs && !c.used :: c.addr
  }

  ghost function Used(cs: seq<Chunk>): set<Chunk> {
    set c | c in cs && c.used
  }

  ghost predicate Wf(h: Heap) {
    && Aligned(h.lo) && W <= h.lo <= h.hi
    && h.chunks != []
    && Tiles(h.chunks, h.lo, h.hi)
    && Coalesced(h.chunks)
    && Distinct(h.free) && Elems(h.free) == FreeAddrs(h.chunks)
  }

  lemma WfParts(h: Heap)
    requires Wf(h)
    ensures Tiles(h.chunks, h.lo, h.hi) && Distinct(h.free)
  {
  }

  lemma TilesJoin(a: seq<Chunk>, b: seq<Chunk>, lo: nat, mid: nat, hi: nat)
    requires Tiles(a, lo, mid) && Tiles(b, mid, hi)
    ensures Tiles(a + b, lo, hi)
  {
    var cs := a + b;
    forall i, j | 0 <= i < j < |cs| && j == i + 1 ensures cs[i].End() == cs[j].addr {
      if j < |a| {
        assert a[i].End() == a[j].addr;
      } else if i >= |a| {
        assert b[i - |a|].End() == b[j - |a|].addr;
      }
    }
  }

  lemma TilesSplit(a: seq<Chunk>, b: seq<Chunk>, lo: nat, hi: nat) returns (mid: nat)
    requires Tiles(a + b, lo, hi)
    ensures Tiles(a, lo, mid) && Tiles(b, mid, hi)
  {
    var cs := a + b;
    mid := if a == [] then lo else a[|a| - 1].End();
    assert forall i :: 0 <= i < |a| ==> a[i] == cs[i];
    assert forall i :: 0 <= i < |b| ==> b[i] == cs[|a| + i];
    assert a != [] && b != [] ==> cs[|a| - 1].End() == cs[|a|].addr;
  }

  lemma {:induction false} TilesOrdered(cs: seq<Chunk>, lo: nat, hi: nat, i: nat, j: nat)
    requires Tiles(cs, lo, hi) && i < j < |cs|
    ensures cs[i].End() <= cs[j].addr && (Aligned(cs[i].addr) ==> Aligned(cs[j].addr))
    decreases j
  {
    assert cs[j - 1].End() == cs[j].addr && ChunkOk(cs[j - 1]);
    if i < j - 1 {
      TilesOrdered(cs, lo, hi, i, j - 1);
    }
  }

  lemma TilesBounds(cs: seq<Chunk>, lo: nat, hi: nat)
    requires Tiles(cs, lo, hi)
    ensures forall c :: c in cs ==> lo <= c.addr && c.End() <= hi && ChunkOk(c) && (Aligned(lo) ==> Aligned(c.addr))
  {
    forall c | c in cs
      ensures lo <= c.addr && c.End() <= hi && ChunkOk(c) && (Aligned(lo) ==> Aligned(c.addr))
    {
      var i :| 0 <= i < |cs| && cs[i] == c;
      if i > 0 { TilesOrdered(cs, lo, hi, 0, i); }
      if i < |cs| - 1 { TilesOrdered(cs, lo, hi, i, |cs| - 1); }
    }
  }

  lemma {:induction false} TilesTotal(cs: seq<Chunk>, lo: nat, hi: nat)
    requires Tiles(cs, lo, hi)
    ensures hi == lo + Total(cs)
    decreases |cs|
  {
    if cs != [] {
      assert cs == [cs[0]] + cs[1..];
      var mid := TilesSplit([cs[0]], cs[1..], lo, hi);
      TilesTotal(cs[1..], mid, hi);
    }
  }

  lemma CoalescedParts(a: seq<Chunk>, b: seq<Chunk>)
    requires Coalesced(a + b)
    ensures Coalesced(a) && Coalesced(b) && (a != [] && b != [] ==> a[|a| - 1].used || b[0].used)
  {
    var cs := a + b;
    forall i, j | 0 <= i < j < |a| && j == i + 1 ensures a[i].used || a[j].used {
      assert cs[i].used || cs[j].used;
    }
    forall i, j | 0 <= i < j < |b| && j == i + 1 ensures b[i].used || b[j].used {
      assert cs[|a| + i].used || cs[|a| + j].used;
    }
    assert a != [] && b != [] ==> cs[|a| - 1].used || cs[|a|].used;
  }

  lemma CoalescedConcat(a: seq<Chunk>, b: seq<Chunk>)
    requires Coalesced(a) && Coalesced(b) && (a != [] && b != [] ==> a[|a| - 1].used || b[0].used)
    ensures Coalesced(a + b)
  {
    var cs := a + b;
    forall i, j | 0 <= i < j < |cs| && j == i + 1 ensures cs[i].used || cs[j].used {
      if j < |a| {
        assert a[i].used || a[j].used;
      } else if i >= |a| {
        assert b[i - |a|].used || b[j - |a|].used;
      }
    }
  }

  // Any two different chunks of a tiling have disjoint extents.
  lemma TilesDisjoint(cs: seq<Chunk>, lo: nat, hi: nat, c: Chunk, d: Chunk)
    requires Tiles(cs, lo, hi) && c in cs && d in cs && c != d
    ensures c.End() <= d.addr || d.End() <= c.addr
  {
    var i :| 0 <= i < |cs| && cs[i] == c;
    var j :| 0 <= j < |cs| && cs[j] == d;
    if i < j { TilesOrdered(cs, lo, hi, i, j); } else { TilesOrdered(cs, lo, hi, j, i); }
  }

  // -- looking up a chunk ---------------------------------------------------

  /** Position of the chunk at address x, or the length if there is none. */
  function Locate(cs: seq<Chunk>, x: nat): (i: nat)
    ensures i <= |cs|
    ensures i < |cs| ==> cs[i].addr == x
    ensures forall j :: 0 <= j < i ==> cs[j].addr != x
  {
    if cs == [] || cs[0].addr == x then 0 else 1 + Locate(cs[1..], x)
  }

  // In a tiling, a chunk is found where it is.
  lemma LocateAt(a: seq<Chunk>, c: Chunk, b: seq<Chunk>, lo: nat, hi: nat)
    requires Tiles(a + ([c] + b), lo, hi)
    ensures Locate(a + ([c] + b), c.addr) == |a|
  {
    var cs := a + ([c] + b);
    var mid := TilesSplit(a, [c] + b, lo, hi);
    TilesBounds(a, lo, mid);
    var i := Locate(cs, c.addr);
    assert cs[|a|] == c;
    assert forall j :: 0 <= j < |a| ==> cs[j] == a[j] && a[j] in a;
  }

  /** The chunks before, at and behind position i. */
  lemma SplitAt(cs: seq<Chunk>, i: nat) returns (a: seq<Chunk>, b: seq<Chunk>)
    requires i < |cs|
    ensures cs == a + ([cs[i]] + b) && |a| == i && a == cs[..i] && b == cs[i + 1..]
  {
    a, b := cs[..i], cs[i + 1..];
  }

  function SizeAt(cs: seq<Chunk>, x: nat): nat {
    var i := Locate(cs, x);
    if i < |cs| then cs[i].size else 0
  }

  // -- operations -----------------------------------------------------------

  /** ffs_init, given the aligned arena between the borders. */
  function Init(lo: nat, hi: nat): Heap
    requires lo <= hi
  {
    Heap(lo, hi, [Chunk(lo, hi - lo, false)], [lo])
  }

  /** Position in the free list of the first chunk of at least n bytes, from position k on. */
  function FirstFitting(h: Heap, n: nat, k: nat): (r: nat)
    requires k <= |h.free|
    ensures k <= r <= |h.free|
    ensures forall j :: k <= j < r ==> SizeAt(h.chunks, h.free[j]) < n
    ensures r < |h.free| ==> SizeAt(h.chunks, h.free[r]) >= n
    decreases |h.free| - k
  {
    if k < |h.free| && SizeAt(h.chunks, h.free[k]) < n then FirstFitting(h, n, k + 1) else k
  }

  datatype AllocResult = AllocResult(heap: Heap, block: Option<nat>)

  /** Take n bytes from the free chunk c between a and b: its top if enough is left, else all. */
  function Carve(h: Heap, a: seq<Chunk>, c: Chunk, b: seq<Chunk>, n: nat): AllocResult
    requires n <= c.size
  {
    if c.size >= n + HEADER_SIZE then
      var rest, top := Chunk(c.addr, c.size - n, false), Chunk(c.End() - n, n, true);
      AllocResult(h.(chunks := a + ([rest, top] + b)), Some(top.addr + W))
    else
      AllocResult(h.(chunks := a + ([c.(used := true)] + b), free := Without(h.free, c.addr)), Some(c.addr + W))
  }

  /** ffs_alloc for a chunk of n bytes.  With a free chunk in the list and n = 0 the source writes
      outside that chunk, and there is no heap any more. */
  function Alloc(h: Heap, n: nat): AllocResult
    requires n > 0 || h.free == []
  {
    var k := FirstFitting(h, n, 0);
    if k == |h.free| then AllocResult(h, None)
    else
      var i := Locate(h.chunks, h.free[k]);
      Carve(h, h.chunks[..i], h.chunks[i], h.chunks[i + 1..], n)
  }

  /** The free neighbour on the left of a gap that `a` ends at, as a sequence of at most one, and
      the chunks before it. */
  function FreeLast(a: seq<Chunk>): (m: seq<Chunk>)
    ensures |m| <= 1
  {
    if a != [] && !a[|a| - 1].used then [a[|a| - 1]] else []
  }

  function ButFreeLast(a: seq<Chunk>): (r: seq<Chunk>)
    ensures r + FreeLast(a) == a
  {
    if a != [] && !a[|a| - 1].used then a[..|a| - 1] else a
  }

  function FreeFirst(b: seq<Chunk>): (m: seq<Chunk>)
    ensures |m| <= 1
  {
    if b != [] && !b[0].used then [b[0]] else []
  }

  function ButFreeFirst(b: seq<Chunk>): (r: seq<Chunk>)
    ensures FreeFirst(b) + r == b
  {
    if b != [] && !b[0].used then b[1..] else b
  }

  function Delist(free: seq<nat>, m: seq<Chunk>): seq<nat>
    requires |m| <= 1
  {
    if m == [] then free else Without(free, m[0].addr)
  }

  /** c and its free neighbours as one free chunk. */
  function Joined(a: seq<Chunk>, c: Chunk, b: seq<Chunk>): Chunk {
    var l, r := FreeLast(a), FreeFirst(b);
    Chunk(if l == [] then c.addr else l[0].addr, Total(l) + c.size + Total(r), false)
  }

  /** Join c, which becomes free, with free neighbours; the joined chunk heads the free list. */
  function Join(h: Heap, a: seq<Chunk>, c: Chunk, b: seq<Chunk>): Heap {
    h.(chunks := ButFreeLast(a) + ([Joined(a, c, b)] + ButFreeFirst(b)),
       free := [Joined(a, c, b).addr] + Delist(Delist(h.free, FreeLast(a)), FreeFirst(b)))
  }

  /** `block` is a block handed out and not freed yet. */
  predicate Live(h: Heap, block: nat) {
    block >= W && var i := Locate(h.chunks, block - W); i < |h.chunks| && h.chunks[i].used
  }

  /** ffs_free */
  function Free(h: Heap, block: nat): Heap
    requires Live(h, block)
  {
    var i := Locate(h.chunks, block - W);
    Join(h, h.chunks[..i], h.chunks[i], h.chunks[i + 1..])
  }

  // -- one step -------------------------------------------------------------

  ghost predicate SizeOk(n: nat) {
    n >= HEADER_SIZE && Aligned(n)
  }

  // An address in the free list is the address of a free chunk, and conversely.
  lemma FreeListed(h: Heap, x: nat)
    requires Wf(h) && x in h.free
    ensures Locate(h.chunks, x) < |h.chunks| && !h.chunks[Locate(h.chunks, x)].used
  {
    assert x in FreeAddrs(h.chunks);
    var c :| c in h.chunks && !c.used && c.addr == x;
    var i := Locate(h.chunks, x);
    var j :| 0 <= j < |h.chunks| && h.chunks[j] == c;
    assert h.chunks[i] in h.chunks;
    if h.chunks[i] != c {
      TilesBounds(h.chunks, h.lo, h.hi);
      TilesDisjoint(h.chunks, h.lo, h.hi, h.chunks[i], c);
    }
  }

  // A chunk is found by its address.
  lemma ChunkFound(h: Heap, c: Chunk) returns (a: seq<Chunk>, b: seq<Chunk>)
    requires Tiles(h.chunks, h.lo, h.hi) && c in h.chunks
    ensures h.chunks == a + ([c] + b)
    ensures var i := Locate(h.chunks, c.addr);
            i == |a| && h.chunks[i] == c && a == h.chunks[..i] && b == h.chunks[i + 1..]
  {
    var i :| 0 <= i < |h.chunks| && h.chunks[i] == c;
    a, b := SplitAt(h.chunks, i);
    LocateAt(a, c, b, h.lo, h.hi);
  }

  lemma SetsConcat(a: seq<Chunk>, b: seq<Chunk>)
    ensures FreeAddrs(a + b) == FreeAddrs(a) + FreeAddrs(b)
    ensures Used(a + b) == Used(a) + Used(b)
  {
  }

  // Where the middle of a tiling lies.
  lemma MiddleBounds(a: seq<Chunk>, m: seq<Chunk>, b: seq<Chunk>, lo: nat, hi: nat) returns (start: nat, end: nat)
    requires Tiles(a + (m + b), lo, hi)
    ensures Tiles(a, lo, start) && Tiles(m, start, end) && Tiles(b, end, hi)
    ensures forall d :: d in a ==> d.End() <= start
    ensures forall d :: d in b ==> end <= d.addr
    ensures a != [] ==> a[|a| - 1].End() == start
    ensures b != [] ==> b[0].addr == end
  {
    hide Coalesced;
    start := TilesSplit(a, m + b, lo, hi);
    end := TilesSplit(m, b, start, hi);
    TilesBounds(a, lo, start);
    TilesBounds(b, end, hi);
  }

  // Replacing the middle of a tiling by another tiling of the same extent.
  lemma TilesReplace(a: seq<Chunk>, m: seq<Chunk>, b: seq<Chunk>, lo: nat, start: nat, end: nat, hi: nat)
    requires Tiles(a, lo, start) && Tiles(m, start, end) && Tiles(b, end, hi)
    ensures Tiles(a + (m + b), lo, hi)
  {
    hide Tiles;
    TilesJoin(m, b, start, end, hi);
    TilesJoin(a, m + b, lo, start, hi);
  }

  lemma TilesOne(c: Chunk, lo: nat, hi: nat)
    ensures Tiles([c], lo, hi) <==> ChunkOk(c) && c.addr == lo && c.End() == hi
  {
    assert [c][1..] == [];
  }

  lemma TilesTwo(c: Chunk, d: Chunk)
    requires ChunkOk(c) && ChunkOk(d) && d.addr == c.End()
    ensures Tiles([c, d], c.addr, d.End())
  {
    assert [c, d] == [c] + [d];
    TilesOne(c, c.addr, c.End());
    TilesOne(d, d.addr, d.End());
    TilesJoin([c], [d], c.addr, d.addr, d.End());
  }

  // How the abstract heap changes when the chunks m between a and b are replaced by m'.
  lemma Replaced(a: seq<Chunk>, m: seq<Chunk>, m': seq<Chunk>, b: seq<Chunk>, lo: nat, hi: nat)
    returns (start: nat, end: nat)
    requires Tiles(a + (m + b), lo, hi)
    ensures Tiles(m, start, end)
    ensures Tiles(m', start, end) ==> Tiles(a + (m' + b), lo, hi)
    ensures FreeAddrs(a + (m + b)) == FreeAddrs(a) + FreeAddrs(m) + FreeAddrs(b)
    ensures FreeAddrs(a + (m' + b)) == FreeAddrs(a) + FreeAddrs(m') + FreeAddrs(b)
    ensures Used(a + (m + b)) == Used(a) + Used(m) + Used(b)
    ensures Used(a + (m' + b)) == Used(a) + Used(m') + Used(b)
    ensures forall x :: x in FreeAddrs(a) ==> x < start
    ensures forall x :: x in FreeAddrs(b) ==> end <= x
    ensures forall d :: d in Used(a) ==> d.End() <= start
    ensures forall d :: d in Used(b) ==> end <= d.addr
  {
    hide Tiles, Coalesced;
    start, end := MiddleBounds(a, m, b, lo, hi);
    if Tiles(m', start, end) {
      TilesReplace(a, m', b, lo, start, end, hi);
    }
    SetsConcat(a, m + b);
    SetsConcat(m, b);
    SetsConcat(a, m' + b);
    SetsConcat(m', b);
    TilesBounds(a, lo, start);
  }

  lemma CoalescedReplace(a: seq<Chunk>, m: seq<Chunk>, m': seq<Chunk>, b: seq<Chunk>)
    requires Coalesced(a + (m + b)) && m != [] && Coalesced(m') && m' != []
    requires a != [] && !a[|a| - 1].used ==> !m[0].used || m'[0].used
    requires b != [] && !b[0].used ==> !m[|m| - 1].used || m'[|m'| - 1].used
    ensures Coalesced(a + (m' + b))
  {
    hide Coalesced;
    CoalescedParts(a, m + b);
    CoalescedParts(m, b);
    CoalescedConcat(m', b);
    CoalescedConcat(a, m' + b);
  }
  lemma CoalescedOne(c: Chunk)
    ensures Coalesced([c])
  {
  }

  lemma CoalescedTwo(c: Chunk, d: Chunk)
    requires c.used || d.used
    ensures Coalesced([c, d])
  {
  }

  lemma SplitKeeps(a: seq<Chunk>, c: Chunk, b: seq<Chunk>, n: nat, lo: nat, hi: nat)
    requires Tiles(a + ([c] + b), lo, hi) && Coalesced(a + ([c] + b))
    requires !c.used && SizeOk(n) && c.size >= n + HEADER_SIZE
    ensures var rest, top := Chunk(c.addr, c.size - n, false), Chunk(c.End() - n, n, true);
            var cs := a + ([rest, top] + b);
            && Tiles(cs, lo, hi) && Coalesced(cs)
            && FreeAddrs(cs) == FreeAddrs(a + ([c] + b))
            && top !in Used(a + ([c] + b)) && Used(cs) == Used(a + ([c] + b)) + {top}
  {
    hide Tiles, Coalesced;
    var rest, top := Chunk(c.addr, c.size - n, false), Chunk(c.End() - n, n, true);
    var start, end := Replaced(a, [c], [rest, top], b, lo, hi);
    TilesOne(c, start, end);
    assert ChunkOk(rest) && ChunkOk(top);
    TilesTwo(rest, top);
    CoalescedTwo(rest, top);
    CoalescedReplace(a, [c], [rest, top], b);
    assert FreeAddrs([rest, top]) == {c.addr} == FreeAddrs([c]) by { assert c in [c] && rest in [rest, top]; }
    assert Used([rest, top]) == {top} && Used([c]) == {};
  }

  lemma WholeKeeps(a: seq<Chunk>, c: Chunk, b: seq<Chunk>, lo: nat, hi: nat)
    requires Tiles(a + ([c] + b), lo, hi) && Coalesced(a + ([c] + b)) && !c.used
    ensures var u := c.(used := true);
            var cs := a + ([u] + b);
            && Tiles(cs, lo, hi) && Coalesced(cs)
            && FreeAddrs(cs) == FreeAddrs(a + ([c] + b)) - {c.addr}
            && u !in Used(a + ([c] + b)) && Used(cs) == Used(a + ([c] + b)) + {u}
  {
    hide Tiles, Coalesced;
    var u := c.(used := true);
    var start, end := Replaced(a, [c], [u], b, lo, hi);
    TilesOne(c, start, end);
    TilesOne(u, start, end);
    CoalescedOne(u);
    CoalescedReplace(a, [c], [u], b);
    assert FreeAddrs([u]) == {} && FreeAddrs([c]) == {c.addr} by { assert c in [c]; }
    assert Used([u]) == {u} && Used([c]) == {};
  }

  /** The chunk that serves a request of n bytes from the free chunk c. */
  function Served(c: Chunk, n: nat): Chunk
    requires n <= c.size
  {
    if c.size >= n + HEADER_SIZE then Chunk(c.End() - n, n, true) else c.(used := true)
  }

  lemma CarveKeepsWf(h: Heap, a: seq<Chunk>, c: Chunk, b: seq<Chunk>, n: nat)
    requires Wf(h) && SizeOk(n)
    requires h.chunks == a + ([c] + b) && !c.used && n <= c.size
    ensures var r := Carve(h, a, c, b, n);
            && Wf(r.heap) && r.heap.lo == h.lo && r.heap.hi == h.hi && r.block == Some(Served(c, n).addr + W)
            && Served(c, n) !in Used(h.chunks) && Used(r.heap.chunks) == Used(h.chunks) + {Served(c, n)}
  {
    hide Tiles, Coalesced, FreeAddrs, Used, Without;
    if c.size >= n + HEADER_SIZE {
      SplitKeeps(a, c, b, n, h.lo, h.hi);
    } else {
      WholeKeeps(a, c, b, h.lo, h.hi);
      WithoutDistinct(h.free, c.addr);
    }
  }

  /** ffs_alloc served n bytes of heap h from the chunk c at position k of the free list. */
  ghost predicate ServedFrom(h: Heap, n: nat, r: AllocResult, k: nat, c: Chunk) {
    && k < |h.free| && c in h.chunks && !c.used && c.addr == h.free[k] && n <= c.size
    && (forall j :: 0 <= j < k ==> SizeAt(h.chunks, h.free[j]) < n)
    && r.block == Some(Served(c, n).addr + W)
    && Served(c, n) !in Used(h.chunks) && Used(r.heap.chunks) == Used(h.chunks) + {Served(c, n)}
    && n <= Served(c, n).size < n + HEADER_SIZE
  }

  // What ffs_alloc promises: it fails, changing nothing, exactly when no free chunk is large
  // enough; else it serves the request from the first free chunk in list order that is.
  lemma AllocOutcome(h: Heap, n: nat)
    requires Wf(h) && SizeOk(n)
    ensures var r := Alloc(h, n);
            && Wf(r.heap) && r.heap.lo == h.lo && r.heap.hi == h.hi
            && (r.block == None <==> forall c :: c in h.chunks && !c.used ==> c.size < n)
            && (r.block == None ==> r.heap == h)
            && (r.block != None ==> exists k, c :: ServedFrom(h, n, r, k, c))
  {
    hide Wf, Locate, Served, Used, SizeAt, ServedFrom;
    if FirstFitting(h, n, 0) == |h.free| {
      forall c | c in h.chunks && !c.used ensures c.size < n {
        FreeIsListed(h, c);
      }
    } else {
      AllocServes(h, n);
    }
  }

  lemma AllocServes(h: Heap, n: nat)
    requires Wf(h) && SizeOk(n) && FirstFitting(h, n, 0) < |h.free|
    ensures var r := Alloc(h, n);
            && Wf(r.heap) && r.heap.lo == h.lo && r.heap.hi == h.hi && r.block.Some?
            && (exists c :: c in h.chunks && !c.used && c.size >= n)
            && exists k, c :: ServedFrom(h, n, r, k, c)
  {
    hide Wf, Carve, Used, SizeAt, Locate, Alloc;
    var k := FirstFitting(h, n, 0);
    var a, c, b := AllocCarves(h, n);
    CarveKeepsWf(h, a, c, b, n);
    assert c in h.chunks;
    assert ServedFrom(h, n, Alloc(h, n), k, c);
  }

  lemma AllocFails(h: Heap, n: nat)
    requires FirstFitting(h, n, 0) == |h.free|
    ensures n > 0 || h.free == []
    ensures Alloc(h, n) == AllocResult(h, None)
  {
  }

  lemma AllocCarves(h: Heap, n: nat) returns (a: seq<Chunk>, c: Chunk, b: seq<Chunk>)
    requires Wf(h) && n > 0 && FirstFitting(h, n, 0) < |h.free|
    ensures h.chunks == a + ([c] + b) && !c.used && c.size >= n && c.addr == h.free[FirstFitting(h, n, 0)]
    ensures SizeAt(h.chunks, c.addr) == c.size
    ensures Alloc(h, n) == Carve(h, a, c, b, n)
  {
    hide Wf, Carve;
    var k := FirstFitting(h, n, 0);
    FreeListed(h, h.free[k]);
    var i := Locate(h.chunks, h.free[k]);
    c := h.chunks[i];
    a, b := SplitAt(h.chunks, i);
  }

  lemma FreeIsListed(h: Heap, c: Chunk)
    requires Wf(h) && c in h.chunks && !c.used
    ensures c.addr in h.free && SizeAt(h.chunks, c.addr) == c.size
  {
    var a, b := ChunkFound(h, c);
    assert c.addr in Elems(h.free);
  }

  // The tiling, with c and its free neighbours as the middle.
  lemma AroundJoined(a: seq<Chunk>, c: Chunk, b: seq<Chunk>)
    ensures a + ([c] + b) == ButFreeLast(a) + ((FreeLast(a) + ([c] + FreeFirst(b))) + ButFreeFirst(b))
  {
    hide Tiles, Coalesced, ButFreeLast, ButFreeFirst, FreeLast, FreeFirst;
    calc {
      a + ([c] + b);
      (ButFreeLast(a) + FreeLast(a)) + ([c] + (FreeFirst(b) + ButFreeFirst(b)));
      ButFreeLast(a) + ((FreeLast(a) + ([c] + FreeFirst(b))) + ButFreeFirst(b));
    }
  }

  lemma TilesShort(m: seq<Chunk>, lo: nat, hi: nat)
    requires Tiles(m, lo, hi) && |m| <= 1
    ensures hi == lo + Total(m) && Aligned(Total(m)) && (m != [] ==> m[0].addr == lo)
  {
    if m != [] {
      assert m[1..] == [];
    }
  }

  lemma JoinedTiles(a: seq<Chunk>, c: Chunk, b: seq<Chunk>, start: nat, end: nat)
    requires Tiles(FreeLast(a) + ([c] + FreeFirst(b)), start, end)
    ensures Tiles([Joined(a, c, b)], start, end)
  {
    hide Tiles, Total, FreeLast, FreeFirst;
    var l, r := FreeLast(a), FreeFirst(b);
    var x := TilesSplit(l, [c] + r, start, end);
    var y := TilesSplit([c], r, x, end);
    TilesShort(l, start, x);
    TilesOne(c, x, y);
    TilesShort(r, y, end);
    TilesOne(Joined(a, c, b), start, end);
  }

  lemma JoinedCoalesced(a: seq<Chunk>, c: Chunk, b: seq<Chunk>)
    requires Coalesced(a + ([c] + b)) && c.used
    ensures Coalesced(ButFreeLast(a) + ([Joined(a, c, b)] + ButFreeFirst(b)))
  {
    hide Coalesced;
    var a', b', j := ButFreeLast(a), ButFreeFirst(b), Joined(a, c, b);
    CoalescedParts(a, [c] + b);
    CoalescedParts([c], b);
    CoalescedParts(a', FreeLast(a));
    CoalescedParts(FreeFirst(b), b');
    CoalescedOne(j);
    CoalescedConcat([j], b');
    CoalescedConcat(a', [j] + b');
  }

  lemma DelistKeeps(free: seq<nat>, m: seq<Chunk>)
    requires Distinct(free) && |m| <= 1
    requires m == FreeLast(m)
    ensures Distinct(Delist(free, m)) && Elems(Delist(free, m)) == Elems(free) - FreeAddrs(m)
  {
    if m != [] {
      WithoutDistinct(free, m[0].addr);
      assert FreeAddrs(m) == {m[0].addr} by { assert m[0] in m; }
    }
  }

  lemma JoinTiles(a: seq<Chunk>, c: Chunk, b: seq<Chunk>, lo: nat, hi: nat)
    requires Tiles(a + ([c] + b), lo, hi) && Coalesced(a + ([c] + b)) && c.used
    ensures var cs := ButFreeLast(a) + ([Joined(a, c, b)] + ButFreeFirst(b)); Tiles(cs, lo, hi) && Coalesced(cs)
  {
    hide Tiles, Coalesced, ButFreeLast, ButFreeFirst, FreeLast, FreeFirst, Joined;
    AroundJoined(a, c, b);
    var start, end := MiddleBounds(ButFreeLast(a), FreeLast(a) + ([c] + FreeFirst(b)), ButFreeFirst(b), lo, hi);
    JoinedTiles(a, c, b, start, end);
    TilesReplace(ButFreeLast(a), [Joined(a, c, b)], ButFreeFirst(b), lo, start, end, hi);
    JoinedCoalesced(a, c, b);
  }

  lemma JoinSets(a: seq<Chunk>, l: seq<Chunk>, c: Chunk, r: seq<Chunk>, b: seq<Chunk>, j: Chunk, lo: nat, hi: nat)
    requires Tiles(a + ((l + ([c] + r)) + b), lo, hi) && c.used && |l| <= 1 && |r| <= 1
    requires (forall d :: d in l ==> !d.used) && (forall d :: d in r ==> !d.used)
    requires !j.used && j.addr == if l == [] then c.addr else l[0].addr
    ensures var before, after := a + ((l + ([c] + r)) + b), a + ([j] + b);
            && FreeAddrs(after) == FreeAddrs(before) - FreeAddrs(l) - FreeAddrs(r) + {j.addr}
            && j.addr !in FreeAddrs(before) - FreeAddrs(l) - FreeAddrs(r)
            && Used(after) == Used(before) - {c}
  {
    hide Coalesced;
    var m := l + ([c] + r);
    var start, end := Replaced(a, m, [j], b, lo, hi);
    MiddleSets(l, c, r, start, end);
    assert FreeAddrs([j]) == {start} && Used([j]) == {} by {
      assert j in [j];
    }
    assert FreeAddrs(a) !! FreeAddrs(m) && FreeAddrs(b) !! FreeAddrs(m);
  }

  lemma JoinKeepsWf(h: Heap, a: seq<Chunk>, c: Chunk, b: seq<Chunk>)
    requires Wf(h) && h.chunks == a + ([c] + b) && c.used
    ensures Wf(Join(h, a, c, b)) && Used(Join(h, a, c, b).chunks) == Used(h.chunks) - {c}
  {
    hide Tiles, Coalesced, FreeAddrs, Used, Without, Delist, ButFreeLast, ButFreeFirst;
    JoinTiles(a, c, b, h.lo, h.hi);
    AroundJoined(a, c, b);
    JoinSets(ButFreeLast(a), FreeLast(a), c, FreeFirst(b), ButFreeFirst(b), Joined(a, c, b), h.lo, h.hi);
    var l, r, start := FreeLast(a), FreeFirst(b), Joined(a, c, b).addr;
    DelistKeeps(h.free, l);
    DelistKeeps(Delist(h.free, l), r);
    var f := Delist(Delist(h.free, l), r);
    assert start !in f by { assert start !in Elems(f); }
    assert Elems([start] + f) == {start} + Elems(f);
  }

  lemma MiddleSets(l: seq<Chunk>, c: Chunk, r: seq<Chunk>, start: nat, end: nat)
    requires Tiles(l + ([c] + r), start, end) && c.used && |l| <= 1 && |r| <= 1
    requires (forall d :: d in l ==> !d.used) && (forall d :: d in r ==> !d.used)
    ensures Used(l + ([c] + r)) == {c} && start <= c.addr && c.End() <= end
    ensures FreeAddrs(l + ([c] + r)) == FreeAddrs(l) + FreeAddrs(r)
    ensures l == [] ==> start == c.addr
    ensures l != [] ==> start == l[0].addr
    ensures forall x :: x in FreeAddrs(l) + FreeAddrs(r) ==> start <= x < end
    ensures forall x :: x in FreeAddrs(r) ==> start < x
  {
    SetsConcat(l, [c] + r);
    SetsConcat([c], r);
    var x := TilesSplit(l, [c] + r, start, end);
    var y := TilesSplit([c], r, x, end);
    TilesBounds(l, start, x);
    TilesOne(c, x, y);
    TilesBounds(r, y, end);
    assert Used([c]) == {c} && FreeAddrs([c]) == {};
    assert l != [] ==> l[0] in l;
  }

  /** u is the chunk of a new block for the request: inside the arena, large enough, and apart from
      all chunks that were in use, which stay in use. */
  ghost predicate NewBlock(h: Heap, h': Heap, request: nat, u: Chunk) {
    && u in Used(h'.chunks) && h.lo <= u.addr && u.End() <= h.hi
    && u.addr + W + request <= u.End() - W
    && forall d :: d in Used(h.chunks) ==> d in Used(h'.chunks) && (d.End() <= u.addr || u.End() <= d.addr)
  }

  // A block that ffs_alloc returns holds the request, and overlaps no live block, if and only if
  // adding tags and alignment to the request does not wrap around.
  lemma BlockHoldsRequestIff(h: Heap, request: nat)
    requires Wf(h) && request < MODULUS && ChunkSize(request) != 0 && Alloc(h, ChunkSize(request)).block.Some?
    ensures var r := Alloc(h, ChunkSize(request));
            (exists u: Chunk :: r.block == Some(u.addr + W) && NewBlock(h, r.heap, request, u))
            <==> request + 3 * W - 1 < MODULUS
  {
    hide Wf, Alloc, NewBlock;
    if request + 3 * W - 1 < MODULUS {
      BlockHoldsRequest(h, request);
    } else {
      var r := Alloc(h, ChunkSize(request));
      forall u: Chunk | r.block == Some(u.addr + W) ensures !NewBlock(h, r.heap, request, u) {
        WrappedBlock(h, request, u);
      }
    }
  }

  // A request whose tags wrap around gets a chunk of less than 32 bytes.
  lemma WrappedBlock(h: Heap, request: nat, u: Chunk)
    requires Wf(h) && request < MODULUS <= request + 3 * W - 1 && ChunkSize(request) != 0
    requires Alloc(h, ChunkSize(request)).block == Some(u.addr + W)
    ensures var r := Alloc(h, ChunkSize(request)).heap; u in Used(r.chunks) ==> u.size < 2 * HEADER_SIZE
    ensures !NewBlock(h, Alloc(h, ChunkSize(request)).heap, request, u)
  {
    hide Wf, Alloc, Tiles, Coalesced, SizeAt;
    ChunkSizeFits(request);
    var n := ChunkSize(request);
    assert n == HEADER_SIZE;
    AllocOutcome(h, n);
    var r := Alloc(h, n);
    var k, c :| ServedFrom(h, n, r, k, c);
    if u in Used(r.heap.chunks) {
      SameAddrSameChunk(r.heap, u, Served(c, n));
    }
  }

  lemma BlockHoldsRequest(h: Heap, request: nat)
    requires Wf(h) && request + 3 * W - 1 < MODULUS && ChunkSize(request) != 0
             && Alloc(h, ChunkSize(request)).block.Some?
    ensures var r := Alloc(h, ChunkSize(request));
            exists u: Chunk :: r.block == Some(u.addr + W) && NewBlock(h, r.heap, request, u)
  {
    hide Wf, Alloc, Tiles, Coalesced, Served, SizeAt;
    ChunkSizeFits(request);
    var n := ChunkSize(request);
    AllocOutcome(h, n);
    var r := Alloc(h, n);
    var k, c :| ServedFrom(h, n, r, k, c);
    var u := Served(c, n);
    WfParts(r.heap);
    TilesBounds(r.heap.chunks, r.heap.lo, r.heap.hi);
    forall d | d in Used(h.chunks) ensures d in Used(r.heap.chunks) && (d.End() <= u.addr || u.End() <= d.addr) {
      TilesDisjoint(r.heap.chunks, r.heap.lo, r.heap.hi, d, u);
    }
    assert NewBlock(h, r.heap, request, u);
  }

  // An arena of 64 bytes serves a request of 2^32 - 1 bytes; a request of 2^32 - 11 bytes has size 0.
  lemma WrappedRequests(h: Heap, request: nat)
    requires h == Init(12, 76) && request == 0xFFFF_FFFF
    ensures Wf(h) && h.free != [] && ChunkSize(request) == HEADER_SIZE && Alloc(h, ChunkSize(request)).block.Some?
    ensures ChunkSize(request - 10) == 0
  {
    hide Wf, Alloc, ServedFrom, AlignUp;
    InitWf(12, 76);
    WrappedSizes(request);
    AllocOutcome(h, HEADER_SIZE);
    assert h.chunks[0] in h.chunks;
  }

  lemma WrappedSizes(request: nat)
    requires request == 0xFFFF_FFFF
    ensures ChunkSize(request) == HEADER_SIZE && ChunkSize(request - 10) == 0
  {
    hide AlignUp;
    AlignUpFacts(HEADER_SIZE);
    AlignUpFacts(request - 2);
    assert (request + 2 * W) % MODULUS == 7 && (request - 10 + 2 * W) % MODULUS == request - 2;
  }

  // What ffs_free promises: the block is gone, every other live block stays, the heap is well formed.
  lemma FreeOutcome(h: Heap, block: nat)
    requires Wf(h) && Live(h, block)
    ensures Wf(Free(h, block)) && Free(h, block).lo == h.lo && Free(h, block).hi == h.hi
    ensures Used(Free(h, block).chunks) == Used(h.chunks) - {h.chunks[Locate(h.chunks, block - W)]}
  {
    hide Tiles, Coalesced, FreeAddrs, Used, ButFreeLast, ButFreeFirst, FreeLast, FreeFirst, Delist;
    var i := Locate(h.chunks, block - W);
    var a, b := SplitAt(h.chunks, i);
    JoinKeepsWf(h, a, h.chunks[i], b);
  }

  // Where ffs_alloc takes a block: from the end of the first fitting chunk, whose rest keeps its place in
  // the list, or the whole chunk if no chunk would be left over.
  lemma AllocIs(h: Heap, n: nat) returns (k: nat, i: nat)
    requires Wf(h) && SizeOk(n) && Alloc(h, n).block.Some?
    ensures k < |h.free| && i < |h.chunks| && h.chunks[i].addr == h.free[k]
    ensures !h.chunks[i].used && h.chunks[i].size >= n
    ensures forall j, c :: 0 <= j < k && c in h.chunks && c.addr == h.free[j] ==> c.size < n
    ensures var r, c := Alloc(h, n), h.chunks[i];
            if c.size >= n + 16 then
              && r.block == Some(c.addr + c.size - n + 4) && r.heap.free == h.free
              && r.heap.chunks ==
                 h.chunks[..i]
                 + ([Chunk(c.addr, c.size - n, false), Chunk(c.addr + c.size - n, n, true)] + h.chunks[i + 1..])
            else
              && r.block == Some(c.addr + 4) && r.heap.free == Without(h.free, c.addr)
              && r.heap.chunks == h.chunks[..i] + ([Chunk(c.addr, c.size, true)] + h.chunks[i + 1..])
  {
    hide Tiles, Coalesced, Without, Elems, FreeAddrs;
    k := FirstFitting(h, n, 0);
    FreeListed(h, h.free[k]);
    i := Locate(h.chunks, h.free[k]);
    forall j, c | 0 <= j < k && c in h.chunks && c.addr == h.free[j] ensures c.size < n {
      FreeListed(h, h.free[j]);
      SameAddrSameChunk(h, c, h.chunks[Locate(h.chunks, h.free[j])]);
    }
  }

  // What ffs_free makes of a block: one chunk with the free neighbours on both sides, listed first.
  lemma FreeIs(h: Heap, block: nat, i: nat)
    requires Wf(h) && Live(h, block) && i < |h.chunks| && h.chunks[i].addr + 4 == block
    ensures var left, right := i > 0 && !h.chunks[i - 1].used, i + 1 < |h.chunks| && !h.chunks[i + 1].used;
            var addr := if left then h.chunks[i - 1].addr else h.chunks[i].addr;
            var size := (if left then h.chunks[i - 1].size else 0) + h.chunks[i].size
                        + if right then h.chunks[i + 1].size else 0;
            var rest := if left then Without(h.free, h.chunks[i - 1].addr) else h.free;
            && Free(h, block).chunks ==
               (if left then h.chunks[..i - 1] else h.chunks[..i])
               + ([Chunk(addr, size, false)] + (if right then h.chunks[i + 2..] else h.chunks[i + 1..]))
            && Free(h, block).free == [addr] + if right then Without(rest, h.chunks[i + 1].addr) else rest
  {
    hide Wf, Without, Join, Live;
    WfParts(h);
    var a, b := SplitAt(h.chunks, i);
    LocateAt(a, h.chunks[i], b, h.lo, h.hi);
    JoinIs(h, i);
  }

  lemma JoinIs(h: Heap, i: nat)
    requires i < |h.chunks|
    ensures var left, right := i > 0 && !h.chunks[i - 1].used, i + 1 < |h.chunks| && !h.chunks[i + 1].used;
            var addr := if left then h.chunks[i - 1].addr else h.chunks[i].addr;
            var size := (if left then h.chunks[i - 1].size else 0) + h.chunks[i].size
                        + if right then h.chunks[i + 1].size else 0;
            var rest := if left then Without(h.free, h.chunks[i - 1].addr) else h.free;
            var r := Join(h, h.chunks[..i], h.chunks[i], h.chunks[i + 1..]);
            && r.chunks == (if left then h.chunks[..i - 1] else h.chunks[..i])
                           + ([Chunk(addr, size, false)] + (if right then h.chunks[i + 2..] else h.chunks[i + 1..]))
            && r.free == [addr] + if right then Without(rest, h.chunks[i + 1].addr) else rest
  {
    hide FreeLast, ButFreeLast, FreeFirst, ButFreeFirst, Total, Without;
    LeftOf(h.chunks, i);
    RightOf(h.chunks, i);
  }

  lemma LeftOf(cs: seq<Chunk>, i: nat)
    requires i < |cs|
    ensures var a, left := cs[..i], i > 0 && !cs[i - 1].used;
            && FreeLast(a) == (if left then [cs[i - 1]] else [])
            && ButFreeLast(a) == (if left then cs[..i - 1] else cs[..i])
            && Total(FreeLast(a)) == if left then cs[i - 1].size else 0
  {
  }

  lemma RightOf(cs: seq<Chunk>, i: nat)
    requires i < |cs|
    ensures var b, right := cs[i + 1..], i + 1 < |cs| && !cs[i + 1].used;
            && FreeFirst(b) == (if right then [cs[i + 1]] else [])
            && ButFreeFirst(b) == (if right then cs[i + 2..] else cs[i + 1..])
            && Total(FreeFirst(b)) == if right then cs[i + 1].size else 0
  {
  }

  // -- round trip -----------------------------------------------------------

  lemma FreeAt(h: Heap, a: seq<Chunk>, c: Chunk, b: seq<Chunk>)
    requires Tiles(h.chunks, h.lo, h.hi) && h.chunks == a + ([c] + b) && c.used
    ensures Live(h, c.addr + W) && Free(h, c.addr + W) == Join(h, a, c, b)
  {
    LocateAt(a, c, b, h.lo, h.hi);
    assert h.chunks[..|a|] == a && h.chunks[|a|] == c && h.chunks[|a| + 1..] == b;
  }

  lemma JoinAfterSplit(r: Heap, a: seq<Chunk>, rest: Chunk, u: Chunk, b: seq<Chunk>)
    requires !rest.used && FreeFirst(b) == []
    ensures ButFreeFirst(b) == b && Total([]) == 0
    ensures var c := Chunk(rest.addr, rest.size + u.size, false);
            Join(r, a + [rest], u, b) == r.(chunks := a + ([c] + b), free := [c.addr] + Without(r.free, c.addr))
  {
    hide Without;
    var a' := a + [rest];
    FreeLastOfConcat(a, rest);
    assert Total([rest]) == rest.size by { assert [rest][1..] == []; }
    assert Joined(a', u, b) == Chunk(rest.addr, rest.size + u.size, false);
  }

  lemma FreeLastOfConcat(a: seq<Chunk>, rest: Chunk)
    requires !rest.used
    ensures FreeLast(a + [rest]) == [rest] && ButFreeLast(a + [rest]) == a
  {
  }


  lemma SplitThenFree(r: Heap, a: seq<Chunk>, rest: Chunk, u: Chunk, b: seq<Chunk>)
    requires Tiles(a + ([rest, u] + b), r.lo, r.hi) && r.chunks == a + ([rest, u] + b)
    requires !rest.used && u.used && FreeFirst(b) == []
    ensures var c := Chunk(rest.addr, rest.size + u.size, false);
            && Live(r, u.addr + W)
            && Free(r, u.addr + W) == Heap(r.lo, r.hi, a + ([c] + b), [c.addr] + Without(r.free, c.addr))
  {
    hide Tiles, Coalesced, FreeFirst, Join, Without, Live, Free;
    assert a + ([rest, u] + b) == (a + [rest]) + ([u] + b);
    FreeAt(r, a + [rest], u, b);
    JoinAfterSplit(r, a, rest, u, b);
  }

  lemma WholeThenFree(r: Heap, a: seq<Chunk>, u: Chunk, b: seq<Chunk>)
    requires Tiles(r.chunks, r.lo, r.hi) && r.chunks == a + ([u] + b)
    requires u.used && FreeLast(a) == [] && FreeFirst(b) == []
    ensures var c := u.(used := false);
            && Live(r, u.addr + W)
            && Free(r, u.addr + W) == Heap(r.lo, r.hi, a + ([c] + b), [c.addr] + r.free)
  {
    hide Tiles, Coalesced, Without, Live, Free;
    FreeAt(r, a, u, b);
  }

  lemma NeighboursUsed(a: seq<Chunk>, c: Chunk, b: seq<Chunk>)
    requires Coalesced(a + ([c] + b)) && !c.used
    ensures FreeLast(a) == [] && FreeFirst(b) == []
  {
    CoalescedParts(a, [c] + b);
    CoalescedParts([c], b);
  }

  lemma SplitRoundTrip(h: Heap, r: Heap, a: seq<Chunk>, c: Chunk, b: seq<Chunk>, n: nat)
    requires Tiles(a + ([c] + b), h.lo, h.hi) && Coalesced(a + ([c] + b))
    requires SizeOk(n) && !c.used && c.size >= n + HEADER_SIZE
    requires r == h.(chunks := a + ([Chunk(c.addr, c.size - n, false), Served(c, n)] + b))
    ensures Live(r, Served(c, n).addr + W)
    ensures Free(r, Served(c, n).addr + W) == Heap(h.lo, h.hi, a + ([c] + b), [c.addr] + Without(h.free, c.addr))
  {
    hide Tiles, Coalesced, FreeFirst, Without, Live, Free;
    assert FreeFirst(b) == [] by { NeighboursUsed(a, c, b); }
    var rest, top := Chunk(c.addr, c.size - n, false), Served(c, n);
    assert Tiles(a + ([rest, top] + b), h.lo, h.hi) by { SplitKeeps(a, c, b, n, h.lo, h.hi); }
    SplitThenFree(r, a, rest, top, b);
    assert Chunk(rest.addr, rest.size + top.size, false) == c;
  }

  lemma WholeRoundTrip(h: Heap, r: Heap, a: seq<Chunk>, c: Chunk, b: seq<Chunk>)
    requires Tiles(a + ([c] + b), h.lo, h.hi) && Coalesced(a + ([c] + b)) && !c.used
    requires r == h.(chunks := a + ([c.(used := true)] + b), free := Without(h.free, c.addr))
    ensures Live(r, c.addr + W)
    ensures Free(r, c.addr + W) == Heap(h.lo, h.hi, a + ([c] + b), [c.addr] + Without(h.free, c.addr))
  {
    hide Tiles, Coalesced, FreeFirst, FreeLast, Without, Live, Free;
    assert FreeLast(a) == [] && FreeFirst(b) == [] by { NeighboursUsed(a, c, b); }
    var u := c.(used := true);
    assert Tiles(a + ([u] + b), h.lo, h.hi) by { WholeKeeps(a, c, b, h.lo, h.hi); }
    WholeThenFree(r, a, u, b);
  }

  lemma CarveRoundTrip(h: Heap, a: seq<Chunk>, c: Chunk, b: seq<Chunk>, n: nat)
    requires Tiles(a + ([c] + b), h.lo, h.hi) && Coalesced(a + ([c] + b))
    requires SizeOk(n) && !c.used && n <= c.size
    ensures var r := Carve(h, a, c, b, n);
            && r.block.Some? && Live(r.heap, r.block.value)
            && Free(r.heap, r.block.value) == Heap(h.lo, h.hi, a + ([c] + b), [c.addr] + Without(h.free, c.addr))
  {
    hide Tiles, Coalesced, Without, Live, Free;
    var r := Carve(h, a, c, b, n).heap;
    if c.size >= n + HEADER_SIZE {
      SplitRoundTrip(h, r, a, c, b, n);
    } else {
      WholeRoundTrip(h, r, a, c, b);
    }
  }

  // Freeing a block right after allocating it restores the chunks; only the order of the free
  // list may differ.
  lemma AllocThenFree(h: Heap, n: nat)
    requires Wf(h) && SizeOk(n) && Alloc(h, n).block.Some?
    ensures var r := Alloc(h, n);
            && Live(r.heap, r.block.value)
            && Free(r.heap, r.block.value).chunks == h.chunks
            && multiset(Free(r.heap, r.block.value).free) == multiset(h.free)
  {
    hide Tiles, Coalesced, FreeAddrs, Elems, Distinct, Without, Live, Free, Carve;
    var a, c, b := AllocCarves(h, n);
    CarveRoundTrip(h, a, c, b, n);
    WithoutMultiset(h.free, c.addr);
  }

  // -- runs -----------------------------------------------------------------

  datatype Op = AllocOp(request: nat) | FreeOp(block: nat)

  predicate Enabled(h: Heap, op: Op) {
    match op
    case AllocOp(request) => request < MODULUS && (ChunkSize(request) != 0 || h.free == [])
    case FreeOp(block) => Live(h, block)
  }

  function Step(h: Heap, op: Op): Heap
    requires Enabled(h, op)
  {
    match op
    case AllocOp(request) => Alloc(h, ChunkSize(request)).heap
    case FreeOp(block) => Free(h, block)
  }

  predicate IsRun(h: Heap, ops: seq<Op>)
    decreases |ops|
  {
    ops == [] || (Enabled(h, ops[0]) && IsRun(Step(h, ops[0]), ops[1..]))
  }

  function Run(h: Heap, ops: seq<Op>): Heap
    requires IsRun(h, ops)
    decreases |ops|
  {
    if ops == [] then h else Run(Step(h, ops[0]), ops[1..])
  }

  lemma InitWf(lo: nat, hi: nat)
    requires Aligned(lo) && lo >= W && lo <= hi && SizeOk(hi - lo)
    ensures Wf(Init(lo, hi))
  {
    var h := Init(lo, hi);
    TilesOne(h.chunks[0], lo, hi);
    assert FreeAddrs(h.chunks) == {lo} by { assert h.chunks[0] in h.chunks; }
  }

  // Every run of allocations and frees keeps the heap well formed inside the same arena.
  lemma {:induction false} RunKeepsWf(h: Heap, ops: seq<Op>)
    requires Wf(h) && IsRun(h, ops)
    ensures Wf(Run(h, ops)) && Run(h, ops).lo == h.lo && Run(h, ops).hi == h.hi
    decreases |ops|
  {
    hide Wf, Alloc, Free, Live, Used;
    if ops != [] {
      match ops[0] {
        case AllocOp(request) =>
          ChunkSizeFits(request);
          if ChunkSize(request) != 0 {
            AllocOutcome(h, ChunkSize(request));
          } else {
            AllocFails(h, 0);
          }
        case FreeOp(block) =>
          FreeOutcome(h, block);
      }
      RunKeepsWf(Step(h, ops[0]), ops[1..]);
    }
  }

  function Bytes(cs: seq<Chunk>, used: bool): nat {
    if cs == [] then 0 else (if cs[0].used == used then cs[0].size else 0) + Bytes(cs[1..], used)
  }

  lemma {:induction false} BytesSplit(cs: seq<Chunk>)
    ensures Bytes(cs, true) + Bytes(cs, false) == Total(cs)
  {
    if cs != [] {
      BytesSplit(cs[1..]);
    }
  }

  // No byte is lost or gained: used and free bytes always add up to the size made by ffs_init.
  lemma BytesConserved(lo: nat, hi: nat, ops: seq<Op>)
    requires Aligned(lo) && lo >= W && lo <= hi && SizeOk(hi - lo) && IsRun(Init(lo, hi), ops)
    ensures var h := Run(Init(lo, hi), ops);
            Bytes(h.chunks, true) + Bytes(h.chunks, false) == hi - lo
  {
    InitWf(lo, hi);
    RunKeepsWf(Init(lo, hi), ops);
    var h := Run(Init(lo, hi), ops);
    BytesSplit(h.chunks);
    TilesTotal(h.chunks, h.lo, h.hi);
  }

  // Two live blocks have disjoint payloads inside the arena.
  lemma LiveBlocksDisjoint(h: Heap, p: nat, q: nat)
    requires Wf(h) && Live(h, p) && Live(h, q) && p != q
    ensures var c, d := h.chunks[Locate(h.chunks, p - W)], h.chunks[Locate(h.chunks, q - W)];
            && h.lo <= c.addr && c.End() <= h.hi && c.addr + W == p
            && (c.End() <= d.addr || d.End() <= c.addr)
  {
    var c, d := h.chunks[Locate(h.chunks, p - W)], h.chunks[Locate(h.chunks, q - W)];
    TilesBounds(h.chunks, h.lo, h.hi);
    TilesDisjoint(h.chunks, h.lo, h.hi, c, d);
  }

  lemma LiveIff(h: Heap, p: nat)
    requires Wf(h)
    ensures Live(h, p) <==> exists c :: c in Used(h.chunks) && c.addr + W == p
  {
    hide Coalesced, FreeAddrs, Elems, Distinct;
    if Live(h, p) {
      var c := h.chunks[Locate(h.chunks, p - W)];
      assert c in Used(h.chunks) && c.addr + W == p;
    }
    if exists c :: c in Used(h.chunks) && c.addr + W == p {
      var c :| c in Used(h.chunks) && c.addr + W == p;
      var a, b := ChunkFound(h, c);
    }
  }

  lemma SameAddrSameChunk(h: Heap, c: Chunk, d: Chunk)
    requires Wf(h) && c in h.chunks && d in h.chunks && c.addr == d.addr
    ensures c == d
  {
    TilesBounds(h.chunks, h.lo, h.hi);
    if c != d {
      TilesDisjoint(h.chunks, h.lo, h.hi, c, d);
    }
  }

  lemma LiveMinus(h: Heap, h': Heap, c: Chunk, q: nat)
    requires Wf(h) && Wf(h') && c in Used(h.chunks) && Used(h'.chunks) == Used(h.chunks) - {c}
    ensures Live(h', q) <==> Live(h, q) && q != c.addr + W
  {
    LiveIff(h, q);
    LiveIff(h', q);
    forall d | d in Used(h.chunks) && d.addr == c.addr ensures d == c {
      SameAddrSameChunk(h, c, d);
    }
    if Live(h, q) && q != c.addr + W {
      var d :| d in Used(h.chunks) && d.addr + W == q;
      assert d in Used(h'.chunks);
    }
  }

  lemma LiveAfterFree(h: Heap, p: nat, q: nat)
    requires Wf(h) && Live(h, p)
    ensures Live(Free(h, p), q) <==> Live(h, q) && q != p
  {
    hide Wf, Free;
    FreeOutcome(h, p);
    LiveMinus(h, Free(h, p), h.chunks[Locate(h.chunks, p - W)], q);
  }

  function Frees(order: seq<nat>): (ops: seq<Op>)
    ensures |ops| == |order|
  {
    if order == [] then [] else [FreeOp(order[0])] + Frees(order[1..])
  }

  lemma LiveAmongTwo(h: Heap)
    requires Wf(h) && |h.chunks| >= 2
    ensures exists p :: Live(h, p)
  {
    var c := if h.chunks[0].used then h.chunks[0] else h.chunks[1];
    assert c in Used(h.chunks);
    LiveIff(h, c.addr + W);
  }

  lemma LiveIfUsed(h: Heap)
    requires Wf(h) && h.chunks[0].used
    ensures exists p :: Live(h, p)
  {
    assert h.chunks[0] in Used(h.chunks);
    LiveIff(h, h.chunks[0].addr + W);
  }

  lemma NothingLive(h: Heap)
    requires Wf(h) && forall p :: !Live(h, p)
    ensures h == Init(h.lo, h.hi)
  {
    if |h.chunks| >= 2 {
      LiveAmongTwo(h);
    } else if h.chunks[0].used {
      LiveIfUsed(h);
    } else {
      var c := h.chunks[0];
      assert h.chunks == [c] && c in h.chunks;
      TilesOne(c, h.lo, h.hi);
      assert FreeAddrs(h.chunks) == {h.lo};
      assert forall x :: x in h.free <==> x in Elems(h.free);
      DistinctSingleton(h.free, h.lo);
    }
  }

  // Freeing all live blocks, in any order, leaves exactly the heap made by ffs_init.
  lemma {:induction false} FreeAllRestoresInit(h: Heap, order: seq<nat>)
    requires Wf(h) && Distinct(order)
    requires forall p :: p in order <==> Live(h, p)
    ensures IsRun(h, Frees(order)) && Run(h, Frees(order)) == Init(h.lo, h.hi)
    decreases |order|
  {
    hide Wf, Live, Free;
    if order == [] {
      NothingLive(h);
    } else {
      var p := order[0];
      assert order == [p] + order[1..] && p in order;
      FreeOutcome(h, p);
      forall q ensures q in order[1..] <==> Live(Free(h, p), q) {
        LiveAfterFree(h, p, q);
        assert p !in order[1..];
        assert q in order <==> q == p || q in order[1..];
      }
      FreeAllRestoresInit(Free(h, p), order[1..]);
      assert Frees(order)[1..] == Frees(order[1..]);
    }
  }
}
