/**
 The memory layout behind the first-fit allocator: boundary tags, borders and the free list
 threaded through the free chunks (lib/ff_simple.c and lib/ff_simple.h).

 Memory is an array of words addressed by byte address; only the cells at multiples of the word
 size hold words.  Address 0 is NULL.
 */
module FreeList {
  import opened FirstFit

  ghost function FirstOr(fl: seq<nat>, after: nat): nat {
    if fl == [] then after else fl[0]
  }

  ghost function LastOr(fl: seq<nat>, before: nat): nat {
    if fl == [] then before else fl[|fl| - 1]
  }

  /** The word at address x. */
  function At(m: seq<nat>, x: int): nat {
    if 0 <= x < |m| then m[x] else 0
  }

  /** The free chunks at the addresses `fl` are far enough apart, above `pool` and inside memory. */
  ghost predicate Spaced(fl: seq<nat>, pool: nat, size: nat) {
    && (forall i :: 0 <= i < |fl| ==> pool < fl[i] && fl[i] + 4 * W <= size)
    && (forall i, j :: 0 <= i < j < |fl| ==> fl[i] + 4 * W <= fl[j] || fl[j] + 4 * W <= fl[i])
  }

  /** The chunks of `fl` are doubly linked in this order between `before` and `after`; prev is the
      word behind the header, next the one behind prev. */
  ghost predicate Linked(m: seq<nat>, fl: seq<nat>, before: nat, after: nat) {
    && (fl != [] ==> At(m, fl[0] + W) == before && At(m, fl[|fl| - 1] + 2 * W) == after)
    && (forall i, j :: 0 <= i < j < |fl| && j == i + 1 ==> At(m, fl[i] + 2 * W) == fl[j] && At(m, fl[j] + W) == fl[i])
  }

  ghost predicate IsLinkCell(x: int, pool: nat, fl: seq<nat>) {
    x == pool || (x >= W && x - W in fl) || (x >= 2 * W && x - 2 * W in fl)
  }

  /** Only the pool descriptor and the links of `fl` may differ. */
  ghost predicate OnlyLinks(m: seq<nat>, m': seq<nat>, pool: nat, fl: seq<nat>) {
    |m'| == |m| && forall x :: 0 <= x < |m| && !IsLinkCell(x, pool, fl) ==> m'[x] == m[x]
  }

  lemma SpacedParts(a: seq<nat>, b: seq<nat>, pool: nat, size: nat)
    requires Spaced(a + b, pool, size)
    ensures Spaced(a, pool, size) && Spaced(b, pool, size)
    ensures forall x, y :: x in a && y in b ==> x + 4 * W <= y || y + 4 * W <= x
  {
    var fl := a + b;
    assert forall i :: 0 <= i < |a| ==> fl[i] == a[i];
    assert forall i :: 0 <= i < |b| ==> fl[|a| + i] == b[i];
    forall i, j | 0 <= i < j < |a| ensures a[i] + 4 * W <= a[j] || a[j] + 4 * W <= a[i] {
      assert fl[i] == a[i] && fl[j] == a[j];
    }
    forall i, j | 0 <= i < j < |b| ensures b[i] + 4 * W <= b[j] || b[j] + 4 * W <= b[i] {
      assert fl[|a| + i] == b[i] && fl[|a| + j] == b[j];
    }
    forall x, y | x in a && y in b ensures x + 4 * W <= y || y + 4 * W <= x {
      var i :| 0 <= i < |a| && a[i] == x;
      var j :| 0 <= j < |b| && b[j] == y;
      assert fl[i] == x && fl[|a| + j] == y;
    }
  }

  lemma LinkedParts(m: seq<nat>, a: seq<nat>, b: seq<nat>, before: nat, after: nat)
    requires Linked(m, a + b, before, after)
    ensures Linked(m, a, before, FirstOr(b, after)) && Linked(m, b, LastOr(a, before), after)
  {
    hide At;
    var fl := a + b;
    forall i, j | 0 <= i < j < |a| && j == i + 1 ensures At(m, a[i] + 2 * W) == a[j] && At(m, a[j] + W) == a[i] {
      assert fl[i] == a[i] && fl[j] == a[j];
    }
    forall i, j | 0 <= i < j < |b| && j == i + 1 ensures At(m, b[i] + 2 * W) == b[j] && At(m, b[j] + W) == b[i] {
      assert fl[|a| + i] == b[i] && fl[|a| + j] == b[j];
    }
    if a != [] && b != [] {
      assert fl[|a| - 1] == a[|a| - 1] && fl[|a|] == b[0];
    }
  }

  lemma LinkedConcat(m: seq<nat>, a: seq<nat>, b: seq<nat>, before: nat, after: nat)
    requires Linked(m, a, before, FirstOr(b, after)) && Linked(m, b, LastOr(a, before), after)
    ensures Linked(m, a + b, before, after)
  {
    hide At;
    var fl := a + b;
    forall i, j | 0 <= i < j < |fl| && j == i + 1 ensures At(m, fl[i] + 2 * W) == fl[j] && At(m, fl[j] + W) == fl[i] {
      if j < |a| {
        assert At(m, a[i] + 2 * W) == a[j] && At(m, a[j] + W) == a[i];
      } else if i >= |a| {
        assert At(m, b[i - |a|] + 2 * W) == b[j - |a|] && At(m, b[j - |a|] + W) == b[i - |a|];
      }
    }
  }

  // A list stays linked when none of its own links changes.
  lemma LinkedFrame(m: seq<nat>, m': seq<nat>, fl: seq<nat>, before: nat, after: nat)
    requires Linked(m, fl, before, after)
    requires forall x :: x in fl ==> At(m', x + W) == At(m, x + W) && At(m', x + 2 * W) == At(m, x + 2 * W)
    ensures Linked(m', fl, before, after)
  {
    if fl != [] {
      assert fl[0] in fl && fl[|fl| - 1] in fl;
    }
    forall i, j | 0 <= i < j < |fl| && j == i + 1 ensures At(m', fl[i] + 2 * W) == fl[j] && At(m', fl[j] + W) == fl[i] {
      assert fl[i] in fl && fl[j] in fl;
    }
  }

  lemma LinkedSetNext(m: seq<nat>, fl: seq<nat>, before: nat, after: nat, pool: nat, v: nat)
    requires Spaced(fl, pool, |m|) && Linked(m, fl, before, after) && fl != []
    ensures Linked(m[fl[|fl| - 1] + 2 * W := v], fl, before, v)
  {
    var m' := m[fl[|fl| - 1] + 2 * W := v];
    assert fl[0] in fl;
    forall i, j | 0 <= i < j < |fl| && j == i + 1 ensures At(m', fl[i] + 2 * W) == fl[j] && At(m', fl[j] + W) == fl[i] {
      assert At(m, fl[i] + 2 * W) == fl[j] && At(m, fl[j] + W) == fl[i];
    }
  }

  lemma LinkedSetPrev(m: seq<nat>, fl: seq<nat>, before: nat, after: nat, pool: nat, v: nat)
    requires Spaced(fl, pool, |m|) && Linked(m, fl, before, after) && fl != []
    ensures Linked(m[fl[0] + W := v], fl, v, after)
  {
    var m' := m[fl[0] + W := v];
    assert fl[|fl| - 1] in fl;
    forall i, j | 0 <= i < j < |fl| && j == i + 1 ensures At(m', fl[i] + 2 * W) == fl[j] && At(m', fl[j] + W) == fl[i] {
      assert At(m, fl[i] + 2 * W) == fl[j] && At(m, fl[j] + W) == fl[i];
    }
  }

  /** The pool descriptor and the links of the list `fl`. */
  ghost predicate ListOk(m: seq<nat>, pool: nat, fl: seq<nat>) {
    && pool < |m| && Spaced(fl, pool, |m|)
    && m[pool] == FirstOr(fl, 0)
    && Linked(m, fl, 0, 0)
  }

  // The list links also after words that are no links of it have changed.
  lemma ListOkFrame(m: seq<nat>, m': seq<nat>, pool: nat, fl: seq<nat>)
    requires ListOk(m, pool, fl) && |m'| == |m|
    requires forall x :: 0 <= x < |m| && IsLinkCell(x, pool, fl) ==> m'[x] == m[x]
    ensures ListOk(m', pool, fl)
  {
    forall x | x in fl ensures At(m', x + W) == At(m, x + W) && At(m', x + 2 * W) == At(m, x + 2 * W) {
      assert IsLinkCell(x + W, pool, fl) && IsLinkCell(x + 2 * W, pool, fl);
    }
    LinkedFrame(m, m', fl, 0, 0);
  }

  /** ffs_insert_chunk */
  method InsertChunk(mem: array<nat>, pool: nat, chunk: nat, ghost fl: seq<nat>)
    requires ListOk(mem[..], pool, fl) && Spaced([chunk] + fl, pool, mem.Length)
    modifies mem
    ensures ListOk(mem[..], pool, [chunk] + fl)
    ensures OnlyLinks(old(mem[..]), mem[..], pool, [chunk] + fl)
  {
    hide Linked, Spaced;
    ghost var m0 := mem[..];
    SpacedParts([chunk], fl, pool, mem.Length);
    InsertBounds(chunk, fl, pool, mem.Length);
    mem[chunk + 2 * W] := mem[pool];
    mem[chunk + W] := 0;
    ghost var m1 := mem[..];
    assert m1 == m0[chunk + 2 * W := m0[pool]][chunk + W := 0];
    LinkedUpdate(m0, fl, 0, 0, chunk + 2 * W, m0[pool]);
    LinkedUpdate(m0[chunk + 2 * W := m0[pool]], fl, 0, 0, chunk + W, 0);
    if mem[pool] != 0 {
      mem[mem[pool] + W] := chunk;
      LinkedSetPrev(m1, fl, 0, 0, pool, chunk);
      assert mem[..] == m1[fl[0] + W := chunk];
    } else {
      LinkedNil(mem[..], fl, chunk, 0);
    }
    ghost var m2 := mem[..];
    mem[pool] := chunk;
    assert mem[..] == m2[pool := chunk];
    LinkedUpdate(m2, fl, chunk, 0, pool, chunk);
    LinkedOne(mem[..], chunk, 0, FirstOr(fl, 0));
    LinkedConcat(mem[..], [chunk], fl, 0, 0);
  }

  lemma LinkedNil(m: seq<nat>, fl: seq<nat>, before: nat, after: nat)
    requires fl == []
    ensures Linked(m, fl, before, after)
  {
  }

  lemma LinkedOne(m: seq<nat>, x: nat, before: nat, after: nat)
    requires x + 4 * W <= |m|
    ensures Linked(m, [x], before, after) <==> At(m, x + W) == before && At(m, x + 2 * W) == after
  {
  }

  lemma InsertBounds(chunk: nat, fl: seq<nat>, pool: nat, size: nat)
    requires Spaced([chunk] + fl, pool, size)
    ensures pool < chunk && chunk + 4 * W <= size
    ensures forall x :: x in fl ==> pool < x && x + 4 * W <= size && (x + 4 * W <= chunk || chunk + 4 * W <= x)
    ensures fl != [] ==> fl[0] in fl
  {
    assert chunk in [chunk] + fl;
    forall x | x in fl ensures pool < x && x + 4 * W <= size && (x + 4 * W <= chunk || chunk + 4 * W <= x) {
      var i :| 0 <= i < |fl| && fl[i] == x;
      assert ([chunk] + fl)[0] == chunk && ([chunk] + fl)[i + 1] == x;
      assert x in [chunk] + fl;
    }
  }

  // A list stays linked when a word that is none of its links changes.
  lemma LinkedUpdate(m: seq<nat>, fl: seq<nat>, before: nat, after: nat, cell: nat, v: nat)
    requires Linked(m, fl, before, after) && cell < |m|
    requires forall x :: x in fl ==> cell != x + W && cell != x + 2 * W
    ensures Linked(m[cell := v], fl, before, after)
  {
    hide Linked;
    LinkedFrame(m, m[cell := v], fl, before, after);
  }

  /** The words written by ffs_remove_chunk: first the link to `chunk`, then the link back to it. */
  ghost function Cut(m: seq<nat>, pool: nat, a: seq<nat>, next: nat): seq<nat>
    requires pool < |m| && (a != [] ==> a[|a| - 1] + 2 * W < |m|)
  {
    if a == [] then m[pool := next] else m[a[|a| - 1] + 2 * W := next]
  }

  ghost function CutBack(m: seq<nat>, b: seq<nat>, prev: nat): seq<nat>
    requires b != [] ==> b[0] + W < |m|
  {
    if b == [] then m else m[b[0] + W := prev]
  }

  lemma CutLinks(m: seq<nat>, pool: nat, a: seq<nat>, chunk: nat, b: seq<nat>)
    requires ListOk(m, pool, a + ([chunk] + b))
    ensures pool < |m| && (a != [] ==> a[|a| - 1] + 2 * W < |m|)
    ensures var m1 := Cut(m, pool, a, FirstOr(b, 0));
            && Linked(m1, a, 0, FirstOr(b, 0)) && Linked(m1, b, chunk, 0)
            && At(m1, pool) == FirstOr(a, FirstOr(b, 0))
  {
    hide Linked, Spaced;
    RemoveBounds(a, chunk, b, pool, |m|);
    LinkedParts(m, a, [chunk] + b, 0, 0);
    LinkedParts(m, [chunk], b, LastOr(a, 0), 0);
    var next := FirstOr(b, 0);
    if a == [] {
      LinkedNil(m[pool := next], a, 0, next);
      LinkedUpdate(m, b, chunk, 0, pool, next);
    } else {
      LinkedSetNext(m, a, 0, chunk, pool, next);
      LinkedUpdate(m, b, chunk, 0, a[|a| - 1] + 2 * W, next);
    }
  }

  lemma CutBackLinks(m1: seq<nat>, pool: nat, a: seq<nat>, chunk: nat, b: seq<nat>)
    requires pool < |m1| && Spaced(a + ([chunk] + b), pool, |m1|)
    requires Linked(m1, a, 0, FirstOr(b, 0)) && Linked(m1, b, chunk, 0) && At(m1, pool) == FirstOr(a, FirstOr(b, 0))
    ensures b != [] ==> b[0] + W < |m1|
    ensures ListOk(CutBack(m1, b, LastOr(a, 0)), pool, a + b)
  {
    hide Linked, Spaced;
    RemoveBounds(a, chunk, b, pool, |m1|);
    RemoveSpaced(a, chunk, b, pool, |m1|);
    var prev := LastOr(a, 0);
    var m2 := CutBack(m1, b, prev);
    if b == [] {
      LinkedNil(m2, b, prev, 0);
    } else {
      LinkedSetPrev(m1, b, chunk, 0, pool, prev);
      LinkedUpdate(m1, a, 0, b[0], b[0] + W, prev);
    }
    LinkedConcat(m2, a, b, 0, 0);
  }

  /** ffs_remove_chunk, for the chunk between a and b in the free list. */
  method RemoveChunk(mem: array<nat>, pool: nat, chunk: nat, ghost a: seq<nat>, ghost b: seq<nat>)
    requires ListOk(mem[..], pool, a + ([chunk] + b))
    modifies mem
    ensures ListOk(mem[..], pool, a + b)
    ensures OnlyLinks(old(mem[..]), mem[..], pool, a + ([chunk] + b))
  {
    hide Linked, Spaced, OnlyLinks;
    ghost var m0 := mem[..];
    RemoveBounds(a, chunk, b, pool, mem.Length);
    LinkedParts(m0, a, [chunk] + b, 0, 0);
    LinkedParts(m0, [chunk], b, LastOr(a, 0), 0);
    LinkedOne(m0, chunk, LastOr(a, 0), FirstOr(b, 0));
    CutLinks(m0, pool, a, chunk, b);
    var next: nat, prev: nat := mem[chunk + 2 * W], mem[chunk + W];
    if chunk == mem[pool] {
      mem[pool] := next;
    } else {
      mem[prev + 2 * W] := next;
    }
    assert mem[..] == Cut(m0, pool, a, next);
    CutBackLinks(mem[..], pool, a, chunk, b);
    ghost var m1 := mem[..];
    if next != 0 {
      mem[next + W] := prev;
    }
    assert mem[..] == CutBack(m1, b, prev);
    CutOnlyLinks(m0, pool, a, chunk, b);
  }

  lemma CutOnlyLinks(m: seq<nat>, pool: nat, a: seq<nat>, chunk: nat, b: seq<nat>)
    requires pool < |m| && (a != [] ==> a[|a| - 1] + 2 * W < |m|) && (b != [] ==> b[0] + W < |m|)
    ensures OnlyLinks(m, CutBack(Cut(m, pool, a, FirstOr(b, 0)), b, LastOr(a, 0)), pool, a + ([chunk] + b))
  {
    hide IsLinkCell;
    RemoveCells(a, chunk, b, pool);
  }

  // The cells that RemoveChunk may write are links of the list.
  lemma RemoveCells(a: seq<nat>, chunk: nat, b: seq<nat>, pool: nat)
    ensures var fl := a + ([chunk] + b);
            && IsLinkCell(pool, pool, fl)
            && (a != [] ==> IsLinkCell(a[|a| - 1] + 2 * W, pool, fl))
            && (b != [] ==> IsLinkCell(b[0] + W, pool, fl))
  {
    var fl := a + ([chunk] + b);
    assert a != [] ==> a[|a| - 1] in fl;
    assert b != [] ==> b[0] in [chunk] + b;
  }

  lemma RemoveBounds(a: seq<nat>, chunk: nat, b: seq<nat>, pool: nat, size: nat)
    requires Spaced(a + ([chunk] + b), pool, size)
    ensures Spaced(a, pool, size) && Spaced(b, pool, size)
    ensures pool < chunk && chunk + 4 * W <= size
    ensures forall x :: x in a || x in b ==> pool < x && x + 4 * W <= size && (x + 4 * W <= chunk || chunk + 4 * W <= x)
    ensures a != [] ==> a[0] in a
    ensures a != [] ==> a[|a| - 1] in a && forall y :: y in b ==> y + 4 * W <= a[|a| - 1] || a[|a| - 1] + 4 * W <= y
    ensures b != [] ==> b[0] in b && forall x :: x in a ==> x + 4 * W <= b[0] || b[0] + 4 * W <= x
  {
    SpacedParts(a, [chunk] + b, pool, size);
    SpacedParts([chunk], b, pool, size);
    InsertBounds(chunk, b, pool, size);
    assert chunk in [chunk] + b;
    assert forall y :: y in b ==> y in [chunk] + b;
    forall x | x in a ensures pool < x && x + 4 * W <= size {
      var i :| 0 <= i < |a| && a[i] == x;
    }
  }

  lemma RemoveSpaced(a: seq<nat>, chunk: nat, b: seq<nat>, pool: nat, size: nat)
    requires Spaced(a + ([chunk] + b), pool, size)
    ensures Spaced(a + b, pool, size)
  {
    var fl, fl' := a + ([chunk] + b), a + b;
    assert forall i :: 0 <= i < |fl'| ==> fl'[i] == fl[if i < |a| then i else i + 1];
  }
}

module Arena {
  import opened Seqs
  import opened FirstFit
  import opened FreeList

  function Tag(c: Chunk): nat {
    c.size + if c.used then 1 else 0
  }

  /** MARK_USED */
  function MarkUsed(tag: nat): nat {
    tag - tag % 2 + 1
  }

  /** MARK_FREE */
  function MarkFree(tag: nat): nat {
    tag - tag % 2
  }

  /** GET_SIZE */
  function TagSize(tag: nat): nat {
    tag - tag % 2
  }

  ghost predicate Tagged(m: seq<nat>, c: Chunk) {
    At(m, c.addr) == Tag(c) && At(m, c.End() - W) == Tag(c)
  }

  /** Memory m holds heap h, with the pool descriptor at address `pool`. */
  ghost predicate Rep(m: seq<nat>, pool: nat, h: Heap) {
    && pool + 2 * W == h.lo && h.hi < |m|
    && At(m, h.lo - W) == W + 1 && At(m, h.hi) == W + 1
    && (forall c :: c in h.chunks ==> Tagged(m, c))
    && ListOk(m, pool, h.free)
  }

  // Links lie strictly inside free chunks, between the tags.
  lemma LinkCellInside(h: Heap, pool: nat, x: nat) returns (d: Chunk)
    requires Wf(h) && pool + 2 * W == h.lo && IsLinkCell(x, pool, h.free) && x != pool
    ensures d in h.chunks && !d.used && d.addr < x < d.End() - W
  {
    var a := if x >= W && x - W in h.free then x - W else x - 2 * W;
    FreeListed(h, a);
    d := h.chunks[Locate(h.chunks, a)];
    TilesBounds(h.chunks, h.lo, h.hi);
  }

  lemma NoLinkCell(h: Heap, pool: nat, c: Chunk, x: nat)
    requires Wf(h) && pool + 2 * W == h.lo && c in h.chunks && c.addr <= x < c.End()
    requires c.used || x == c.addr || x >= c.End() - W
    ensures !IsLinkCell(x, pool, h.free)
  {
    hide IsLinkCell, Tiles;
    TilesBounds(h.chunks, h.lo, h.hi);
    if x != pool && IsLinkCell(x, pool, h.free) {
      var d := LinkCellInside(h, pool, x);
      if d != c {
        TilesDisjoint(h.chunks, h.lo, h.hi, c, d);
      }
    }
    assert x > pool;
  }

  lemma BorderNoLink(h: Heap, pool: nat)
    requires Wf(h) && pool + 2 * W == h.lo
    ensures !IsLinkCell(h.lo - W, pool, h.free) && !IsLinkCell(h.hi, pool, h.free)
  {
    hide Tiles;
    TilesBounds(h.chunks, h.lo, h.hi);
    if IsLinkCell(h.lo - W, pool, h.free) {
      var d := LinkCellInside(h, pool, h.lo - W);
    }
    if IsLinkCell(h.hi, pool, h.free) {
      var d := LinkCellInside(h, pool, h.hi);
    }
  }

  lemma FreeSpaced(h: Heap, pool: nat, size: nat)
    requires Wf(h) && pool < h.lo && h.hi < size
    ensures Spaced(h.free, pool, size)
  {
    hide Tiles;
    TilesBounds(h.chunks, h.lo, h.hi);
    forall i | 0 <= i < |h.free| ensures pool < h.free[i] && h.free[i] + 4 * W <= size {
      FreeListed(h, h.free[i]);
      var c := h.chunks[Locate(h.chunks, h.free[i])];
      assert c in h.chunks;
    }
    forall i, j | 0 <= i < j < |h.free|
      ensures h.free[i] + 4 * W <= h.free[j] || h.free[j] + 4 * W <= h.free[i]
    {
      FreeListed(h, h.free[i]);
      FreeListed(h, h.free[j]);
      var c, d := h.chunks[Locate(h.chunks, h.free[i])], h.chunks[Locate(h.chunks, h.free[j])];
      assert c in h.chunks && d in h.chunks && c != d;
      TilesDisjoint(h.chunks, h.lo, h.hi, c, d);
    }
  }

  /** Memory changed only inside [start, end) and in links of the free list. */
  ghost predicate ChangedWithin(m: seq<nat>, m': seq<nat>, pool: nat, h: Heap, start: nat, end: nat) {
    && |m'| == |m|
    && forall x :: 0 <= x < |m| && !(start <= x < end) && !IsLinkCell(x, pool, h.free) ==> m'[x] == m[x]
  }

  /** All words of chunk d, tags included, are the same. */
  ghost predicate SameWords(m: seq<nat>, m': seq<nat>, d: Chunk) {
    forall x :: d.addr <= x < d.End() ==> At(m', x) == At(m, x)
  }

  // If the middle of the tiling is replaced, the new middle is tagged and the list is linked, then
  // memory holds the new heap, and every used chunk outside the middle keeps all its words.
  lemma RepReplace(m: seq<nat>, m': seq<nat>, pool: nat, h: Heap, h': Heap,
                   a: seq<Chunk>, mid: seq<Chunk>, mid': seq<Chunk>, b: seq<Chunk>, start: nat, end: nat)
    requires Wf(h) && Rep(m, pool, h)
    requires h.chunks == a + (mid + b) && h'.chunks == a + (mid' + b) && h'.lo == h.lo && h'.hi == h.hi
    requires Tiles(mid, start, end) && mid != []
    requires ChangedWithin(m, m', pool, h, start, end)
    requires forall c :: c in mid' ==> Tagged(m', c)
    requires ListOk(m', pool, h'.free)
    ensures Rep(m', pool, h')
    ensures forall d :: d in Used(a) + Used(b) ==> SameWords(m, m', d)
  {
    hide Tiles, Coalesced, IsLinkCell, Tagged, SameWords, ListOk;
    MiddleExtent(a, mid, b, h.lo, h.hi, start, end);
    BorderNoLink(h, pool);
    forall c | c in a || c in b ensures Tagged(m', c) && (c.used ==> SameWords(m, m', c)) {
      assert c in h.chunks;
      OutsideKept(m, m', pool, h, c, start, end);
    }
  }

  lemma MiddleExtent(a: seq<Chunk>, mid: seq<Chunk>, b: seq<Chunk>, lo: nat, hi: nat, start: nat, end: nat)
    requires Tiles(a + (mid + b), lo, hi) && Tiles(mid, start, end) && mid != []
    ensures lo <= start && end <= hi
    ensures forall c :: c in a ==> c.End() <= start
    ensures forall c :: c in b ==> end <= c.addr
  {
    var s, e := MiddleBounds(a, mid, b, lo, hi);
    assert s == mid[0].addr == start && e == mid[|mid| - 1].End() == end;
    TilesBounds(a + (mid + b), lo, hi);
    assert mid[0] in mid && mid[|mid| - 1] in mid;
  }

  lemma OutsideKept(m: seq<nat>, m': seq<nat>, pool: nat, h: Heap, c: Chunk, start: nat, end: nat)
    requires Wf(h) && Rep(m, pool, h) && c in h.chunks
    requires ChangedWithin(m, m', pool, h, start, end) && (c.End() <= start || end <= c.addr)
    ensures Tagged(m', c) && (c.used ==> SameWords(m, m', c))
  {
    hide Tiles, Coalesced, IsLinkCell, ListOk;
    TilesBounds(h.chunks, h.lo, h.hi);
    NoLinkCell(h, pool, c, c.addr);
    NoLinkCell(h, pool, c, c.End() - W);
    if c.used {
      forall x | c.addr <= x < c.End() ensures At(m', x) == At(m, x) {
        NoLinkCell(h, pool, c, x);
      }
    }
  }

  // Words from the fourth on of a chunk are no links.
  lemma NoLinkDeep(h: Heap, pool: nat, c: Chunk, x: nat)
    requires Wf(h) && pool + 2 * W == h.lo && c in h.chunks && c.addr + 3 * W <= x < c.End()
    ensures !IsLinkCell(x, pool, h.free)
  {
    hide Tiles, Coalesced;
    TilesBounds(h.chunks, h.lo, h.hi);
    NoFreeInside(h, c, x - W);
    NoFreeInside(h, c, x - 2 * W);
  }

  lemma NoFreeInside(h: Heap, c: Chunk, y: nat)
    requires Wf(h) && c in h.chunks && c.addr < y < c.End()
    ensures y !in h.free
  {
    hide Tiles, Coalesced;
    TilesBounds(h.chunks, h.lo, h.hi);
    if y in h.free {
      FreeListed(h, y);
      var d := h.chunks[Locate(h.chunks, y)];
      TilesDisjoint(h.chunks, h.lo, h.hi, c, d);
    }
  }

  // The words of the chunk at position k of the free list.
  lemma FreeWords(m: seq<nat>, pool: nat, h: Heap, k: nat)
    requires Wf(h) && Rep(m, pool, h) && k < |h.free|
    ensures 0 < h.free[k] && h.free[k] + 4 * W <= |m|
    ensures m[h.free[k]] == SizeAt(h.chunks, h.free[k])
    ensures m[h.free[k] + 2 * W] == if k + 1 < |h.free| then h.free[k + 1] else 0
  {
    hide Tiles, Coalesced;
    FreeListed(h, h.free[k]);
    var c := h.chunks[Locate(h.chunks, h.free[k])];
    assert c in h.chunks && Tagged(m, c);
    var fl := h.free;
    assert k + 1 < |fl| ==> At(m, fl[k] + 2 * W) == fl[k + 1];
  }

  /** The words after splitting n bytes off the top of c. */
  ghost function SplitWords(m: seq<nat>, c: Chunk, n: nat): seq<nat>
    requires (SizeOk(n) || n == 0) && c.size >= n + HEADER_SIZE && c.End() < |m|
  {
    var rest: nat := c.size - n;
    m[c.addr := rest][c.addr + rest - W := rest][c.addr + rest := n + 1][c.End() - W := n + 1]
  }

  lemma SplitRep(m: seq<nat>, pool: nat, h: Heap, a: seq<Chunk>, c: Chunk, b: seq<Chunk>, n: nat)
    requires Wf(h) && Rep(m, pool, h) && h.chunks == a + ([c] + b) && !c.used
    requires SizeOk(n) && c.size >= n + HEADER_SIZE
    ensures c.End() < |m|
    ensures var m', h' := SplitWords(m, c, n), Carve(h, a, c, b, n).heap;
            Rep(m', pool, h') && forall d :: d in Used(h.chunks) ==> SameWords(m, m', d)
  {
    hide Tiles, Coalesced, IsLinkCell, SameWords, ListOk;
    assert c in h.chunks;
    TilesBounds(h.chunks, h.lo, h.hi);
    var m', h' := SplitWords(m, c, n), Carve(h, a, c, b, n).heap;
    var rest, top := Chunk(c.addr, c.size - n, false), Chunk(c.End() - n, n, true);
    NoLinkCell(h, pool, c, c.addr);
    NoLinkDeep(h, pool, c, rest.End() - W);
    NoLinkDeep(h, pool, c, top.addr);
    NoLinkDeep(h, pool, c, top.End() - W);
    ListOkFrame(m, m', pool, h.free);
    TilesOne(c, c.addr, c.End());
    RepReplace(m, m', pool, h, h', a, [c], [rest, top], b, c.addr, c.End());
    SetsConcat(a, [c] + b);
    SetsConcat([c], b);
  }

  // Header words decide the tiling: memory with the same headers up to a chunk can only hold heaps
  // with the same chunks up to there.
  lemma {:induction false} HeadersDecide(m: seq<nat>, m': seq<nat>, pool: nat, h: Heap, h': Heap, k: nat)
    requires Wf(h) && Rep(m, pool, h) && Wf(h') && Rep(m', pool, h') && k < |h.chunks|
    requires forall i :: 0 <= i <= k ==> At(m', h.chunks[i].addr) == At(m, h.chunks[i].addr)
    ensures k < |h'.chunks| && h'.chunks[k] == h.chunks[k]
  {
    hide ListOk, Coalesced, Elems, FreeAddrs;
    var c := h.chunks[k];
    assert c in h.chunks && Tagged(m, c);
    if k == 0 {
      SameTag(h, h', c, h'.chunks[0], m');
    } else {
      HeadersDecide(m, m', pool, h, h', k - 1);
      assert h.chunks[k - 1].End() == c.addr;
      TilesBounds(h.chunks, h.lo, h.hi);
      assert k < |h'.chunks| by {
        assert At(m', c.addr) == Tag(c) >= HEADER_SIZE;
      }
      assert h'.chunks[k - 1].End() == h'.chunks[k].addr;
      SameTag(h, h', c, h'.chunks[k], m');
    }
  }

  lemma SameTag(h: Heap, h': Heap, c: Chunk, d: Chunk, m: seq<nat>)
    requires Wf(h) && Wf(h') && c in h.chunks && d in h'.chunks && c.addr == d.addr
    requires At(m, c.addr) == Tag(c) && Tagged(m, d)
    ensures c == d
  {
    hide Coalesced, Elems, FreeAddrs, TagSize;
    TilesBounds(h.chunks, h.lo, h.hi);
    TilesBounds(h'.chunks, h'.lo, h'.hi);
    TagFacts(c.size);
    TagFacts(d.size);
  }

  // A chunk of size zero destroys the heap: the words written for it overwrite the tail of the
  // chunk it is taken from, so that memory does not hold any heap any more.
  lemma ZeroSizeBreaks(m: seq<nat>, pool: nat, h: Heap, c: Chunk, h': Heap)
    requires Wf(h) && Rep(m, pool, h) && c in h.chunks && !c.used && Wf(h')
    ensures c.End() < |m| && !Rep(SplitWords(m, c, 0), pool, h')
  {
    hide Tiles, Coalesced, ListOk, Elems, FreeAddrs;
    ChunkWords(m, pool, h, c);
    WfParts(h);
    TilesBounds(h.chunks, h.lo, h.hi);
    var m' := SplitWords(m, c, 0);
    assert !Tagged(m', c);
    var k :| 0 <= k < |h.chunks| && h.chunks[k] == c;
    if Rep(m', pool, h') {
      forall i | 0 <= i <= k ensures At(m', h.chunks[i].addr) == At(m, h.chunks[i].addr) {
        if i < k {
          TilesOrdered(h.chunks, h.lo, h.hi, i, k);
        }
      }
      HeadersTag(m, m', pool, h, h', k);
    }
  }

  lemma HeadersTag(m: seq<nat>, m': seq<nat>, pool: nat, h: Heap, h': Heap, k: nat)
    requires Wf(h) && Rep(m, pool, h) && Wf(h') && Rep(m', pool, h') && k < |h.chunks|
    requires forall i :: 0 <= i <= k ==> At(m', h.chunks[i].addr) == At(m, h.chunks[i].addr)
    ensures Tagged(m', h.chunks[k])
  {
    hide Wf;
    HeadersDecide(m, m', pool, h, h', k);
    assert h'.chunks[k] in h'.chunks;
  }

  // The address returned for it is that of a live block, or lies behind the border.
  lemma ZeroSizeResult(h: Heap, c: Chunk)
    requires Wf(h) && c in h.chunks && !c.used
    ensures c.End() == h.hi || Live(h, c.End() + W)
  {
    hide FreeAddrs, Elems;
    var k :| 0 <= k < |h.chunks| && h.chunks[k] == c;
    if k < |h.chunks| - 1 {
      var d := h.chunks[k + 1];
      assert c.End() == d.addr && d.used && d in Used(h.chunks);
      LiveIff(h, d.addr + W);
    }
  }

  /** The words after marking c as used. */
  ghost function UsedWords(m: seq<nat>, c: Chunk): seq<nat>
    requires ChunkOk(c) && c.End() <= |m|
  {
    m[c.addr := c.size + 1][c.End() - W := c.size + 1]
  }

  lemma WholeRep(m: seq<nat>, m1: seq<nat>, pool: nat, h: Heap, a: seq<Chunk>, c: Chunk, b: seq<Chunk>, n: nat)
    requires Wf(h) && Rep(m, pool, h) && h.chunks == a + ([c] + b) && !c.used
    requires SizeOk(n) && n <= c.size < n + HEADER_SIZE
    requires OnlyLinks(m, m1, pool, h.free) && ListOk(m1, pool, Without(h.free, c.addr))
    ensures ChunkOk(c) && c.End() <= |m1|
    ensures var m', h' := UsedWords(m1, c), Carve(h, a, c, b, n).heap;
            Rep(m', pool, h') && forall d :: d in Used(h.chunks) ==> SameWords(m, m', d)
  {
    hide Tiles, Coalesced, IsLinkCell, SameWords, ListOk, Without;
    assert c in h.chunks;
    TilesBounds(h.chunks, h.lo, h.hi);
    var m', h' := UsedWords(m1, c), Carve(h, a, c, b, n).heap;
    var u := c.(used := true);
    CarveKeepsWf(h, a, c, b, n);
    assert u in h'.chunks by { assert u in [u] + b; }
    NoLinkCell(h', pool, u, c.addr);
    NoLinkCell(h', pool, u, c.End() - W);
    ListOkFrame(m1, m', pool, h'.free);
    TilesOne(c, c.addr, c.End());
    RepReplace(m, m', pool, h, h', a, [c], [u], b, c.addr, c.End());
    SetsConcat(a, [c] + b);
    SetsConcat([c], b);
  }

  // An aligned size is even, so the used mark does not disturb it.
  lemma TagFacts(n: nat)
    requires Aligned(n)
    ensures TagSize(n) == n && TagSize(n + 1) == n && MarkUsed(n) == n + 1 && MarkFree(n + 1) == n
    ensures n % 2 == 0 && (n + 1) % 2 == 1
  {
    EvenFacts(2 * (n / 4));
    assert n == 2 * (2 * (n / 4));
  }

  lemma EvenFacts(k: nat)
    ensures (2 * k) % 2 == 0 && (2 * k + 1) % 2 == 1
  {
  }

  lemma ChunkWords(m: seq<nat>, pool: nat, h: Heap, c: Chunk)
    requires Wf(h) && Rep(m, pool, h) && c in h.chunks
    ensures W <= c.addr && c.End() <= |m| && ChunkOk(c) && h.lo <= c.addr && c.End() <= h.hi < |m|
    ensures m[c.addr] == Tag(c) && m[c.End() - W] == Tag(c)
    ensures TagSize(Tag(c)) == c.size && (Tag(c) % 2 == 0 <==> !c.used)
  {
    hide Tiles, Coalesced, TagSize, ListOk;
    TilesBounds(h.chunks, h.lo, h.hi);
    TagFacts(c.size);
    assert Tagged(m, c);
  }

  lemma HeaderKept(m: seq<nat>, m': seq<nat>, pool: nat, h: Heap, c: Chunk)
    requires Wf(h) && Rep(m, pool, h) && c in h.chunks && OnlyLinks(m, m', pool, h.free)
    ensures |m'| == |m| && c.End() <= |m| && m'[c.addr] == Tag(c)
  {
    hide Tiles, Coalesced, IsLinkCell;
    ChunkWords(m, pool, h, c);
    NoLinkCell(h, pool, c, c.addr);
  }

  // Position of an address in the free list.
  lemma SplitFree(fl: seq<nat>, x: nat) returns (a: seq<nat>, b: seq<nat>)
    requires Distinct(fl) && x in fl
    ensures fl == a + ([x] + b) && Without(fl, x) == a + b
  {
    var k :| 0 <= k < |fl| && fl[k] == x;
    WithoutAt(fl, k);
    a, b := fl[..k], fl[k + 1..];
  }

  // -- joining --------------------------------------------------------------

  /** While c is being freed, memory differs from m only in the headers of c and of the joined
      chunk, and in links. */
  ghost predicate Stage(m: seq<nat>, m': seq<nat>, pool: nat, h: Heap, c: Chunk, j: Chunk) {
    && |m'| == |m|
    && forall x :: 0 <= x < |m| && x != c.addr && x != j.addr && !IsLinkCell(x, pool, h.free) ==> m'[x] == m[x]
  }

  // Extent of the joined chunk.
  lemma JoinedExtent(h: Heap, a: seq<Chunk>, c: Chunk, b: seq<Chunk>)
    requires Tiles(h.chunks, h.lo, h.hi) && h.chunks == a + ([c] + b)
    ensures var l, r, j := FreeLast(a), FreeFirst(b), Joined(a, c, b);
            && c in h.chunks && (forall d :: d in l ==> d in h.chunks) && (forall d :: d in r ==> d in h.chunks)
            && j.addr + Total(l) == c.addr && c.End() + Total(r) == j.End()
            && (l != [] ==> l[0].addr == j.addr && l[0].End() == c.addr && Total(l) == l[0].size)
            && (r != [] ==> r[0].addr == c.End() && Total(r) == r[0].size)
            && (l == [] ==> Total(l) == 0) && (r == [] ==> Total(r) == 0)
            && Aligned(Total(l)) && Aligned(Total(r)) && ChunkOk(c) && Aligned(c.size)
            && Tiles(l + ([c] + r), j.addr, j.End()) && h.lo <= j.addr && j.End() <= h.hi
  {
    hide Coalesced, Tiles, ButFreeFirst, ButFreeLast;
    var l, r, j := FreeLast(a), FreeFirst(b), Joined(a, c, b);
    AroundJoined(a, c, b);
    var start, end := MiddleBounds(ButFreeLast(a), l + ([c] + r), ButFreeFirst(b), h.lo, h.hi);
    JoinedTiles(a, c, b, start, end);
    TilesOne(j, start, end);
    var x := TilesSplit(l, [c] + r, start, end);
    var y := TilesSplit([c], r, x, end);
    TilesOne(c, x, y);
    TilesShort(l, start, x);
    TilesShort(r, y, end);
    assert l != [] ==> l[1..] == [];
    assert r != [] ==> r[1..] == [];
    MiddleExtent(ButFreeLast(a), l + ([c] + r), ButFreeFirst(b), h.lo, h.hi, start, end);
  }

  // The word before c is the tail of its left neighbour or the border, and it is even exactly
  // when that neighbour is free; likewise for the word behind c.
  lemma NeighbourWords(m: seq<nat>, pool: nat, h: Heap, a: seq<Chunk>, c: Chunk, b: seq<Chunk>)
    requires Wf(h) && Rep(m, pool, h) && h.chunks == a + ([c] + b)
    ensures W <= c.addr && c.End() < |m|
    ensures !IsLinkCell(c.addr - W, pool, h.free) && !IsLinkCell(c.End(), pool, h.free)
    ensures m[c.addr - W] % 2 == 0 <==> FreeLast(a) != []
    ensures FreeLast(a) != [] ==> m[c.addr - W] == FreeLast(a)[0].size && !FreeLast(a)[0].used
    ensures m[c.End()] % 2 == 0 <==> FreeFirst(b) != []
    ensures FreeFirst(b) != [] ==> m[c.End()] == FreeFirst(b)[0].size
  {
    hide Coalesced, IsLinkCell, Tiles, ListOk;
    var start, end := MiddleBounds(a, [c], b, h.lo, h.hi);
    TilesOne(c, start, end);
    assert c in h.chunks;
    ChunkWords(m, pool, h, c);
    BorderNoLink(h, pool);
    if a != [] {
      var l := a[|a| - 1];
      assert l in h.chunks;
      ChunkWords(m, pool, h, l);
      NoLinkCell(h, pool, l, l.End() - W);
    } else {
      TilesNil(h.lo, start);
    }
    if b != [] {
      var r := b[0];
      assert r in h.chunks;
      ChunkWords(m, pool, h, r);
      NoLinkCell(h, pool, r, r.addr);
    } else {
      TilesNil(end, h.hi);
    }
  }

  lemma TilesNil(lo: nat, hi: nat)
    requires Tiles([], lo, hi)
    ensures lo == hi
  {
  }

  lemma NoLinkHeader(m: seq<nat>, pool: nat, h: Heap, c: Chunk)
    requires Wf(h) && Rep(m, pool, h) && c in h.chunks
    ensures !IsLinkCell(c.addr, pool, h.free)
    ensures Aligned(c.size) && ChunkOk(c) && c.End() <= h.hi < |m|
  {
    hide Tiles, Coalesced, IsLinkCell;
    ChunkWords(m, pool, h, c);
    NoLinkCell(h, pool, c, c.addr);
  }

  // The words of a free chunk.
  lemma FreeWordsOf(m: seq<nat>, pool: nat, h: Heap, l: Chunk)
    requires Wf(h) && Rep(m, pool, h) && l in h.chunks && !l.used
    ensures l.addr in h.free && Distinct(h.free) && ChunkOk(l) && TagSize(l.size) == l.size
    ensures l.End() <= |m| && m[l.addr] == l.size && !IsLinkCell(l.addr, pool, h.free)
  {
    hide Tiles, Coalesced, IsLinkCell;
    ChunkWords(m, pool, h, l);
    NoLinkHeader(m, pool, h, l);
    assert l.addr in Elems(h.free);
  }

  // Marking c as free does not touch the list.
  lemma Marked(m: seq<nat>, pool: nat, h: Heap, c: Chunk)
    requires Wf(h) && Rep(m, pool, h) && c in h.chunks && c.used
    ensures c.addr < |m| && MarkFree(m[c.addr]) == c.size
    ensures ListOk(m[c.addr := c.size], pool, h.free)
  {
    hide Tiles, Coalesced, IsLinkCell, ListOk;
    ChunkWords(m, pool, h, c);
    NoLinkHeader(m, pool, h, c);
    TagFacts(c.size);
    ListOkFrame(m, m[c.addr := c.size], pool, h.free);
  }

  lemma Sublist(pool: nat, small: seq<nat>, big: seq<nat>)
    requires forall x :: x in small ==> x in big
    ensures forall x :: IsLinkCell(x, pool, small) ==> IsLinkCell(x, pool, big)
  {
  }

  // A word that is no link of a longer list is none of a shorter one either.
  lemma SublistFrame(m: seq<nat>, cell: nat, v: nat, pool: nat, big: seq<nat>, small: seq<nat>)
    requires ListOk(m, pool, small) && (forall x :: x in small ==> x in big)
    requires cell < |m| && !IsLinkCell(cell, pool, big)
    ensures ListOk(m[cell := v], pool, small)
  {
    hide ListOk, IsLinkCell;
    Sublist(pool, small, big);
    ListOkFrame(m, m[cell := v], pool, small);
  }

  lemma LeftJoined(m: seq<nat>, m1: seq<nat>, m2: seq<nat>, pool: nat, h: Heap,
                   a: seq<Chunk>, c: Chunk, b: seq<Chunk>, p: seq<nat>, q: seq<nat>)
    requires Wf(h) && Rep(m, pool, h) && h.chunks == a + ([c] + b) && FreeLast(a) != []
    requires c.addr < |m| && m1 == m[c.addr := c.size]
    requires h.free == p + ([FreeLast(a)[0].addr] + q) && Without(h.free, FreeLast(a)[0].addr) == p + q
    requires OnlyLinks(m1, m2, pool, h.free) && ListOk(m2, pool, p + q)
    ensures var l, j := FreeLast(a)[0], Joined(a, c, b);
            && |m2| == |m| && l.addr < |m| && m2[c.addr] == c.size && m2[l.addr] == l.size
            && l.addr == j.addr && Total(FreeLast(a)) == l.size
            && var m3: seq<nat> := m2[l.addr := l.size + c.size];
               Stage(m, m3, pool, h, c, j) && ListOk(m3, pool, Delist(h.free, FreeLast(a)))
  {
    hide Wf, Tiles, Coalesced, IsLinkCell, ListOk, FreeLast, FreeFirst, Joined, Total, Rep, Without;
    WfParts(h);
    JoinedExtent(h, a, c, b);
    NeighbourWords(m, pool, h, a, c, b);
    var l := FreeLast(a)[0];
    assert l in FreeLast(a);
    FreeWordsOf(m, pool, h, l);
    NoLinkHeader(m, pool, h, c);
    SublistFrame(m2, l.addr, l.size + c.size, pool, h.free, p + q);
  }

  lemma LeftNotJoined(m: seq<nat>, pool: nat, h: Heap, a: seq<Chunk>, c: Chunk, b: seq<Chunk>)
    requires c.addr < |m| && FreeLast(a) == []
    ensures Stage(m, m[c.addr := c.size], pool, h, c, Joined(a, c, b))
    ensures Joined(a, c, b).addr == c.addr && Total(FreeLast(a)) == 0 && Delist(h.free, FreeLast(a)) == h.free
  {
  }

  lemma LeftSizeEven(h: Heap, a: seq<Chunk>, c: Chunk, b: seq<Chunk>)
    requires Wf(h) && h.chunks == a + ([c] + b)
    ensures TagSize(Total(FreeLast(a)) + c.size) == Total(FreeLast(a)) + c.size
    ensures TagSize(Joined(a, c, b).size) == Joined(a, c, b).size && ChunkOk(Joined(a, c, b))
  {
    hide Wf, Tiles, Coalesced, FreeLast, FreeFirst, Total, TagSize, Aligned;
    WfParts(h);
    JoinedExtent(h, a, c, b);
    var l, r, j := FreeLast(a), FreeFirst(b), Joined(a, c, b);
    AlignedSum(Total(l), c.size);
    AlignedSum(Total(l) + c.size, Total(r));
    TagFacts(Total(l) + c.size);
    TagFacts(j.size);
  }

  lemma AlignedWord()
    ensures Aligned(W)
  {
  }

  lemma AlignedLess(a: nat, b: nat)
    requires Aligned(a) && Aligned(b) && b <= a
    ensures Aligned(a - b)
  {
  }

  lemma AlignedSum(a: nat, b: nat)
    requires Aligned(a) && Aligned(b)
    ensures Aligned(a + b)
  {
  }

  lemma StillListed(h: Heap, a: seq<Chunk>, c: Chunk, b: seq<Chunk>)
    requires Wf(h) && h.chunks == a + ([c] + b)
    ensures var fl := Delist(h.free, FreeLast(a));
            Distinct(fl) && (forall x :: x in fl ==> x in h.free) && (FreeFirst(b) != [] ==> c.End() in fl)
  {
    JoinedExtent(h, a, c, b);
    var l, r := FreeLast(a), FreeFirst(b);
    DelistKeeps(h.free, l);
    var fl := Delist(h.free, l);
    assert forall x :: x in fl <==> x in Elems(fl);
    if r != [] {
      assert r[0] in r && !r[0].used && r[0].addr in FreeAddrs(h.chunks);
      assert c.End() in Elems(h.free);
      assert l != [] ==> FreeAddrs(l) == {l[0].addr};
      TilesBounds(h.chunks, h.lo, h.hi);
    }
  }

  lemma StageWord(m: seq<nat>, m1: seq<nat>, pool: nat, h: Heap, a: seq<Chunk>, c: Chunk, b: seq<Chunk>)
    requires Wf(h) && Rep(m, pool, h) && h.chunks == a + ([c] + b) && Stage(m, m1, pool, h, c, Joined(a, c, b))
    ensures c.End() < |m1| && m1[c.End()] == m[c.End()]
  {
    JoinedExtent(h, a, c, b);
    NeighbourWords(m, pool, h, a, c, b);
    NoLinkHeader(m, pool, h, c);
  }

  lemma RightJoined(m: seq<nat>, m1: seq<nat>, m2: seq<nat>, pool: nat, h: Heap,
                    a: seq<Chunk>, c: Chunk, b: seq<Chunk>, p: seq<nat>, q: seq<nat>)
    requires Wf(h) && Rep(m, pool, h) && h.chunks == a + ([c] + b) && FreeFirst(b) != []
    requires Stage(m, m1, pool, h, c, Joined(a, c, b))
    requires Joined(a, c, b).addr < |m1| && m1[Joined(a, c, b).addr] == Total(FreeLast(a)) + c.size
    requires var fl := Delist(h.free, FreeLast(a));
             && (forall x :: x in fl ==> x in h.free)
             && fl == p + ([c.End()] + q) && Without(fl, c.End()) == p + q
             && OnlyLinks(m1, m2, pool, fl) && ListOk(m2, pool, p + q)
    ensures var fl, j := Delist(h.free, FreeLast(a)), Joined(a, c, b);
            && |m2| == |m1| && c.End() < |m2|
            && m2[j.addr] + m2[c.End()] == j.size
            && var m3: seq<nat> := m2[j.addr := j.size];
               Stage(m, m3, pool, h, c, j) && ListOk(m3, pool, Delist(fl, FreeFirst(b)))
  {
    hide Wf, Tiles, Coalesced, IsLinkCell, ListOk, FreeLast, FreeFirst, Total, Rep, Without;
    WfParts(h);
    JoinedExtent(h, a, c, b);
    NeighbourWords(m, pool, h, a, c, b);
    StageWord(m, m1, pool, h, a, c, b);
    NoLinkJoined(m, pool, h, a, c, b);
    NoLinkHeader(m, pool, h, c);
    var fl, j := Delist(h.free, FreeLast(a)), Joined(a, c, b);
    Sublist(pool, fl, h.free);
    assert forall x :: x in p + q ==> x in fl by { assert forall x :: x in fl <==> x in p || x == c.End() || x in q; }
    SublistFrame(m2, j.addr, j.size, pool, h.free, p + q);
  }

  lemma NoLinkJoined(m: seq<nat>, pool: nat, h: Heap, a: seq<Chunk>, c: Chunk, b: seq<Chunk>)
    requires Wf(h) && Rep(m, pool, h) && h.chunks == a + ([c] + b)
    ensures !IsLinkCell(Joined(a, c, b).addr, pool, h.free)
  {
    hide Wf, Rep, Tiles, Coalesced, IsLinkCell, ListOk, FreeFirst, FreeLast, Total;
    WfParts(h);
    JoinedExtent(h, a, c, b);
    var l := FreeLast(a);
    assert l != [] ==> l[0] in l;
    NoLinkHeader(m, pool, h, if l == [] then c else l[0]);
  }

  lemma RightNotJoined(h: Heap, a: seq<Chunk>, c: Chunk, b: seq<Chunk>)
    requires FreeFirst(b) == []
    ensures Joined(a, c, b).size == Total(FreeLast(a)) + c.size
    ensures Delist(Delist(h.free, FreeLast(a)), FreeFirst(b)) == Delist(h.free, FreeLast(a))
  {
  }

  lemma JoinedReady(m: seq<nat>, pool: nat, h: Heap, a: seq<Chunk>, c: Chunk, b: seq<Chunk>)
    requires Wf(Join(h, a, c, b)) && pool < h.lo && h.hi < |m|
    ensures Spaced([Joined(a, c, b).addr] + Delist(Delist(h.free, FreeLast(a)), FreeFirst(b)), pool, |m|)
  {
    hide Wf, Spaced;
    FreeSpaced(Join(h, a, c, b), pool, |m|);
  }

  lemma DelistSublist(h: Heap, a: seq<Chunk>, b: seq<Chunk>)
    requires Distinct(h.free)
    ensures forall x :: x in Delist(Delist(h.free, FreeLast(a)), FreeFirst(b)) ==> x in h.free
  {
    var l, r := FreeLast(a), FreeFirst(b);
    DelistKeeps(h.free, l);
    DelistKeeps(Delist(h.free, l), r);
    assert forall x :: x in h.free <==> x in Elems(h.free);
    assert forall x :: x in Delist(Delist(h.free, l), r) <==> x in Elems(Delist(Delist(h.free, l), r));
  }

  // The links of the list headed by j are links of the old list or lie inside j.
  lemma NewLinks(j: Chunk, fl: seq<nat>, big: seq<nat>, pool: nat)
    requires ChunkOk(j) && forall x :: x in fl ==> x in big
    ensures forall x :: IsLinkCell(x, pool, [j.addr] + fl) ==> IsLinkCell(x, pool, big) || j.addr < x < j.End()
  {
    assert forall x :: x in [j.addr] + fl <==> x == j.addr || x in fl;
  }

  lemma Inserted(m: seq<nat>, m1: seq<nat>, m2: seq<nat>, pool: nat, h: Heap, a: seq<Chunk>, c: Chunk, b: seq<Chunk>)
    requires Wf(h) && Rep(m, pool, h) && h.chunks == a + ([c] + b)
    requires Stage(m, m1, pool, h, c, Joined(a, c, b))
    requires Joined(a, c, b).addr < |m1| && m1[Joined(a, c, b).addr] == Joined(a, c, b).size
    requires OnlyLinks(m1, m2, pool, [Joined(a, c, b).addr] + Delist(Delist(h.free, FreeLast(a)), FreeFirst(b)))
    ensures var j := Joined(a, c, b);
            && |m2| == |m| && j.End() <= h.hi < |m| && ChunkOk(j) && TagSize(j.size) == j.size
            && m2[j.addr] == j.size && ChangedWithin(m, m2, pool, h, j.addr, j.End())
  {
    hide Wf, Tiles, Coalesced, ListOk, FreeLast, FreeFirst, Joined, Total, Rep, Without, Delist, TagSize, IsLinkCell;
    WfParts(h);
    OfRep(m, pool, h);
    JoinedExtent(h, a, c, b);
    LeftSizeEven(h, a, c, b);
    NoLinkJoined(m, pool, h, a, c, b);
    DelistSublist(h, a, b);
    var j, fl := Joined(a, c, b), Delist(Delist(h.free, FreeLast(a)), FreeFirst(b));
    NewLinks(j, fl, h.free, pool);
  }

  lemma JoinFree(h: Heap, a: seq<Chunk>, c: Chunk, b: seq<Chunk>)
    ensures Join(h, a, c, b).free == [Joined(a, c, b).addr] + Delist(Delist(h.free, FreeLast(a)), FreeFirst(b))
  {
  }

  lemma OfRep(m: seq<nat>, pool: nat, h: Heap)
    requires Rep(m, pool, h)
    ensures pool + 2 * W == h.lo && h.hi < |m|
  {
  }

  lemma UsedAround(a: seq<Chunk>, j: Chunk, b: seq<Chunk>)
    requires !j.used
    ensures Used(a + ([j] + b)) == Used(a) + Used(b)
  {
    SetsConcat(a, [j] + b);
    SetsConcat([j], b);
    assert Used([j]) == {};
  }

  lemma TailChanged(m: seq<nat>, m2: seq<nat>, pool: nat, h: Heap, j: Chunk)
    requires ChangedWithin(m, m2, pool, h, j.addr, j.End()) && ChunkOk(j) && j.End() <= |m|
    ensures ChangedWithin(m, m2[j.End() - W := j.size], pool, h, j.addr, j.End())
  {
    hide IsLinkCell;
  }

  lemma JoinRep(m: seq<nat>, m2: seq<nat>, pool: nat, h: Heap, a: seq<Chunk>, c: Chunk, b: seq<Chunk>)
    requires Wf(h) && Rep(m, pool, h) && h.chunks == a + ([c] + b) && c.used
    requires Wf(Join(h, a, c, b)) && Used(Join(h, a, c, b).chunks) == Used(h.chunks) - {c}
    requires var j := Joined(a, c, b);
             && ChunkOk(j) && j.End() <= h.hi < |m| && |m2| == |m|
             && m2[j.addr] == j.size && ChangedWithin(m, m2, pool, h, j.addr, j.End())
             && ListOk(m2, pool, Join(h, a, c, b).free)
    ensures var j := Joined(a, c, b);
            var m3: seq<nat> := m2[j.End() - W := j.size];
            && Rep(m3, pool, Join(h, a, c, b))
            && forall d :: d in Used(Join(h, a, c, b).chunks) ==> SameWords(m, m3, d)
  {
    hide Wf, Rep, Tiles, Coalesced, IsLinkCell, ListOk, FreeLast, FreeFirst, ButFreeLast, ButFreeFirst, Total,
         SameWords, Delist, Used, ChangedWithin;
    WfParts(h);
    OfRep(m, pool, h);
    JoinedExtent(h, a, c, b);
    AroundJoined(a, c, b);
    var l, r, j, h' := FreeLast(a), FreeFirst(b), Joined(a, c, b), Join(h, a, c, b);
    var m3: seq<nat> := m2[j.End() - W := j.size];
    assert j in h'.chunks by { assert j in [j] + ButFreeFirst(b); }
    NoLinkCell(h', pool, j, j.End() - W);
    ListOkFrame(m2, m3, pool, h'.free);
    TailChanged(m, m2, pool, h, j);
    RepReplace(m, m3, pool, h, h', ButFreeLast(a), l + ([c] + r), [j], ButFreeFirst(b), j.addr, j.End());
    UsedAround(ButFreeLast(a), j, ButFreeFirst(b));
  }

  lemma InitSizes(segment: nat, size: nat)
    requires size > 6 * W && segment + size < MODULUS
    ensures var start, end := AlignUp(segment) + W, AlignDown(segment + size);
            && segment <= start - W < segment + W && segment + size - W < end <= segment + size
            && Aligned(start) && Aligned(start + W)
            && (end - start >= 2 * HEADER_SIZE ==>
                  SizeOk(end - start - 2 * W) && TagSize(end - start - 2 * W) == end - start - 2 * W)
  {
    hide AlignUp, AlignDown, Aligned, TagSize;
    AlignBounds(segment);
    AlignBounds(segment + size);
    var start, end := AlignUp(segment) + W, AlignDown(segment + size);
    AlignedAbove(AlignUp(segment));
    if end - start >= 2 * HEADER_SIZE {
      AlignedDifference(end, start);
      TagFacts(end - start - 2 * W);
    }
  }

  lemma AlignBounds(n: nat)
    ensures Aligned(AlignDown(n)) && AlignDown(n) <= n < AlignDown(n) + W
    ensures n + W <= MODULUS ==> Aligned(AlignUp(n)) && n <= AlignUp(n) < n + W
  {
    hide AlignUp;
    if n + W <= MODULUS {
      AlignUpFacts(n);
    }
  }

  lemma AlignedAbove(n: nat)
    requires Aligned(n)
    ensures Aligned(n + W) && Aligned(n + W + W)
  {
  }

  lemma AlignedDifference(a: nat, b: nat)
    requires Aligned(a) && Aligned(b) && a >= b + 2 * W
    ensures Aligned(a - b - 2 * W)
  {
  }

  lemma EmptyList(m: seq<nat>, pool: nat)
    requires pool < |m| && m[pool] == 0
    ensures ListOk(m, pool, [])
  {
  }

  lemma InitSpaced(pool: nat, lo: nat, hi: nat, size: nat)
    requires Aligned(lo) && W <= lo <= hi < size && SizeOk(hi - lo) && pool < lo
    ensures Wf(Init(lo, hi)) && Spaced([lo] + [], pool, size)
  {
    InitWf(lo, hi);
    FreeSpaced(Init(lo, hi), pool, size);
    assert [lo] + [] == [lo];
  }

  lemma InitRep(m: seq<nat>, m': seq<nat>, pool: nat, lo: nat, hi: nat)
    requires pool + 2 * W == lo && lo <= hi < |m| && SizeOk(hi - lo)
    requires m[lo - W] == W + 1 && m[hi] == W + 1 && m[lo] == hi - lo && m[hi - W] == hi - lo
    requires OnlyLinks(m, m', pool, [lo] + []) && ListOk(m', pool, [lo] + [])
    ensures Rep(m', pool, Init(lo, hi))
  {
    hide ListOk;
    assert [lo] + [] == [lo];
    assert forall x :: IsLinkCell(x, pool, [lo]) ==> x == pool || x == lo + W || x == lo + 2 * W;
  }

  // A word inside a used chunk, between its tags, is not part of the heap structure.
  lemma StoreRep(m: seq<nat>, pool: nat, h: Heap, c: Chunk, x: nat, v: nat)
    requires Wf(h) && Rep(m, pool, h) && c in h.chunks && c.used && c.addr + W <= x < c.End() - W
    ensures x < |m| && Rep(m[x := v], pool, h)
    ensures forall d :: d in h.chunks && d != c ==> SameWords(m, m[x := v], d)
  {
    hide Wf, Tiles, Coalesced, IsLinkCell, ListOk;
    WfParts(h);
    TilesBounds(h.chunks, h.lo, h.hi);
    NoLinkCell(h, pool, c, x);
    ListOkFrame(m, m[x := v], pool, h.free);
    forall d | d in h.chunks && d != c ensures d.End() <= c.addr || c.End() <= d.addr {
      TilesDisjoint(h.chunks, h.lo, h.hi, c, d);
    }
  }

  /** ffs_mpool_t and the memory it manages. */
  class Pool {
    const mem: array<nat>
    var pool: nat
    ghost var heap: Heap

    constructor (mem: array<nat>)
      ensures this.mem == mem
    {
      this.mem := mem;
      pool := 0;
      heap := Init(0, 0);
    }

    ghost predicate Valid()
      reads this, mem
    {
      Wf(heap) && Rep(mem[..], pool, heap) && mem.Length < MODULUS
    }

    /** ffs_init; the first requirement is the assertion in the source, the second says that the
        segment exists. */
    method Initialize(segment: nat, size: nat) returns (r: nat)
      requires segment > 0 && size > 6 * W
      requires segment + size <= mem.Length < MODULUS
      modifies this, mem
      ensures var start, end := AlignUp(segment) + W, AlignDown(segment + size);
              if end - start < 2 * HEADER_SIZE then r == 0
              else r == AlignUp(segment) == pool && Valid() && heap == Init(start + W, end - W)
    {
      hide Wf, Linked, Spaced, OnlyLinks, ListOk, Rep, AlignUp, AlignDown, Aligned, SizeOk, TagSize;
      InitSizes(segment, size);
      var start: nat, end: nat := segment, segment + size;
      start := AlignUp(start);
      pool := start;
      start := start + W;
      end := AlignDown(end);
      mem[pool] := 0;
      if end - start < 2 * HEADER_SIZE {
        return 0;
      }
      var chunk, after := WriteInit(start, end);
      ghost var m := mem[..];
      heap := Init(chunk, after);
      EmptyList(m, pool);
      InitSpaced(pool, chunk, after, |m|);
      InsertChunk(mem, pool, chunk, []);
      InitRep(m, mem[..], pool, chunk, after);
      r := pool;
    }

    /** The borders and tags written by ffs_init. */
    method WriteInit(start: nat, end: nat) returns (chunk: nat, after: nat)
      requires start + 2 * HEADER_SIZE <= end <= mem.Length && SizeOk(end - start - 2 * W)
      modifies mem
      ensures chunk == start + W && after == end - W
      ensures mem[start] == W + 1 && mem[after] == W + 1
      ensures mem[chunk] == after - chunk && mem[after - W] == after - chunk
      ensures forall x :: 0 <= x < mem.Length && x < start ==> mem[x] == old(mem[x])
    {
      hide TagSize, Aligned;
      AlignedWord();
      TagFacts(W);
      TagFacts(end - start - 2 * W);
      mem[start] := W + 1;
      chunk := start + TagSize(mem[start]);
      mem[chunk] := end - start - 2 * W;
      after := chunk + TagSize(mem[chunk]);
      mem[after - W] := mem[chunk];
      mem[after] := W + 1;
    }

    /** ffs_alloc.  Memory holds a heap afterwards if and only if the size, header and tail added and
        aligned, did not wrap around to zero, or there is no free chunk. */
    method Allocate(request: nat) returns (r: nat)
      requires Valid() && request < MODULUS
      modifies this`heap, mem
      ensures (exists h' :: Wf(h') && Rep(mem[..], pool, h')) <==> ChunkSize(request) != 0 || old(heap.free) == []
      ensures ChunkSize(request) != 0 || old(heap.free) == [] ==>
                && Valid()
                && var res := Alloc(old(heap), ChunkSize(request));
                   heap == res.heap && r == if res.block.Some? then res.block.value else 0
      ensures ChunkSize(request) != 0 || old(heap.free) == [] ==>
                forall d :: d in Used(old(heap.chunks)) ==> SameWords(old(mem[..]), mem[..], d)
      ensures r == 0 ==> mem[..] == old(mem[..])
      ensures ChunkSize(request) == 0 && old(heap.free) != [] ==>
                r == old(heap).hi + W || Live(old(heap), r)
    {
      hide Wf, Rep, ListOk, SameWords, ChunkSize, SizeAt, Used, Carve, Aligned, Alloc, Served, ServedFrom;
      ChunkSizeFits(request);
      var size := ChunkSize(request);
      var iter := FindFit(size);
      if iter == 0 {
        AllocFails(heap, size);
        SameWordsRefl(mem[..]);
        return 0;
      }
      if size == 0 {
        // every chunk has HEADER_SIZE bytes, so this is the splitting branch
        r := SplitZero(iter);
        return;
      }
      ghost var a, c, b := AllocCarves(heap, size);
      CarveKeepsWf(heap, a, c, b, size);
      if mem[iter] >= size + HEADER_SIZE {
        r := SplitChunk(iter, size, a, c, b);
      } else {
        r := TakeChunk(iter, size, a, c, b);
      }
      heap := Carve(heap, a, c, b, size).heap;
    }

    /** Splitting branch of ffs_alloc with size 0. */
    method SplitZero(iter: nat) returns (r: nat)
      requires Valid() && heap.free != [] && iter == heap.free[0]
      modifies mem
      ensures forall h' :: Wf(h') ==> !Rep(mem[..], pool, h')
      ensures r > 0 && (r == heap.hi + W || Live(heap, r))
    {
      hide Wf, Rep, Live;
      FreeListed(heap, iter);
      ghost var c := heap.chunks[Locate(heap.chunks, iter)];
      assert c in heap.chunks;
      ghost var m := mem[..];
      ChunkWords(m, pool, heap, c);
      forall h' | Wf(h') ensures c.End() < |m| && !Rep(SplitWords(m, c, 0), pool, h') {
        ZeroSizeBreaks(m, pool, heap, c, h');
      }
      ZeroSizeResult(heap, c);
      r := WriteSplit(iter, 0, c);
    }

    /** Splitting branch of ffs_alloc. */
    method SplitChunk(iter: nat, size: nat, ghost a: seq<Chunk>, ghost c: Chunk, ghost b: seq<Chunk>) returns (r: nat)
      requires Wf(heap) && Rep(mem[..], pool, heap) && heap.chunks == a + ([c] + b) && !c.used
      requires c.addr == iter && SizeOk(size) && c.size >= size + HEADER_SIZE
      modifies mem
      ensures Rep(mem[..], pool, Carve(heap, a, c, b, size).heap) && r == Served(c, size).addr + W
      ensures forall d :: d in Used(heap.chunks) ==> SameWords(old(mem[..]), mem[..], d)
    {
      hide Wf, Rep, SameWords, Used, Carve;
      SplitRep(mem[..], pool, heap, a, c, b, size);
      ChunkWords(mem[..], pool, heap, c);
      r := WriteSplit(iter, size, c);
    }

    method WriteSplit(iter: nat, size: nat, ghost c: Chunk) returns (r: nat)
      requires ChunkOk(c) && c.addr == iter && (SizeOk(size) || size == 0) && c.size >= size + HEADER_SIZE
      requires c.End() < mem.Length && mem[iter] == c.size
      modifies mem
      ensures mem[..] == SplitWords(old(mem[..]), c, size) && r == c.End() - size + W
    {
      hide TagSize, MarkUsed, Aligned;
      AlignedLess(c.size, size);
      TagFacts(c.size - size);
      TagFacts(size);
      mem[iter] := mem[iter] - size;
      mem[iter + TagSize(mem[iter]) - W] := mem[iter];
      var chunk: nat := iter + TagSize(mem[iter]);
      mem[chunk] := size;
      mem[chunk] := MarkUsed(mem[chunk]);
      mem[chunk + TagSize(mem[chunk]) - W] := mem[chunk];
      r := chunk + W;
    }

    /** Whole-chunk branch of ffs_alloc. */
    method TakeChunk(iter: nat, size: nat, ghost a: seq<Chunk>, ghost c: Chunk, ghost b: seq<Chunk>) returns (r: nat)
      requires Wf(heap) && Rep(mem[..], pool, heap) && heap.chunks == a + ([c] + b) && !c.used
      requires c.addr == iter && c.addr in heap.free && SizeOk(size) && size <= c.size < size + HEADER_SIZE
      modifies mem
      ensures Rep(mem[..], pool, Carve(heap, a, c, b, size).heap) && r == Served(c, size).addr + W
      ensures forall d :: d in Used(heap.chunks) ==> SameWords(old(mem[..]), mem[..], d)
    {
      hide SameWords, Used, Carve, Tiles, Coalesced, OnlyLinks, ListOk, IsLinkCell, Without, Tagged;
      ghost var m := mem[..];
      ChunkWords(m, pool, heap, c);
      ghost var p, q := SplitFree(heap.free, c.addr);
      RemoveChunk(mem, pool, iter, p, q);
      ghost var m1 := mem[..];
      HeaderKept(m, m1, pool, heap, c);
      WholeRep(m, m1, pool, heap, a, c, b, size);
      TagFacts(c.size);
      mem[iter] := MarkUsed(mem[iter]);
      mem[iter + TagSize(mem[iter]) - W] := mem[iter];
      r := iter + W;
      assert mem[..] == UsedWords(m1, c);
    }

    /** The search of ffs_alloc. */
    method FindFit(size: nat) returns (iter: nat)
      requires Valid()
      ensures var k := FirstFitting(heap, size, 0);
              if k == |heap.free| then iter == 0
              else iter == heap.free[k] && 0 < iter < mem.Length && mem[iter] == SizeAt(heap.chunks, iter)
    {
      hide Wf, Tiles, Coalesced, SizeAt;
      iter := mem[pool];
      ghost var k: nat := 0;
      if heap.free != [] { FreeWords(mem[..], pool, heap, 0); }
      while iter != 0 && mem[iter] < size
        invariant k <= |heap.free|
        invariant iter == if k < |heap.free| then heap.free[k] else 0
        invariant k < |heap.free| ==> 0 < iter && iter + 4 * W <= mem.Length && mem[iter] == SizeAt(heap.chunks, iter)
        invariant FirstFitting(heap, size, 0) == FirstFitting(heap, size, k)
        decreases |heap.free| - k
      {
        FreeWords(mem[..], pool, heap, k);
        iter := mem[iter + 2 * W];
        k := k + 1;
        if k < |heap.free| { FreeWords(mem[..], pool, heap, k); }
      }
    }

    /** A client writes a word of its own block. */
    method Store(block: nat, x: nat, v: nat)
      requires Valid() && Live(heap, block)
      requires block <= x < heap.chunks[Locate(heap.chunks, block - W)].End() - W
      modifies mem
      ensures Valid() && x < mem.Length && mem[..] == old(mem[..])[x := v]
      ensures forall d :: d in Used(heap.chunks) && d.addr + W != block ==> SameWords(old(mem[..]), mem[..], d)
    {
      hide Wf, Rep, SameWords;
      ghost var c := heap.chunks[Locate(heap.chunks, block - W)];
      StoreRep(mem[..], pool, heap, c, x, v);
      mem[x] := v;
    }

    /** ffs_free of a live block. */
    method Release(block: nat)
      requires Valid() && Live(heap, block)
      modifies this`heap, mem
      ensures Valid() && heap == Free(old(heap), block)
      ensures forall d :: d in Used(heap.chunks) ==> SameWords(old(mem[..]), mem[..], d)
    {
      hide Wf, Rep, SameWords, Used, Join, Tiles, Coalesced;
      ghost var h, m := heap, mem[..];
      ghost var i := Locate(h.chunks, block - W);
      ghost var a, b := SplitAt(h.chunks, i);
      ghost var c := h.chunks[i];
      FreeOutcome(h, block);
      heap := Join(h, a, c, b);
      assert heap == Free(h, block);
      JoinKeepsWf(h, a, c, b);
      ReleaseChunk(block - W, a, c, b, h);
    }

    /** ffs_free, for the used chunk c between a and b of heap h. */
    method ReleaseChunk(hdr: nat, ghost a: seq<Chunk>, ghost c: Chunk, ghost b: seq<Chunk>, ghost h: Heap)
      requires Wf(h) && Rep(mem[..], pool, h) && h.chunks == a + ([c] + b) && c.used && c.addr == hdr
      requires Wf(Join(h, a, c, b)) && Used(Join(h, a, c, b).chunks) == Used(h.chunks) - {c}
      modifies mem
      ensures Rep(mem[..], pool, Join(h, a, c, b))
      ensures forall d :: d in Used(Join(h, a, c, b).chunks) ==> SameWords(old(mem[..]), mem[..], d)
    {
      hide Wf, Rep, Tiles, Coalesced, ListOk, FreeLast, FreeFirst, Joined, Total, Delist, Stage, Used, SameWords,
           Join, MarkFree;
      ghost var m := mem[..];
      var chunk := hdr;
      assert c in h.chunks;
      Marked(m, pool, h, c);
      mem[chunk] := MarkFree(mem[chunk]);
      assert mem[..] == m[c.addr := c.size];
      chunk := JoinLeft(chunk, a, c, b, h, m);
      JoinRight(chunk, a, c, b, h, m);
      Relist(chunk, a, c, b, h, m);
    }

    /** The end of ffs_free: list the joined chunk and set its tail. */
    method Relist(chunk: nat, ghost a: seq<Chunk>, ghost c: Chunk, ghost b: seq<Chunk>, ghost h: Heap,
                  ghost m: seq<nat>)
      requires Wf(h) && Rep(m, pool, h) && h.chunks == a + ([c] + b) && c.used
      requires Wf(Join(h, a, c, b)) && Used(Join(h, a, c, b).chunks) == Used(h.chunks) - {c}
      requires chunk == Joined(a, c, b).addr < mem.Length && mem[chunk] == Joined(a, c, b).size
      requires Stage(m, mem[..], pool, h, c, Joined(a, c, b))
      requires ListOk(mem[..], pool, Delist(Delist(h.free, FreeLast(a)), FreeFirst(b)))
      modifies mem
      ensures Rep(mem[..], pool, Join(h, a, c, b))
      ensures forall d :: d in Used(Join(h, a, c, b).chunks) ==> SameWords(m, mem[..], d)
    {
      hide Wf, Rep, ListOk, IsLinkCell, FreeLast, FreeFirst, Joined, Total, Delist, OnlyLinks, Spaced, Used,
           SameWords, ChangedWithin, TagSize, Join;
      ghost var j, m1 := Joined(a, c, b), mem[..];
      OfRep(m, pool, h);
      JoinedReady(m1, pool, h, a, c, b);
      InsertChunk(mem, pool, chunk, Delist(Delist(h.free, FreeLast(a)), FreeFirst(b)));
      ghost var m2 := mem[..];
      Inserted(m, m1, m2, pool, h, a, c, b);
      mem[chunk + TagSize(mem[chunk]) - W] := mem[chunk];
      assert mem[..] == m2[j.End() - W := j.size];
      JoinFree(h, a, c, b);
      JoinRep(m, m2, pool, h, a, c, b);
    }

    /** Joining with the left neighbour. */
    method JoinLeft(hdr: nat, ghost a: seq<Chunk>, ghost c: Chunk, ghost b: seq<Chunk>, ghost h: Heap,
                    ghost m: seq<nat>)
      returns (chunk: nat)
      requires Wf(h) && Rep(m, pool, h) && h.chunks == a + ([c] + b) && c.used
      requires hdr == c.addr < |m| && mem[..] == m[c.addr := c.size] && ListOk(mem[..], pool, h.free)
      modifies mem
      ensures chunk == Joined(a, c, b).addr < mem.Length && mem[chunk] == Total(FreeLast(a)) + c.size
      ensures Stage(m, mem[..], pool, h, c, Joined(a, c, b)) && ListOk(mem[..], pool, Delist(h.free, FreeLast(a)))
    {
      hide Wf, Rep, Tiles, Coalesced, ListOk, IsLinkCell, FreeLast, FreeFirst, Joined, Total, Without, Delist, Stage,
           OnlyLinks, TagSize;
      WfParts(h);
      JoinedExtent(h, a, c, b);
      NeighbourWords(m, pool, h, a, c, b);
      NoLinkHeader(m, pool, h, c);
      var before := hdr - W;
      assert mem[before] == m[before];
      if mem[before] % 2 == 0 {
        ghost var l := FreeLast(a)[0];
        FreeWordsOf(m, pool, h, l);
        before := before - TagSize(mem[before]) + W;
        ghost var m1 := mem[..];
        ghost var p, q := SplitFree(h.free, before);
        RemoveChunk(mem, pool, before, p, q);
        ghost var m2 := mem[..];
        mem[before] := mem[before] + mem[hdr];
        LeftJoined(m, m1, m2, pool, h, a, c, b, p, q);
        ghost var joined: nat := l.size + c.size;
        assert mem[..] == m2[l.addr := joined];
        chunk := before;
      } else {
        chunk := hdr;
        LeftNotJoined(m, pool, h, a, c, b);
      }
    }

    /** Joining with the right neighbour. */
    method JoinRight(chunk: nat, ghost a: seq<Chunk>, ghost c: Chunk, ghost b: seq<Chunk>, ghost h: Heap,
                     ghost m: seq<nat>)
      requires Wf(h) && Rep(m, pool, h) && h.chunks == a + ([c] + b) && c.used
      requires chunk == Joined(a, c, b).addr < mem.Length && mem[chunk] == Total(FreeLast(a)) + c.size
      requires Stage(m, mem[..], pool, h, c, Joined(a, c, b)) && ListOk(mem[..], pool, Delist(h.free, FreeLast(a)))
      modifies mem
      ensures mem[chunk] == Joined(a, c, b).size
      ensures Stage(m, mem[..], pool, h, c, Joined(a, c, b))
      ensures ListOk(mem[..], pool, Delist(Delist(h.free, FreeLast(a)), FreeFirst(b)))
    {
      hide Wf, Rep, Tiles, Coalesced, ListOk, IsLinkCell, FreeLast, FreeFirst, Joined, Total, Without, Delist, Stage,
           OnlyLinks, TagSize;
      WfParts(h);
      JoinedExtent(h, a, c, b);
      NeighbourWords(m, pool, h, a, c, b);
      LeftSizeEven(h, a, c, b);
      StillListed(h, a, c, b);
      ghost var fl := Delist(h.free, FreeLast(a));
      var after := chunk + TagSize(mem[chunk]);
      StageWord(m, mem[..], pool, h, a, c, b);
      if mem[after] % 2 == 0 {
        ghost var m1 := mem[..];
        ghost var p, q := SplitFree(fl, after);
        RemoveChunk(mem, pool, after, p, q);
        ghost var m2 := mem[..];
        RightJoined(m, m1, m2, pool, h, a, c, b, p, q);
        mem[chunk] := mem[chunk] + mem[after];
        assert mem[..] == m2[chunk := Joined(a, c, b).size];
      } else {
        RightNotJoined(h, a, c, b);
      }
    }

    /** Any calls of clients other than the owner of chunk d leave every word of d as it is. */
    method PerformOthers(calls: seq<Call>, ghost d: Chunk)
      requires Valid() && d in Used(heap.chunks) && CallsOk(heap, calls, d)
      modifies this`heap, mem
      ensures Valid() && d in Used(heap.chunks) && SameWords(old(mem[..]), mem[..], d)
      ensures heap == HeapAfter(old(heap), calls, d)
      decreases |calls|
    {
      hide Wf, Rep, SameWords, Used, Alloc, Free, Live;
      ghost var m := mem[..];
      if calls == [] {
        SameWordsRefl(m);
        return;
      }
      CallKeeps(heap, calls[0], d);
      match calls[0] {
        case AllocCall(request) => var r := Allocate(request);
        case ReleaseCall(block) => Release(block);
        case StoreCall(block, x, v) => Store(block, x, v);
      }
      ghost var m1 := mem[..];
      PerformOthers(calls[1..], d);
      SameWordsTrans(m, m1, mem[..], d);
    }
  }

  datatype Call = AllocCall(request: nat) | ReleaseCall(block: nat) | StoreCall(block: nat, x: nat, v: nat)

  /** A call by a client that owns its blocks, but not chunk d. */
  ghost predicate CallOk(h: Heap, call: Call, d: Chunk) {
    match call
    case AllocCall(request) => request < MODULUS && (ChunkSize(request) != 0 || h.free == [])
    case ReleaseCall(block) => Live(h, block) && block != d.addr + W
    case StoreCall(block, x, _) =>
      Live(h, block) && block != d.addr + W && block <= x < h.chunks[Locate(h.chunks, block - W)].End() - W
  }

  ghost function CallHeap(h: Heap, call: Call, d: Chunk): Heap
    requires CallOk(h, call, d)
  {
    match call
    case AllocCall(request) => Alloc(h, ChunkSize(request)).heap
    case ReleaseCall(block) => Free(h, block)
    case StoreCall(_, _, _) => h
  }

  ghost predicate CallsOk(h: Heap, calls: seq<Call>, d: Chunk)
    decreases |calls|
  {
    calls == [] || (CallOk(h, calls[0], d) && CallsOk(CallHeap(h, calls[0], d), calls[1..], d))
  }

  ghost function HeapAfter(h: Heap, calls: seq<Call>, d: Chunk): Heap
    requires CallsOk(h, calls, d)
    decreases |calls|
  {
    if calls == [] then h else HeapAfter(CallHeap(h, calls[0], d), calls[1..], d)
  }

  lemma CallKeeps(h: Heap, call: Call, d: Chunk)
    requires Wf(h) && d in Used(h.chunks) && CallOk(h, call, d)
    ensures d in Used(CallHeap(h, call, d).chunks)
  {
    hide Wf, Alloc, Free;
    match call {
      case AllocCall(request) =>
        ChunkSizeFits(request);
        if ChunkSize(request) != 0 {
          AllocOutcome(h, ChunkSize(request));
        } else {
          AllocFails(h, 0);
        }
      case ReleaseCall(block) => FreeOutcome(h, block);
      case StoreCall(_, _, _) =>
    }
  }

  lemma SameWordsTrans(m: seq<nat>, m1: seq<nat>, m2: seq<nat>, d: Chunk)
    requires SameWords(m, m1, d) && SameWords(m1, m2, d)
    ensures SameWords(m, m2, d)
  {
  }

  lemma SameWordsRefl(m: seq<nat>)
    ensures forall d :: SameWords(m, m, d)
  {
  }
}
