/**
 Machine words as natural numbers and their bits, with the four `msb_index` forms of
 lib/bits_generic.h.  `w & (1 << j)`, `w |= 1 << j` and `w &= ~(1 << j)` are `TestBit`,
 `SetBit` and `ClearBit`; `w >> i` is `Shr`.
 */
module Bits {

  function Pow2(n: nat): (p: nat)
    ensures p >= 1
  {
    if n == 0 then 1 else 2 * Pow2(n - 1)
  }

  predicate TestBit(w: nat, j: nat)
    decreases j
  {
    if j == 0 then w % 2 == 1 else TestBit(w / 2, j - 1)
  }

  function SetBit(w: nat, j: nat): nat
    decreases j
  {
    if j == 0 then w - w % 2 + 1 else 2 * SetBit(w / 2, j - 1) + w % 2
  }

  function ClearBit(w: nat, j: nat): nat
    decreases j
  {
    if j == 0 then w - w % 2 else 2 * ClearBit(w / 2, j - 1) + w % 2
  }

  function Shr(w: nat, i: nat): nat
    decreases i
  {
    if i == 0 then w else Shr(w / 2, i - 1)
  }

  lemma {:induction false} SetBitTest(w: nat, j: nat, k: nat)
    ensures TestBit(SetBit(w, j), k) <==> k == j || TestBit(w, k)
    decreases j
  {
    if j > 0 && k > 0 {
      SetBitTest(w / 2, j - 1, k - 1);
    }
  }

  lemma {:induction false} ClearBitTest(w: nat, j: nat, k: nat)
    ensures TestBit(ClearBit(w, j), k) <==> k != j && TestBit(w, k)
    decreases j
  {
    if j > 0 && k > 0 {
      ClearBitTest(w / 2, j - 1, k - 1);
    }
  }

  // Setting or clearing a bit below position n stays inside an n-bit word.
  lemma {:induction false} BitsFit(w: nat, j: nat, n: nat)
    requires w < Pow2(n) && j < n
    ensures SetBit(w, j) < Pow2(n) && ClearBit(w, j) < Pow2(n)
    decreases j
  {
    if j > 0 {
      BitsFit(w / 2, j - 1, n - 1);
    }
  }

  // No bit of zero is set; the converse is `Log2IsTopBit`.
  lemma {:induction false} ZeroHasNoBits(w: nat, k: nat)
    requires w == 0
    ensures !TestBit(w, k)
    decreases k
  {
    if k > 0 {
      ZeroHasNoBits(0, k - 1);
    }
  }

  /** `m` is floor(log2(w)). */
  ghost predicate IsLog2(w: nat, m: nat) {
    Pow2(m) <= w < Pow2(m + 1)
  }

  // floor(log2(w)) is the position of the highest bit set.
  lemma {:induction false} Log2IsTopBit(w: nat, m: nat)
    requires IsLog2(w, m)
    ensures TestBit(w, m)
    ensures forall k :: k > m ==> !TestBit(w, k)
    decreases m
  {
    if m == 0 {
      assert Pow2(1) == 2 * Pow2(0);
      forall k | k > m ensures !TestBit(w, k) {
        ZeroHasNoBits(w / 2, k - 1);
      }
    } else {
      assert Pow2(m + 1) == 2 * Pow2(m);
      Log2IsTopBit(w / 2, m - 1);
      forall k | k > m ensures !TestBit(w, k) {
        assert !TestBit(w / 2, k - 1);
      }
    }
  }

  // One halving step: w >> i has a logarithm smaller by i, provided w >= 1 << i.
  lemma {:induction false} Log2Shr(w: nat, i: nat, m: nat)
    requires w >= Pow2(i)
    requires IsLog2(Shr(w, i), m)
    ensures IsLog2(w, m + i)
    decreases i
  {
    if i > 0 {
      Log2Shr(w / 2, i - 1, m);
    }
  }

  // Shifting right by i removes i bits and keeps a word that reaches 1 << i non-zero.
  lemma {:induction false} ShrBound(w: nat, i: nat, n: nat)
    requires w < Pow2(i + n)
    ensures Shr(w, i) < Pow2(n)
    ensures w >= Pow2(i) ==> Shr(w, i) > 0
    decreases i
  {
    if i > 0 {
      ShrBound(w / 2, i - 1, n);
    }
  }

  lemma SmallLog2(w: nat)
    requires 0 < w < 2
    ensures IsLog2(w, 0)
  {
    assert Pow2(1) == 2 * Pow2(0);
  }

  /** What holds between the lines of `msb_index_32`: `num` is what is left of `w`, it has
      at most `n` bits, and `msb` bits of `w` lie below it. */
  ghost predicate Narrowed(w: nat, num: nat, msb: nat, n: nat) {
    && 0 < num < Pow2(n)
    && forall m: nat :: IsLog2(num, m) ==> IsLog2(w, m + msb)
  }

  /** One line `if ( num >= (1<<i) ) { msb += i; num >>= i; }`. */
  method HalvingStep(ghost w: nat, num: nat, msb: nat, i: nat) returns (num': nat, msb': nat)
    requires Narrowed(w, num, msb, i + i)
    ensures Narrowed(w, num', msb', i)
  {
    num', msb' := num, msb;
    var half := Pow2(i);
    if num >= half {
      ShrBound(num, i, i);
      num', msb' := Shr(num, i), msb + i;
      forall m: nat | IsLog2(num', m) ensures IsLog2(w, m + msb') {
        Log2Shr(num, i, m);
        assert IsLog2(w, (m + i) + msb);
      }
    }
  }

  method MsbIndex32(num: nat) returns (msb: nat)
    requires 0 < num < Pow2(32)
    ensures IsLog2(num, msb)
  {
    var n;
    n, msb := HalvingStep(num, num, 0, 16);
    n, msb := HalvingStep(num, n, msb, 8);
    n, msb := HalvingStep(num, n, msb, 4);
    n, msb := HalvingStep(num, n, msb, 2);
    // the last line does not shift num any more
    if n >= 2 {
      assert Pow2(2) == 4 && Pow2(1) == 2;
      msb := msb + 1;
      assert IsLog2(n, 1);
    } else {
      SmallLog2(n);
    }
  }

  method MsbIndex64(num: nat) returns (msb: nat)
    requires 0 < num < Pow2(64)
    ensures IsLog2(num, msb)
  {
    var n;
    n, msb := HalvingStep(num, num, 0, 32);
    n, msb := HalvingStep(num, n, msb, 16);
    n, msb := HalvingStep(num, n, msb, 8);
    n, msb := HalvingStep(num, n, msb, 4);
    n, msb := HalvingStep(num, n, msb, 2);
    if n >= 2 {
      assert Pow2(2) == 4 && Pow2(1) == 2;
      msb := msb + 1;
      assert IsLog2(n, 1);
    } else {
      SmallLog2(n);
    }
  }

  /** `msb_index_generic` and `msb_index_int_n`: the same loop for an integer of
      `bits` = 2^k bits (32 for unsigned int, 64 for int_n). */
  method MsbIndexLoop(num: nat, bits: nat) returns (msb: nat)
    requires exists k: nat :: bits == Pow2(k)
    requires 0 < num < Pow2(bits)
    ensures IsLog2(num, msb)
  {
    ghost var k: nat :| bits == Pow2(k);
    var i, n := bits / 2, num;
    msb := 0;
    while i > 0
      invariant if k == 0 then i == 0 else i == Pow2(k - 1)
      invariant Narrowed(num, n, msb, Pow2(k))
      decreases i
    {
      n, msb := HalvingStep(num, n, msb, i);
      i := i / 2;
      k := k - 1;
    }
    SmallLog2(n);
  }

  method MsbIndexGeneric(num: nat) returns (msb: nat)
    requires 0 < num < Pow2(32)
    ensures IsLog2(num, msb)
  {
    assert 32 == Pow2(5);
    msb := MsbIndexLoop(num, 32);
  }

  method MsbIndexIntN(num: nat) returns (msb: nat)
    requires 0 < num < Pow2(64)
    ensures IsLog2(num, msb)
  {
    assert 64 == Pow2(6);
    msb := MsbIndexLoop(num, 64);
  }

  // The logarithm is unique, so all four forms return the same index.
  lemma {:induction false} Log2Unique(w: nat, m: nat, n: nat)
    requires IsLog2(w, m) && IsLog2(w, n)
    ensures m == n
  {
    Log2IsTopBit(w, m);
    Log2IsTopBit(w, n);
  }
}
