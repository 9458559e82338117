/**
 The bitmap over the ready queues of kernel/thread.c: one bit for each priority, kept in words of
 which only the lowest sizeof (word_t) = 4 bits are used.
 */
module ReadyMask {
  import opened Bits
  import opened Scheduler

  const RDY_MASKS: nat := 16   // (PRIO_LEVELS + sizeof (word_t) - 1) / sizeof (word_t)

  class Mask {
    const words: array<nat>   // rdy_mask

    ghost predicate Valid()
      reads this, words
    {
      words.Length == RDY_MASKS && forall i :: 0 <= i < words.Length ==> words[i] < Pow2(4)
    }

    predicate Has(p: nat)
      reads words
      requires p / 4 < words.Length
    {
      TestBit(words[p / 4], p % 4)
    }

    /** The priorities whose bit is set. */
    ghost function Levels(): set<nat>
      reads this, words
      requires Valid()
    {
      set p: nat | p < PRIO_LEVELS && Has(p)
    }

    constructor ()
      ensures Valid() && fresh(words) && Levels() == {}
    {
      words := new nat[RDY_MASKS](_ => 0);
      new;
      assert forall i :: 0 <= i < words.Length ==> words[i] == 0;
      forall p: nat | p < PRIO_LEVELS ensures !Has(p) {
        ZeroHasNoBits(words[p / 4], p % 4);
      }
    }

    /** The mask part of init_ready_list */
    method Reset()
      requires words.Length == RDY_MASKS
      modifies words
      ensures Valid() && Levels() == {}
    {
      for i := 0 to words.Length
        invariant forall j :: 0 <= j < i ==> words[j] == 0
      {
        words[i] := 0;
      }
      forall p: nat | p < PRIO_LEVELS ensures !Has(p) {
        ZeroHasNoBits(words[p / 4], p % 4);
      }
    }

    /** get_top_ready: the highest priority whose bit is set, or -1. */
    method GetTop() returns (first: int)
      requires Valid()
      ensures first == -1 || first in Levels()
      ensures forall p :: p in Levels() ==> p <= first
    {
      var i := words.Length;
      while i > 0
        invariant 0 <= i <= words.Length
        invariant forall j :: i <= j < words.Length ==> words[j] == 0
      {
        i := i - 1;
        if words[i] != 0 {
          Pow2Mono(4, 32);
          var msb := MsbIndex32(words[i]);
          TopLevel(i, msb);
          return i * 4 + msb;
        }
      }
      forall p | p in Levels() ensures false {
        ZeroHasNoBits(words[p / 4], p % 4);
      }
      return -1;
    }

    lemma TopLevel(i: nat, msb: nat)
      requires Valid() && i < words.Length && IsLog2(words[i], msb)
      requires forall j :: i < j < words.Length ==> words[j] == 0
      ensures i * 4 + msb in Levels()
      ensures forall p :: p in Levels() ==> p <= i * 4 + msb
    {
      if msb >= 4 {
        Pow2Mono(4, msb);
      }
      Log2IsTopBit(words[i], msb);
      var top := i * 4 + msb;
      assert top / 4 == i && top % 4 == msb;
      forall p | p in Levels() ensures p <= top {
        if p / 4 > i {
          ZeroHasNoBits(words[p / 4], p % 4);
        }
      }
    }

    /** set_got_ready */
    method SetGotReady(p: nat)
      requires Valid() && p < PRIO_LEVELS
      modifies words
      ensures Valid() && Levels() == old(Levels()) + {p}
    {
      Mark(p, true);
    }

    /** clear_got_ready */
    method ClearGotReady(p: nat)
      requires Valid() && p < PRIO_LEVELS
      modifies words
      ensures Valid() && Levels() == old(Levels()) - {p}
    {
      Mark(p, false);
    }

    method Mark(p: nat, ready: bool)
      requires Valid() && p < PRIO_LEVELS
      modifies words
      ensures Valid() && Levels() == if ready then old(Levels()) + {p} else old(Levels()) - {p}
    {
      var i, j := p / 4, p % 4;
      ghost var w := words[i];
      BitsFit(w, j, 4);
      words[i] := if ready then SetBit(words[i], j) else ClearBit(words[i], j);
      forall k: nat | k < PRIO_LEVELS ensures Has(k) <==> if k == p then ready else old(Has(k)) {
        SetBitTest(w, j, k % 4);
        ClearBitTest(w, j, k % 4);
      }
    }
  }

  lemma {:induction false} Pow2Mono(m: nat, n: nat)
    requires m <= n
    ensures Pow2(m) <= Pow2(n)
  {
    if m < n {
      Pow2Mono(m, n - 1);
    }
  }
}
