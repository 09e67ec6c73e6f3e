/**
  Ring positions and the cells they land on.  A position counts every slot ever
  claimed; the ring stores it in cell `pos & mask`.  `Slot` walks back lap by lap;
  module PowerOfTwo shows that the source's mask computes the same index.
 */
module Positions {

  function Slot(pos: nat, cap: nat): (i: nat)
    requires cap > 0
    ensures i < cap
  {
    if pos < cap then pos else Slot(pos - cap, cap)
  }

  lemma {:induction false} SlotIsMod(pos: nat, cap: nat)
    requires cap > 0
    ensures Slot(pos, cap) == pos % cap
  {
    if pos >= cap {
      SlotIsMod(pos - cap, cap);
      var lap, r := (pos - cap) / cap, (pos - cap) % cap;
      assert pos == (lap + 1) * cap + r;
      QuotientUnique(lap + 1, r, pos / cap, pos % cap, cap);
    }
  }

  lemma QuotientUnique(k: int, r: int, k': int, r': int, cap: nat)
    requires cap > 0 && 0 <= r < cap && 0 <= r' < cap
    requires k * cap + r == k' * cap + r'
    ensures k == k' && r == r'
  {
    if k > k' {
      MulApart(k, k', cap);
    } else if k < k' {
      MulApart(k', k, cap);
    }
  }

  lemma {:induction false} MulApart(a: int, b: int, cap: nat)
    requires a > b
    ensures a * cap >= b * cap + cap
    decreases a - b
  {
    if a > b + 1 {
      MulApart(a - 1, b, cap);
    }
    assert a * cap == (a - 1) * cap + cap;
  }

  /** Any `cap` consecutive positions land on distinct cells. */
  lemma {:induction false} SlotUnique(p: nat, q: nat, cap: nat)
    requires cap > 0 && p <= q < p + cap
    requires Slot(p, cap) == Slot(q, cap)
    ensures p == q
    decreases p
  {
    if p >= cap {
      SlotUnique(p - cap, q - cap, cap);
    }
  }

  /** One lap later the same cell is used again. */
  lemma SlotNextLap(p: nat, cap: nat)
    requires cap > 0
    ensures Slot(p + cap, cap) == Slot(p, cap)
  {
  }

  /** Taking off the rest of a division leaves a multiple. */
  lemma {:induction false} SlotRounds(x: nat, cap: nat)
    requires cap > 0
    ensures Slot(x, cap) <= x && Slot(x - Slot(x, cap), cap) == 0
    decreases x
  {
    if x >= cap {
      SlotRounds(x - cap, cap);
    }
  }
}
