/** awp_ring_init: how a ring comes into the state that runs start from. */
module RingInit {
  import opened Options
  import opened PowerOfTwo
  import opened Ring

  /** A refused capacity, or an initial ring whose capacity is the least power of two that fits. */
  method AllocCells(capacity: nat, mode: Mode, producers: set<Tid>, consumers: set<Tid>) returns (r: Option<Core>)
    requires capacity < 0x1_0000_0000 && ModeFits(mode, producers, consumers)
    ensures r.None? <==> capacity < 1 || capacity > CAP_MAX
    ensures r.Some? ==> InitCore(r.value) && r.value.mode == mode
    ensures r.Some? ==>
      && (exists k: nat :: |r.value.cells| == Pow2(k)) && capacity <= |r.value.cells| <= CAP_MAX
      && (forall j: nat :: 1 <= j && capacity <= Pow2(j) ==> |r.value.cells| <= Pow2(j))
  {
    if capacity < 1 {
      return None;
    }
    var cap := RoundUpPow2(capacity);
    RefusedIff(capacity);
    if cap == 0 {
      return None;
    }
    SizeFits(capacity);
    var cells := new Cell[cap](_ => Cell(0, None, Free(0)));
    var i := 0;
    while i < cap
      invariant 0 <= i <= cap
      invariant forall k :: 0 <= k < i ==> cells[k] == Cell(k, Some(k), Free(k))
    {
      cells[i] := Cell(i, Some(i), Free(i));
      i := i + 1;
    }
    r := Some(CoreState(mode, producers, consumers, 0, 0, cells[..], [], map[], {}, None));
  }

  lemma RefusedIff(capacity: nat)
    ensures RoundUp(capacity) == 0 <==> capacity > CAP_MAX
  {
  }

  lemma SizeFits(capacity: nat)
    requires 1 <= capacity <= CAP_MAX
    ensures 2 <= RoundUp(capacity) <= CAP_MAX && capacity <= RoundUp(capacity)
    ensures exists k: nat :: RoundUp(capacity) == Pow2(k)
    ensures forall j: nat :: 1 <= j && capacity <= Pow2(j) ==> RoundUp(capacity) <= Pow2(j)
  {
    if capacity == 1 {
      assert RoundUp(1) == Pow2(1);
      forall j: nat | 1 <= j
        ensures Pow2(j) >= 2
      {
        PowMonotone(1, j);
      }
    } else {
      RoundUpLeast(capacity, 0);
      forall j: nat | capacity <= Pow2(j)
        ensures RoundUp(capacity) <= Pow2(j)
      {
        RoundUpLeast(capacity, j);
      }
    }
  }

  /** In an initial ring of the source's capacities, the mask and the model pick the same cell. */
  lemma CellByMask(c: Core, pos: nat, k: nat)
    requires |c.cells| == Pow2(k)
    ensures At(c, pos) == And(pos, |c.cells| - 1)
  {
    MaskIsSlot(pos, k);
  }
}
