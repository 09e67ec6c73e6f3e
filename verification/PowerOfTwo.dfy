/**
  The bit arithmetic behind ring capacities and chunk sizes: rounding up to a power of two by
  smearing the highest bit downwards, and indexing with a mask instead of a remainder.
 */
module PowerOfTwo {
  import opened Positions

  const CAP_MAX: nat := 0x100_0000

  function Pow2(k: nat): (p: nat)
    ensures p >= 1
  {
    if k == 0 then 1 else 2 * Pow2(k - 1)
  }

  /** Number of significant bits. */
  function Len(x: nat): nat { if x == 0 then 0 else Len(x / 2) + 1 }

  predicate Bit(x: nat, i: nat) { if i == 0 then x % 2 == 1 else Bit(x / 2, i - 1) }

  function Or(a: nat, b: nat): nat
    decreases a + b
  {
    if a == 0 && b == 0 then 0
    else 2 * Or(a / 2, b / 2) + (if a % 2 == 1 || b % 2 == 1 then 1 else 0)
  }

  function And(a: nat, b: nat): nat
  {
    if a == 0 || b == 0 then 0
    else 2 * And(a / 2, b / 2) + (if a % 2 == 1 && b % 2 == 1 then 1 else 0)
  }

  function Xor(a: nat, b: nat): nat
    decreases a + b
  {
    if a == 0 && b == 0 then 0
    else 2 * Xor(a / 2, b / 2) + (if a % 2 != b % 2 then 1 else 0)
  }

  function ShiftRight(x: nat, m: nat): nat { if m == 0 then x else ShiftRight(x / 2, m - 1) }

  // ---- what the operators do to bits ------------------------------------------

  lemma {:induction false} OrBit(a: nat, b: nat, i: nat)
    ensures Bit(Or(a, b), i) <==> Bit(a, i) || Bit(b, i)
    decreases i
  {
    assert Or(a, b) / 2 == Or(a / 2, b / 2) && (Or(a, b) % 2 == 1 <==> a % 2 == 1 || b % 2 == 1);
    if i > 0 { OrBit(a / 2, b / 2, i - 1); }
  }

  lemma {:induction false} ShiftBit(x: nat, m: nat, i: nat)
    ensures Bit(ShiftRight(x, m), i) <==> Bit(x, i + m)
    decreases m
  {
    if m > 0 {
      ShiftBit(x / 2, m - 1, i);
      assert Bit(x, i + m) == Bit(x / 2, i + m - 1);
    }
  }

  lemma {:induction false} LenBounds(x: nat)
    ensures x < Pow2(Len(x)) && (x > 0 ==> Len(x) > 0 && Pow2(Len(x) - 1) <= x)
  {
    if x > 0 { LenBounds(x / 2); }
  }

  lemma {:induction false} BitInLen(x: nat, i: nat)
    ensures Bit(x, i) ==> i < Len(x)
    ensures x > 0 && i == Len(x) - 1 ==> Bit(x, i)
    decreases i
  {
    assert Len(x) == 1 ==> x / 2 == 0;
    if i > 0 { BitInLen(x / 2, i - 1); }
  }

  /** A number whose set bits are exactly the lowest k. */
  lemma {:induction false} AllOnes(y: nat, k: nat)
    requires forall i: nat :: Bit(y, i) <==> i < k
    ensures y == Pow2(k) - 1
    decreases k
  {
    if k == 0 {
      if y > 0 { BitInLen(y, Len(y) - 1); }
    } else {
      assert Bit(y, 0);
      forall i: nat
        ensures Bit(y / 2, i) <==> i < k - 1
      {
        assert Bit(y, i + 1) == Bit(y / 2, i);
      }
      AllOnes(y / 2, k - 1);
    }
  }

  lemma {:induction false} PowMonotone(j: nat, k: nat)
    requires j <= k
    ensures Pow2(j) <= Pow2(k)
    decreases k
  {
    if j < k { PowMonotone(j, k - 1); }
  }

  lemma {:induction false} PowStrict(j: nat, k: nat)
    ensures Pow2(j) < Pow2(k) ==> j < k
  {
    if k <= j { PowMonotone(k, j); }
  }

  lemma {:induction false} XorUndoes(a: nat, b: nat)
    ensures Xor(Xor(a, b), b) == a && Xor(Xor(a, b), a) == b
    decreases a + b
  {
    if a > 0 || b > 0 {
      assert Xor(a, b) / 2 == Xor(a / 2, b / 2) && (Xor(a, b) % 2 == 1 <==> a % 2 != b % 2);
      XorUndoes(a / 2, b / 2);
    }
  }

  lemma {:induction false} XorBound(a: nat, b: nat, k: nat)
    requires a < Pow2(k) && b < Pow2(k)
    ensures Xor(a, b) < Pow2(k)
    decreases k
  {
    if k > 0 { XorBound(a / 2, b / 2, k - 1); }
  }

  // ---- smearing ---------------------------------------------------------------

  ghost predicate SomeBit(x: nat, lo: nat, hi: nat)
  {
    exists j: nat :: lo <= j < hi && Bit(x, j)
  }

  /** Bit i of y tells whether x has a bit among the `span` from i on. */
  ghost predicate Smeared(x: nat, y: nat, span: nat)
  {
    forall i: nat :: Bit(y, i) <==> SomeBit(x, i, i + span)
  }

  lemma SmearDoubles(x: nat, y: nat, span: nat)
    requires Smeared(x, y, span)
    ensures Smeared(x, Or(y, ShiftRight(y, span)), 2 * span)
  {
    var z := Or(y, ShiftRight(y, span));
    forall i: nat
      ensures Bit(z, i) <==> SomeBit(x, i, i + 2 * span)
    {
      OrBit(y, ShiftRight(y, span), i);
      ShiftBit(y, span, i);
      assert Bit(y, i) <==> SomeBit(x, i, i + span);
      assert Bit(y, i + span) <==> SomeBit(x, i + span, i + span + span);
      assert SomeBit(x, i, i + 2 * span) <==> SomeBit(x, i, i + span) || SomeBit(x, i + span, i + span + span);
    }
  }

  lemma SmearedIsOnes(x: nat, y: nat, span: nat)
    requires Smeared(x, y, span) && Len(x) <= span
    ensures y == Pow2(Len(x)) - 1
  {
    forall i: nat
      ensures Bit(y, i) <==> i < Len(x)
    {
      assert Bit(y, i) <==> SomeBit(x, i, i + span);
      if i < Len(x) {
        BitInLen(x, Len(x) - 1);
      } else {
        forall j: nat | i <= j
          ensures !Bit(x, j)
        {
          BitInLen(x, j);
        }
      }
    }
    AllOnes(y, Len(x));
  }

  // ---- awp_round_up_pow2 ------------------------------------------------------

  /** What rounding up means: the least power of two, with the two clamped ends. */
  function RoundUp(v: nat): nat
  {
    if v < 2 then 2 else if v > CAP_MAX then 0 else Pow2(Len(v - 1))
  }

  lemma Pow24()
    ensures Pow2(24) == CAP_MAX
  {
    assert Pow2(8) == 256;
    assert Pow2(16) == 65536;
  }

  lemma RoundUpLeast(v: nat, j: nat)
    requires 2 <= v <= CAP_MAX
    ensures exists k: nat :: k <= 24 && RoundUp(v) == Pow2(k)
    ensures v <= RoundUp(v) <= CAP_MAX
    ensures v <= Pow2(j) ==> RoundUp(v) <= Pow2(j)
  {
    LenBounds(v - 1);
    Pow24();
    PowStrict(Len(v - 1) - 1, 24);
    PowMonotone(Len(v - 1), 24);
    if v <= Pow2(j) {
      PowStrict(Len(v - 1) - 1, j);
      PowMonotone(Len(v - 1), j);
    }
  }

  /** One more than a fully smeared v - 1 is the rounded v. */
  lemma OnesThenRound(v: nat, x: nat)
    requires 2 <= v <= CAP_MAX && Smeared(v - 1, x, 32)
    ensures x + 1 == RoundUp(v) && 0 < RoundUp(v) <= CAP_MAX
  {
    RoundUpLeast(v, 24);
    LenBounds(v - 1);
    Pow24();
    PowStrict(Len(v - 1) - 1, 24);
    SmearedIsOnes(v - 1, x, 32);
  }

  method RoundUpPow2(v: nat) returns (r: int)
    requires v < 0x1_0000_0000
    ensures r == RoundUp(v)
  {
    if v < 2 {
      return 2;
    }
    if v > CAP_MAX {
      return 0;
    }
    var x := v - 1;
    assert Smeared(v - 1, x, 1);
    SmearDoubles(v - 1, x, 1);
    x := Or(x, ShiftRight(x, 1));
    SmearDoubles(v - 1, x, 2);
    x := Or(x, ShiftRight(x, 2));
    SmearDoubles(v - 1, x, 4);
    x := Or(x, ShiftRight(x, 4));
    SmearDoubles(v - 1, x, 8);
    x := Or(x, ShiftRight(x, 8));
    SmearDoubles(v - 1, x, 16);
    x := Or(x, ShiftRight(x, 16));
    OnesThenRound(v, x);
    x := (x + 1) % 0x1_0000_0000;
    if x == 0 || x > CAP_MAX {
      return 0;
    }
    return x;
  }

  // ---- mask indexing ----------------------------------------------------------

  lemma {:induction false} SlotHalves(pos: nat, m: nat)
    requires m > 0
    ensures Slot(pos, 2 * m) == 2 * Slot(pos / 2, m) + pos % 2
    decreases pos
  {
    if pos >= 2 * m {
      SlotHalves(pos - 2 * m, m);
      assert (pos - 2 * m) / 2 == pos / 2 - m && (pos - 2 * m) % 2 == pos % 2;
    }
  }

  /** The source's cell index `pos & (capacity - 1)` is the model's Slot. */
  lemma {:induction false} MaskIsSlot(pos: nat, k: nat)
    ensures And(pos, Pow2(k) - 1) == Slot(pos, Pow2(k))
    decreases k
  {
    if k == 0 {
      SlotIsMod(pos, 1);
    } else {
      var m := Pow2(k - 1);
      MaskIsSlot(pos / 2, k - 1);
      SlotHalves(pos, m);
      assert (2 * m - 1) / 2 == m - 1 && (2 * m - 1) % 2 == 1;
    }
  }

  lemma MaskIsMod(pos: nat, k: nat)
    ensures And(pos, Pow2(k) - 1) == pos % Pow2(k)
  {
    MaskIsSlot(pos, k);
    SlotIsMod(pos, Pow2(k));
  }

  /** Any `capacity` consecutive positions index distinct cells through the mask. */
  lemma MaskApart(p: nat, q: nat, k: nat)
    requires p < q < p + Pow2(k)
    ensures And(p, Pow2(k) - 1) != And(q, Pow2(k) - 1)
  {
    MaskIsSlot(p, k);
    MaskIsSlot(q, k);
    if Slot(p, Pow2(k)) == Slot(q, Pow2(k)) {
      SlotUnique(p, q, Pow2(k));
    }
  }
}
