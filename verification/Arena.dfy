/**
  The chunked bump allocator. A chunk is one allocation of header, capacity and one cache line
  of slack; blocks are cut from it front to back, and a reset hands all of it out again.
 */
module Arena {
  import opened Options
  import opened Positions
  import opened PowerOfTwo

  const HEADER: nat := 24
  const CACHELINE: nat := 64
  const MIN_CHUNK: nat := 0x1_0000
  const WORD: nat := 8

  datatype Chunk = Chunk(addr: nat, cap: nat, offset: nat)

  /** A block handed out since the last reset, and the index of its chunk. */
  datatype Block = Block(addr: nat, size: nat, home: nat)

  function Base(c: Chunk): nat { c.addr + HEADER }

  /** First address past the memory that was really allocated for the chunk. */
  function Limit(addr: nat, cap: nat): nat { addr + HEADER + cap + CACHELINE }

  // ---- alignment --------------------------------------------------------------

  predicate IsAlignment(a: nat) { exists k: nat :: k <= 6 && a == Pow2(k) }

  /** `(cur + a - 1) & ~(a - 1)`: clearing the mask bits is subtracting them. */
  function AlignUp(cur: nat, a: nat): int
    requires a > 0
  {
    cur + a - 1 - And(cur + a - 1, a - 1)
  }

  lemma AlignUpLeast(cur: nat, a: nat)
    requires IsAlignment(a)
    ensures 1 <= a <= 64 && AlignUp(cur, a) % a == 0 && cur <= AlignUp(cur, a) < cur + a
  {
    var k: nat :| k <= 6 && a == Pow2(k);
    assert a <= 64 by {
      PowMonotone(k, 6);
      assert Pow2(6) == 64;
    }
    hide Pow2, And, Slot, IsAlignment;
    MaskIsSlot(cur + a - 1, k);
    SlotRounds(cur + a - 1, a);
    SlotIsMod(AlignUp(cur, a), a);
  }

  /** Bytes skipped so that the next block of chunk c starts aligned. */
  function Padding(c: Chunk, a: nat): int
    requires a > 0
  {
    AlignUp(Base(c) + c.offset, a) - (Base(c) + c.offset)
  }

  // ---- chunks -----------------------------------------------------------------

  /** The capacity arena_new_chunk picks; the request is cut to 32 bits on the way. */
  function NewCap(min: nat): nat
  {
    RoundUp((if min < MIN_CHUNK then MIN_CHUNK else min) % 0x1_0000_0000)
  }

  lemma NewCapFits(size: nat)
    requires size <= CAP_MAX
    ensures size <= NewCap(size)
  {
    RoundUpLeast(if size < MIN_CHUNK then MIN_CHUNK else size, 0);
  }

  predicate Apart(lo1: nat, hi1: nat, lo2: nat, hi2: nat) { hi1 <= lo2 || hi2 <= lo1 }

  /** Memory for a chunk of capacity cap at addr overlaps no chunk in use. */
  ghost predicate Unused(chunks: seq<Chunk>, addr: nat, cap: nat)
  {
    forall i :: 0 <= i < |chunks| ==>
      Apart(addr, Limit(addr, cap), chunks[i].addr, Limit(chunks[i].addr, chunks[i].cap))
  }

  lemma StillUnused(chunks: seq<Chunk>, first: nat, cap: nat, second: nat, cap2: nat)
    requires Unused(chunks, second, cap2) && Apart(second, Limit(second, cap2), first, Limit(first, cap))
    ensures Unused(chunks + [Chunk(first, cap, 0)], second, cap2)
  {
  }

  ghost predicate ChunksOk(chunks: seq<Chunk>)
  {
    && (forall i :: 0 <= i < |chunks| ==> chunks[i].offset < chunks[i].cap + CACHELINE)
    && (forall i, j :: 0 <= i < j < |chunks| ==>
          Apart(chunks[i].addr, Limit(chunks[i].addr, chunks[i].cap), chunks[j].addr, Limit(chunks[j].addr, chunks[j].cap)))
  }

  /** Block b lies in the used part of its chunk. */
  ghost predicate BlockOk(chunks: seq<Chunk>, b: Block)
  {
    && b.home < |chunks| && b.size > 0
    && Base(chunks[b.home]) <= b.addr && b.addr + b.size <= Base(chunks[b.home]) + chunks[b.home].offset
  }

  ghost predicate BlocksOk(chunks: seq<Chunk>, blocks: seq<Block>)
  {
    && (forall i :: 0 <= i < |blocks| ==> BlockOk(chunks, blocks[i]))
    && (forall i, j :: 0 <= i < j < |blocks| ==>
          Apart(blocks[i].addr, blocks[i].addr + blocks[i].size, blocks[j].addr, blocks[j].addr + blocks[j].size))
  }

  function Used(chunks: seq<Chunk>): nat
  {
    if chunks == [] then 0 else Used(chunks[..|chunks| - 1]) + chunks[|chunks| - 1].offset
  }

  lemma AddChunk(chunks: seq<Chunk>, blocks: seq<Block>, addr: nat, cap: nat)
    requires ChunksOk(chunks) && BlocksOk(chunks, blocks) && Unused(chunks, addr, cap)
    ensures var chunks' := chunks + [Chunk(addr, cap, 0)];
      ChunksOk(chunks') && BlocksOk(chunks', blocks) && Used(chunks') == Used(chunks)
  {
    var chunks' := chunks + [Chunk(addr, cap, 0)];
    assert chunks'[..|chunks|] == chunks;
    forall i | 0 <= i < |blocks|
      ensures BlockOk(chunks', blocks[i])
    {
      assert BlockOk(chunks, blocks[i]);
    }
  }

  /** Cutting the next block from the last chunk keeps every block apart from it. */
  lemma CutBlock(chunks: seq<Chunk>, blocks: seq<Block>, padding: nat, size: nat)
    requires ChunksOk(chunks) && BlocksOk(chunks, blocks) && |chunks| > 0 && size > 0
    requires var c := chunks[|chunks| - 1]; c.offset + padding + size < c.cap + CACHELINE
    ensures
      var h := |chunks| - 1;
      var c := chunks[h];
      var chunks' := chunks[h := c.(offset := c.offset + padding + size)];
      var b := Block(Base(c) + c.offset + padding, size, h);
      && ChunksOk(chunks') && BlocksOk(chunks', blocks + [b])
      && Used(chunks') == Used(chunks) + padding + size && b.addr + size <= Limit(c.addr, c.cap)
  {
    var h := |chunks| - 1;
    var c := chunks[h];
    var chunks' := chunks[h := c.(offset := c.offset + padding + size)];
    var b := Block(Base(c) + c.offset + padding, size, h);
    assert chunks'[..h] == chunks[..h];
    forall i | 0 <= i < |blocks|
      ensures BlockOk(chunks', blocks[i])
      ensures Apart(blocks[i].addr, blocks[i].addr + blocks[i].size, b.addr, b.addr + b.size)
    {
      BlockApart(chunks, blocks[i], padding, size);
    }
  }

  lemma BlockApart(chunks: seq<Chunk>, b: Block, padding: nat, size: nat)
    requires ChunksOk(chunks) && BlockOk(chunks, b) && |chunks| > 0
    requires var c := chunks[|chunks| - 1]; c.offset + padding + size < c.cap + CACHELINE
    ensures var c := chunks[|chunks| - 1];
      Apart(b.addr, b.addr + b.size, Base(c) + c.offset + padding, Base(c) + c.offset + padding + size)
  {
    var h := |chunks| - 1;
    if b.home < h {
      assert Apart(chunks[b.home].addr, Limit(chunks[b.home].addr, chunks[b.home].cap),
                   chunks[h].addr, Limit(chunks[h].addr, chunks[h].cap));
    }
  }

  lemma {:induction false} AllZero(chunks: seq<Chunk>)
    requires forall i :: 0 <= i < |chunks| ==> chunks[i].offset == 0
    ensures Used(chunks) == 0
  {
    if chunks != [] { AllZero(chunks[..|chunks| - 1]); }
  }

  // ---- the arena --------------------------------------------------------------

  /** `chunks` holds the chunk list with the head last. */
  class Arena {
    var chunks: seq<Chunk>
    var chunkSize: nat
    var total: nat
    ghost var blocks: seq<Block>

    ghost predicate Valid()
      reads this
    {
      ChunksOk(chunks) && BlocksOk(chunks, blocks) && total == Used(chunks)
    }

    constructor (size: nat)
      ensures Valid() && chunks == [] && blocks == [] && total == 0
      ensures chunkSize == if size == 0 then 0x20_0000 else size
    {
      chunks, total, blocks := [], 0, [];
      chunkSize := if size == 0 then 0x20_0000 else size;
    }

    /** The request with which a full or missing head chunk is replaced. */
    function Needed(size: nat): nat
      reads this
    {
      if size > chunkSize then size else chunkSize
    }

    /** What malloc promises for the (at most two) chunks a call may ask for. */
    ghost predicate MemoryOk(size: nat, first: Option<nat>, second: Option<nat>)
      reads this
    {
      && (first.Some? ==> Unused(chunks, first.value, NewCap(Needed(size))))
      && (second.Some? ==> Unused(chunks, second.value, NewCap(size)))
      && (first.Some? && second.Some? ==>
            Apart(second.value, Limit(second.value, NewCap(size)), first.value, Limit(first.value, NewCap(Needed(size)))))
    }

    /** arena_new_chunk and the push in front of the list. */
    method NewChunk(min: nat, at: nat)
      requires Valid() && Unused(chunks, at, NewCap(min))
      modifies this`chunks
      ensures Valid() && chunks == old(chunks) + [Chunk(at, NewCap(min), 0)]
    {
      AddChunk(chunks, blocks, at, NewCap(min));
      var cap := RoundUpPow2((if min < MIN_CHUNK then MIN_CHUNK else min) % 0x1_0000_0000);
      chunks := chunks + [Chunk(at, cap, 0)];
    }

    /** Block b was added last; it starts at p, has the asked size and lies in the memory of its chunk. */
    ghost predicate Added(was: seq<Block>, p: nat, size: nat)
      reads this
    {
      && |blocks| == |was| + 1 && blocks[..|was|] == was
      && var b := blocks[|was|];
      && b.addr == p && b.size == size && b.home < |chunks|
      && Base(chunks[b.home]) <= p && p + size <= Limit(chunks[b.home].addr, chunks[b.home].cap)
    }

    /** The bump itself, once the head chunk has room. */
    method Cut(size: nat, a: nat) returns (p: nat)
      requires Valid() && |chunks| > 0 && size > 0 && IsAlignment(a) && a > 0
      requires var c := chunks[|chunks| - 1]; c.offset + Padding(c, a) + size < c.cap + CACHELINE
      modifies this`chunks, this`total, this`blocks
      ensures Valid() && Added(old(blocks), p, size) && p % a == 0
      ensures total >= old(total) + size
    {
      var h := |chunks| - 1;
      var c := chunks[h];
      AlignUpLeast(Base(c) + c.offset, a);
      hide IsAlignment, AlignUp;
      p := AlignUp(Base(c) + c.offset, a);
      var padding := p - (Base(c) + c.offset);
      CutBlock(chunks, blocks, padding, size);
      chunks := chunks[h := c.(offset := c.offset + padding + size)];
      total := total + padding + size;
      blocks := blocks + [Block(p, size, h)];
    }

    /**
      A null result changes no block. Otherwise the new block is aligned, of the asked size,
      inside the memory of its chunk and, by Valid, apart from every block since the last reset.
     */
    method Alloc(size: nat, alignment: nat, first: Option<nat>, second: Option<nat>) returns (p: Option<nat>)
      requires Valid() && size <= CAP_MAX && (alignment == 0 || IsAlignment(alignment))
      requires MemoryOk(size, first, second)
      modifies this
      ensures Valid() && chunkSize == old(chunkSize)
      ensures p.None? ==> blocks == old(blocks) && total == old(total) && (size == 0 || first.None? || second.None?)
      ensures p.Some? ==>
        && size > 0 && Added(old(blocks), p.value, size) && total >= old(total) + size
        && p.value % (if alignment == 0 then WORD else alignment) == 0
    {
      if size == 0 {
        return None;
      }
      var a := if alignment == 0 then WORD else alignment;
      assert IsAlignment(WORD) by { assert Pow2(3) == 8; }
      NewCapFits(size);
      hide IsAlignment, AlignUp, NewCap, Unused, Added, ChunksOk, BlocksOk, Used;
      if |chunks| == 0 || chunks[|chunks| - 1].offset + size + a > chunks[|chunks| - 1].cap {
        if first.None? {
          return None;
        }
        assert second.Some? ==> Unused(chunks + [Chunk(first.value, NewCap(Needed(size)), 0)], second.value, NewCap(size)) by {
          if second.Some? { StillUnused(chunks, first.value, NewCap(Needed(size)), second.value, NewCap(size)); }
        }
        NewChunk(Needed(size), first.value);
      }
      var c := chunks[|chunks| - 1];
      AlignUpLeast(Base(c) + c.offset, a);
      if c.offset + Padding(c, a) + size > c.cap {
        if second.None? {
          return None;
        }
        NewChunk(size, second.value);
        AlignUpLeast(Base(chunks[|chunks| - 1]), a);
      }
      var q := Cut(size, a);
      p := Some(q);
    }

    /** Every chunk is kept and empty again; nothing handed out before counts any more. */
    method Reset()
      requires Valid()
      modifies this
      ensures Valid() && blocks == [] && total == 0 && chunkSize == old(chunkSize)
      ensures |chunks| == |old(chunks)|
      ensures forall i :: 0 <= i < |chunks| ==> chunks[i] == old(chunks)[i].(offset := 0)
    {
      blocks := [];
      var i := |chunks|;
      while i > 0
        invariant 0 <= i <= |chunks| == |old(chunks)| && blocks == [] && chunkSize == old(chunkSize)
        invariant forall k :: 0 <= k < |chunks| ==>
          chunks[k] == if k < i then old(chunks)[k] else old(chunks)[k].(offset := 0)
      {
        i := i - 1;
        chunks := chunks[i := chunks[i].(offset := 0)];
      }
      total := 0;
      AllZero(chunks);
    }
  }
}
