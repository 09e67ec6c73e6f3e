/**
  The tagged lock-free free list of frame indices: acquire and release as retry loops, one
  atomic access per step, any number of threads. Parking on an empty list is a plain retry.
 */
module FramePool {

  type Tid = nat

  const EMPTY: nat := 0xFFFFFFFF
  const TAGS: nat := 0x1_0000_0000

  // ---- the packed head word ---------------------------------------------------

  function PackHead(idx: bv64, tag: bv64): bv64 { (tag << 32) | idx }

  function HeadIdx(h: bv64): bv64 { h & 0xFFFF_FFFF }

  function HeadTag(h: bv64): bv64 { h >> 32 }

  /** unpack_head undoes pack_head on 32-bit halves, so comparing words compares index and tag. */
  lemma UnpackPack(idx: bv64, tag: bv64)
    requires idx <= 0xFFFF_FFFF && tag <= 0xFFFF_FFFF
    ensures HeadIdx(PackHead(idx, tag)) == idx && HeadTag(PackHead(idx, tag)) == tag
  {
  }

  lemma PackUnpack(h: bv64)
    ensures PackHead(HeadIdx(h), HeadTag(h)) == h
  {
  }

  /** A head word, by its two halves. */
  datatype Word = Word(idx: nat, tag: nat)

  // ---- state ------------------------------------------------------------------

  datatype Outcome = Nothing | Got(idx: nat) | NoFrame | Returned | Ignored

  /** `seen` is the number of successful exchanges when the head was loaded; no step depends on it. */
  datatype Pc =
    | Idle(r: Outcome)
    | ALoad
    | AClosed
    | ANext(h: Word, seen: nat)
    | ACas(h: Word, n: nat, seen: nat)
    | RLoad(idx: nat)
    | RStore(idx: nat, h: Word, seen: nat)
    | RCas(idx: nat, h: Word, seen: nat)

  /**
    `list` (the free frames from the head on), `held` (what each thread acquired and has not
    given back) and `version` (successful exchanges so far) are history.
   */
  datatype Frames = Frames(
    next: seq<nat>,
    head: Word,
    closed: bool,
    pcs: seq<Pc>,
    list: seq<nat>,
    held: seq<set<nat>>,
    version: nat)

  /** The links of `next` lead from idx through exactly `list` to EMPTY. */
  ghost predicate Chain(next: seq<nat>, idx: nat, list: seq<nat>)
    decreases |list|
  {
    if list == [] then idx == EMPTY
    else idx == list[0] && idx < |next| && Chain(next, next[idx], list[1..])
  }

  ghost predicate Distinct(list: seq<nat>)
  {
    forall i, j :: 0 <= i < j < |list| ==> list[i] != list[j]
  }

  function Upto(lo: nat, hi: nat): seq<nat>
    requires lo <= hi
    decreases hi - lo
  {
    if lo == hi then [] else [lo] + Upto(lo + 1, hi)
  }

  ghost predicate Init(s: Frames)
  {
    && 1 <= |s.next| < EMPTY
    && s.head == Word(0, 0) && !s.closed && s.version == 0
    && Chain(s.next, 0, Upto(0, |s.next|)) && s.list == Upto(0, |s.next|)
    && |s.held| == |s.pcs|
    && (forall t :: 0 <= t < |s.pcs| ==> s.pcs[t] == Idle(Nothing) && s.held[t] == {})
  }

  // ---- steps ------------------------------------------------------------------

  function Goto(s: Frames, t: Tid, pc: Pc): Frames
    requires t < |s.pcs|
  {
    s.(pcs := s.pcs[t := pc])
  }

  function NextTag(tag: nat): nat { (tag + 1) % TAGS }

  /** The list head moves on to n and frame h.idx belongs to t. */
  function Popped(s: Frames, t: Tid, h: Word, n: nat): Frames
    requires t < |s.pcs| && |s.held| == |s.pcs|
  {
    Goto(s, t, Idle(Got(h.idx))).(
      head := Word(n, NextTag(h.tag)), version := s.version + 1,
      list := if s.list == [] then [] else s.list[1..],
      held := s.held[t := s.held[t] + {h.idx}])
  }

  function Pushed(s: Frames, t: Tid, idx: nat, h: Word): Frames
    requires t < |s.pcs| && |s.held| == |s.pcs|
  {
    Goto(s, t, Idle(Returned)).(
      head := Word(idx, NextTag(h.tag)), version := s.version + 1,
      list := [idx] + s.list,
      held := s.held[t := s.held[t] - {idx}])
  }

  /** Fewer than 2^32 exchanges succeeded since the head was loaded. */
  predicate TagFresh(s: Frames, seen: nat) { s.version < seen + TAGS }

  /** What an idle thread may start; a frame is released by a thread that holds it, or handed on. */
  ghost predicate Begin(s: Frames, t: Tid, s': Frames)
    requires t < |s.pcs| && |s.held| == |s.pcs|
  {
    || s' == Goto(s, t, ALoad)
    || (exists idx :: idx in s.held[t] && s' == Goto(s, t, RLoad(idx)))
    || (exists idx, u: nat :: idx in s.held[t] && u < |s.pcs| && u != t &&
          s' == s.(held := s.held[t := s.held[t] - {idx}][u := s.held[u] + {idx}]))
    || s' == s.(closed := true)
    || s' == s.(closed := false)
  }

  ghost predicate AcquireStep(s: Frames, t: Tid, s': Frames)
    requires t < |s.pcs| && |s.held| == |s.pcs|
  {
    match s.pcs[t]
    case ALoad => s' == Goto(s, t, if s.head.idx == EMPTY then AClosed else ANext(s.head, s.version))
    case AClosed => s' == Goto(s, t, if s.closed then Idle(NoFrame) else ALoad)
    case ANext(h, seen) => h.idx < |s.next| && s' == Goto(s, t, ACas(h, s.next[h.idx], seen))
    case ACas(h, n, seen) =>
      || (s.head == h && TagFresh(s, seen) && s' == Popped(s, t, h, n))
      || s' == Goto(s, t, ALoad)
    case _ => false
  }

  ghost predicate ReleaseStep(s: Frames, t: Tid, s': Frames)
    requires t < |s.pcs| && |s.held| == |s.pcs|
  {
    match s.pcs[t]
    case RLoad(idx) =>
      s' == Goto(s, t, if s.head.idx == idx then Idle(Ignored) else RStore(idx, s.head, s.version))
    case RStore(idx, h, seen) =>
      idx < |s.next| && s' == Goto(s.(next := s.next[idx := h.idx]), t, RCas(idx, h, seen))
    case RCas(idx, h, seen) =>
      || (s.head == h && TagFresh(s, seen) && s' == Pushed(s, t, idx, h))
      || s' == Goto(s, t, RLoad(idx))
    case _ => false
  }

  ghost predicate Next(s: Frames, t: Tid, s': Frames)
  {
    && t < |s.pcs| && |s.held| == |s.pcs|
    && if s.pcs[t].Idle? then Begin(s, t, s') else AcquireStep(s, t, s') || ReleaseStep(s, t, s')
  }

  ghost predicate Step(s: Frames, s': Frames)
  {
    exists t :: Next(s, t, s')
  }

  ghost predicate StepAt(tr: seq<Frames>, i: nat)
    requires i + 1 < |tr|
  {
    Step(tr[i], tr[i + 1])
  }

  ghost predicate Run(tr: seq<Frames>)
  {
    && |tr| > 0 && Init(tr[0])
    && forall i :: 0 <= i < |tr| - 1 ==> StepAt(tr, i)
  }

  // ---- awp_frame_pool_init ----------------------------------------------------

  lemma {:induction false} LinkedUpto(next: seq<nat>, lo: nat)
    requires lo <= |next| && |next| > 0
    requires forall i :: 0 <= i < |next| - 1 ==> next[i] == i + 1
    requires next[|next| - 1] == EMPTY
    ensures Chain(next, if lo < |next| then lo else EMPTY, Upto(lo, |next|))
    decreases |next| - lo
  {
    if lo < |next| {
      var list := Upto(lo, |next|);
      assert list[0] == lo && list[1..] == Upto(lo + 1, |next|);
      assert next[lo] == if lo + 1 < |next| then lo + 1 else EMPTY;
      LinkedUpto(next, lo + 1);
      hide Upto;
    }
  }

  /** The link loop of the initialiser; it refuses size 0. */
  method InitLinks(size: nat) returns (ok: bool, next: array<nat>)
    ensures ok <==> size >= 1
    ensures ok ==> next.Length == size && Chain(next[..], 0, Upto(0, size))
  {
    next := new nat[size];
    if size < 1 {
      return false, next;
    }
    var i := 0;
    while i + 1 < size
      invariant 0 <= i < size
      invariant forall k :: 0 <= k < i ==> next[k] == k + 1
    {
      next[i] := i + 1;
      i := i + 1;
    }
    next[size - 1] := EMPTY;
    ok := true;
    LinkedUpto(next[..], 0);
  }
}
