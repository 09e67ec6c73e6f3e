/** The free list is a stack of exactly the unowned frames, in every run. */
module FramePoolSafety {
  import opened FramePool

  predicate Owns(held: seq<set<nat>>, t: Tid, i: nat) { t < |held| && i in held[t] }

  /** Free or held, by one thread only. */
  ghost predicate OwnersOk(n: nat, list: seq<nat>, held: seq<set<nat>>)
  {
    && (forall t: Tid, i: nat :: Owns(held, t, i) ==> i < n && i !in list)
    && (forall t: Tid, u: Tid, i: nat :: Owns(held, t, i) && Owns(held, u, i) ==> t == u)
    && (forall i: nat :: i < n ==> i in list || exists t: Tid :: Owns(held, t, i))
  }

  /** What a thread that loaded word h at version `seen` still knows. */
  ghost predicate LoadOk(s: Frames, h: Word, seen: nat)
  {
    seen <= s.version && h.tag == seen % TAGS && (seen == s.version ==> h == s.head)
  }

  ghost predicate PcOk(s: Frames, t: Tid, pc: Pc)
  {
    match pc
    case ANext(h, seen) => LoadOk(s, h, seen) && h.idx < |s.next|
    case ACas(h, n, seen) =>
      LoadOk(s, h, seen) && h.idx < |s.next| && (seen == s.version ==> n == s.next[h.idx])
    case RLoad(idx) => Owns(s.held, t, idx)
    case RStore(idx, h, seen) => LoadOk(s, h, seen) && Owns(s.held, t, idx)
    case RCas(idx, h, seen) =>
      LoadOk(s, h, seen) && Owns(s.held, t, idx) && idx < |s.next| && s.next[idx] == h.idx
    case Idle(r) => r != Ignored
    case _ => true
  }

  ghost predicate ListOk(next: seq<nat>, head: Word, list: seq<nat>, version: nat)
  {
    Chain(next, head.idx, list) && Distinct(list) && head.tag == version % TAGS && 1 <= |next| < EMPTY
  }

  ghost predicate Inv(s: Frames)
  {
    && ListOk(s.next, s.head, s.list, s.version) && |s.held| == |s.pcs|
    && OwnersOk(|s.next|, s.list, s.held)
    && forall t: Tid :: t < |s.pcs| ==> PcOk(s, t, s.pcs[t])
  }

  // ---- chains -----------------------------------------------------------------

  lemma {:induction false} UptoIs(lo: nat, hi: nat)
    requires lo <= hi
    ensures |Upto(lo, hi)| == hi - lo && forall k :: 0 <= k < hi - lo ==> Upto(lo, hi)[k] == lo + k
    decreases hi - lo
  {
    if lo < hi { UptoIs(lo + 1, hi); }
  }

  lemma InitInv(s: Frames)
    requires Init(s)
    ensures Inv(s)
  {
    UptoIs(0, |s.next|);
    forall i | 0 <= i < |s.next|
      ensures i in s.list
    {
      assert s.list[i] == i;
    }
  }

  /** Writing the link of a frame that is not on the list leaves the chain alone. */
  lemma {:induction false} ChainFrame(next: seq<nat>, idx: nat, list: seq<nat>, i: nat, v: nat)
    requires Chain(next, idx, list) && i < |next| && i !in list
    ensures Chain(next[i := v], idx, list)
    decreases |list|
  {
    if list != [] {
      assert list[0] != i;
      ChainFrame(next, next[idx], list[1..], i, v);
    }
  }

  /** The first free frame, if there is one, is the head. */
  lemma HeadIsFirst(next: seq<nat>, head: Word, list: seq<nat>, version: nat)
    requires ListOk(next, head, list, version)
    ensures head.idx == EMPTY <==> list == []
    ensures list != [] ==> head.idx == list[0] && head.idx < |next| && head.idx in list
  {
  }

  /** Tags repeat only after 2^32 exchanges. */
  lemma TagTells(seen: nat, version: nat)
    requires seen <= version < seen + TAGS && seen % TAGS == version % TAGS
    ensures seen == version
  {
  }

  // ---- steps ------------------------------------------------------------------

  /** Steps that move only one program counter. */
  lemma MoveInv(s: Frames, t: Tid, pc: Pc)
    requires Inv(s) && t < |s.pcs| && PcOk(s, t, pc)
    ensures Inv(Goto(s, t, pc))
  {
    var s' := Goto(s, t, pc);
    forall u: Tid | u < |s.pcs|
      ensures PcOk(s', u, s'.pcs[u])
    {
      assert PcOk(s, u, s.pcs[u]);
    }
  }

  /** A winning acquire saw the current head and its current link. */
  lemma PopIsCurrent(s: Frames, t: Tid, h: Word, n: nat, seen: nat)
    requires Inv(s) && t < |s.pcs| && s.pcs[t] == ACas(h, n, seen) && s.head == h && TagFresh(s, seen)
    ensures seen == s.version && s.list != [] && s.list[0] == h.idx && h.idx < |s.next| && s.next[h.idx] == n
  {
    assert PcOk(s, t, s.pcs[t]);
    TagTells(seen, s.version);
    HeadIsFirst(s.next, s.head, s.list, s.version);
  }

  lemma PopList(next: seq<nat>, head: Word, list: seq<nat>, version: nat)
    requires ListOk(next, head, list, version) && list != [] && head.idx < |next|
    ensures ListOk(next, Word(next[head.idx], NextTag(head.tag)), list[1..], version + 1)
  {
  }

  lemma PopInv(s: Frames, t: Tid, h: Word, n: nat, seen: nat)
    requires Inv(s) && t < |s.pcs| && s.pcs[t] == ACas(h, n, seen) && s.head == h && TagFresh(s, seen)
    ensures Inv(Popped(s, t, h, n))
  {
    PopIsCurrent(s, t, h, n, seen);
    PopList(s.next, s.head, s.list, s.version);
    PopOwners(|s.next|, s.list, s.held, t);
    var s' := Popped(s, t, h, n);
    hide ListOk, OwnersOk;
    forall u: Tid | u < |s.pcs|
      ensures PcOk(s', u, s'.pcs[u])
    {
      assert PcOk(s, u, s.pcs[u]);
    }
  }

  lemma PopOwners(n: nat, list: seq<nat>, held: seq<set<nat>>, t: Tid)
    requires OwnersOk(n, list, held) && list != [] && Distinct(list) && list[0] < n && t < |held|
    ensures OwnersOk(n, list[1..], held[t := held[t] + {list[0]}])
  {
    var held' := held[t := held[t] + {list[0]}];
    assert list[0] in list;
    assert forall i: nat :: i in list <==> i == list[0] || i in list[1..];
    assert forall u: Tid, i: nat :: Owns(held', u, i) <==> Owns(held, u, i) || (u == t && i == list[0]);
    forall i: nat | i < n
      ensures i in list[1..] || exists u: Tid :: Owns(held', u, i)
    {
      if i == list[0] {
        assert Owns(held', t, i);
      } else if i !in list {
        var u: Tid :| Owns(held, u, i);
        assert Owns(held', u, i);
      }
    }
  }

  /** A winning release put the current head behind its frame. */
  lemma PushIsCurrent(s: Frames, t: Tid, idx: nat, h: Word, seen: nat)
    requires Inv(s) && t < |s.pcs| && s.pcs[t] == RCas(idx, h, seen) && s.head == h && TagFresh(s, seen)
    ensures seen == s.version && idx < |s.next| && s.next[idx] == s.head.idx && Owns(s.held, t, idx) && idx !in s.list
  {
    assert PcOk(s, t, s.pcs[t]);
    TagTells(seen, s.version);
  }

  lemma PushList(next: seq<nat>, head: Word, list: seq<nat>, version: nat, idx: nat)
    requires ListOk(next, head, list, version) && idx < |next| && next[idx] == head.idx && idx !in list
    ensures ListOk(next, Word(idx, NextTag(head.tag)), [idx] + list, version + 1)
  {
    assert ([idx] + list)[1..] == list;
  }

  lemma PushInv(s: Frames, t: Tid, idx: nat, h: Word, seen: nat)
    requires Inv(s) && t < |s.pcs| && s.pcs[t] == RCas(idx, h, seen) && s.head == h && TagFresh(s, seen)
    ensures Inv(Pushed(s, t, idx, h))
  {
    PushIsCurrent(s, t, idx, h, seen);
    PushList(s.next, s.head, s.list, s.version, idx);
    PushOwners(|s.next|, s.list, s.held, t, idx);
    var s' := Pushed(s, t, idx, h);
    hide ListOk;
    forall u: Tid | u < |s.pcs|
      ensures PcOk(s', u, s'.pcs[u])
    {
      assert PcOk(s, u, s.pcs[u]);
      if u != t { Releasing(s, t, idx, u); }
    }
  }

  /** Nobody else is releasing the frame that t releases. */
  lemma Releasing(s: Frames, t: Tid, idx: nat, v: Tid)
    requires Inv(s) && t < |s.pcs| && Owns(s.held, t, idx) && v < |s.pcs| && v != t
    ensures var pc := s.pcs[v]; pc.RLoad? || pc.RStore? || pc.RCas? ==> pc.idx != idx
  {
    assert PcOk(s, v, s.pcs[v]);
  }

  lemma PushOwners(n: nat, list: seq<nat>, held: seq<set<nat>>, t: Tid, idx: nat)
    requires OwnersOk(n, list, held) && Owns(held, t, idx)
    ensures OwnersOk(n, [idx] + list, held[t := held[t] - {idx}])
  {
    var held' := held[t := held[t] - {idx}];
    assert forall i: nat :: i in [idx] + list <==> i == idx || i in list;
    forall u: Tid, i: nat
      ensures Owns(held', u, i) <==> Owns(held, u, i) && i != idx
    {
      assert i == idx && Owns(held, u, i) ==> u == t;
    }
    forall i: nat | i < n
      ensures i in [idx] + list || exists u: Tid :: Owns(held', u, i)
    {
      if i != idx && i !in list {
        var u: Tid :| Owns(held, u, i);
        assert Owns(held', u, i);
      }
    }
  }

  /** Only the owner writes a frame's link, and never that of a free frame. */
  lemma StoreInv(s: Frames, t: Tid, idx: nat, h: Word, seen: nat)
    requires Inv(s) && t < |s.pcs| && s.pcs[t] == RStore(idx, h, seen)
    ensures idx < |s.next| && Inv(Goto(s.(next := s.next[idx := h.idx]), t, RCas(idx, h, seen)))
  {
    assert PcOk(s, t, s.pcs[t]);
    var s' := Goto(s.(next := s.next[idx := h.idx]), t, RCas(idx, h, seen));
    ChainFrame(s.next, s.head.idx, s.list, idx, h.idx);
    HeadIsFirst(s.next, s.head, s.list, s.version);
    forall u: Tid | u < |s.pcs|
      ensures PcOk(s', u, s'.pcs[u])
    {
      assert PcOk(s, u, s.pcs[u]);
    }
  }

  lemma HandOnOwners(n: nat, list: seq<nat>, held: seq<set<nat>>, t: Tid, idx: nat, u: Tid)
    requires OwnersOk(n, list, held) && Owns(held, t, idx) && u < |held| && u != t
    ensures OwnersOk(n, list, held[t := held[t] - {idx}][u := held[u] + {idx}])
    ensures forall v: Tid, i: nat :: Owns(held[t := held[t] - {idx}][u := held[u] + {idx}], v, i) <==>
      if i == idx then v == u else Owns(held, v, i)
  {
    var held' := held[t := held[t] - {idx}][u := held[u] + {idx}];
    forall v: Tid, i: nat
      ensures Owns(held', v, i) <==> if i == idx then v == u else Owns(held, v, i)
    {
      assert i == idx && Owns(held, v, i) ==> v == t;
    }
    forall i: nat | i < n
      ensures i in list || exists v: Tid :: Owns(held', v, i)
    {
      if i == idx {
        assert Owns(held', u, i);
      } else if i !in list {
        var v: Tid :| Owns(held, v, i);
        assert Owns(held', v, i);
      }
    }
  }

  lemma HandOnInv(s: Frames, t: Tid, idx: nat, u: Tid)
    requires Inv(s) && t < |s.pcs| && s.pcs[t].Idle? && idx in s.held[t] && u < |s.pcs| && u != t
    ensures Inv(s.(held := s.held[t := s.held[t] - {idx}][u := s.held[u] + {idx}]))
  {
    var s' := s.(held := s.held[t := s.held[t] - {idx}][u := s.held[u] + {idx}]);
    HandOnOwners(|s.next|, s.list, s.held, t, idx, u);
    assert Owns(s.held, t, idx);
    hide OwnersOk, ListOk, Owns;
    forall v: Tid | v < |s.pcs|
      ensures PcOk(s', v, s'.pcs[v])
    {
      assert PcOk(s, v, s.pcs[v]);
      HandedOn(s, t, idx, s.pcs[v], v);
    }
  }

  /** Nobody is releasing the frame that an idle thread hands on. */
  lemma HandedOn(s: Frames, t: Tid, idx: nat, pc: Pc, v: Tid)
    requires Inv(s) && t < |s.pcs| && s.pcs[t].Idle? && Owns(s.held, t, idx) && v < |s.pcs| && pc == s.pcs[v]
    ensures pc.RLoad? || pc.RStore? || pc.RCas? ==> pc.idx != idx
  {
    assert PcOk(s, v, pc);
    assert Owns(s.held, v, idx) ==> v == t;
  }

  lemma BeginInv(s: Frames, t: Tid, s': Frames)
    requires Inv(s) && t < |s.pcs| && s.pcs[t].Idle? && Begin(s, t, s')
    ensures Inv(s')
  {
    if s' == Goto(s, t, ALoad) {
      MoveInv(s, t, ALoad);
    } else if idx :| idx in s.held[t] && s' == Goto(s, t, RLoad(idx)) {
      MoveInv(s, t, RLoad(idx));
    } else if idx, u: nat :| (
        && idx in s.held[t] && u < |s.pcs| && u != t
        && s' == s.(held := s.held[t := s.held[t] - {idx}][u := s.held[u] + {idx}])) {
      HandOnInv(s, t, idx, u);
    } else {
      forall u: Tid | u < |s.pcs|
        ensures PcOk(s', u, s'.pcs[u])
      {
        assert PcOk(s, u, s.pcs[u]);
      }
    }
  }

  lemma AcquireInv(s: Frames, t: Tid, s': Frames)
    requires Inv(s) && t < |s.pcs| && AcquireStep(s, t, s')
    ensures Inv(s')
  {
    assert PcOk(s, t, s.pcs[t]);
    HeadIsFirst(s.next, s.head, s.list, s.version);
    if s.pcs[t].ACas? && s' != Goto(s, t, ALoad) {
      PopInv(s, t, s.pcs[t].h, s.pcs[t].n, s.pcs[t].seen);
    } else {
      MoveInv(s, t, s'.pcs[t]);
    }
  }

  lemma ReleaseInv(s: Frames, t: Tid, s': Frames)
    requires Inv(s) && t < |s.pcs| && ReleaseStep(s, t, s')
    ensures Inv(s')
  {
    assert PcOk(s, t, s.pcs[t]);
    HeadIsFirst(s.next, s.head, s.list, s.version);
    match s.pcs[t] {
      case RStore(idx, h, seen) => StoreInv(s, t, idx, h, seen);
      case RCas(idx, h, seen) =>
        if s' == Goto(s, t, RLoad(idx)) { MoveInv(s, t, RLoad(idx)); } else { PushInv(s, t, idx, h, seen); }
      case RLoad(idx) => MoveInv(s, t, RStore(idx, s.head, s.version));
      case _ =>
    }
  }

  lemma NextInv(s: Frames, t: Tid, s': Frames)
    requires Inv(s) && Next(s, t, s')
    ensures Inv(s')
  {
    hide Inv, Begin, AcquireStep, ReleaseStep;
    if s.pcs[t].Idle? { BeginInv(s, t, s'); }
    else if AcquireStep(s, t, s') { AcquireInv(s, t, s'); }
    else { ReleaseInv(s, t, s'); }
  }

  lemma {:induction false} RunInv(tr: seq<Frames>, i: nat)
    requires Run(tr) && i < |tr|
    ensures Inv(tr[i])
  {
    hide Inv, Next, Init;
    if i == 0 {
      InitInv(tr[0]);
    } else {
      RunInv(tr, i - 1);
      assert StepAt(tr, i - 1);
      var t :| Next(tr[i - 1], t, tr[i]);
      NextInv(tr[i - 1], t, tr[i]);
    }
  }

  // ---- theorems ---------------------------------------------------------------

  /**
    At any moment of any run: the links lead from the head to EMPTY without a cycle, through
    exactly the frames nobody holds; every other frame is held by exactly one thread.
   */
  lemma FreeListSound(tr: seq<Frames>, i: nat, f: nat)
    requires Run(tr) && i < |tr| && f < |tr[i].next|
    ensures Chain(tr[i].next, tr[i].head.idx, tr[i].list) && Distinct(tr[i].list)
    ensures f in tr[i].list <==> !exists t: Tid :: Owns(tr[i].held, t, f)
    ensures forall t: Tid, u: Tid :: Owns(tr[i].held, t, f) && Owns(tr[i].held, u, f) ==> t == u
  {
    RunInv(tr, i);
  }

  /** The double-release check never stops a thread that holds the frame it gives back. */
  lemma GuardNeverFires(tr: seq<Frames>, i: nat, t: nat)
    requires Run(tr) && i < |tr| && t < |tr[i].pcs|
    ensures tr[i].pcs[t].RLoad? ==> tr[i].head.idx != tr[i].pcs[t].idx
    ensures tr[i].pcs[t] != Idle(Ignored)
  {
    RunInv(tr, i);
    var s := tr[i];
    assert PcOk(s, t, s.pcs[t]);
    HeadIsFirst(s.next, s.head, s.list, s.version);
  }

  /** A stack of frames: nothing, push on top, or pop from the top. */
  ghost predicate StackNext(a: seq<nat>, b: seq<nat>)
  {
    b == a || (|b| > 0 && b[1..] == a && b[0] !in a) || (|a| > 0 && b == a[1..])
  }

  /**
    Every step refines a stack: a winning acquire takes the top element, through the link that
    is current at that moment, and a winning release puts its frame on top of the current list.
   */
  lemma RefinesStack(tr: seq<Frames>, i: nat)
    requires Run(tr) && i + 1 < |tr|
    ensures StackNext(tr[i].list, tr[i + 1].list)
    ensures forall t: Tid :: (t < |tr[i].pcs| && |tr[i + 1].pcs| == |tr[i].pcs| &&
                              tr[i].pcs[t].ACas? && tr[i + 1].pcs[t].Idle?) ==>
      var h := tr[i].head;
      && tr[i].list != [] && tr[i].list[0] == h.idx && h.idx < |tr[i].next|
      && tr[i + 1].pcs[t] == Idle(Got(h.idx)) && tr[i + 1].head.idx == tr[i].next[h.idx]
      && tr[i + 1].list == tr[i].list[1..]
  {
    RunInv(tr, i);
    assert StepAt(tr, i);
    var t :| Next(tr[i], t, tr[i + 1]);
    hide Run, Init;
    StepIsStack(tr[i], t, tr[i + 1]);
  }

  lemma StepIsStack(s: Frames, t: Tid, s': Frames)
    requires Inv(s) && Next(s, t, s')
    ensures StackNext(s.list, s'.list) && |s'.pcs| == |s.pcs|
    ensures forall u: Tid :: u < |s.pcs| && u != t ==> s'.pcs[u] == s.pcs[u]
    ensures s.pcs[t].ACas? && s'.pcs[t].Idle? ==>
      && s.list != [] && s.list[0] == s.head.idx && s.head.idx < |s.next|
      && s'.pcs[t] == Idle(Got(s.head.idx)) && s'.head.idx == s.next[s.head.idx] && s'.list == s.list[1..]
  {
    assert PcOk(s, t, s.pcs[t]);
    if s.pcs[t].ACas? && s' != Goto(s, t, ALoad) {
      PopIsCurrent(s, t, s.pcs[t].h, s.pcs[t].n, s.pcs[t].seen);
    } else if s.pcs[t].RCas? && s' != Goto(s, t, RLoad(s.pcs[t].idx)) {
      PushIsCurrent(s, t, s.pcs[t].idx, s.pcs[t].h, s.pcs[t].seen);
      assert ([s.pcs[t].idx] + s.list)[1..] == s.list;
    }
  }
}
