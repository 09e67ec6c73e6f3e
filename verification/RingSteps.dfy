/** Every step of every thread keeps the ring invariant. */
module RingSteps {
  import opened Positions
  import opened Options
  import opened Ring
  import opened RingInvariant

  /** Enqueued values never change, deliveries are never undone, positions never go back. */
  ghost predicate HistoryGrows(c: Core, c': Core)
  {
    && c.deq <= c'.deq && |c.log| <= |c'.log|
    && (forall p :: 0 <= p < |c.log| && c.log[p].Some? ==> c'.log[p] == c.log[p])
    && (forall p :: p in c.delivered ==> p in c'.delivered && c'.delivered[p] == c.delivered[p])
  }

  /** What no step ever undoes. */
  ghost predicate Grows(c: Core, c': Core)
  {
    && c'.mode == c.mode && c'.producers == c.producers && c'.consumers == c.consumers
    && HistoryGrows(c, c') && |c'.cells| == |c.cells|
    && (forall i :: 0 <= i < |c.cells| ==> c.cells[i].seqno <= c'.cells[i].seqno)
  }

  /** The position whose cell a program counter relies on not changing. */
  function Relies(pc: Pc): Option<nat>
  {
    match pc
    case PushWrite(_, p) => Some(p)
    case PushPublish(_, p) => Some(p)
    case SoloWrite(_, p) => Some(p)
    case SoloPublish(_, p) => Some(p)
    case PopStore(p) => Some(p)
    case PopRead(p) => Some(p)
    case PopClear(p, _) => Some(p)
    case PopRelease(p, _) => Some(p)
    case _ => None
  }

  /** Nothing that thread u counts on has changed. */
  ghost predicate Undisturbed(c: Core, c': Core, u: Tid, pc: Pc)
  {
    && Grows(c, c')
    && (Relies(pc).Some? ==> CellOf(c', Relies(pc).value) == CellOf(c, Relies(pc).value))
    && (SoleProducer(c.mode) && u in c.producers ==> c'.enq == c.enq)
    && (SoleConsumer(c.mode) && u in c.consumers ==> c'.deq == c.deq)
    && (pc.SoloAdvance? ==> c'.enq == c.enq && c'.gap == c.gap)
  }

  lemma PcKeeps(c: Core, c': Core, u: Tid, pc: Pc)
    requires PcOk(c, u, pc) && Undisturbed(c, c', u, pc)
    ensures PcOk(c', u, pc)
  {
  }

  lemma ThreadsKeep(c: Core, c': Core, th: seq<Pc>, t: Tid, pc: Pc)
    requires ThreadsOk(c, th) && t < |th| && PcOk(c', t, pc)
    requires forall u :: 0 <= u < |th| && u != t ==> Undisturbed(c, c', u, th[u])
    ensures ThreadsOk(c', th[t := pc])
  {
    forall u | 0 <= u < |th| && u != t
      ensures PcOk(c', u, th[u])
    {
      hide PcOk, Undisturbed;
      PcKeeps(c, c', u, th[u]);
    }
  }

  /** Steps that leave positions, cells and histories alone. */
  lemma FrameKeeps(c: Core, th: seq<Pc>, th': seq<Pc>)
    requires Inv(c, th) && |th'| == |th|
    requires forall u :: 0 <= u < |th| ==> Holds(th'[u]) == Holds(th[u]) && PcOk(c, u, th'[u])
    ensures Inv(c, th')
  {
    hide PcOk, Holds;
    assert forall t, h :: HeldBy(th, t, h) ==> HeldBy(th', t, h);
    assert forall i :: 0 <= i < |c.cells| ==> CellOk(c, th, i) ==> CellOk(c, th', i);
  }

  lemma GotoKeeps(c: Core, th: seq<Pc>, t: Tid, pc: Pc)
    requires Inv(c, th) && t < |th|
    requires Holds(th[t]) == Holds(pc) && PcOk(c, t, pc)
    ensures Inv(c, th[t := pc])
  {
    hide PcOk, Holds;
    FrameKeeps(c, th, th[t := pc]);
  }

  // ---- producers --------------------------------------------------------------

  lemma ClaimCells(c: Core, th: seq<Pc>, t: Tid, k: Kind, v: Msg)
    requires CellsOk(c, th) && t < |th| && Holds(th[t]) == NoSlot && c.deq <= |c.log|
    requires CellOf(c, |c.log|).phase == Free(|c.log|)
    ensures CellsOk(ClaimCore(c, t, k, v, |c.log|), th[t := AfterClaim(k, v, |c.log|)])
  {
    var pos := |c.log|;
    var c', th' := ClaimCore(c, t, k, v, pos), th[t := AfterClaim(k, v, pos)];
    forall i | 0 <= i < |c.cells|
      ensures CellOk(c', th', i)
    {
      assert CellOk(c, th, i);
      SlotNextLap(c.cells[i].phase.pos, |c.cells|);
    }
  }

  lemma ClaimUndisturbed(c: Core, t: Tid, k: Kind, v: Msg, u: Tid, pc: Pc)
    requires RolesFit(c) && t in c.producers && u != t && PcOk(c, u, pc)
    requires CellOf(c, |c.log|).phase == Free(|c.log|) && c.gap == None
    ensures Undisturbed(c, ClaimCore(c, t, k, v, |c.log|), u, pc)
  {
  }

  lemma ClaimKeeps(c: Core, th: seq<Pc>, t: Tid, k: Kind, v: Msg, pos: nat)
    requires Inv(c, th) && t < |th| && th[t] == PushCas(k, v, pos) && c.enq == pos
    ensures Inv(ClaimCore(c, t, k, v, pos), th[t := AfterClaim(k, v, pos)])
  {
    assert PcOk(c, t, th[t]);
    assert c.gap == None;
    TailIsFree(c, th);
    var c', pc' := ClaimCore(c, t, k, v, pos), AfterClaim(k, v, pos);
    assert CellOk(c, th, At(c, pos));
    assert PcOk(c', t, pc');
    hide PcOk, CellOk, Undisturbed;
    ClaimCells(c, th, t, k, v);
    forall u | 0 <= u < |th| && u != t
      ensures Undisturbed(c, c', u, th[u])
    {
      ClaimUndisturbed(c, t, k, v, u, th[u]);
    }
    ThreadsKeep(c, c', th, t, pc');
    assert forall p: nat :: BeingTaken(c, p) ==> BeingTaken(c', p);
  }

  lemma WriteCells(c: Core, th: seq<Pc>, t: Tid, v: Msg, pos: nat)
    requires CellsOk(c, th) && t < |th| && Holds(th[t]) == Put(pos) && CellOf(c, pos).phase == Claimed(pos, ByThread(t))
    ensures CellsOk(WriteCore(c, pos, Some(v)), th[t := PushPublish(v, pos)])
  {
    var c', th' := WriteCore(c, pos, Some(v)), th[t := PushPublish(v, pos)];
    assert CellOk(c, th, At(c, pos));
    forall i | 0 <= i < |c.cells|
      ensures CellOk(c', th', i)
    {
      assert CellOk(c, th, i);
    }
  }

  lemma WriteUndisturbed(c: Core, t: Tid, v: Msg, pos: nat, u: Tid, pc: Pc)
    requires RolesFit(c) && u != t && PcOk(c, u, pc)
    requires CellOf(c, pos).phase == Claimed(pos, ByThread(t))
    ensures Undisturbed(c, WriteCore(c, pos, Some(v)), u, pc)
  {
  }

  lemma WriteKeeps(c: Core, th: seq<Pc>, t: Tid, v: Msg, pos: nat)
    requires Inv(c, th) && t < |th| && th[t] == PushWrite(v, pos)
    ensures Inv(WriteCore(c, pos, Some(v)), th[t := PushPublish(v, pos)])
  {
    assert PcOk(c, t, th[t]);
    var c', pc' := WriteCore(c, pos, Some(v)), PushPublish(v, pos);
    assert CellOk(c, th, At(c, pos));
    assert PcOk(c', t, pc');
    hide PcOk, CellOk, Undisturbed;
    WriteCells(c, th, t, v, pos);
    forall u | 0 <= u < |th| && u != t
      ensures Undisturbed(c, c', u, th[u])
    {
      WriteUndisturbed(c, t, v, pos, u, th[u]);
    }
    ThreadsKeep(c, c', th, t, pc');
    assert forall p: nat :: BeingTaken(c, p) ==> BeingTaken(c', p);
  }

  lemma PublishCells(c: Core, th: seq<Pc>, t: Tid, v: Msg, pos: nat)
    requires CellsOk(c, th) && t < |th| && th[t] == PushPublish(v, pos) && PcOk(c, t, th[t])
    ensures CellsOk(PublishCore(c, pos), th[t := Waking(WTest, Pushed)])
  {
    var c', th' := PublishCore(c, pos), th[t := Waking(WTest, Pushed)];
    assert CellOk(c, th, At(c, pos));
    forall i | 0 <= i < |c.cells|
      ensures CellOk(c', th', i)
    {
      assert CellOk(c, th, i);
    }
  }

  lemma PublishUndisturbed(c: Core, t: Tid, v: Msg, pos: nat, u: Tid, pc: Pc)
    requires RolesFit(c) && u != t && PcOk(c, u, pc)
    requires CellOf(c, pos).phase == Claimed(pos, ByThread(t)) && CellOf(c, pos).seqno == pos
    ensures Undisturbed(c, PublishCore(c, pos), u, pc)
  {
  }

  lemma PublishKeeps(c: Core, th: seq<Pc>, t: Tid, v: Msg, pos: nat)
    requires Inv(c, th) && t < |th| && th[t] == PushPublish(v, pos)
    ensures Inv(PublishCore(c, pos), th[t := Waking(WTest, Pushed)])
  {
    assert PcOk(c, t, th[t]);
    var c', pc' := PublishCore(c, pos), Waking(WTest, Pushed);
    assert CellOk(c, th, At(c, pos));
    assert PcOk(c', t, pc');
    hide PcOk, CellOk, Undisturbed;
    PublishCells(c, th, t, v, pos);
    forall u | 0 <= u < |th| && u != t
      ensures Undisturbed(c, c', u, th[u])
    {
      PublishUndisturbed(c, t, v, pos, u, th[u]);
    }
    ThreadsKeep(c, c', th, t, pc');
    assert forall p: nat :: BeingTaken(c, p) ==> BeingTaken(c', p);
  }

  lemma WriteSoloCells(c: Core, th: seq<Pc>, t: Tid, v: Msg, pos: nat)
    requires CellsOk(c, th) && t < |th| && Holds(th[t]) == NoSlot && CellOf(c, pos).phase == Free(pos)
    ensures CellsOk(WriteCore(c, pos, Some(v)), th[t := SoloPublish(v, pos)])
  {
    var c', th' := WriteCore(c, pos, Some(v)), th[t := SoloPublish(v, pos)];
    assert CellOk(c, th, At(c, pos));
    forall i | 0 <= i < |c.cells|
      ensures CellOk(c', th', i)
    {
      assert CellOk(c, th, i);
    }
  }

  lemma WriteSoloUndisturbed(c: Core, t: Tid, v: Msg, pos: nat, u: Tid, pc: Pc)
    requires RolesFit(c) && u != t && PcOk(c, u, pc)
    requires PuttingSolo(c, t, pos)
    ensures Undisturbed(c, WriteCore(c, pos, Some(v)), u, pc)
  {
  }

  lemma WriteSoloKeeps(c: Core, th: seq<Pc>, t: Tid, v: Msg, pos: nat)
    requires Inv(c, th) && t < |th| && th[t] == SoloWrite(v, pos)
    ensures Inv(WriteCore(c, pos, Some(v)), th[t := SoloPublish(v, pos)])
  {
    assert PcOk(c, t, th[t]);
    var c', pc' := WriteCore(c, pos, Some(v)), SoloPublish(v, pos);
    assert CellOk(c, th, At(c, pos));
    assert PcOk(c', t, pc');
    hide PcOk, CellOk, Undisturbed;
    WriteSoloCells(c, th, t, v, pos);
    forall u | 0 <= u < |th| && u != t
      ensures Undisturbed(c, c', u, th[u])
    {
      WriteSoloUndisturbed(c, t, v, pos, u, th[u]);
    }
    ThreadsKeep(c, c', th, t, pc');
    assert forall p: nat :: BeingTaken(c, p) ==> BeingTaken(c', p);
  }

  lemma PublishSoloCells(c: Core, th: seq<Pc>, t: Tid, v: Msg, pos: nat)
    requires CellsOk(c, th) && t < |th| && th[t] == SoloPublish(v, pos) && PcOk(c, t, th[t]) && c.deq <= |c.log| == pos
    ensures CellsOk(PublishSoloCore(c, t, v, pos), th[t := SoloAdvance(pos)])
  {
    var c', th' := PublishSoloCore(c, t, v, pos), th[t := SoloAdvance(pos)];
    assert CellOk(c, th, At(c, pos));
    forall i | 0 <= i < |c.cells|
      ensures CellOk(c', th', i)
    {
      assert CellOk(c, th, i);
      SlotNextLap(c.cells[i].phase.pos, |c.cells|);
    }
  }

  lemma PublishSoloUndisturbed(c: Core, t: Tid, v: Msg, pos: nat, u: Tid, pc: Pc)
    requires RolesFit(c) && u != t && PcOk(c, u, pc)
    requires PuttingSolo(c, t, pos) && c.gap == None && CellOf(c, pos).seqno == pos
    ensures Undisturbed(c, PublishSoloCore(c, t, v, pos), u, pc)
  {
  }

  lemma PublishSoloKeeps(c: Core, th: seq<Pc>, t: Tid, v: Msg, pos: nat)
    requires Inv(c, th) && t < |th| && th[t] == SoloPublish(v, pos)
    ensures Inv(PublishSoloCore(c, t, v, pos), th[t := SoloAdvance(pos)])
  {
    assert PcOk(c, t, th[t]);
    assert c.gap == None;
    var c', pc' := PublishSoloCore(c, t, v, pos), SoloAdvance(pos);
    assert CellOk(c, th, At(c, pos));
    assert PcOk(c', t, pc');
    hide PcOk, CellOk, Undisturbed;
    PublishSoloCells(c, th, t, v, pos);
    forall u | 0 <= u < |th| && u != t
      ensures Undisturbed(c, c', u, th[u])
    {
      PublishSoloUndisturbed(c, t, v, pos, u, th[u]);
    }
    ThreadsKeep(c, c', th, t, pc');
    assert forall p: nat :: BeingTaken(c, p) ==> BeingTaken(c', p);
  }

  lemma AdvanceCells(c: Core, th: seq<Pc>, t: Tid, pos: nat)
    requires CellsOk(c, th) && t < |th| && th[t] == SoloAdvance(pos)
    ensures CellsOk(AdvanceCore(c, pos), th[t := Waking(WTest, Pushed)])
  {
    var c', th' := AdvanceCore(c, pos), th[t := Waking(WTest, Pushed)];
    assert CellOk(c, th, At(c, pos));
    forall i | 0 <= i < |c.cells|
      ensures CellOk(c', th', i)
    {
      assert CellOk(c, th, i);
    }
  }

  lemma AdvanceUndisturbed(c: Core, t: Tid, pos: nat, u: Tid, pc: Pc)
    requires RolesFit(c) && u != t && PcOk(c, u, pc)
    requires c.gap == Some(t) && t in c.producers && SoleProducer(c.mode)
    ensures Undisturbed(c, AdvanceCore(c, pos), u, pc)
  {
  }

  lemma AdvanceKeeps(c: Core, th: seq<Pc>, t: Tid, pos: nat)
    requires Inv(c, th) && t < |th| && th[t] == SoloAdvance(pos)
    ensures Inv(AdvanceCore(c, pos), th[t := Waking(WTest, Pushed)])
  {
    assert PcOk(c, t, th[t]);
    var c', pc' := AdvanceCore(c, pos), Waking(WTest, Pushed);
    assert CellOk(c, th, At(c, pos));
    assert PcOk(c', t, pc');
    hide PcOk, CellOk, Undisturbed;
    AdvanceCells(c, th, t, pos);
    forall u | 0 <= u < |th| && u != t
      ensures Undisturbed(c, c', u, th[u])
    {
      AdvanceUndisturbed(c, t, pos, u, th[u]);
    }
    ThreadsKeep(c, c', th, t, pc');
    assert forall p: nat :: BeingTaken(c, p) ==> BeingTaken(c', p);
  }

  lemma CommitCells(c: Core, th: seq<Pc>, t: Tid, v: Msg, pos: nat)
    requires CellsOk(c, th) && t < |th| && Holds(th[t]) == NoSlot
    requires pos < |c.log| && CellOf(c, pos).phase == Claimed(pos, ByTicket)
    ensures CellsOk(CommitCore(c, t, pos, v), th[t := PushWrite(v, pos)])
  {
    var c', th' := CommitCore(c, t, pos, v), th[t := PushWrite(v, pos)];
    assert CellOk(c, th, At(c, pos));
    forall i | 0 <= i < |c.cells|
      ensures CellOk(c', th', i)
    {
      assert CellOk(c, th, i);
    }
  }

  lemma CommitUndisturbed(c: Core, t: Tid, v: Msg, pos: nat, u: Tid, pc: Pc)
    requires RolesFit(c) && u != t && PcOk(c, u, pc)
    requires pos < |c.log| && c.log[pos] == None && CellOf(c, pos).phase == Claimed(pos, ByTicket)
    ensures Undisturbed(c, CommitCore(c, t, pos, v), u, pc)
  {
  }

  lemma CommitKeeps(c: Core, th: seq<Pc>, t: Tid, v: Msg, pos: nat)
    requires Inv(c, th) && t < |th| && th[t].Idle? && pos in c.tickets && pos < |c.log|
    ensures Inv(CommitCore(c, t, pos, v), th[t := PushWrite(v, pos)])
  {
    assert PcOk(c, t, th[t]);
    var c', pc' := CommitCore(c, t, pos, v), PushWrite(v, pos);
    assert CellOk(c, th, At(c, pos));
    assert PcOk(c', t, pc');
    hide PcOk, CellOk, Undisturbed;
    CommitCells(c, th, t, v, pos);
    forall u | 0 <= u < |th| && u != t
      ensures Undisturbed(c, c', u, th[u])
    {
      CommitUndisturbed(c, t, v, pos, u, th[u]);
    }
    ThreadsKeep(c, c', th, t, pc');
    assert forall p: nat :: BeingTaken(c, p) ==> BeingTaken(c', p);
  }

  // ---- consumers --------------------------------------------------------------

  lemma TakeCells(c: Core, th: seq<Pc>, t: Tid, pos: nat)
    requires CellsOk(c, th) && t < |th| && Holds(th[t]) == NoSlot && c.deq == pos && pos !in c.delivered
    requires |c.log| <= c.deq + |c.cells| && CellOf(c, pos).phase == Full(pos)
    ensures CellsOk(TakeCore(c, t, pos), th[t := PopRead(pos)])
  {
    var c', th' := TakeCore(c, t, pos), th[t := PopRead(pos)];
    assert CellOk(c, th, At(c, pos));
    forall i | 0 <= i < |c.cells|
      ensures CellOk(c', th', i)
    {
      assert CellOk(c, th, i);
    }
  }

  lemma TakeUndisturbed(c: Core, t: Tid, pos: nat, u: Tid, pc: Pc)
    requires RolesFit(c) && u != t && PcOk(c, u, pc)
    requires t in c.consumers && c.deq == pos && CellOf(c, pos).phase == Full(pos)
    ensures Undisturbed(c, TakeCore(c, t, pos), u, pc)
  {
  }

  lemma TakeKeeps(c: Core, th: seq<Pc>, t: Tid, pos: nat)
    requires Inv(c, th) && t < |th| && c.deq == pos && (th[t] == PopCas(pos) || th[t] == PopStore(pos))
    ensures Inv(TakeCore(c, t, pos), th[t := PopRead(pos)])
  {
    assert PcOk(c, t, th[t]);
    if th[t].PopCas? { HeadIsFull(c, th); }
    var c', pc' := TakeCore(c, t, pos), PopRead(pos);
    assert CellOk(c, th, At(c, pos));
    assert PcOk(c', t, pc');
    hide PcOk, CellOk, Undisturbed;
    TakeCells(c, th, t, pos);
    forall u | 0 <= u < |th| && u != t
      ensures Undisturbed(c, c', u, th[u])
    {
      TakeUndisturbed(c, t, pos, u, th[u]);
    }
    ThreadsKeep(c, c', th, t, pc');
    assert forall p: nat :: BeingTaken(c, p) ==> BeingTaken(c', p);
  }

  lemma ClearCells(c: Core, th: seq<Pc>, t: Tid, d: Option<Msg>, pos: nat)
    requires CellsOk(c, th) && t < |th| && Holds(th[t]) == Get(pos) && CellOf(c, pos).phase == Taking(pos, t)
    ensures CellsOk(WriteCore(c, pos, None), th[t := PopRelease(pos, d)])
  {
    var c', th' := WriteCore(c, pos, None), th[t := PopRelease(pos, d)];
    assert CellOk(c, th, At(c, pos));
    forall i | 0 <= i < |c.cells|
      ensures CellOk(c', th', i)
    {
      assert CellOk(c, th, i);
    }
  }

  lemma ClearUndisturbed(c: Core, t: Tid, d: Option<Msg>, pos: nat, u: Tid, pc: Pc)
    requires RolesFit(c) && u != t && PcOk(c, u, pc)
    requires CellOf(c, pos).phase == Taking(pos, t)
    ensures Undisturbed(c, WriteCore(c, pos, None), u, pc)
  {
  }

  lemma ClearKeeps(c: Core, th: seq<Pc>, t: Tid, d: Option<Msg>, pos: nat)
    requires Inv(c, th) && t < |th| && th[t] == PopClear(pos, d)
    ensures Inv(WriteCore(c, pos, None), th[t := PopRelease(pos, d)])
  {
    assert PcOk(c, t, th[t]);
    var c', pc' := WriteCore(c, pos, None), PopRelease(pos, d);
    assert CellOk(c, th, At(c, pos));
    assert PcOk(c', t, pc');
    hide PcOk, CellOk, Undisturbed;
    ClearCells(c, th, t, d, pos);
    forall u | 0 <= u < |th| && u != t
      ensures Undisturbed(c, c', u, th[u])
    {
      ClearUndisturbed(c, t, d, pos, u, th[u]);
    }
    ThreadsKeep(c, c', th, t, pc');
    assert forall p: nat :: BeingTaken(c, p) ==> BeingTaken(c', p);
  }

  lemma ReleaseCells(c: Core, th: seq<Pc>, t: Tid, d: Option<Msg>, pos: nat)
    requires CellsOk(c, th) && t < |th| && Holds(th[t]) == Get(pos) && CellOf(c, pos).phase == Taking(pos, t)
    ensures CellsOk(ReleaseCore(c, pos, d), th[t := Waking(WTest, Popped(pos, d))])
  {
    var c', th' := ReleaseCore(c, pos, d), th[t := Waking(WTest, Popped(pos, d))];
    assert CellOk(c, th, At(c, pos));
    SlotNextLap(pos, |c.cells|);
    forall i | 0 <= i < |c.cells|
      ensures CellOk(c', th', i)
    {
      assert CellOk(c, th, i);
    }
  }

  lemma ReleaseUndisturbed(c: Core, t: Tid, d: Option<Msg>, pos: nat, u: Tid, pc: Pc)
    requires RolesFit(c) && u != t && PcOk(c, u, pc)
    requires CellOf(c, pos).phase == Taking(pos, t) && pos !in c.delivered && CellOf(c, pos).seqno == pos + 1
    ensures Undisturbed(c, ReleaseCore(c, pos, d), u, pc)
  {
  }

  lemma ReleaseKeeps(c: Core, th: seq<Pc>, t: Tid, d: Option<Msg>, pos: nat)
    requires Inv(c, th) && t < |th| && th[t] == PopRelease(pos, d)
    ensures Inv(ReleaseCore(c, pos, d), th[t := Waking(WTest, Popped(pos, d))])
  {
    assert PcOk(c, t, th[t]);
    var c', pc' := ReleaseCore(c, pos, d), Waking(WTest, Popped(pos, d));
    assert CellOk(c, th, At(c, pos));
    assert PcOk(c', t, pc');
    hide PcOk, CellOk, Undisturbed;
    ReleaseCells(c, th, t, d, pos);
    forall u | 0 <= u < |th| && u != t
      ensures Undisturbed(c, c', u, th[u])
    {
      ReleaseUndisturbed(c, t, d, pos, u, th[u]);
    }
    ThreadsKeep(c, c', th, t, pc');
    assert forall p: nat :: BeingTaken(c, p) && p != pos ==> BeingTaken(c', p);
  }

  lemma SoloIsFree(c: Core, th: seq<Pc>, t: Tid, pos: nat)
    requires Inv(c, th) && t < |th| && th[t].PushSeq? && th[t].pos == pos
    requires SoleProducer(c.mode) && CellOf(c, pos).seqno == pos
    ensures PuttingSolo(c, t, pos)
  {
    assert PcOk(c, t, th[t]);
    assert c.gap == None;
    TailIsFree(c, th);
  }

  // ---- all steps --------------------------------------------------------------

  lemma BeginKeeps(s: Ring, t: Tid, s': Ring)
    requires Inv(s.core, s.threads) && t < |s.threads| && s.threads[t].Idle? && Begin(s, t, s')
    ensures Inv(s'.core, s'.threads)
  {
    var c := s.core;
    hide Inv;
    if p, v :| p in c.tickets && p < |c.log| && s' == Do(s, t, CommitCore(c, t, p, v), PushWrite(v, p)) {
      CommitKeeps(c, s.threads, t, v, p);
    } else {
      GotoKeeps(c, s.threads, t, s'.threads[t]);
    }
  }

  lemma AdmitStepKeeps(s: Ring, t: Tid, s': Ring)
    requires Inv(s.core, s.threads) && t < |s.threads| && AdmitStep(s, t, s')
    ensures Inv(s'.core, s'.threads)
  {
    var c, th := s.core, s.threads;
    assert PcOk(c, t, th[t]);
    assert c.enq <= |c.log|;
    hide Inv, CountersOk, CellsOk, ThreadsOk;
    match th[t] {
      case PushClosed(k, v) => GotoKeeps(c, th, t, if s.closed then Idle(Rejected) else PushPos(k, v));
      case PushPos(k, v) => GotoKeeps(c, th, t, PushSeq(k, v, c.enq));
      case PushSeq(k, v, pos) =>
        GotoKeeps(c, th, t, Idle(Again));
        GotoKeeps(c, th, t, PushClosed(k, v));
        GotoKeeps(c, th, t, Waiting(Enter, ForSpace(v)));
        if CellOf(c, pos).seqno == pos {
          GotoKeeps(c, th, t, PushCas(k, v, pos));
          if SoleProducer(c.mode) {
            SoloIsFree(c, th, t, pos);
            GotoKeeps(c, th, t, SoloWrite(v, pos));
          }
        }
    }
  }

  lemma PutStepKeeps(s: Ring, t: Tid, s': Ring)
    requires Inv(s.core, s.threads) && t < |s.threads| && PutStep(s, t, s')
    ensures Inv(s'.core, s'.threads)
  {
    var c, th := s.core, s.threads;
    assert PcOk(c, t, th[t]);
    hide Inv, CountersOk, CellsOk, ThreadsOk;
    match th[t] {
      case PushCas(k, v, pos) =>
        GotoKeeps(c, th, t, PushClosed(k, v));
        GotoKeeps(c, th, t, Idle(Again));
        if c.enq == pos { ClaimKeeps(c, th, t, k, v, pos); }
      case PushWrite(v, pos) => WriteKeeps(c, th, t, v, pos);
      case PushPublish(v, pos) => PublishKeeps(c, th, t, v, pos);
      case SoloWrite(v, pos) => WriteSoloKeeps(c, th, t, v, pos);
      case SoloPublish(v, pos) => PublishSoloKeeps(c, th, t, v, pos);
      case SoloAdvance(pos) => AdvanceKeeps(c, th, t, pos);
    }
  }

  /** A consumer looks at the cell of its position. */
  lemma PopSeqKeeps(s: Ring, t: Tid, pos: nat, s': Ring)
    requires Inv(s.core, s.threads) && t < |s.threads| && s.threads[t] == PopSeq(pos) && SeekStep(s, t, s')
    ensures Inv(s'.core, s'.threads)
  {
    var c, th := s.core, s.threads;
    assert PcOk(c, t, th[t]);
    hide Inv, CountersOk, CellsOk, ThreadsOk;
    GotoKeeps(c, th, t, PopClosed(pos));
    GotoKeeps(c, th, t, PopPos);
    if CellOf(c, pos).seqno == pos + 1 {
      GotoKeeps(c, th, t, PopCas(pos));
      if SoleConsumer(c.mode) {
        HeadIsFull(c, th);
        GotoKeeps(c, th, t, PopStore(pos));
      }
    }
  }

  lemma SeekStepKeeps(s: Ring, t: Tid, s': Ring)
    requires Inv(s.core, s.threads) && t < |s.threads| && SeekStep(s, t, s')
    ensures Inv(s'.core, s'.threads)
  {
    var c, th := s.core, s.threads;
    assert PcOk(c, t, th[t]);
    hide Inv, CountersOk, CellsOk, ThreadsOk;
    match th[t] {
      case PopPos => GotoKeeps(c, th, t, PopSeq(c.deq));
      case PopSeq(pos) =>
        PopSeqKeeps(s, t, pos, s');
      case PopClosed(pos) =>
        GotoKeeps(c, th, t, PopRecheck(pos));
        GotoKeeps(c, th, t, PopPos);
        GotoKeeps(c, th, t, Waiting(Enter, ForData));
      case PopRecheck(pos) =>
        GotoKeeps(c, th, t, PopPos);
        GotoKeeps(c, th, t, Idle(Drained));
    }
  }

  lemma TakeStepKeeps(s: Ring, t: Tid, s': Ring)
    requires Inv(s.core, s.threads) && t < |s.threads| && TakeStep(s, t, s')
    ensures Inv(s'.core, s'.threads)
  {
    var c, th := s.core, s.threads;
    assert PcOk(c, t, th[t]);
    hide Inv, CountersOk, CellsOk, ThreadsOk;
    match th[t] {
      case PopCas(pos) =>
        GotoKeeps(c, th, t, PopPos);
        if c.deq == pos { TakeKeeps(c, th, t, pos); }
      case PopStore(pos) => TakeKeeps(c, th, t, pos);
      case PopRead(pos) => GotoKeeps(c, th, t, PopClear(pos, CellOf(c, pos).data));
      case PopClear(pos, d) => ClearKeeps(c, th, t, d, pos);
      case PopRelease(pos, d) => ReleaseKeeps(c, th, t, d, pos);
    }
  }

  lemma BroadcastKeeps(s: Ring, t: Tid, r: Outcome)
    requires Inv(s.core, s.threads) && t < |s.threads| && s.threads[t] == Waking(WCast, r)
    ensures var s' := Broadcast(s, t, r); Inv(s'.core, s'.threads)
  {
    var th' := Broadcast(s, t, r).threads;
    assert ThreadsOk(s.core, s.threads);
    hide Inv;
    forall u | 0 <= u < |s.threads|
      ensures Holds(th'[u]) == Holds(s.threads[u]) && PcOk(s.core, u, th'[u])
    {
      assert PcOk(s.core, u, s.threads[u]);
    }
    FrameKeeps(s.core, s.threads, th');
  }

  lemma WakeStepKeeps(s: Ring, t: Tid, s': Ring)
    requires Inv(s.core, s.threads) && t < |s.threads| && WakeStep(s, t, s')
    ensures Inv(s'.core, s'.threads)
  {
    var c, th := s.core, s.threads;
    assert PcOk(c, t, th[t]);
    hide Inv, CountersOk, CellsOk, ThreadsOk;
    match th[t] {
      case Waking(WTest, r) => GotoKeeps(c, th, t, if s.waiters > 0 then Waking(WLock, r) else Idle(r));
      case Waking(WLock, r) => GotoKeeps(c, th, t, Waking(WCast, r));
      case Waking(WCast, r) => BroadcastKeeps(s, t, r);
      case Waking(WUnlock, r) => GotoKeeps(c, th, t, Idle(r));
      case SetClosed(_) => GotoKeeps(c, th, t, Waking(WLock, Done));
    }
  }

  lemma WaitStepKeeps(s: Ring, t: Tid, s': Ring)
    requires Inv(s.core, s.threads) && t < |s.threads| && s.threads[t].Waiting? && WaitStep(s, t, s')
    ensures Inv(s'.core, s'.threads)
  {
    var c, th := s.core, s.threads;
    assert PcOk(c, t, th[t]);
    hide Inv;
    WaitMoves(s, t, s');
    hide WaitStep, PcOk;
    GotoKeeps(c, th, t, s'.threads[t]);
  }

  lemma WaitMoves(s: Ring, t: Tid, s': Ring)
    requires t < |s.threads| && s.threads[t].Waiting? && WaitStep(s, t, s') && PcOk(s.core, t, s.threads[t])
    ensures s'.core == s.core && |s'.threads| == |s.threads| && s'.threads == s.threads[t := s'.threads[t]]
    ensures PcOk(s.core, t, s'.threads[t]) && Holds(s'.threads[t]) == Holds(s.threads[t]) == NoSlot
  {
    hide MustPark;
  }

  lemma NextKeeps(s: Ring, t: Tid, s': Ring)
    requires Inv(s.core, s.threads) && Next(s, t, s')
    ensures Inv(s'.core, s'.threads)
  {
    hide Inv, Begin, AdmitStep, PutStep, SeekStep, TakeStep, WakeStep, WaitStep;
    if s.threads[t].Idle? {
      BeginKeeps(s, t, s');
    } else if s.threads[t].Waiting? {
      WaitStepKeeps(s, t, s');
    } else if AdmitStep(s, t, s') {
      AdmitStepKeeps(s, t, s');
    } else if PutStep(s, t, s') {
      PutStepKeeps(s, t, s');
    } else if SeekStep(s, t, s') {
      SeekStepKeeps(s, t, s');
    } else if TakeStep(s, t, s') {
      TakeStepKeeps(s, t, s');
    } else {
      WakeStepKeeps(s, t, s');
    }
  }

  /** The invariant holds in every state of every run. */
  lemma {:induction false} RunInv(tr: seq<Ring>, i: nat)
    requires Run(tr) && i < |tr|
    ensures Inv(tr[i].core, tr[i].threads)
  {
    hide Inv, Next, Init;
    if i == 0 {
      InitInv(tr[0]);
    } else {
      RunInv(tr, i - 1);
      assert StepAt(tr, i - 1);
      var t :| Next(tr[i - 1], t, tr[i]);
      NextKeeps(tr[i - 1], t, tr[i]);
    }
  }
}
