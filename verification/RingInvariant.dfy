/**
  The inductive invariant of the ring: what each cell, each thread, each ticket and
  each finished dequeue means, in every reachable state, for any number of threads.
 */
module RingInvariant {
  import opened Positions
  import opened Options
  import opened Ring

  /** The slot a program counter answers for. */
  datatype Held = NoSlot | Put(pos: nat) | Get(pos: nat) | Advance

  function Holds(pc: Pc): Held
  {
    match pc
    case PushWrite(_, p) => Put(p)
    case PushPublish(_, p) => Put(p)
    case PopRead(p) => Get(p)
    case PopClear(p, _) => Get(p)
    case PopRelease(p, _) => Get(p)
    case SoloAdvance(_) => Advance
    case _ => NoSlot
  }

  ghost predicate HeldBy(th: seq<Pc>, t: Tid, h: Held)
  {
    t < |th| && Holds(th[t]) == h
  }

  /** Cell i stores exactly one position, and its sequence number tells the phase. */
  ghost predicate CellOk(c: Core, th: seq<Pc>, i: nat)
    requires i < |c.cells|
  {
    var cell := c.cells[i];
    && At(c, cell.phase.pos) == i
    && match cell.phase {
         case Free(p) =>
           cell.seqno == p && |c.log| <= p < c.deq + |c.cells|
         case Claimed(p, o) =>
           && cell.seqno == p && c.deq <= p < |c.log|
           && (if o.ByTicket? then p in c.tickets else HeldBy(th, o.t, Put(p)))
         case Full(p) =>
           cell.seqno == p + 1 && c.deq <= p < |c.log| && c.log[p].Some? && cell.data == c.log[p]
         case Taking(p, t) =>
           && cell.seqno == p + 1 && p < c.deq && |c.log| <= p + |c.cells|
           && p !in c.delivered && HeldBy(th, t, Get(p))
       }
  }

  ghost predicate ResultOk(c: Core, r: Outcome)
  {
    r.Popped? ==> r.pos in c.delivered && c.delivered[r.pos] == r.data
  }

  ghost predicate WaiterOk(c: Core, t: Tid, w: WaitFor)
  {
    if w.ForSpace? then t in c.producers else t in c.consumers
  }

  /** Thread t owns the claimed slot p and the message v goes into it. */
  ghost predicate Putting(c: Core, t: Tid, v: Msg, p: nat)
  {
    p < |c.log| && CellOf(c, p).phase == Claimed(p, ByThread(t)) && c.log[p] == Some(v)
  }

  ghost predicate PuttingSolo(c: Core, t: Tid, p: nat)
  {
    t in c.producers && SoleProducer(c.mode) && p == c.enq && CellOf(c, p).phase == Free(p)
  }

  ghost predicate Seeking(c: Core, t: Tid, p: nat)
  {
    t in c.consumers && p <= c.deq && (SoleConsumer(c.mode) ==> p == c.deq)
  }

  /** Thread t owns the dequeued slot p. */
  ghost predicate Getting(c: Core, t: Tid, p: nat)
  {
    t in c.consumers && p < |c.log| && CellOf(c, p).phase == Taking(p, t) && c.log[p].Some?
  }

  /** What thread t knows when its program counter is pc. */
  ghost predicate PcOk(c: Core, t: Tid, pc: Pc)
  {
    match pc
    case Idle(r) => ResultOk(c, r)
    case PushClosed(_, _) => t in c.producers
    case PushPos(_, _) => t in c.producers
    case PushSeq(_, _, p) =>
      t in c.producers && p <= |c.log| && (SoleProducer(c.mode) ==> p == c.enq)
    case PushCas(_, _, p) =>
      t in c.producers && p <= |c.log| && CellOf(c, p).seqno >= p
    case PushWrite(v, p) => Putting(c, t, v, p)
    case PushPublish(v, p) => Putting(c, t, v, p) && CellOf(c, p).data == Some(v)
    case SoloWrite(_, p) => PuttingSolo(c, t, p)
    case SoloPublish(v, p) => PuttingSolo(c, t, p) && CellOf(c, p).data == Some(v)
    case SoloAdvance(p) => c.gap == Some(t) && p == c.enq
    case PopPos => t in c.consumers
    case PopSeq(p) => Seeking(c, t, p)
    case PopClosed(p) => Seeking(c, t, p)
    case PopRecheck(p) => Seeking(c, t, p)
    case PopCas(p) => t in c.consumers && p <= c.deq && CellOf(c, p).seqno >= p + 1
    case PopStore(p) =>
      t in c.consumers && SoleConsumer(c.mode) && p == c.deq && CellOf(c, p).phase == Full(p)
    case PopRead(p) => Getting(c, t, p) && CellOf(c, p).data == c.log[p]
    case PopClear(p, d) => Getting(c, t, p) && d == c.log[p]
    case PopRelease(p, d) => Getting(c, t, p) && d == c.log[p]
    case SetClosed(_) => true
    case Waking(_, r) => ResultOk(c, r)
    case Waiting(_, w) => WaiterOk(c, t, w)
  }

  ghost predicate CellsOk(c: Core, th: seq<Pc>)
  {
    forall i :: 0 <= i < |c.cells| ==> CellOk(c, th, i)
  }

  ghost predicate ThreadsOk(c: Core, th: seq<Pc>)
  {
    forall t :: 0 <= t < |th| ==> PcOk(c, t, th[t])
  }

  ghost predicate TicketsOk(c: Core)
  {
    forall p :: p in c.tickets ==>
      p < |c.log| && c.log[p] == None && CellOf(c, p).phase == Claimed(p, ByTicket)
  }

  ghost predicate BeingTaken(c: Core, p: nat)
  {
    CellOf(c, p).phase.Taking? && CellOf(c, p).phase.pos == p
  }

  /** Every dequeued position was handed out, or is in the hands of one thread. */
  ghost predicate DeliveredOk(c: Core)
  {
    && (forall p :: p in c.delivered ==>
          p < c.deq <= |c.log| && c.log[p].Some? && c.delivered[p] == c.log[p])
    && (forall p: nat :: p < c.deq ==> p in c.delivered || BeingTaken(c, p))
  }

  ghost predicate CountersOk(c: Core, th: seq<Pc>)
  {
    && RolesFit(c)
    && c.deq <= |c.log| <= c.deq + |c.cells|
    && |c.log| == c.enq + (if c.gap.Some? then 1 else 0)
    && (c.gap.Some? ==> SoleProducer(c.mode) && c.gap.value in c.producers && HeldBy(th, c.gap.value, Advance))
  }

  ghost predicate Inv(c: Core, th: seq<Pc>)
  {
    CountersOk(c, th) && CellsOk(c, th) && ThreadsOk(c, th) && TicketsOk(c) && DeliveredOk(c)
  }

  lemma InitInv(s: Ring)
    requires Init(s)
    ensures Inv(s.core, s.threads)
  {
  }

  // ---- what a sequence number proves -----------------------------------------

  /** A cell whose sequence reached the tail position is free for it. */
  lemma TailIsFree(c: Core, th: seq<Pc>)
    requires CountersOk(c, th) && CellsOk(c, th)
    requires CellOf(c, |c.log|).seqno >= |c.log|
    ensures CellOf(c, |c.log|).phase == Free(|c.log|)
  {
    var p, cap := |c.log|, |c.cells|;
    assert CellOk(c, th, At(c, p));
    var q := CellOf(c, p).phase.pos;
    if CellOf(c, p).phase.Free? {
      SlotUnique(p, q, cap);
    } else if p - cap < q < p {
      SlotUnique(q, p, cap);
    }
  }

  /** A cell whose sequence passed the head position holds the published head. */
  lemma HeadIsFull(c: Core, th: seq<Pc>)
    requires CountersOk(c, th) && CellsOk(c, th)
    requires CellOf(c, c.deq).seqno >= c.deq + 1
    ensures CellOf(c, c.deq).phase == Full(c.deq)
  {
    assert CellOk(c, th, At(c, c.deq));
    var q := CellOf(c, c.deq).phase.pos;
    if q >= c.deq {
      SlotUnique(c.deq, q, |c.cells|);
    }
  }

  /** Every position between head and tail is claimed or full, in its own cell. */
  lemma WindowCell(c: Core, th: seq<Pc>, p: nat)
    requires CountersOk(c, th) && CellsOk(c, th)
    requires c.deq <= p < |c.log|
    ensures CellOf(c, p).phase.pos == p
    ensures CellOf(c, p).phase.Claimed? || CellOf(c, p).phase.Full?
  {
    assert CellOk(c, th, At(c, p));
    var q := CellOf(c, p).phase.pos;
    if q >= p {
      SlotUnique(p, q, |c.cells|);
    } else {
      SlotUnique(q, p, |c.cells|);
    }
  }
}
