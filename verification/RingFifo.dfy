/**
  The ring refines a bounded FIFO queue, hands out every position exactly once and
  keeps claim tickets apart.
 */
module RingFifo {
  import opened Options
  import opened Ring
  import opened RingInvariant
  import opened RingSteps

  /** The simple queue: None is a slot reserved by a claim that is not committed yet. */
  datatype Fifo = Fifo(cap: nat, slots: seq<Option<Msg>>)

  ghost predicate FifoNext(q: Fifo, q': Fifo)
  {
    q' == q || Enqueues(q, q') || Fills(q, q') || Dequeues(q, q')
  }

  ghost predicate Enqueues(q: Fifo, q': Fifo)
  {
    |q.slots| < q.cap && exists x :: q' == q.(slots := q.slots + [x])
  }

  ghost predicate Fills(q: Fifo, q': Fifo)
  {
    exists k, v :: 0 <= k < |q.slots| && q.slots[k] == None && q' == q.(slots := q.slots[k := Some(v)])
  }

  ghost predicate Dequeues(q: Fifo, q': Fifo)
  {
    |q.slots| > 0 && q.slots[0].Some? && q' == q.(slots := q.slots[1..])
  }

  function Abs(c: Core): Fifo
  {
    Fifo(|c.cells|, if c.deq <= |c.log| then c.log[c.deq..] else [])
  }

  lemma ClaimRefines(c: Core, th: seq<Pc>, t: Tid, k: Kind, v: Msg, pos: nat)
    requires Inv(c, th) && t < |th| && th[t] == PushCas(k, v, pos) && c.enq == pos
    ensures Enqueues(Abs(c), Abs(ClaimCore(c, t, k, v, pos)))
  {
    assert PcOk(c, t, th[t]);
    assert c.gap == None;
    TailIsFree(c, th);
    assert CellOk(c, th, At(c, pos));
    var x := if k.Claiming? then None else Some(v);
    assert (c.log + [x])[c.deq..] == c.log[c.deq..] + [x];
    assert Abs(ClaimCore(c, t, k, v, pos)) == Abs(c).(slots := Abs(c).slots + [x]);
  }

  lemma PublishSoloRefines(c: Core, th: seq<Pc>, t: Tid, v: Msg, pos: nat)
    requires Inv(c, th) && t < |th| && th[t] == SoloPublish(v, pos)
    ensures Enqueues(Abs(c), Abs(PublishSoloCore(c, t, v, pos)))
  {
    assert PcOk(c, t, th[t]);
    assert c.gap == None;
    assert CellOk(c, th, At(c, pos));
    assert (c.log + [Some(v)])[c.deq..] == c.log[c.deq..] + [Some(v)];
    assert Abs(PublishSoloCore(c, t, v, pos)) == Abs(c).(slots := Abs(c).slots + [Some(v)]);
  }

  lemma CommitRefines(c: Core, th: seq<Pc>, t: Tid, v: Msg, pos: nat)
    requires Inv(c, th) && pos in c.tickets && pos < |c.log|
    ensures Fills(Abs(c), Abs(CommitCore(c, t, pos, v)))
  {
    assert CellOk(c, th, At(c, pos));
    var k := pos - c.deq;
    assert c.log[pos := Some(v)][c.deq..] == c.log[c.deq..][k := Some(v)];
    assert Abs(CommitCore(c, t, pos, v)) == Abs(c).(slots := Abs(c).slots[k := Some(v)]);
  }

  lemma TakeRefines(c: Core, th: seq<Pc>, t: Tid, pos: nat)
    requires Inv(c, th) && t < |th| && c.deq == pos && (th[t] == PopCas(pos) || th[t] == PopStore(pos))
    ensures Dequeues(Abs(c), Abs(TakeCore(c, t, pos)))
  {
    assert PcOk(c, t, th[t]);
    if th[t].PopCas? { HeadIsFull(c, th); }
    assert CellOk(c, th, At(c, pos));
    assert c.log[pos + 1..] == c.log[pos..][1..];
  }

  lemma Stutters(c: Core, c': Core)
    requires c'.log == c.log && c'.deq == c.deq && |c'.cells| == |c.cells|
    ensures FifoNext(Abs(c), Abs(c'))
  {
  }

  lemma PutRefines(s: Ring, t: Tid, s': Ring)
    requires Inv(s.core, s.threads) && t < |s.threads| && PutStep(s, t, s')
    ensures FifoNext(Abs(s.core), Abs(s'.core))
  {
    var c, th := s.core, s.threads;
    hide Inv, Enqueues, Fills, Dequeues, Abs, CellOf;
    if th[t].PushCas? && s'.core.log != c.log {
      ClaimRefines(c, th, t, th[t].k, th[t].v, th[t].pos);
    } else if th[t].SoloPublish? {
      PublishSoloRefines(c, th, t, th[t].v, th[t].pos);
    } else {
      Stutters(c, s'.core);
    }
  }

  lemma TakeStepRefines(s: Ring, t: Tid, s': Ring)
    requires Inv(s.core, s.threads) && t < |s.threads| && TakeStep(s, t, s')
    ensures FifoNext(Abs(s.core), Abs(s'.core))
  {
    var c, th := s.core, s.threads;
    assert PcOk(c, t, th[t]);
    hide Inv, Enqueues, Fills, Dequeues, Abs, CellOf;
    if s'.core.deq != c.deq {
      TakeRefines(c, th, t, th[t].pos);
    } else {
      Stutters(c, s'.core);
    }
  }

  lemma BeginRefines(s: Ring, t: Tid, s': Ring)
    requires Inv(s.core, s.threads) && t < |s.threads| && Begin(s, t, s')
    ensures FifoNext(Abs(s.core), Abs(s'.core))
  {
    var c, th := s.core, s.threads;
    assert c.deq <= |c.log|;
    hide Inv, Enqueues, Fills, Dequeues;
    if p, v :| p in c.tickets && p < |c.log| && s' == Do(s, t, CommitCore(c, t, p, v), PushWrite(v, p)) {
      CommitRefines(c, th, t, v, p);
    }
  }

  /** Looking around, waking and waiting touch neither positions nor cells. */
  lemma SameCore(s: Ring, t: Tid, s': Ring)
    requires t < |s.threads|
    requires AdmitStep(s, t, s') || SeekStep(s, t, s') || WakeStep(s, t, s')
      || (s.threads[t].Waiting? && WaitStep(s, t, s'))
    ensures s'.core == s.core
  {
  }

  /**
    Every atomic step of every thread is a step of the bounded FIFO or invisible to it:
    the queue length never exceeds the capacity and only a filled head can leave.
   */
  lemma StepRefines(s: Ring, t: Tid, s': Ring)
    requires Inv(s.core, s.threads) && Next(s, t, s')
    ensures FifoNext(Abs(s.core), Abs(s'.core))
  {
    hide Inv, Begin, AdmitStep, PutStep, SeekStep, TakeStep, WakeStep, WaitStep, Enqueues, Fills, Dequeues;
    if s.threads[t].Idle? {
      BeginRefines(s, t, s');
    } else if !s.threads[t].Waiting? && PutStep(s, t, s') {
      PutRefines(s, t, s');
    } else if !s.threads[t].Waiting? && TakeStep(s, t, s') {
      TakeStepRefines(s, t, s');
    } else {
      SameCore(s, t, s');
    }
  }

  /** Whole runs: the abstract states of a ring run form a run of the bounded FIFO. */
  lemma RunRefinesFifo(tr: seq<Ring>, i: nat)
    requires Run(tr) && i + 1 < |tr|
    ensures Abs(tr[0].core).slots == [] && Abs(tr[0].core).cap == |tr[0].core.cells|
    ensures FifoNext(Abs(tr[i].core), Abs(tr[i + 1].core))
    ensures |Abs(tr[i].core).slots| <= Abs(tr[i].core).cap
  {
    RunInv(tr, 0);
    RunInv(tr, i);
    assert StepAt(tr, i);
    hide Next, FifoNext;
    var t :| Next(tr[i], t, tr[i + 1]);
    StepRefines(tr[i], t, tr[i + 1]);
  }

  // ---- histories only grow ----------------------------------------------------

  lemma BeginGrows(s: Ring, t: Tid, s': Ring)
    requires Inv(s.core, s.threads) && t < |s.threads| && Begin(s, t, s')
    ensures HistoryGrows(s.core, s'.core)
  {
    assert TicketsOk(s.core);
    hide Inv, CellOf;
  }

  /** The claiming exchange lets the log grow; the other producer steps keep it or fill one entry. */
  lemma CasGrows(s: Ring, t: Tid, s': Ring)
    requires Inv(s.core, s.threads) && t < |s.threads| && s.threads[t].PushCas? && PutStep(s, t, s')
    ensures HistoryGrows(s.core, s'.core)
  {
    hide Inv, CellOf;
  }

  lemma SoloGrows(s: Ring, t: Tid, s': Ring)
    requires Inv(s.core, s.threads) && t < |s.threads| && s.threads[t].SoloPublish? && PutStep(s, t, s')
    ensures HistoryGrows(s.core, s'.core)
  {
    hide Inv, CellOf;
  }

  /** The other producer steps write no history. */
  lemma PutWritesNone(s: Ring, t: Tid, s': Ring)
    requires t < |s.threads| && !s.threads[t].PushCas? && !s.threads[t].SoloPublish? && PutStep(s, t, s')
    requires s.threads[t].PushPublish? ==> s.threads[t].pos < |s.core.log|
    ensures s'.core.deq == s.core.deq && s'.core.log == s.core.log && s'.core.delivered == s.core.delivered
  {
    hide CellOf;
  }

  lemma PutGrows(s: Ring, t: Tid, s': Ring)
    requires Inv(s.core, s.threads) && t < |s.threads| && PutStep(s, t, s')
    ensures HistoryGrows(s.core, s'.core)
  {
    hide HistoryGrows, PutStep;
    if s.threads[t].PushCas? {
      hide Inv;
      CasGrows(s, t, s');
    } else if s.threads[t].SoloPublish? {
      hide Inv;
      SoloGrows(s, t, s');
    } else {
      PutWritesNone(s, t, s');
      hide Inv;
      SameGrows(s.core, s'.core);
    }
  }

  lemma SameGrows(c: Core, c': Core)
    requires c'.deq == c.deq && c'.log == c.log && c'.delivered == c.delivered
    ensures HistoryGrows(c, c')
  {
  }

  lemma TakeGrows(s: Ring, t: Tid, s': Ring)
    requires Inv(s.core, s.threads) && t < |s.threads| && TakeStep(s, t, s')
    ensures HistoryGrows(s.core, s'.core)
  {
    var c, pc := s.core, s.threads[t];
    assert PcOk(c, t, pc);
    if pc.PopRelease? {
      assert CellOk(c, s.threads, At(c, pc.pos));
    }
    hide Inv, CellOf;
  }

  lemma NextGrows(s: Ring, t: Tid, s': Ring)
    requires Inv(s.core, s.threads) && Next(s, t, s')
    ensures HistoryGrows(s.core, s'.core)
  {
    hide Inv, Begin, AdmitStep, PutStep, SeekStep, TakeStep, WakeStep, WaitStep;
    if s.threads[t].Idle? {
      BeginGrows(s, t, s');
    } else if !s.threads[t].Waiting? && PutStep(s, t, s') {
      PutGrows(s, t, s');
    } else if !s.threads[t].Waiting? && TakeStep(s, t, s') {
      TakeGrows(s, t, s');
    } else {
      SameCore(s, t, s');
    }
  }

  lemma GrowsReflexive(a: Core)
    ensures HistoryGrows(a, a)
  {
  }

  lemma GrowsTransitive(a: Core, b: Core, c: Core)
    requires HistoryGrows(a, b) && HistoryGrows(b, c)
    ensures HistoryGrows(a, c)
  {
  }

  lemma {:induction false} RunGrows(tr: seq<Ring>, i: nat, j: nat)
    requires Run(tr) && i <= j < |tr|
    ensures HistoryGrows(tr[i].core, tr[j].core)
    decreases j
  {
    hide Next, Inv, Init, HistoryGrows;
    if i == j {
      GrowsReflexive(tr[i].core);
    } else {
      RunGrows(tr, i, j - 1);
      RunInv(tr, j - 1);
      assert StepAt(tr, j - 1);
      var t :| Next(tr[j - 1], t, tr[j]);
      NextGrows(tr[j - 1], t, tr[j]);
      GrowsTransitive(tr[i].core, tr[j - 1].core, tr[j].core);
    }
  }

  // ---- exactly once -----------------------------------------------------------

  /**
    At any moment of any run, every dequeued position was handed out with exactly the
    value enqueued there, or is in the hands of exactly one thread; nothing beyond the
    dequeue position was handed out, and a pop that returned 0 returned that value.
   */
  lemma ExactlyOnce(tr: seq<Ring>, i: nat, p: nat)
    requires Run(tr) && i < |tr|
    ensures var c, th := tr[i].core, tr[i].threads;
      && (p in c.delivered ==> p < c.deq && p < |c.log| && c.log[p].Some? && c.delivered[p] == c.log[p])
      && (p < c.deq && p !in c.delivered ==> exists t: nat :: HeldBy(th, t, Get(p)))
      && (forall t: nat :: HeldBy(th, t, Get(p)) ==> p < c.deq && p !in c.delivered)
      && (forall t: nat, u: nat :: HeldBy(th, t, Get(p)) && HeldBy(th, u, Get(p)) ==> t == u)
      && (forall t, d :: 0 <= t < |th| && th[t] == Idle(Popped(p, d)) ==> p < |c.log| && d == c.log[p])
  {
    RunInv(tr, i);
    var c, th := tr[i].core, tr[i].threads;
    assert CellOk(c, th, At(c, p));
    if p < c.deq && p !in c.delivered {
      assert BeingTaken(c, p);
      assert HeldBy(th, CellOf(c, p).phase.taker, Get(p));
    }
    forall t: nat | HeldBy(th, t, Get(p))
      ensures p < c.deq && p !in c.delivered && CellOf(c, p).phase == Taking(p, t)
    {
      assert PcOk(c, t, th[t]);
    }
    forall t, d | 0 <= t < |th| && th[t] == Idle(Popped(p, d))
      ensures p < |c.log| && d == c.log[p]
    {
      assert PcOk(c, t, th[t]);
    }
  }

  // ---- claim and commit -------------------------------------------------------

  /** Position p is claimed and not yet published: a claim still out, or a thread on its way to the store. */
  ghost predicate Unpublished(c: Core, th: seq<Pc>, p: nat)
  {
    p in c.tickets || exists t: nat :: HeldBy(th, t, Put(p))
  }

  lemma UnpublishedCell(c: Core, th: seq<Pc>, p: nat)
    requires Inv(c, th) && Unpublished(c, th, p)
    ensures p < |c.log| && CellOf(c, p).phase.Claimed? && CellOf(c, p).phase.pos == p
  {
    if p !in c.tickets {
      var t: nat :| HeldBy(th, t, Put(p));
      assert PcOk(c, t, th[t]);
    }
  }

  /**
    Claims that are not published yet, from the claiming exchange to the store of the sequence
    number, never share a slot. While the one at p is out, no dequeue passes p, its cell tells
    consumers that it is not filled, at most `cap` positions from p on are claimed, and it is in
    one pair of hands: a ticket or one thread.
   */
  lemma TicketsApart(tr: seq<Ring>, i: nat, p: nat, q: nat)
    requires Run(tr) && i < |tr|
    requires Unpublished(tr[i].core, tr[i].threads, p) && Unpublished(tr[i].core, tr[i].threads, q)
    ensures var c, th := tr[i].core, tr[i].threads;
      && (At(c, p) == At(c, q) ==> p == q)
      && c.deq <= p < |c.log| <= p + |c.cells| && CellOf(c, p).seqno == p
      && (forall t: nat :: HeldBy(th, t, Put(p)) ==> p !in c.tickets)
      && (forall t: nat, u: nat :: HeldBy(th, t, Put(p)) && HeldBy(th, u, Put(p)) ==> t == u)
  {
    RunInv(tr, i);
    hide Run;
    var c, th := tr[i].core, tr[i].threads;
    UnpublishedCell(c, th, p);
    UnpublishedCell(c, th, q);
    assert CellOk(c, th, At(c, p));
    forall t: nat | HeldBy(th, t, Put(p))
      ensures CellOf(c, p).phase == Claimed(p, ByThread(t)) && p !in c.tickets
    {
      assert PcOk(c, t, th[t]);
    }
  }
}
