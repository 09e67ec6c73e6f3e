/**
  The ring as the pool machine sees it: positions are reserved, then published, and only a
  published head can be dequeued. Every step of the ring is one of these or invisible.
 */
module RingView {
  import opened Options
  import opened Ring
  import opened RingInvariant
  import opened RingSteps
  import opened RingFifo

  /** `ready[p]` tells whether position p has been published. */
  datatype View = View(cap: nat, ready: seq<bool>, deq: nat)

  predicate HeadReady(v: View) { v.deq < |v.ready| && v.ready[v.deq] }

  predicate Reserves(v: View, v': View)
  {
    |v.ready| < v.deq + v.cap && v' == v.(ready := v.ready + [false])
  }

  predicate PublishesAt(v: View, p: nat, v': View)
  {
    v.deq <= p < |v.ready| && !v.ready[p] && v' == v.(ready := v.ready[p := true])
  }

  /** The sole producer of push_sp reserves and publishes with one store. */
  predicate Appends(v: View, v': View)
  {
    |v.ready| < v.deq + v.cap && v' == v.(ready := v.ready + [true])
  }

  predicate Dequeues(v: View, v': View)
  {
    HeadReady(v) && v' == v.(deq := v.deq + 1)
  }

  ghost predicate ViewNext(v: View, v': View)
  {
    v' == v || Reserves(v, v') || (exists p: nat :: PublishesAt(v, p, v')) || Appends(v, v') || Dequeues(v, v')
  }

  predicate Ready(c: Core, p: nat) { p < c.deq || CellOf(c, p).phase == Full(p) }

  function ViewOf(c: Core): View
  {
    View(|c.cells|, seq(|c.log|, p requires 0 <= p < |c.log| => Ready(c, p)), c.deq)
  }

  // ---- what each effect does to the view --------------------------------------

  /** Rewriting the cell that stores position pos leaves every other waiting position alone. */
  lemma Untouched(c: Core, th: seq<Pc>, pos: nat, c': Core)
    requires Inv(c, th) && CellOf(c, pos).phase.pos == pos && |c'.cells| == |c.cells|
    requires c'.cells == c.cells[At(c, pos) := CellOf(c', pos)]
    ensures forall p :: c.deq <= p < |c.log| && p != pos ==> CellOf(c', p) == CellOf(c, p)
  {
    forall p | c.deq <= p < |c.log| && p != pos
      ensures CellOf(c', p) == CellOf(c, p)
    {
      WindowCell(c, th, p);
    }
  }

  lemma ClaimView(c: Core, th: seq<Pc>, t: Tid, k: Kind, v: Msg, pos: nat)
    requires Inv(c, th) && t < |th| && th[t] == PushCas(k, v, pos) && c.enq == pos
    ensures Reserves(ViewOf(c), ViewOf(ClaimCore(c, t, k, v, pos)))
  {
    var c' := ClaimCore(c, t, k, v, pos);
    assert PcOk(c, t, th[t]);
    TailIsFree(c, th);
    assert CellOk(c, th, At(c, pos));
    Untouched(c, th, pos, c');
    assert ViewOf(c').ready == ViewOf(c).ready + [false];
  }

  lemma PublishView(c: Core, th: seq<Pc>, t: Tid, v: Msg, pos: nat)
    requires Inv(c, th) && t < |th| && th[t] == PushPublish(v, pos)
    ensures PublishesAt(ViewOf(c), pos, ViewOf(PublishCore(c, pos)))
  {
    var c' := PublishCore(c, pos);
    assert PcOk(c, t, th[t]);
    assert CellOk(c, th, At(c, pos));
    Untouched(c, th, pos, c');
    assert ViewOf(c').ready == ViewOf(c).ready[pos := true];
  }

  lemma PublishSoloView(c: Core, th: seq<Pc>, t: Tid, v: Msg, pos: nat)
    requires Inv(c, th) && t < |th| && th[t] == SoloPublish(v, pos)
    ensures Appends(ViewOf(c), ViewOf(PublishSoloCore(c, t, v, pos)))
  {
    var c' := PublishSoloCore(c, t, v, pos);
    assert PcOk(c, t, th[t]);
    assert CellOk(c, th, At(c, pos));
    Untouched(c, th, pos, c');
    assert ViewOf(c').ready == ViewOf(c).ready + [true];
  }

  lemma TakeView(c: Core, th: seq<Pc>, t: Tid, pos: nat)
    requires Inv(c, th) && t < |th| && c.deq == pos && (th[t] == PopCas(pos) || th[t] == PopStore(pos))
    ensures Dequeues(ViewOf(c), ViewOf(TakeCore(c, t, pos)))
  {
    var c' := TakeCore(c, t, pos);
    assert PcOk(c, t, th[t]);
    if th[t].PopCas? { HeadIsFull(c, th); }
    assert CellOk(c, th, At(c, pos));
    Untouched(c, th, pos, c');
    assert ViewOf(c').ready == ViewOf(c).ready;
  }

  lemma ReleaseView(c: Core, th: seq<Pc>, t: Tid, pos: nat, d: Option<Msg>)
    requires Inv(c, th) && t < |th| && th[t] == PopRelease(pos, d)
    ensures ViewOf(ReleaseCore(c, pos, d)) == ViewOf(c)
  {
    var c' := ReleaseCore(c, pos, d);
    assert PcOk(c, t, th[t]);
    assert CellOk(c, th, At(c, pos));
    Untouched(c, th, pos, c');
    assert ViewOf(c').ready == ViewOf(c).ready;
  }

  lemma CommitView(c: Core, th: seq<Pc>, t: Tid, v: Msg, pos: nat)
    requires Inv(c, th) && pos in c.tickets && pos < |c.log|
    ensures ViewOf(CommitCore(c, t, pos, v)) == ViewOf(c)
  {
    var c' := CommitCore(c, t, pos, v);
    assert CellOk(c, th, At(c, pos));
    Untouched(c, th, pos, c');
    assert ViewOf(c').ready == ViewOf(c).ready;
  }

  /** Data stores and the late store of enqueue_pos do not show. */
  lemma SamePhases(c: Core, c': Core)
    requires |c'.cells| == |c.cells| && c'.deq == c.deq && |c'.log| == |c.log|
    requires forall i :: 0 <= i < |c.cells| ==> c'.cells[i].phase == c.cells[i].phase
    ensures ViewOf(c') == ViewOf(c)
  {
    assert ViewOf(c').ready == ViewOf(c).ready;
  }

  // ---- steps ------------------------------------------------------------------

  lemma PutView(s: Ring, t: Tid, s': Ring)
    requires Inv(s.core, s.threads) && t < |s.threads| && PutStep(s, t, s')
    ensures ViewNext(ViewOf(s.core), ViewOf(s'.core))
  {
    var c, th := s.core, s.threads;
    hide Inv, Reserves, PublishesAt, Appends, Dequeues, ViewOf;
    match th[t] {
      case PushCas(k, v, pos) => if s'.core != c { ClaimView(c, th, t, k, v, pos); }
      case PushPublish(v, pos) => PublishView(c, th, t, v, pos);
      case SoloPublish(v, pos) => PublishSoloView(c, th, t, v, pos);
      case _ => SamePhases(c, s'.core);
    }
  }

  lemma TakeStepView(s: Ring, t: Tid, s': Ring)
    requires Inv(s.core, s.threads) && t < |s.threads| && TakeStep(s, t, s')
    ensures ViewNext(ViewOf(s.core), ViewOf(s'.core))
  {
    var c, th := s.core, s.threads;
    assert PcOk(c, t, th[t]);
    hide Inv, Reserves, PublishesAt, Appends, Dequeues, ViewOf;
    match th[t] {
      case PopCas(pos) => if s'.core != c { TakeView(c, th, t, pos); }
      case PopStore(pos) => TakeView(c, th, t, pos);
      case PopRelease(pos, d) => ReleaseView(c, th, t, pos, d);
      case _ => SamePhases(c, s'.core);
    }
  }

  lemma BeginView(s: Ring, t: Tid, s': Ring)
    requires Inv(s.core, s.threads) && t < |s.threads| && Begin(s, t, s')
    ensures ViewOf(s'.core) == ViewOf(s.core)
  {
    var c, th := s.core, s.threads;
    hide Inv, ViewOf;
    if p, v :| p in c.tickets && p < |c.log| && s' == Do(s, t, CommitCore(c, t, p, v), PushWrite(v, p)) {
      CommitView(c, th, t, v, p);
    }
  }

  /**
    Every step of every thread reserves a free position, publishes a reserved one, dequeues a
    published head, or is invisible. This is the ring of the pool machine.
   */
  lemma StepIsView(s: Ring, t: Tid, s': Ring)
    requires Inv(s.core, s.threads) && Next(s, t, s')
    ensures ViewNext(ViewOf(s.core), ViewOf(s'.core))
  {
    hide Inv, Begin, AdmitStep, PutStep, SeekStep, TakeStep, WakeStep, WaitStep, ViewOf, Reserves, PublishesAt,
      Appends, Dequeues;
    if s.threads[t].Idle? {
      BeginView(s, t, s');
    } else if !s.threads[t].Waiting? && PutStep(s, t, s') {
      PutView(s, t, s');
    } else if !s.threads[t].Waiting? && TakeStep(s, t, s') {
      TakeStepView(s, t, s');
    } else {
      SameCore(s, t, s');
    }
  }

  lemma RunIsView(tr: seq<Ring>, i: nat)
    requires Run(tr) && i + 1 < |tr|
    ensures ViewOf(tr[0].core) == View(|tr[0].core.cells|, [], 0)
    ensures ViewNext(ViewOf(tr[i].core), ViewOf(tr[i + 1].core))
  {
    RunInv(tr, i);
    assert StepAt(tr, i);
    assert ViewOf(tr[0].core).ready == [];
    hide Next, ViewNext, ViewOf;
    var t :| Next(tr[i], t, tr[i + 1]);
    StepIsView(tr[i], t, tr[i + 1]);
  }

  // ---- what a consumer that finds nothing may conclude ------------------------

  /** At the head, the sequence test is the test for a published head. */
  lemma HeadTest(c: Core, th: seq<Pc>)
    requires Inv(c, th)
    ensures CellOf(c, c.deq).seqno == c.deq + 1 <==> HeadReady(ViewOf(c))
  {
    assert CellOk(c, th, At(c, c.deq));
    if CellOf(c, c.deq).seqno == c.deq + 1 { HeadIsFull(c, th); }
  }

  /**
    A pop gives up with -1 in two looks: it rechecks only after it saw the ring closed, and with
    its position still the head it returns -1 exactly if no published head is there.
   */
  lemma MinusOne(tr: seq<Ring>, i: nat, t: Tid)
    requires Run(tr) && i + 1 < |tr| && Next(tr[i], t, tr[i + 1])
    ensures t < |tr[i + 1].threads| && (tr[i + 1].threads[t].PopRecheck? ==> tr[i].closed)
    ensures tr[i].threads[t] == PopRecheck(tr[i].core.deq) ==>
      (tr[i + 1].threads[t] == Idle(Drained) <==> !HeadReady(ViewOf(tr[i].core)))
  {
    RunInv(tr, i);
    HeadTest(tr[i].core, tr[i].threads);
    hide Run, Inv, HeadReady;
    StepOfPop(tr[i], t, tr[i + 1]);
  }

  lemma StepOfPop(s: Ring, t: Tid, s': Ring)
    requires Next(s, t, s')
    ensures |s'.threads| == |s.threads| && (s'.threads[t].PopRecheck? ==> s.closed)
    ensures s.threads[t].PopRecheck? ==>
      (s'.threads[t] == Idle(Drained) <==> CellOf(s.core, s.threads[t].pos).seqno != s.threads[t].pos + 1)
  {
    hide Begin, AdmitStep, PutStep, SeekStep, TakeStep, WakeStep, WaitStep, CellOf;
    if s.threads[t].Idle? {
      BeginElsewhere(s, t, s');
    } else if s.threads[t].Waiting? {
      WaitElsewhere(s, t, s');
    } else if SeekStep(s, t, s') {
      SeekPop(s, t, s');
    } else if WakeStep(s, t, s') {
      WakeElsewhere(s, t, s');
    } else {
      MoveElsewhere(s, t, s');
    }
  }

  lemma SeekPop(s: Ring, t: Tid, s': Ring)
    requires t < |s.threads| && SeekStep(s, t, s')
    ensures |s'.threads| == |s.threads| && (s'.threads[t].PopRecheck? ==> s.closed)
    ensures s.threads[t].PopRecheck? ==>
      (s'.threads[t] == Idle(Drained) <==> CellOf(s.core, s.threads[t].pos).seqno != s.threads[t].pos + 1)
  {
    hide CellOf;
  }

  lemma BeginElsewhere(s: Ring, t: Tid, s': Ring)
    requires t < |s.threads| && Begin(s, t, s')
    ensures |s'.threads| == |s.threads| && !s'.threads[t].PopRecheck?
  {
    hide CellOf;
  }

  lemma WaitElsewhere(s: Ring, t: Tid, s': Ring)
    requires t < |s.threads| && s.threads[t].Waiting? && WaitStep(s, t, s')
    ensures |s'.threads| == |s.threads| && !s'.threads[t].PopRecheck?
  {
    hide MustPark;
  }

  lemma WakeElsewhere(s: Ring, t: Tid, s': Ring)
    requires t < |s.threads| && WakeStep(s, t, s')
    ensures |s'.threads| == |s.threads| && !s'.threads[t].PopRecheck? && !s.threads[t].PopRecheck?
  {
    hide Quiet;
  }

  lemma MoveElsewhere(s: Ring, t: Tid, s': Ring)
    requires t < |s.threads| && (AdmitStep(s, t, s') || PutStep(s, t, s') || TakeStep(s, t, s'))
    ensures |s'.threads| == |s.threads| && !s'.threads[t].PopRecheck? && !s.threads[t].PopRecheck?
  {
    hide CellOf;
  }
}
