/**
  Draining a closed ring with many consumers.  A consumer may get -1 early, because
  another one took its head between its two looks at the sequence; the consumer that
  made the latest dequeue never does, so together they leave nothing behind.
 */
module RingDrain {
  import opened Options
  import opened Positions
  import opened Ring
  import opened RingInvariant
  import opened RingSteps
  import opened RingFifo

  /** Inside pop, up to its return. */
  predicate InPop(pc: Pc)
  {
    || pc.PopPos? || pc.PopSeq? || pc.PopCas? || pc.PopStore? || pc.PopClosed? || pc.PopRecheck?
    || pc.PopRead? || pc.PopClear? || pc.PopRelease?
    || (pc.Waiting? && pc.w.ForData?)
  }

  /** The dequeue position a consumer loaded and still acts on. */
  function Sought(pc: Pc): Option<nat>
  {
    match pc
    case PopSeq(p) => Some(p)
    case PopCas(p) => Some(p)
    case PopStore(p) => Some(p)
    case PopClosed(p) => Some(p)
    case PopRecheck(p) => Some(p)
    case _ => None
  }

  /** Nobody dequeued after t's last dequeue (or nobody ever did). */
  predicate Latest(s: Ring, t: Tid) { s.taker == None || s.taker == Some(t) }

  ghost predicate SealOk(s: Ring)
  {
    s.sealed ==> s.closed && Quiet(s)
  }

  ghost predicate TakerOk(s: Ring)
  {
    && (s.taker.Some? ==> s.taker.value in s.core.consumers)
    && (s.taker == None ==> s.core.deq == 0)
    && (forall t :: 0 <= t < |s.threads| && Latest(s, t) && Sought(s.threads[t]).Some? ==>
          Sought(s.threads[t]).value == s.core.deq)
  }

  ghost predicate QuitOk(s: Ring)
  {
    && (s.quit != {} ==> s.sealed)
    && (forall t :: t in s.quit ==>
          && t < |s.threads| && !InPop(s.threads[t])
          && (Latest(s, t) ==> s.core.deq == |s.core.log|))
  }

  ghost predicate DrainInv(s: Ring)
  {
    SealOk(s) && TakerOk(s) && QuitOk(s)
  }

  /** In a sealed ring every position between head and tail is published. */
  lemma SealedWindowIsFull(s: Ring)
    requires Inv(s.core, s.threads) && Quiet(s) && s.core.deq < |s.core.log|
    ensures CellOf(s.core, s.core.deq).seqno == s.core.deq + 1
  {
    var c := s.core;
    WindowCell(c, s.threads, c.deq);
    assert CellOk(c, s.threads, At(c, c.deq));
    if CellOf(c, c.deq).phase.Claimed? {
      var o := CellOf(c, c.deq).phase.owner;
      assert o.ByThread?;
      assert InPush(s.threads[o.t]);
    }
  }

  // ---- each kind of step ------------------------------------------------------

  /** Only thread t's program counter changed; histories of the drain did not. */
  lemma MoveDrain(s: Ring, t: Tid, s': Ring)
    requires DrainInv(s) && t < |s.threads| && |s'.threads| == |s.threads|
    requires s'.threads == s.threads[t := s'.threads[t]]
    requires s'.core.deq == s.core.deq && |s'.core.log| == |s.core.log|
    requires s'.core.tickets == s.core.tickets && s'.core.consumers == s.core.consumers
    requires s'.closed == s.closed && s'.sealed == s.sealed && s'.taker == s.taker && s'.quit == s.quit
    requires InPush(s'.threads[t]) ==> InPush(s.threads[t]) || !s.closed
    requires InPop(s'.threads[t]) ==> InPop(s.threads[t])
    requires Sought(s'.threads[t]).Some? ==>
      Sought(s'.threads[t]) == Sought(s.threads[t]) || Sought(s'.threads[t]).value == s.core.deq
    ensures DrainInv(s')
  {
  }

  lemma AdmitDrain(s: Ring, t: Tid, s': Ring)
    requires DrainInv(s) && t < |s.threads| && AdmitStep(s, t, s')
    ensures DrainInv(s')
  {
    assert s'.threads == s.threads[t := s'.threads[t]];
    hide DrainInv;
    MoveDrain(s, t, s');
  }

  lemma WaitDrain(s: Ring, t: Tid, s': Ring)
    requires DrainInv(s) && t < |s.threads| && s.threads[t].Waiting? && WaitStep(s, t, s')
    ensures DrainInv(s')
  {
    assert s'.threads == s.threads[t := s'.threads[t]];
    hide DrainInv, MustPark;
    MoveDrain(s, t, s');
  }

  lemma PutDrain(s: Ring, t: Tid, s': Ring)
    requires DrainInv(s) && t < |s.threads| && PutStep(s, t, s')
    ensures DrainInv(s')
  {
    assert InPush(s.threads[t]);
    assert !s.sealed && s.quit == {};
    hide CellOf;
  }

  lemma DequeueDrain(s: Ring, t: Tid, pos: nat)
    requires Inv(s.core, s.threads) && DrainInv(s) && t < |s.threads| && s.core.deq == pos
    requires s.threads[t] == PopCas(pos) || s.threads[t] == PopStore(pos)
    ensures DrainInv(Do(s.(taker := Some(t)), t, TakeCore(s.core, t, pos), PopRead(pos)))
  {
    var c := s.core;
    assert PcOk(c, t, s.threads[t]);
    if s.threads[t].PopCas? { HeadIsFull(c, s.threads); }
    assert CellOk(c, s.threads, At(c, pos));
    hide Inv, CellOf, PcOk;
  }

  lemma TakeDrain(s: Ring, t: Tid, s': Ring)
    requires Inv(s.core, s.threads) && DrainInv(s) && t < |s.threads| && TakeStep(s, t, s')
    ensures DrainInv(s')
  {
    var pc := s.threads[t];
    assert PcOk(s.core, t, pc);
    hide Inv, DrainInv;
    if pc.PopStore? || (pc.PopCas? && s.core.deq == pc.pos && s'.threads[t].PopRead?) {
      DequeueDrain(s, t, pc.pos);
    } else {
      MoveDrain(s, t, s');
    }
  }

  lemma SeekDrain(s: Ring, t: Tid, s': Ring)
    requires Inv(s.core, s.threads) && DrainInv(s) && t < |s.threads| && SeekStep(s, t, s')
    ensures DrainInv(s')
  {
    var c, pc := s.core, s.threads[t];
    if pc.PopRecheck? && CellOf(c, pc.pos).seqno != pc.pos + 1 {
      if s.sealed && Latest(s, t) && c.deq < |c.log| {
        SealedWindowIsFull(s);
      }
      assert c.deq <= |c.log|;
      hide Inv;
    } else {
      assert s'.threads == s.threads[t := s'.threads[t]];
      hide DrainInv, Inv;
      MoveDrain(s, t, s');
    }
  }

  lemma WakeDrain(s: Ring, t: Tid, s': Ring)
    requires DrainInv(s) && t < |s.threads| && WakeStep(s, t, s')
    ensures DrainInv(s')
  {
    var pc := s.threads[t];
    if pc.SetClosed? {
      assert Quiet(s) ==> Quiet(s');
    } else if !pc.at.WCast? {
      assert s'.threads == s.threads[t := s'.threads[t]];
      hide DrainInv;
      MoveDrain(s, t, s');
    }
  }

  lemma BeginDrain(s: Ring, t: Tid, s': Ring)
    requires DrainInv(s) && t < |s.threads| && s.threads[t].Idle? && Begin(s, t, s')
    ensures DrainInv(s')
  {
    hide CellOf;
  }

  lemma NextDrain(s: Ring, t: Tid, s': Ring)
    requires Inv(s.core, s.threads) && DrainInv(s) && Next(s, t, s')
    ensures DrainInv(s')
  {
    hide DrainInv, Inv, Begin, AdmitStep, PutStep, SeekStep, TakeStep, WakeStep, WaitStep;
    if s.threads[t].Idle? {
      BeginDrain(s, t, s');
    } else if s.threads[t].Waiting? {
      WaitDrain(s, t, s');
    } else if AdmitStep(s, t, s') {
      AdmitDrain(s, t, s');
    } else if SeekStep(s, t, s') {
      SeekDrain(s, t, s');
    } else if PutStep(s, t, s') {
      PutDrain(s, t, s');
    } else if TakeStep(s, t, s') {
      TakeDrain(s, t, s');
    } else {
      WakeDrain(s, t, s');
    }
  }

  lemma InitDrain(s: Ring)
    requires Init(s)
    ensures DrainInv(s)
  {
  }

  lemma {:induction false} RunDrain(tr: seq<Ring>, i: nat)
    requires Run(tr) && i < |tr|
    ensures DrainInv(tr[i])
  {
    hide DrainInv, Inv, Next, Init;
    if i == 0 {
      InitDrain(tr[0]);
    } else {
      RunDrain(tr, i - 1);
      RunInv(tr, i - 1);
      assert StepAt(tr, i - 1);
      var t :| Next(tr[i - 1], t, tr[i]);
      NextDrain(tr[i - 1], t, tr[i]);
    }
  }

  /**
    If no push was under way at close and the latest pop of every consumer returned -1
    since, then every position ever claimed was dequeued and handed out, with the value
    enqueued there.
   */
  lemma DrainLeavesNothing(tr: seq<Ring>, i: nat, p: nat)
    requires Run(tr) && i < |tr| && tr[i].sealed
    requires tr[i].core.consumers != {} && tr[i].core.consumers <= tr[i].quit
    requires p < |tr[i].core.log|
    ensures tr[i].core.deq == |tr[i].core.log|
    ensures p in tr[i].core.delivered && tr[i].core.delivered[p] == tr[i].core.log[p]
  {
    var s := tr[i];
    RunInv(tr, i);
    RunDrain(tr, i);
    var t :| t in s.core.consumers && Latest(s, t);
    assert t in s.quit;
    ExactlyOnce(tr, i, p);
    forall u: nat | u < |s.threads|
      ensures !HeldBy(s.threads, u, Get(p))
    {
      assert PcOk(s.core, u, s.threads[u]);
    }
  }

  /**
    A consumer that rechecks a sealed ring while messages remain gets -1 exactly if another
    consumer has taken its head and already released the cell; then its own last dequeue was
    not the latest.
   */
  lemma EarlyMinusOne(tr: seq<Ring>, i: nat, t: Tid)
    requires Run(tr) && i < |tr| && t < |tr[i].threads| && tr[i].sealed
    requires tr[i].threads[t].PopRecheck? && tr[i].core.deq < |tr[i].core.log|
    ensures var s, pos := tr[i], tr[i].threads[t].pos;
      && (Next(s, t, ReturnDrained(s, t)) <==> pos < s.core.deq && pos in s.core.delivered)
      && (Next(s, t, ReturnDrained(s, t)) ==> !Latest(s, t))
  {
    var s, pos := tr[i], tr[i].threads[t].pos;
    RunInv(tr, i);
    RunDrain(tr, i);
    hide Run;
    assert PcOk(s.core, t, s.threads[t]);
    SealedWindowIsFull(s);
    if pos < s.core.deq { ReleasedCell(s.core, s.threads, pos); }
    hide Inv, DrainInv, CellOf;
    assert Next(s, t, ReturnDrained(s, t)) <==> CellOf(s.core, pos).seqno != pos + 1;
  }

  /** Behind the head a cell shows its position until it is released, and never again. */
  lemma ReleasedCell(c: Core, th: seq<Pc>, pos: nat)
    requires Inv(c, th) && pos < c.deq
    ensures CellOf(c, pos).seqno != pos + 1 <==> pos in c.delivered
  {
    var cell := CellOf(c, pos);
    assert CellOk(c, th, At(c, pos));
    if pos !in c.delivered {
      assert BeingTaken(c, pos);
    } else if cell.seqno == pos + 1 {
      assert cell.phase.pos == pos + 1;
      SlotUnique(pos, pos + 1, |c.cells|);
    }
  }
}
