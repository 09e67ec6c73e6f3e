/**
  No lost wakeup: a thread parked on a ring that has what it waits for, or that was
  closed, can count on another thread that has yet to broadcast.
 */
module RingWakeup {
  import opened Options
  import opened Ring

  /** Registered in `waiters`. */
  predicate InWait(pc: Pc) { pc.Waiting? && !pc.on.Enter? }

  predicate HoldsMu(pc: Pc)
  {
    || (pc.Waking? && (pc.at.WCast? || pc.at.WUnlock?))
    || (pc.Waiting? && (pc.on.TestClosed? || pc.on.LoadEnq? || pc.on.LoadDeq? || pc.on.Sleep? || pc.on.Unlock?))
  }

  /** Bound to reach its wake step: it moved a position or the closed flag and has not broadcast yet. */
  predicate WillWake(pc: Pc)
  {
    || pc.PushWrite? || pc.PushPublish? || pc.SoloAdvance?
    || pc.PopRead? || pc.PopClear? || pc.PopRelease?
    || (pc.Waking? && !pc.at.WUnlock?)
  }

  /** Some thread still has to wake the ring. */
  ghost predicate Pending(s: Ring)
  {
    exists u :: 0 <= u < |s.threads| && WillWake(s.threads[u])
  }

  /**
    What sent a thread to sleep still stands. A claim raises enqueue_pos without a wake, which
    only a consumer can miss; its commit is still to come while the ticket is out.
   */
  ghost predicate StillDry(c: Core, w: WaitFor)
  {
    if w.ForData? then c.enq <= c.deq || c.tickets != {} else c.deq + |c.cells| <= c.enq
  }

  /** The wait condition that thread t has tested so far still stands. */
  ghost predicate Unchanged(s: Ring, pc: Pc)
  {
    var c := s.core;
    pc.Waiting? ==>
      match pc.on
      case LoadEnq => !s.closed
      case LoadDeq(e) => !s.closed && e <= c.enq && (pc.w.ForData? ==> e == c.enq || c.tickets != {})
      case Sleep => !s.closed && StillDry(c, pc.w)
      case Parked => !s.closed && StillDry(c, pc.w)
      case _ => true
  }

  ghost predicate Alert(s: Ring, t: Tid)
    requires t < |s.threads|
  {
    Pending(s) || Unchanged(s, s.threads[t])
  }

  ghost predicate ParkOk(s: Ring)
  {
    && s.waiters == |s.inWait|
    && (forall t :: t in s.inWait ==> t < |s.threads|)
    && (forall t :: 0 <= t < |s.threads| ==> (t in s.inWait <==> InWait(s.threads[t])))
    && (forall t :: 0 <= t < |s.threads| ==> (s.mu == Some(t) <==> HoldsMu(s.threads[t])))
  }

  ghost predicate AllAlert(s: Ring)
  {
    forall t :: 0 <= t < |s.threads| ==> Alert(s, t)
  }

  ghost predicate WakeInv(s: Ring)
  {
    ParkOk(s) && AllAlert(s)
  }

  lemma InitWake(s: Ring)
    requires Init(s)
    ensures WakeInv(s)
  {
  }

  // ---- bookkeeping of waiters and the mutex -----------------------------------

  /** Threads move without entering or leaving the wait region; t may take or drop the mutex. */
  lemma MoveParkOk(s: Ring, t: Tid, s': Ring)
    requires ParkOk(s) && t < |s.threads| && |s'.threads| == |s.threads|
    requires s'.waiters == s.waiters && s'.inWait == s.inWait
    requires forall u :: 0 <= u < |s.threads| ==> InWait(s'.threads[u]) == InWait(s.threads[u])
    requires forall u :: 0 <= u < |s.threads| && u != t ==> HoldsMu(s'.threads[u]) == HoldsMu(s.threads[u])
    requires if HoldsMu(s'.threads[t]) then s'.mu == Some(t) && (s.mu == None || HoldsMu(s.threads[t]))
             else s'.mu == if HoldsMu(s.threads[t]) then None else s.mu
    ensures ParkOk(s')
  {
    assert s.mu == Some(t) <==> HoldsMu(s.threads[t]);
  }

  lemma EnterParkOk(s: Ring, t: Tid, w: WaitFor)
    requires ParkOk(s) && t < |s.threads| && s.threads[t] == Waiting(Enter, w)
    ensures ParkOk(Goto(s.(waiters := s.waiters + 1, inWait := s.inWait + {t}), t, Waiting(Acquire, w)))
  {
    assert t !in s.inWait;
  }

  lemma LeaveParkOk(s: Ring, t: Tid, w: WaitFor, pc: Pc)
    requires ParkOk(s) && t < |s.threads| && s.threads[t] == Waiting(Leave, w) && !InWait(pc) && !HoldsMu(pc)
    ensures ParkOk(Goto(s.(waiters := s.waiters - 1, inWait := s.inWait - {t}), t, pc))
  {
    assert t in s.inWait;
  }

  lemma WaitParkOk(s: Ring, t: Tid, s': Ring)
    requires ParkOk(s) && t < |s.threads| && s.threads[t].Waiting? && WaitStep(s, t, s')
    ensures ParkOk(s')
  {
    if s.threads[t].on.Enter? {
      hide ParkOk, MustPark;
      EnterParkOk(s, t, s.threads[t].w);
    } else if s.threads[t].on.Leave? {
      hide ParkOk, MustPark;
      LeaveParkOk(s, t, s.threads[t].w, s'.threads[t]);
    } else {
      assert s.mu == Some(t) <==> HoldsMu(s.threads[t]);
      hide ParkOk;
      WaitMoves(s, t, s');
      hide WaitStep;
      MoveParkOk(s, t, s');
    }
  }

  /** Inside the wait region a step moves one thread and the mutex. */
  lemma WaitMoves(s: Ring, t: Tid, s': Ring)
    requires t < |s.threads| && s.threads[t].Waiting? && !s.threads[t].on.Enter? && !s.threads[t].on.Leave?
    requires WaitStep(s, t, s') && (s.mu == Some(t) <==> HoldsMu(s.threads[t]))
    ensures s'.threads == s.threads[t := s'.threads[t]] && |s'.threads| == |s.threads|
    ensures s'.waiters == s.waiters && s'.inWait == s.inWait && InWait(s'.threads[t]) && InWait(s.threads[t])
    ensures if HoldsMu(s'.threads[t]) then s'.mu == Some(t) && (s.mu == None || HoldsMu(s.threads[t]))
            else s'.mu == if HoldsMu(s.threads[t]) then None else s.mu
  {
    hide MustPark;
  }

  lemma CloseParkOk(s: Ring, t: Tid, s': Ring)
    requires ParkOk(s) && t < |s.threads| && s.threads[t].SetClosed? && WakeStep(s, t, s')
    ensures ParkOk(s')
  {
    assert s.mu == Some(t) <==> HoldsMu(s.threads[t]);
    hide ParkOk, Quiet;
    MoveParkOk(s, t, s');
  }

  lemma WakingParkOk(s: Ring, t: Tid, s': Ring)
    requires ParkOk(s) && t < |s.threads| && s.threads[t].Waking? && WakeStep(s, t, s')
    ensures ParkOk(s')
  {
    assert s.mu == Some(t) <==> HoldsMu(s.threads[t]);
    hide ParkOk, Quiet;
    MoveParkOk(s, t, s');
  }

  lemma WakeParkOk(s: Ring, t: Tid, s': Ring)
    requires ParkOk(s) && t < |s.threads| && WakeStep(s, t, s')
    ensures ParkOk(s')
  {
    assert s.threads[t].SetClosed? || s.threads[t].Waking?;
    hide ParkOk, WakeStep;
    if s.threads[t].SetClosed? { CloseParkOk(s, t, s'); } else { WakingParkOk(s, t, s'); }
  }

  // ---- alertness --------------------------------------------------------------

  /** Only thread t moved, and nothing a sleeper tested changed. */
  lemma CalmStep(s: Ring, t: Tid, s': Ring)
    requires AllAlert(s) && t < |s.threads| && |s'.threads| == |s.threads|
    requires forall u :: 0 <= u < |s.threads| && u != t ==> s'.threads[u] == s.threads[u]
    requires s'.core.enq == s.core.enq && s'.core.deq == s.core.deq && s'.closed == s.closed
    requires |s'.core.cells| == |s.core.cells| && s'.core.tickets == s.core.tickets
    requires WillWake(s.threads[t]) ==> WillWake(s'.threads[t])
    requires !Pending(s) ==> Unchanged(s, s'.threads[t])
    ensures AllAlert(s')
  {
    if u :| 0 <= u < |s.threads| && WillWake(s.threads[u]) {
      assert WillWake(s'.threads[u]);
    }
    assert Pending(s) ==> Pending(s');
    forall u | 0 <= u < |s.threads|
      ensures Alert(s', u)
    {
      assert Alert(s, u);
    }
  }

  /** After moving a position or the closed flag, thread t itself is bound to wake the ring. */
  lemma WakerStep(s': Ring, t: Tid)
    requires t < |s'.threads| && WillWake(s'.threads[t])
    ensures AllAlert(s')
  {
    assert Pending(s');
  }

  lemma WaitStepAlert(s: Ring, t: Tid, s': Ring)
    requires AllAlert(s) && t < |s.threads| && s.threads[t].Waiting? && WaitStep(s, t, s')
    ensures AllAlert(s')
  {
    assert Alert(s, t);
    CalmStep(s, t, s');
  }

  lemma WakeStepAlert(s: Ring, t: Tid, s': Ring)
    requires WakeInv(s) && t < |s.threads| && WakeStep(s, t, s')
    ensures AllAlert(s')
  {
    match s.threads[t] {
      case Waking(WTest, r) =>
        if s.waiters > 0 {
          WakerStep(s', t);
        } else {
          NobodyWaits(s, t, r);
        }
      case Waking(WLock, r) => WakerStep(s', t);
      case Waking(WCast, r) => BroadcastAlert(s, t, r);
      case Waking(WUnlock, r) => CalmStep(s, t, s');
      case SetClosed(c) => WakerStep(s', t);
    }
  }

  /** wake_if_needed may skip the broadcast: waiters == 0 means nobody is in the wait region. */
  lemma NobodyWaits(s: Ring, t: Tid, r: Outcome)
    requires ParkOk(s) && t < |s.threads| && s.waiters == 0
    ensures AllAlert(Goto(s, t, Idle(r)))
  {
    assert s.inWait == {};
  }

  /** The broadcast wakes every parked thread, and nobody else holds the mutex to be about to park. */
  lemma BroadcastAlert(s: Ring, t: Tid, r: Outcome)
    requires ParkOk(s) && t < |s.threads| && s.threads[t] == Waking(WCast, r)
    ensures AllAlert(Broadcast(s, t, r))
  {
    var s' := Broadcast(s, t, r);
    forall u | 0 <= u < |s.threads|
      ensures Alert(s', u)
    {
      assert s.mu == Some(t);
      assert HoldsMu(s.threads[u]) ==> u == t;
    }
  }

  lemma PutParks(s: Ring, t: Tid, s': Ring)
    requires ParkOk(s) && t < |s.threads| && PutStep(s, t, s')
    ensures ParkOk(s')
  {
    hide ParkOk;
    MoveParkOk(s, t, s');
  }

  /** A producer step that wakes nobody leaves the ring as it was for sleepers, or is the exchange of a claim. */
  lemma PutAlerts(s: Ring, t: Tid, s': Ring)
    requires AllAlert(s) && t < |s.threads| && PutStep(s, t, s') && !WillWake(s'.threads[t])
    ensures AllAlert(s')
  {
    hide AllAlert;
    if s'.core == s.core || s.threads[t].SoloWrite? || s.threads[t].SoloPublish? {
      CalmStep(s, t, s');
    } else {
      ClaimStep(s, t, s');
    }
  }

  lemma PutKeepsThreads(s: Ring, t: Tid, s': Ring)
    requires t < |s.threads| && PutStep(s, t, s')
    ensures |s'.threads| == |s.threads|
  {
  }

  lemma PutStepWake(s: Ring, t: Tid, s': Ring)
    requires WakeInv(s) && t < |s.threads| && PutStep(s, t, s')
    ensures WakeInv(s')
  {
    assert ParkOk(s) && AllAlert(s);
    hide ParkOk, AllAlert, PutStep;
    PutParks(s, t, s');
    PutKeepsThreads(s, t, s');
    if WillWake(s'.threads[t]) { WakerStep(s', t); } else { PutAlerts(s, t, s'); }
  }

  /** A winning claim wakes nobody: it takes room, and the consumers it leaves waiting are its own to wake. */
  lemma ClaimStep(s: Ring, t: Tid, s': Ring)
    requires AllAlert(s) && t < |s.threads| && s.threads[t].PushCas? && s.threads[t].k.Claiming?
    requires |s'.threads| == |s.threads| && s'.threads == s.threads[t := s'.threads[t]] && !s'.threads[t].Waiting?
    requires s'.closed == s.closed && s'.core.tickets != {} && |s'.core.cells| == |s.core.cells|
    requires s'.core.enq == s.core.enq + 1 && s'.core.deq == s.core.deq
    ensures AllAlert(s')
  {
    if u :| 0 <= u < |s.threads| && WillWake(s.threads[u]) {
      assert WillWake(s'.threads[u]);
    }
    forall u | 0 <= u < |s.threads|
      ensures Alert(s', u)
    {
      assert Alert(s, u);
    }
  }

  /** What a consumer's step leaves alone, and that taking the head obliges it to wake. */
  lemma TakeLeaves(s: Ring, t: Tid, s': Ring)
    requires t < |s.threads| && TakeStep(s, t, s')
    ensures s'.threads == s.threads[t := s'.threads[t]] && |s'.threads| == |s.threads|
    ensures s'.waiters == s.waiters && s'.inWait == s.inWait && s'.mu == s.mu && s'.closed == s.closed
    ensures s'.core.enq == s.core.enq && s'.core.tickets == s.core.tickets && |s'.core.cells| == |s.core.cells|
    ensures !InWait(s.threads[t]) && !InWait(s'.threads[t]) && !HoldsMu(s.threads[t]) && !HoldsMu(s'.threads[t])
    ensures WillWake(s'.threads[t]) || (s'.core.deq == s.core.deq && !WillWake(s.threads[t]) && Unchanged(s, s'.threads[t]))
  {
  }

  lemma TakeStepWake(s: Ring, t: Tid, s': Ring)
    requires WakeInv(s) && t < |s.threads| && TakeStep(s, t, s')
    ensures WakeInv(s')
  {
    assert ParkOk(s) && AllAlert(s);
    hide ParkOk, AllAlert;
    TakeLeaves(s, t, s');
    hide TakeStep;
    MoveParkOk(s, t, s');
    if WillWake(s'.threads[t]) {
      WakerStep(s', t);
    } else {
      CalmStep(s, t, s');
    }
  }

  /** A thread that only looked around stays outside the wait region. */
  lemma AdmitLooks(s: Ring, t: Tid, s': Ring)
    requires t < |s.threads| && !s.threads[t].Waiting? && AdmitStep(s, t, s')
    ensures exists pc :: Outside(pc) && Outside(s.threads[t]) && s'.threads == s.threads[t := pc]
    ensures s'.core == s.core && s'.closed == s.closed && s'.waiters == s.waiters
    ensures s'.inWait == s.inWait && s'.mu == s.mu
  {
    assert Outside(s'.threads[t]);
    assert s'.threads == s.threads[t := s'.threads[t]];
  }

  lemma SeekLooks(s: Ring, t: Tid, s': Ring)
    requires t < |s.threads| && !s.threads[t].Waiting? && SeekStep(s, t, s')
    ensures exists pc :: Outside(pc) && Outside(s.threads[t]) && s'.threads == s.threads[t := pc]
    ensures s'.core == s.core && s'.closed == s.closed && s'.waiters == s.waiters
    ensures s'.inWait == s.inWait && s'.mu == s.mu
  {
    assert Outside(s'.threads[t]);
    assert s'.threads == s.threads[t := s'.threads[t]];
  }

  lemma LookStep(s: Ring, t: Tid, s': Ring)
    requires t < |s.threads| && !s.threads[t].Waiting? && (AdmitStep(s, t, s') || SeekStep(s, t, s'))
    ensures exists pc :: Outside(pc) && Outside(s.threads[t]) && s'.threads == s.threads[t := pc]
    ensures s'.core == s.core && s'.closed == s.closed && s'.waiters == s.waiters
    ensures s'.inWait == s.inWait && s'.mu == s.mu
  {
    hide AdmitStep, SeekStep, Outside;
    if AdmitStep(s, t, s') { AdmitLooks(s, t, s'); } else { SeekLooks(s, t, s'); }
  }

  predicate Outside(pc: Pc)
  {
    !InWait(pc) && !HoldsMu(pc) && !WillWake(pc) && (pc.Waiting? ==> pc.on.Enter?)
  }

  lemma LookStepWake(s: Ring, t: Tid, s': Ring)
    requires WakeInv(s) && t < |s.threads| && !s.threads[t].Waiting?
    requires AdmitStep(s, t, s') || SeekStep(s, t, s')
    ensures WakeInv(s')
  {
    hide AdmitStep, SeekStep;
    LookStep(s, t, s');
    MoveParkOk(s, t, s');
    CalmStep(s, t, s');
  }

  lemma BeginParks(s: Ring, t: Tid, s': Ring)
    requires ParkOk(s) && t < |s.threads| && s.threads[t].Idle? && Begin(s, t, s')
    ensures ParkOk(s')
  {
    hide ParkOk;
    MoveParkOk(s, t, s');
  }

  lemma BeginCalm(s: Ring, t: Tid, s': Ring)
    requires AllAlert(s) && t < |s.threads| && s.threads[t].Idle? && Begin(s, t, s') && !s'.threads[t].PushWrite?
    ensures AllAlert(s')
  {
    hide AllAlert;
    CalmStep(s, t, s');
  }

  lemma BeginWake(s: Ring, t: Tid, s': Ring)
    requires WakeInv(s) && t < |s.threads| && s.threads[t].Idle? && Begin(s, t, s')
    ensures WakeInv(s')
  {
    assert ParkOk(s) && AllAlert(s);
    hide ParkOk, AllAlert;
    BeginParks(s, t, s');
    if s'.threads[t].PushWrite? {
      WakerStep(s', t);
    } else {
      BeginCalm(s, t, s');
    }
  }

  lemma NextWake(s: Ring, t: Tid, s': Ring)
    requires WakeInv(s) && Next(s, t, s')
    ensures WakeInv(s')
  {
    assert ParkOk(s) && AllAlert(s);
    hide Begin, AdmitStep, PutStep, SeekStep, TakeStep, WakeStep, WaitStep, ParkOk, AllAlert;
    if s.threads[t].Idle? {
      BeginWake(s, t, s');
    } else if s.threads[t].Waiting? {
      WaitParkOk(s, t, s');
      WaitStepAlert(s, t, s');
    } else if AdmitStep(s, t, s') || SeekStep(s, t, s') {
      LookStepWake(s, t, s');
    } else if PutStep(s, t, s') {
      PutStepWake(s, t, s');
    } else if TakeStep(s, t, s') {
      TakeStepWake(s, t, s');
    } else {
      WakeParkOk(s, t, s');
      WakeStepAlert(s, t, s');
    }
  }

  lemma {:induction false} RunWake(tr: seq<Ring>, i: nat)
    requires Run(tr) && i < |tr|
    ensures WakeInv(tr[i])
  {
    hide WakeInv, Next, Init;
    if i == 0 {
      InitWake(tr[0]);
    } else {
      RunWake(tr, i - 1);
      assert StepAt(tr, i - 1);
      var t :| Next(tr[i - 1], t, tr[i]);
      NextWake(tr[i - 1], t, tr[i]);
    }
  }

  /**
    Whenever a thread is parked on a closed ring, in wait_space with room left, or in wait_data
    with a positive depth, another thread is on its way to broadcast and will find it counted as
    a waiter. Only in wait_data on an open ring may that wake be the commit of a claim still out.
   */
  lemma NoLostWakeup(tr: seq<Ring>, i: nat, t: Tid)
    requires Run(tr) && i < |tr| && t < |tr[i].threads| && IsParked(tr[i].threads[t])
    ensures tr[i].waiters > 0
    ensures tr[i].closed || (tr[i].threads[t].w.ForSpace? && Depth(tr[i].core.enq, tr[i].core.deq, |tr[i].core.cells|) <
                                                             |tr[i].core.cells|) ==>
      exists u :: 0 <= u < |tr[i].threads| && u != t && WillWake(tr[i].threads[u])
    ensures tr[i].threads[t].w.ForData? && Depth(tr[i].core.enq, tr[i].core.deq, |tr[i].core.cells|) > 0 ==>
      || (!tr[i].closed && tr[i].core.tickets != {})
      || exists u :: 0 <= u < |tr[i].threads| && u != t && WillWake(tr[i].threads[u])
  {
    RunWake(tr, i);
    assert Alert(tr[i], t);
    assert t in tr[i].inWait;
  }
}
