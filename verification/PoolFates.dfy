/**
  What becomes of the messages of a ring, over worker restarts, stalls and the residual drain.
 */
module PoolFates {
  import opened Pool
  import opened PoolEffects
  import opened PoolJoins
  import opened PoolReturns
  import opened PoolLogs

  /** Processed messages, then at most one in hand or a run of abandoned ones. */
  ghost predicate Shape(fate: seq<Fate>)
  {
    forall p, q :: 0 <= p < q < |fate| ==> fate[p] == Processed || (fate[p] == Abandoned && fate[q] == Abandoned)
  }

  ghost predicate FateOk(w: Worker)
  {
    && |w.fate| <= |w.log| && Shape(w.fate)
    && (forall p :: 0 <= p < |w.fate| ==> w.log[p].ready)
    && (forall p :: 0 <= p < |w.fate| && w.fate[p] == Abandoned ==> Finished(w.ctl.thread))
    && (w.ctl.thread == InProcess <==> |w.fate| > 0 && w.fate[|w.fate| - 1] == InHand)
  }

  ghost predicate NoneAbandoned(fate: seq<Fate>)
  {
    forall p :: 0 <= p < |fate| ==> fate[p] != Abandoned
  }

  ghost predicate FatesOk(ws: seq<Worker>)
  {
    forall i :: 0 <= i < |ws| ==> FateOk(ws[i])
  }

  /** Messages are abandoned only after the supervisor is gone. */
  ghost predicate AbandonOk(supOut: bool, ws: seq<Worker>)
  {
    !supOut ==> forall i :: 0 <= i < |ws| ==> NoneAbandoned(ws[i].fate)
  }

  ghost predicate FateInv(s: Pool)
  {
    FatesOk(s.ws) && AbandonOk(SupOut(s.cfg, s.g.supJoined, s.sup), s.ws)
  }

  lemma InitFates(s: Pool)
    requires Init(s)
    ensures FateInv(s)
  {
  }

  // ---- the worker's own thread ------------------------------------------------

  /** Taking the head: a consuming thread has nothing in hand and nothing abandoned behind it. */
  lemma TakeFate(w: Worker, w': Worker)
    requires FateOk(w) && w.ctl.thread == Pop && HeadReady(w)
    requires w' == SetThread(w.(fate := w.fate + [InHand]), InProcess)
    ensures FateOk(w') && (NoneAbandoned(w.fate) ==> NoneAbandoned(w'.fate))
  {
    assert forall p :: 0 <= p < |w.fate| ==> w'.fate[p] == w.fate[p];
  }

  lemma DoneFate(w: Worker, w': Worker)
    requires FateOk(w) && w.ctl.thread == InProcess && |w.fate| > 0
    requires w' == SetThread(w.(fate := w.fate[|w.fate| - 1 := Processed], processed := w'.processed), LoopTop)
    ensures FateOk(w') && (NoneAbandoned(w.fate) ==> NoneAbandoned(w'.fate))
  {
  }

  lemma MoveFate(w: Worker, w': Worker)
    requires FateOk(w) && w' == w.(ctl := w'.ctl) && w.ctl.thread != InProcess && w'.ctl.thread != InProcess
    requires Finished(w.ctl.thread) ==> Finished(w'.ctl.thread)
    ensures FateOk(w')
  {
  }

  lemma WorkerFate(s: Pool, i: nat, s': Pool)
    requires i < |s.ws| && FateOk(s.ws[i]) && WorkerStep(s, i, s')
    ensures FateOk(s'.ws[i]) && (NoneAbandoned(s.ws[i].fate) ==> NoneAbandoned(s'.ws[i].fate))
  {
    hide FateOk, NoneAbandoned;
    var w, w' := s.ws[i], s'.ws[i];
    if w.ctl.thread == InProcess {
      if w' != w { DoneFate(w, w'); }
    } else if w'.ctl.thread == InProcess {
      TakeFate(w, w');
    } else {
      MoveFate(w, w');
    }
  }

  lemma WorkerFates(s: Pool, i: nat, s': Pool)
    requires FateInv(s) && i < |s.ws| && WorkerStep(s, i, s')
    ensures FateInv(s')
  {
    WorkerFate(s, i, s');
    WorkerMoves(s, i, s');
    hide WorkerStep, OwnMove, FateOk, NoneAbandoned;
  }

  // ---- effects of the others --------------------------------------------------

  /** The effect fits the thread it is aimed at. */
  ghost predicate FitsThread(w: Worker, e: Effect)
  {
    && (e.Reap? ==> w.ctl.thread == Returned)
    && (e.Create? ==> w.ctl.thread == Absent && NoneAbandoned(w.fate))
    && (e.Abandon? ==> Finished(w.ctl.thread) && HeadReady(w))
  }

  lemma EffectFate(w: Worker, e: Effect)
    requires FateOk(w) && FitsThread(w, e)
    ensures FateOk(WorkerAfter(w, e))
    ensures !e.Abandon? ==> WorkerAfter(w, e).fate == w.fate
  {
    if e.Abandon? {
      var fate' := w.fate + [Abandoned];
      assert forall p :: 0 <= p < |w.fate| ==> fate'[p] == w.fate[p];
    }
  }

  lemma EffectFates(s: Pool, e: Effect)
    requires FatesOk(s.ws) && Applies(s, e) && !e.Reserve? && !e.Publish?
    requires Target(e) >= 0 ==> FitsThread(s.ws[Target(e)], e)
    ensures FatesOk(WorkersAfter(s, e))
    ensures !e.Abandon? ==> SameFates(s.ws, WorkersAfter(s, e))
  {
    if Target(e) >= 0 { EffectFate(s.ws[Target(e)], e); }
    hide FateOk, FitsThread, WorkerAfter, Applies;
  }

  ghost predicate SameFates(ws: seq<Worker>, ws': seq<Worker>)
  {
    |ws'| == |ws| && forall i :: 0 <= i < |ws| ==> ws'[i].fate == ws[i].fate
  }

  lemma OwnerFates(s: Pool, e: Effect, pc: OPc, s': Pool)
    requires JoinInv(s) && FateInv(s) && OwnerStep(s, e, pc, s')
    ensures FateInv(s')
  {
    hide OwnerDoes, Do, OwnerKnows, JoinInv, Applies, FatesOk, FitsThread, WorkersAfter, OfOwner, NoneAbandoned, SupOut;
    OwnerEffect(s, e, pc);
    OwnerFits(s, e);
    OwnerSupOut(s, e);
    DoFacts(s, e);
    NotOfSubmitter(e);
    EffectFates(s, e);
  }

  lemma NotOfSubmitter(e: Effect)
    requires OfOwner(e) || OfSupervisor(e) || OfDestroy(e)
    ensures !e.Reserve? && !e.Publish?
  {
  }

  lemma OwnerFits(s: Pool, e: Effect)
    requires JoinInv(s) && OwnerKnows(s, e) && OfOwner(e) && Applies(s, e)
    ensures Target(e) >= 0 ==> FitsThread(s.ws[Target(e)], e)
  {
    hide WorkersOk, SupOk, PathFits;
  }

  /** Only at the residual drain does the owner abandon, with the supervisor out; it never brings one back. */
  lemma OwnerSupOut(s: Pool, e: Effect)
    requires JoinInv(s) && OwnerKnows(s, e) && Applies(s, e)
    ensures e.Abandon? ==> SupOut(s.cfg, s.g.supJoined, s.sup)
    ensures SupOut(s.cfg, s.g.supJoined, s.sup) ==>
      SupOut(s.cfg, Do(s, e).g.supJoined, Do(s, e).sup)
  {
    hide WorkersOk, SupOk, FocusOk;
    DoFacts(s, e);
    hide Do;
  }

  lemma SupFates(s: Pool, e: Effect, pc: UPc, s': Pool)
    requires JoinInv(s) && FateInv(s) && SupStep(s, e, pc, s')
    ensures FateInv(s')
  {
    SupervisorEffect(s, e, pc);
    SupLives(s, e, pc);
    SupFits(s, e);
    hide SupDoes, Do, SupKnows, JoinInv, Applies, FatesOk, FitsThread, WorkersAfter;
    DoFacts(s, e);
    NotOfSubmitter(e);
    EffectFates(s, e);
  }

  lemma SupFits(s: Pool, e: Effect)
    requires JoinInv(s) && FateInv(s) && SupKnows(s, e) && OfSupervisor(e) && Applies(s, e)
    requires s.sup != UNone && s.sup != UReaped
    ensures Target(e) >= 0 ==> FitsThread(s.ws[Target(e)], e)
  {
    hide WorkersOk, FocusOk, PathFits, FatesOk, NoneAbandoned;
  }

  lemma DestroyFates(s: Pool, e: Effect, pc: DPc, s': Pool)
    requires FateInv(s) && DestroyStep(s, e, pc, s')
    ensures FateInv(s')
  {
    DestroyEffect(s, e, pc);
    hide DestroyDoes, Do, FatesOk, NoneAbandoned;
    DoFacts(s, e);
  }

  // ---- submitters -------------------------------------------------------------

  lemma GrowFate(w: Worker, w': Worker)
    requires FateOk(w) && w' == w.(log := w'.log) && LogGrows(w.log, w'.log)
    ensures FateOk(w')
  {
  }

  lemma GrowFates(ws: seq<Worker>, ws': seq<Worker>)
    requires FatesOk(ws) && LogsGrow(ws, ws')
    requires forall i :: 0 <= i < |ws| ==> ws'[i] == ws[i].(log := ws'[i].log)
    ensures FatesOk(ws')
  {
    hide FateOk, LogGrows;
    forall i | 0 <= i < |ws|
      ensures FateOk(ws'[i])
    {
      assert FateOk(ws[i]);
      GrowFate(ws[i], ws'[i]);
    }
  }

  /** Submitters write nothing in a worker but its log. */
  lemma SubWritesLogs(s: Pool, e: Effect)
    requires OfSubmitter(e) && Applies(s, e)
    ensures |WorkersAfter(s, e)| == |s.ws|
    ensures forall i :: 0 <= i < |s.ws| ==> WorkersAfter(s, e)[i] == s.ws[i].(log := WorkersAfter(s, e)[i].log)
  {
  }

  lemma SubFates(s: Pool, t: nat, e: Effect, pc: SPc, s': Pool)
    requires FateInv(s) && t < |s.subs| && SubStep(s, t, e, pc, s')
    ensures FateInv(s')
  {
    hide SubDoes, Do, FatesOk, NoneAbandoned, Applies, LogsGrow, OfSubmitter, WorkersAfter;
    SubmitterEffect(s, t, e, pc);
    DoFacts(s, e);
    EffectGrows(s, e);
    SubWritesLogs(s, e);
    GrowFates(s.ws, s'.ws);
    SupStays(s, t, e, pc, s');
  }

  lemma SupStays(s: Pool, t: nat, e: Effect, pc: SPc, s': Pool)
    requires t < |s.subs| && SubStep(s, t, e, pc, s')
    ensures s'.cfg == s.cfg && s'.sup == s.sup && s'.g.supJoined == s.g.supJoined
  {
    hide WorkersAfter;
  }

  // ---- all steps --------------------------------------------------------------

  lemma CallFates(s: Pool, c: nat, s': Pool)
    requires FateInv(s) && c < |s.calls| && CallStep(s, c, s')
    ensures FateInv(s')
  {
    hide CallStep, FatesOk, AbandonOk;
    CallEffect(s, c, s');
  }

  lemma TickFates(s: Pool, s': Pool)
    requires FateInv(s) && Tick(s, s')
    ensures FateInv(s')
  {
  }

  lemma NextFates(s: Pool, s': Pool)
    requires JoinInv(s) && FateInv(s) && Next(s, s')
    ensures FateInv(s')
  {
    hide JoinInv, FateInv, Tick, WorkerStep, SubStep, CallStep, OwnerStep, SupStep, DestroyStep;
    if i :| 0 <= i < |s.ws| && WorkerStep(s, i, s') { WorkerFates(s, i, s'); }
    else if t, e, pc :| 0 <= t < |s.subs| && SubStep(s, t, e, pc, s') { SubFates(s, t, e, pc, s'); }
    else if c :| 0 <= c < |s.calls| && CallStep(s, c, s') { CallFates(s, c, s'); }
    else if e, pc :| OwnerStep(s, e, pc, s') { OwnerFates(s, e, pc, s'); }
    else if e, pc :| SupStep(s, e, pc, s') { SupFates(s, e, pc, s'); }
    else if e, pc :| DestroyStep(s, e, pc, s') { DestroyFates(s, e, pc, s'); }
    else { TickFates(s, s'); }
  }

  lemma {:induction false} RunFates(tr: seq<Pool>, n: nat)
    requires Run(tr) && n < |tr|
    ensures JoinInv(tr[n]) && FateInv(tr[n])
  {
    hide JoinInv, FateInv, Next, Init;
    RunJoins(tr, n);
    if n == 0 {
      InitFates(tr[0]);
    } else {
      RunFates(tr, n - 1);
      assert NextAt(tr, n - 1);
      NextFates(tr[n - 1], tr[n]);
    }
  }

  // ---- theorems ---------------------------------------------------------------

  /**
    The dequeue history of every ring, whatever restarts happened: only published messages,
    processed ones first, at most the last one in hand, and abandoned ones only at the end.
   */
  lemma HistoryShape(tr: seq<Pool>, n: nat, w: nat, p: nat)
    requires Run(tr) && n < |tr| && w < |tr[n].ws| && p < |tr[n].ws[w].fate|
    ensures p < |tr[n].ws[w].log| && tr[n].ws[w].log[p].ready
    ensures tr[n].ws[w].fate[p] == InHand ==> p == |tr[n].ws[w].fate| - 1
    ensures tr[n].ws[w].fate[p] == Processed ==> forall q :: 0 <= q < p ==> tr[n].ws[w].fate[q] == Processed
    ensures tr[n].ws[w].fate[p] == Abandoned ==>
      forall q :: p <= q < |tr[n].ws[w].fate| ==> tr[n].ws[w].fate[q] == Abandoned
  {
    RunFates(tr, n);
    hide JoinInv, Run;
    assert FateOk(tr[n].ws[w]);
  }
}
