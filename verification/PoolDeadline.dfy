/** A worker that is still running when the deadline has passed is never joined, and shutdown says so. */
module PoolDeadline {
  import opened Pool
  import opened PoolEffects
  import opened PoolJoins
  import opened PoolReturns

  /** The supervisor goes for worker i only after it saw it EXITED. */
  predicate Chosen(u: UPc, i: nat) { u == RRunning(i) || u == RJoined(i) || u == RJoin(i) }

  ghost predicate ChosenOk(ws: seq<Worker>, u: UPc)
  {
    forall i: nat :: Chosen(u, i) ==> i < |ws| && Finished(ws[i].ctl.thread)
  }

  lemma InitChosen(s: Pool)
    requires Init(s)
    ensures ChosenOk(s.ws, s.sup)
  {
  }

  // ---- the choice stays right -------------------------------------------------

  lemma WorkerChosen(s: Pool, j: nat, s': Pool)
    requires ChosenOk(s.ws, s.sup) && j < |s.ws| && WorkerStep(s, j, s')
    ensures ChosenOk(s'.ws, s'.sup)
  {
    WorkerMoves(s, j, s');
    assert !Finished(s.ws[j].ctl.thread);
    hide WorkerStep, OwnMove;
  }

  /** No effect but Create makes a finished thread run. */
  lemma EffectChosen(s: Pool, e: Effect)
    requires Applies(s, e) && ChosenOk(s.ws, s.sup) && !e.Create?
    ensures ChosenOk(WorkersAfter(s, e), s.sup)
  {
  }

  lemma ScanChosen(s: Pool, e: Effect, pc: UPc)
    requires WorkersOk(s.g.canClose, s.g.clk, s.ws) && ScanDoes(s, e, pc)
    ensures ChosenOk(s.ws, pc) && !e.Create?
  {
  }

  lemma StallChosen(s: Pool, e: Effect, pc: UPc)
    requires WorkersOk(s.g.canClose, s.g.clk, s.ws) && StallDoes(s, e, pc)
    ensures ChosenOk(s.ws, pc) && !e.Create?
  {
  }

  lemma RejoinChosen(s: Pool, e: Effect, pc: UPc)
    requires ChosenOk(s.ws, s.sup) && RejoinDoes(s, e, pc)
    ensures ChosenOk(s.ws, pc) && !e.Create?
  {
    if s.sup.RRunning? || s.sup.RJoined? {
      assert Chosen(s.sup, s.sup.i);
    } else {
      hide ChosenOk;
      RejoinElsewhere(s, e, pc);
      NoneChosen(s.ws, pc);
    }
  }

  lemma RejoinElsewhere(s: Pool, e: Effect, pc: UPc)
    requires RejoinDoes(s, e, pc) && !s.sup.RRunning? && !s.sup.RJoined?
    ensures !pc.RRunning? && !pc.RJoined? && !pc.RJoin? && !e.Create?
  {
  }

  lemma NoneChosen(ws: seq<Worker>, u: UPc)
    requires !u.RRunning? && !u.RJoined? && !u.RJoin?
    ensures ChosenOk(ws, u)
  {
  }

  lemma StartChosen(s: Pool, e: Effect, pc: UPc, ws': seq<Worker>)
    requires StartDoes(s, e, pc)
    ensures ChosenOk(ws', pc)
  {
  }

  lemma SupChosen(s: Pool, e: Effect, pc: UPc, s': Pool)
    requires JoinInv(s) && ChosenOk(s.ws, s.sup) && SupStep(s, e, pc, s')
    ensures ChosenOk(s'.ws, s'.sup)
  {
    assert WorkersOk(s.g.canClose, s.g.clk, s.ws);
    hide JoinInv, WorkersOk, ChosenOk, ScanDoes, StallDoes, RejoinDoes, StartDoes, WorkersAfter, Applies;
    if StartDoes(s, e, pc) {
      StartChosen(s, e, pc, s'.ws);
    } else {
      if ScanDoes(s, e, pc) { ScanChosen(s, e, pc); }
      else if StallDoes(s, e, pc) { StallChosen(s, e, pc); }
      else { RejoinChosen(s, e, pc); }
      MovedChosen(s, e, pc);
    }
  }

  lemma MovedChosen(s: Pool, e: Effect, pc: UPc)
    requires Applies(s, e) && ChosenOk(s.ws, pc) && !e.Create?
    ensures ChosenOk(WorkersAfter(s, e), pc)
  {
    EffectChosen(s.(sup := pc), e);
  }

  lemma OwnerChosen(s: Pool, e: Effect, pc: OPc, s': Pool)
    requires ChosenOk(s.ws, s.sup) && OwnerStep(s, e, pc, s')
    ensures ChosenOk(s'.ws, s'.sup)
  {
    hide OwnerDoes, WorkersAfter, Applies, OwnerKnows;
    OwnerEffect(s, e, pc);
    EffectChosen(s, e);
  }

  lemma NextChosen(s: Pool, s': Pool)
    requires JoinInv(s) && ChosenOk(s.ws, s.sup) && Next(s, s')
    ensures ChosenOk(s'.ws, s'.sup)
  {
    hide JoinInv, ChosenOk, WorkerStep, SubStep, CallStep, OwnerStep, SupStep, DestroyStep;
    if j :| 0 <= j < |s.ws| && WorkerStep(s, j, s') { WorkerChosen(s, j, s'); }
    else if t, e, pc :| 0 <= t < |s.subs| && SubStep(s, t, e, pc, s') { SubChosen(s, t, e, pc, s'); }
    else if c :| 0 <= c < |s.calls| && CallStep(s, c, s') { CallEffect(s, c, s'); }
    else if e, pc :| OwnerStep(s, e, pc, s') { OwnerChosen(s, e, pc, s'); }
    else if e, pc :| SupStep(s, e, pc, s') { SupChosen(s, e, pc, s'); }
    else if e, pc :| DestroyStep(s, e, pc, s') { DestroyChosen(s, e, pc, s'); }
  }

  lemma SubChosen(s: Pool, t: nat, e: Effect, pc: SPc, s': Pool)
    requires ChosenOk(s.ws, s.sup) && t < |s.subs| && SubStep(s, t, e, pc, s')
    ensures ChosenOk(s'.ws, s'.sup)
  {
    hide SubDoes, WorkersAfter, Applies, ChosenOk;
    SubmitterEffect(s, t, e, pc);
    EffectChosen(s, e);
  }

  lemma DestroyChosen(s: Pool, e: Effect, pc: DPc, s': Pool)
    requires ChosenOk(s.ws, s.sup) && DestroyStep(s, e, pc, s')
    ensures ChosenOk(s'.ws, s'.sup)
  {
    hide DestroyDoes, WorkersAfter, Applies, ChosenOk;
    DestroyEffect(s, e, pc);
    EffectChosen(s, e);
  }

  lemma {:induction false} RunChosen(tr: seq<Pool>, n: nat)
    requires Run(tr) && n < |tr|
    ensures ChosenOk(tr[n].ws, tr[n].sup)
  {
    hide JoinInv, ChosenOk, Next, Init;
    if n == 0 {
      InitChosen(tr[0]);
    } else {
      RunChosen(tr, n - 1);
      RunJoins(tr, n - 1);
      assert NextAt(tr, n - 1);
      NextChosen(tr[n - 1], tr[n]);
    }
  }

  // ---- a missed deadline ------------------------------------------------------

  /** Nobody is on the way to a successful join of worker i. */
  predicate Unjoinable(o: OPc, u: UPc, i: nat)
  {
    && !(o.OJoin? && o.i == i && (o.j.XWait? || o.j.XSetJoined?))
    && u != RJoined(i) && u != RJoin(i) && Restarting(u) != i
  }

  predicate Missed(s: Pool, i: nat)
  {
    i < |s.ws| && Expired(s.g.clk) && !s.ws[i].ctl.joined && Unjoinable(s.own, s.sup, i)
  }

  lemma RunningMisses(s: Pool, i: nat)
    requires JoinInv(s) && ChosenOk(s.ws, s.sup) && i < |s.ws| && Expired(s.g.clk) && !Finished(s.ws[i].ctl.thread)
    ensures Missed(s, i)
  {
    assert CtlOk(s.ws[i].ctl);
    assert !Chosen(s.sup, i);
    hide WorkersOk, PathFits, BornOk, ChosenOk;
  }

  /** Past the deadline the owner's join gives up, and outside RUNNING the supervisor joins nobody new. */
  lemma PollMisses(s: Pool, e: Effect, pc: OPc, i: nat)
    requires s.own.OJoin? && s.own.i < |s.ws| && PollDoes(s, e, pc) && Missed(s, i)
    ensures Unjoinable(pc, s.sup, i) && !(e == PutJoined(i, true))
  {
  }

  lemma ExitedMisses(s: Pool, e: Effect, pc: OPc, i: nat)
    requires s.own.OJoin? && s.own.i < |s.ws| && ExitedDoes(s, e, pc) && Missed(s, i)
    ensures Unjoinable(pc, s.sup, i) && !(e == PutJoined(i, true))
  {
  }

  /** Outside the bounded join the owner neither waits for a thread nor records a join. */
  predicate NoJoin(e: Effect, pc: OPc) { !(pc.OJoin? && (pc.j.XWait? || pc.j.XSetJoined?)) && !e.PutJoined? }

  lemma SubmitsMisses(s: Pool, e: Effect, pc: OPc)
    requires SubmitsDoes(s, e, pc)
    ensures NoJoin(e, pc)
  {
  }

  lemma SupJoinMisses(s: Pool, e: Effect, pc: OPc)
    requires SupJoinDoes(s, e, pc)
    ensures NoJoin(e, pc)
  {
  }

  lemma TeardownMisses(s: Pool, e: Effect, pc: OPc)
    requires TeardownDoes(s, e, pc)
    ensures NoJoin(e, pc)
  {
  }

  lemma QuarantineMisses(s: Pool, e: Effect, pc: OPc)
    requires QuarantineDoes(s, e, pc)
    ensures NoJoin(e, pc)
  {
  }

  lemma StopMisses(s: Pool, e: Effect, pc: OPc)
    requires StopDoes(s, e, pc)
    ensures NoJoin(e, pc)
  {
  }

  lemma OwnerMisses(s: Pool, e: Effect, pc: OPc, i: nat)
    requires OwnerDoes(s, e, pc) && Missed(s, i)
    ensures Unjoinable(pc, s.sup, i) && e != PutJoined(i, true)
  {
    hide SubmitsDoes, SupJoinDoes, TeardownDoes, PollDoes, ExitedDoes, QuarantineDoes, StopDoes;
    if SubmitsDoes(s, e, pc) { SubmitsMisses(s, e, pc); }
    else if SupJoinDoes(s, e, pc) { SupJoinMisses(s, e, pc); }
    else if TeardownDoes(s, e, pc) { TeardownMisses(s, e, pc); }
    else if QuarantineDoes(s, e, pc) { QuarantineMisses(s, e, pc); }
    else if StopDoes(s, e, pc) { StopMisses(s, e, pc); }
    else if PollDoes(s, e, pc) { PollMisses(s, e, pc, i); }
    else { ExitedMisses(s, e, pc, i); }
  }

  /** A join recorded by an effect names its worker. */
  lemma EffectUnjoined(s: Pool, e: Effect, i: nat)
    requires Applies(s, e) && i < |s.ws| && !s.ws[i].ctl.joined && e != PutJoined(i, true)
    ensures !WorkersAfter(s, e)[i].ctl.joined
  {
  }

  lemma StaysExpired(k: Clock, budget: nat, e: Effect)
    requires Expired(k) && TimeMoves(k, e)
    ensures Expired(ClockAfter(k, budget, e))
  {
  }

  lemma OwnerMissed(s: Pool, e: Effect, pc: OPc, s': Pool, i: nat)
    requires JoinInv(s) && Missed(s, i) && OwnerStep(s, e, pc, s')
    ensures Missed(s', i)
  {
    assert s.own != ONone && s.own != OStart by { hide OwnerDoes, WorkersOk, SupOk, FocusOk; }
    hide JoinInv, OwnerDoes, Do, Applies, WorkersAfter, Expired, Unjoinable;
    OwnerEffect(s, e, pc);
    OwnerMisses(s, e, pc, i);
    EffectUnjoined(s, e, i);
    StaysExpired(s.g.clk, s.cfg.budget, e);
    DoFacts(s, e);
    SameCount(s, e);
    assert Unjoinable(pc, s'.sup, i) by { if e.ReapSup? { ReapedUnjoinable(pc, s.sup, i); } }
  }

  lemma SameCount(s: Pool, e: Effect)
    requires Applies(s, e)
    ensures |WorkersAfter(s, e)| == |s.ws|
  {
  }

  lemma ReapedUnjoinable(o: OPc, u: UPc, i: nat)
    requires Unjoinable(o, u, i)
    ensures Unjoinable(o, UReaped, i)
  {
  }

  lemma ScanMisses(s: Pool, e: Effect, pc: UPc, i: nat)
    requires ScanDoes(s, e, pc)
    ensures Unjoinable(s.own, s.sup, i) ==> Unjoinable(s.own, pc, i)
    ensures !e.PutJoined?
  {
  }

  lemma StallMisses(s: Pool, e: Effect, pc: UPc, i: nat)
    requires StallDoes(s, e, pc)
    ensures Unjoinable(s.own, s.sup, i) ==> Unjoinable(s.own, pc, i)
    ensures !e.PutJoined?
  {
  }

  lemma RejoinMisses(s: Pool, e: Effect, pc: UPc, i: nat)
    requires RejoinDoes(s, e, pc) && s.g.life != Running && Unjoinable(s.own, s.sup, i)
    ensures Unjoinable(s.own, pc, i) && e != PutJoined(i, true)
  {
  }

  lemma StartMisses(s: Pool, e: Effect, pc: UPc, i: nat)
    requires StartDoes(s, e, pc) && Unjoinable(s.own, s.sup, i)
    ensures Unjoinable(s.own, pc, i) && e != PutJoined(i, true)
  {
  }

  lemma SupMisses(s: Pool, e: Effect, pc: UPc, i: nat)
    requires SupDoes(s, e, pc) && s.g.life != Running && Unjoinable(s.own, s.sup, i)
    ensures Unjoinable(s.own, pc, i) && e != PutJoined(i, true)
  {
    hide ScanDoes, StallDoes, RejoinDoes, StartDoes, Unjoinable;
    if ScanDoes(s, e, pc) { ScanMisses(s, e, pc, i); }
    else if StallDoes(s, e, pc) { StallMisses(s, e, pc, i); }
    else if RejoinDoes(s, e, pc) { RejoinMisses(s, e, pc, i); }
    else { StartMisses(s, e, pc, i); }
  }

  lemma SupMissed(s: Pool, e: Effect, pc: UPc, s': Pool, i: nat)
    requires JoinInv(s) && Missed(s, i) && SupStep(s, e, pc, s')
    ensures Missed(s', i)
  {
    assert s.g.life != Running by { hide SupDoes, WorkersOk, SupOk, FocusOk; }
    hide JoinInv, SupDoes, Do, Applies, WorkersAfter, Expired, Unjoinable, SupKnows;
    SupMisses(s, e, pc, i);
    SupervisorEffect(s, e, pc);
    EffectUnjoined(s, e, i);
    DoFacts(s, e);
    SameCount(s, e);
  }

  lemma NextMissed(s: Pool, s': Pool, i: nat)
    requires JoinInv(s) && Missed(s, i) && Next(s, s')
    ensures Missed(s', i)
  {
    hide JoinInv, Unjoinable, WorkerStep, SubStep, CallStep, OwnerStep, SupStep, DestroyStep;
    if j :| 0 <= j < |s.ws| && WorkerStep(s, j, s') { WorkerMoves(s, j, s'); }
    else if t, e, pc :| 0 <= t < |s.subs| && SubStep(s, t, e, pc, s') { SubMissed(s, t, e, pc, s', i); }
    else if c :| 0 <= c < |s.calls| && CallStep(s, c, s') { CallMissed(s, c, s', i); }
    else if e, pc :| OwnerStep(s, e, pc, s') { OwnerMissed(s, e, pc, s', i); }
    else if e, pc :| SupStep(s, e, pc, s') { SupMissed(s, e, pc, s', i); }
    else if e, pc :| DestroyStep(s, e, pc, s') { DestroyMissed(s, e, pc, s', i); }
  }

  lemma CallMissed(s: Pool, c: nat, s': Pool, i: nat)
    requires Missed(s, i) && c < |s.calls| && CallStep(s, c, s')
    ensures Missed(s', i)
  {
    CallEffect(s, c, s');
    hide CallStep;
  }

  lemma SubMissed(s: Pool, t: nat, e: Effect, pc: SPc, s': Pool, i: nat)
    requires Missed(s, i) && t < |s.subs| && SubStep(s, t, e, pc, s')
    ensures Missed(s', i)
  {
    hide SubDoes, Do, Applies, WorkersAfter, Unjoinable;
    SubmitterEffect(s, t, e, pc);
    EffectUnjoined(s, e, i);
    DoFacts(s, e);
    SameCount(s, e);
  }

  lemma DestroyMissed(s: Pool, e: Effect, pc: DPc, s': Pool, i: nat)
    requires Missed(s, i) && DestroyStep(s, e, pc, s')
    ensures Missed(s', i)
  {
    hide DestroyDoes, Do, Applies, WorkersAfter, Unjoinable;
    DestroyEffect(s, e, pc);
    EffectUnjoined(s, e, i);
    DoFacts(s, e);
    SameCount(s, e);
  }

  lemma {:induction false} MissedForever(tr: seq<Pool>, m: nat, n: nat, i: nat)
    requires Run(tr) && m <= n < |tr| && Missed(tr[m], i)
    ensures Missed(tr[n], i)
    decreases n - m
  {
    hide JoinInv, Missed, Next, Init;
    if m < n {
      MissedForever(tr, m, n - 1, i);
      RunJoins(tr, n - 1);
      assert NextAt(tr, n - 1);
      NextMissed(tr[n - 1], tr[n], i);
    }
  }

  // ---- theorems ---------------------------------------------------------------

  /**
    A worker thread still running when the deadline of a shutdown has passed is never recorded as
    joined afterwards, by the owner or by the supervisor, and no shutdown call ever answers 0.
   */
  lemma DeadlineMissed(tr: seq<Pool>, m: nat, n: nat, i: nat)
    requires Run(tr) && m <= n < |tr| && i < |tr[m].ws|
    requires Expired(tr[m].g.clk) && !Finished(tr[m].ws[i].ctl.thread)
    ensures i < |tr[n].ws| && !tr[n].ws[i].ctl.joined
    ensures forall c, r :: 0 <= c < |tr[n].calls| && tr[n].calls[c] == CIdle(Ret(r)) ==> r > 0
  {
    RunJoins(tr, m);
    RunChosen(tr, m);
    hide JoinInv, RetInv, Next, Init, ChosenOk, Expired;
    RunningMisses(tr[m], i);
    MissedForever(tr, m, n, i);
    RunReturns(tr, n);
    forall c, r | 0 <= c < |tr[n].calls| && tr[n].calls[c] == CIdle(Ret(r))
      ensures r > 0
    {
      AnswerFacts(tr[n], c);
    }
  }
}
