/** No shutdown call answers less than the number of aborts counted before STOPPED. */
module PoolAborts {
  import opened Pool
  import opened PoolEffects
  import opened PoolJoins
  import opened PoolReturns

  ghost predicate CallAtLeast(k: nat, pc: CPc)
  {
    match pc
    case CIdle(Ret(r)) => r >= k
    case CQuar(r, _) => r >= k
    case CLeave(r) => r >= k
    case _ => true
  }

  predicate OwnerAtLeast(k: nat, o: OPc)
  {
    match o
    case OQuar(r) => r >= k
    case ODone(r) => r >= k
    case _ => true
  }

  /** k aborts have been counted, and every answer under way or given knows of them. */
  ghost predicate AtLeast(k: nat, s: Pool)
  {
    && s.g.aborts >= k && OwnerAtLeast(k, s.own)
    && forall c :: 0 <= c < |s.calls| ==> CallAtLeast(k, s.calls[c])
  }

  /** Before STOPPED nobody has read the counter yet. */
  lemma NoneYet(s: Pool)
    requires RetInv(s) && s.g.life != Stopped
    ensures AtLeast(s.g.aborts, s)
  {
    hide ProgressOk;
    forall c | 0 <= c < |s.calls|
      ensures CallAtLeast(s.g.aborts, s.calls[c])
    {
      assert CallOk(s, s.calls[c]);
    }
  }

  /** What a caller's step leaves in its own place. */
  lemma CallerKeeps(k: nat, s: Pool, c: nat, s': Pool)
    requires s.g.aborts >= k && OwnerAtLeast(k, s.own) && c < |s.calls| && CallStep(s, c, s')
    requires CallAtLeast(k, s.calls[c])
    ensures |s'.calls| == |s.calls| && CallAtLeast(k, s'.calls[c])
  {
  }

  lemma CallOwnerKeeps(k: nat, s: Pool, c: nat, s': Pool)
    requires c < |s.calls| && CallStep(s, c, s') && OwnerAtLeast(k, s.own)
    ensures OwnerAtLeast(k, s'.own) && s'.g.aborts == s.g.aborts
  {
    hide CallStep;
    CallEffect(s, c, s');
  }

  lemma OtherCallers(s: Pool, c: nat, s': Pool)
    requires c < |s.calls| && CallStep(s, c, s')
    ensures |s'.calls| == |s.calls| && forall d :: 0 <= d < |s.calls| && d != c ==> s'.calls[d] == s.calls[d]
  {
    hide CallStep;
    CallEffect(s, c, s');
  }

  lemma CallKeeps(k: nat, s: Pool, c: nat, s': Pool)
    requires AtLeast(k, s) && c < |s.calls| && CallStep(s, c, s')
    ensures AtLeast(k, s')
  {
    assert CallAtLeast(k, s.calls[c]);
    hide CallStep, CallAtLeast, OwnerAtLeast;
    OtherCallers(s, c, s');
    CallOwnerKeeps(k, s, c, s');
    CallerKeeps(k, s, c, s');
  }

  lemma OwnerReads(k: nat, s: Pool, e: Effect, pc: OPc)
    requires OwnerDoes(s, e, pc) && s.g.aborts >= k && OwnerAtLeast(k, s.own)
    ensures OwnerAtLeast(k, pc)
  {
    hide OwnerAtLeast, SubmitsDoes, SupJoinDoes, TeardownDoes, PollDoes, ExitedDoes, QuarantineDoes, StopDoes;
    if SubmitsDoes(s, e, pc) { SubmitsReads(k, s, e, pc); }
    else if SupJoinDoes(s, e, pc) { SupJoinReads(k, s, e, pc); }
    else if TeardownDoes(s, e, pc) { TeardownReads(k, s, e, pc); }
    else if QuarantineDoes(s, e, pc) { QuarantineReads(k, s, e, pc); }
    else if StopDoes(s, e, pc) { StopReads(k, s, e, pc); }
    else if PollDoes(s, e, pc) { PollReads(k, s, e, pc); }
    else { ExitedReads(k, s, e, pc); }
  }

  lemma SubmitsReads(k: nat, s: Pool, e: Effect, pc: OPc)
    requires SubmitsDoes(s, e, pc)
    ensures OwnerAtLeast(k, pc)
  {
  }

  lemma SupJoinReads(k: nat, s: Pool, e: Effect, pc: OPc)
    requires SupJoinDoes(s, e, pc)
    ensures OwnerAtLeast(k, pc)
  {
  }

  lemma TeardownReads(k: nat, s: Pool, e: Effect, pc: OPc)
    requires TeardownDoes(s, e, pc)
    ensures OwnerAtLeast(k, pc)
  {
  }

  lemma QuarantineReads(k: nat, s: Pool, e: Effect, pc: OPc)
    requires QuarantineDoes(s, e, pc)
    ensures OwnerAtLeast(k, pc)
  {
  }

  lemma StopReads(k: nat, s: Pool, e: Effect, pc: OPc)
    requires StopDoes(s, e, pc) && s.g.aborts >= k && OwnerAtLeast(k, s.own)
    ensures OwnerAtLeast(k, pc)
  {
  }

  lemma PollReads(k: nat, s: Pool, e: Effect, pc: OPc)
    requires s.own.OJoin? && s.own.i < |s.ws| && PollDoes(s, e, pc)
    ensures OwnerAtLeast(k, pc)
  {
  }

  lemma ExitedReads(k: nat, s: Pool, e: Effect, pc: OPc)
    requires s.own.OJoin? && s.own.i < |s.ws| && ExitedDoes(s, e, pc)
    ensures OwnerAtLeast(k, pc)
  {
  }

  lemma OwnerKeeps(k: nat, s: Pool, e: Effect, pc: OPc, s': Pool)
    requires AtLeast(k, s) && OwnerStep(s, e, pc, s')
    ensures AtLeast(k, s')
  {
    hide OwnerDoes, Do, OwnerAtLeast, CallAtLeast, OwnerKnows, OfOwner;
    OwnerEffect(s, e, pc);
    OwnerReads(k, s, e, pc);
    DoFacts(s, e);
    OwnerNoCall(e);
  }

  lemma SubKeepsAborts(k: nat, s: Pool, t: nat, e: Effect, pc: SPc, s': Pool)
    requires AtLeast(k, s) && t < |s.subs| && SubStep(s, t, e, pc, s')
    ensures AtLeast(k, s')
  {
    SubmitterEffect(s, t, e, pc);
    DoFacts(s, e);
    hide SubDoes, Do, CallAtLeast;
  }

  lemma SupKeeps(k: nat, s: Pool, e: Effect, pc: UPc, s': Pool)
    requires AtLeast(k, s) && SupStep(s, e, pc, s')
    ensures AtLeast(k, s')
  {
    SupervisorEffect(s, e, pc);
    DoFacts(s, e);
    hide SupDoes, SupKnows, Do, CallAtLeast;
  }

  lemma DestroyKeeps(k: nat, s: Pool, e: Effect, pc: DPc, s': Pool)
    requires AtLeast(k, s) && DestroyStep(s, e, pc, s')
    ensures AtLeast(k, s')
  {
    DestroyEffect(s, e, pc);
    DoFacts(s, e);
    hide DestroyDoes, Do, OwnerAtLeast;
  }

  lemma WorkerKeeps(k: nat, s: Pool, i: nat, s': Pool)
    requires AtLeast(k, s) && i < |s.ws| && WorkerStep(s, i, s')
    ensures AtLeast(k, s')
  {
    WorkerMoves(s, i, s');
    assert s.g.aborts <= s'.g.aborts;
    hide WorkerStep, CallAtLeast;
  }

  lemma NextAtLeast(k: nat, s: Pool, s': Pool)
    requires AtLeast(k, s) && Next(s, s')
    ensures AtLeast(k, s')
  {
    hide AtLeast, WorkerStep, SubStep, CallStep, OwnerStep, SupStep, DestroyStep;
    if i :| 0 <= i < |s.ws| && WorkerStep(s, i, s') { WorkerKeeps(k, s, i, s'); }
    else if t, e, pc :| 0 <= t < |s.subs| && SubStep(s, t, e, pc, s') { SubKeepsAborts(k, s, t, e, pc, s'); }
    else if c :| 0 <= c < |s.calls| && CallStep(s, c, s') { CallKeeps(k, s, c, s'); }
    else if e, pc :| OwnerStep(s, e, pc, s') { OwnerKeeps(k, s, e, pc, s'); }
    else if e, pc :| SupStep(s, e, pc, s') { SupKeeps(k, s, e, pc, s'); }
    else if e, pc :| DestroyStep(s, e, pc, s') { DestroyKeeps(k, s, e, pc, s'); }
    else { TickKeeps(k, s, s'); }
  }

  lemma TickKeeps(k: nat, s: Pool, s': Pool)
    requires AtLeast(k, s) && Tick(s, s')
    ensures AtLeast(k, s')
  {
    hide CallAtLeast;
  }

  lemma {:induction false} AbortsStay(tr: seq<Pool>, m: nat, n: nat)
    requires Run(tr) && m <= n < |tr| && tr[m].g.life != Stopped
    ensures AtLeast(tr[m].g.aborts, tr[n])
    decreases n - m
  {
    hide AtLeast, Next, Init, JoinInv, RetInv;
    if m == n {
      RunReturns(tr, m);
      NoneYet(tr[m]);
    } else {
      AbortsStay(tr, m, n - 1);
      assert NextAt(tr, n - 1);
      NextAtLeast(tr[m].g.aborts, tr[n - 1], tr[n]);
    }
  }

  // ---- theorems ---------------------------------------------------------------

  /** Every answer of every shutdown call is at least the number of aborts counted before STOPPED. */
  lemma AbortsReported(tr: seq<Pool>, m: nat, n: nat, c: nat, r: nat)
    requires Run(tr) && m <= n < |tr| && tr[m].g.life != Stopped
    requires c < |tr[n].calls| && tr[n].calls[c] == CIdle(Ret(r))
    ensures r >= tr[m].g.aborts
  {
    AbortsStay(tr, m, n);
    hide Run;
    assert CallAtLeast(tr[m].g.aborts, tr[n].calls[c]);
  }

  /** In a bounded join the owner follows awp_worker_join_deadline. */
  lemma JoinOnly(s: Pool, e: Effect, pc: OPc)
    requires s.own.OJoin? && OwnerDoes(s, e, pc)
    ensures s.own.i < |s.ws| && (PollDoes(s, e, pc) || ExitedDoes(s, e, pc))
  {
    hide SubmitsDoes, SupJoinDoes, TeardownDoes, PollDoes, ExitedDoes, QuarantineDoes, StopDoes;
    SubmitsElsewhere(s, e, pc);
    SupJoinElsewhere(s, e, pc);
    TeardownElsewhere(s, e, pc);
    QuarantineElsewhere(s, e, pc);
    StopElsewhere(s, e, pc);
  }

  lemma TeardownElsewhere(s: Pool, e: Effect, pc: OPc)
    requires s.own.OJoin?
    ensures !TeardownDoes(s, e, pc)
  {
  }

  lemma LateCounts(s: Pool, e: Effect, pc: OPc)
    requires s.own.OJoin? && s.own.j == JAbort && s.own.i < |s.ws| && (PollDoes(s, e, pc) || ExitedDoes(s, e, pc))
    ensures e == CountAbort
  {
  }

  lemma StepFromLate(s: Pool, s': Pool)
    requires RetInv(s) && Next(s, s') && s.own.OJoin? && s.own.j == JAbort
    ensures s'.own == s.own || (s'.g.aborts > 0 && s'.g.life == s.g.life)
  {
    assert s.g.life == Draining by { hide Next; }
    hide RetInv, WorkerStep, SubStep, CallStep, OwnerStep, SupStep, DestroyStep;
    if i :| 0 <= i < |s.ws| && WorkerStep(s, i, s') { WorkerMoves(s, i, s'); }
    else if t, e, pc :| 0 <= t < |s.subs| && SubStep(s, t, e, pc, s') { SubKeepsOwner(s, t, e, pc, s'); }
    else if c :| 0 <= c < |s.calls| && CallStep(s, c, s') { CallEffect(s, c, s'); }
    else if e, pc :| OwnerStep(s, e, pc, s') { OwnerFromLate(s, e, pc, s'); }
    else if e, pc :| SupStep(s, e, pc, s') { SupKeepsOwner(s, e, pc, s'); }
    else if e, pc :| DestroyStep(s, e, pc, s') { DestroyKeepsOwner(s, e, pc, s'); }
  }

  lemma OwnerFromLate(s: Pool, e: Effect, pc: OPc, s': Pool)
    requires s.own.OJoin? && s.own.j == JAbort && OwnerStep(s, e, pc, s')
    ensures s'.g.aborts > 0 && s'.g.life == s.g.life
  {
    hide OwnerDoes, PollDoes, ExitedDoes;
    JoinOnly(s, e, pc);
    LateCounts(s, e, pc);
  }

  /**
    Once the owner is about to count an abort for a worker, as it is after a join past the grace
    period, a failed join or a quarantine, every answer is positive.
   */
  lemma {:induction false} LateIsReported(tr: seq<Pool>, m: nat, n: nat, c: nat, r: nat)
    requires Run(tr) && m <= n < |tr| && tr[m].own.OJoin? && tr[m].own.j == JAbort
    requires c < |tr[n].calls| && tr[n].calls[c] == CIdle(Ret(r))
    ensures r > 0
    decreases n - m
  {
    hide Next, Init, JoinInv, RetInv;
    RunReturns(tr, m);
    RunReturns(tr, n);
    NotStoppedYet(tr[m], tr[n], c);
    assert NextAt(tr, m);
    StepFromLate(tr[m], tr[m + 1]);
    if tr[m + 1].own == tr[m].own {
      LateIsReported(tr, m + 1, n, c, r);
    } else {
      AbortsReported(tr, m + 1, n, c, r);
    }
  }

  lemma NotStoppedYet(s: Pool, s': Pool, c: nat)
    requires RetInv(s) && RetInv(s') && s.own.OJoin? && c < |s'.calls| && s'.calls[c].CIdle? && s'.calls[c].ret.Ret?
    ensures s != s' && s.g.life == Draining
  {
    hide ProgressOk;
    assert CallOk(s', s'.calls[c]);
  }
}
