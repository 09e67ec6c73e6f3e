/**
  When the pool is STOPPED its rings are closed. The one exception is a ring that the
  supervisor reopened after shutdown had closed it; the check after the reopen closes it again.
 */
module PoolRings {
  import opened Pool
  import opened PoolEffects
  import opened PoolJoins
  import opened PoolReturns

  /** The supervisor has reopened ring j and has not yet finished checking the lifecycle. */
  predicate Reopened(u: UPc, j: nat) { u == RTerminal(j) || u == RReclose(j) }

  /** The owner has closed ring j for the last time. */
  predicate Covers(o: OPc, j: nat)
  {
    match o
    case OClose(i) => j < i
    case OQuarClose(i) => j < i
    case OQuarTest(i) => j <= i
    case OQuarAgain(i) => j <= i
    case OQuarStore(i) => j <= i
    case _ => o == OQuarMark || StageOf(o) == TearingDown || StageOf(o) == Finishing
  }

  ghost predicate ClosedOk(ws: seq<Worker>, o: OPc, u: UPc)
  {
    forall j :: 0 <= j < |ws| && Covers(o, j) ==> ws[j].closed || Reopened(u, j)
  }

  ghost predicate RingInv(s: Pool)
  {
    ClosedOk(s.ws, s.own, s.sup)
  }

  lemma InitRings(s: Pool)
    requires Init(s)
    ensures RingInv(s)
  {
  }

  // ---- the owner --------------------------------------------------------------

  /** The owner claims a ring closed only by closing it, and opens none. */
  ghost predicate Closing(s: Pool, e: Effect, pc: OPc)
  {
    && (forall j :: 0 <= j < |s.ws| && Covers(pc, j) ==> Covers(s.own, j) || e == PutClosed(j, true))
    && (e.PutClosed? ==> e.b)
  }

  lemma SubmitsClosing(s: Pool, e: Effect, pc: OPc)
    requires SubmitsDoes(s, e, pc)
    ensures Closing(s, e, pc)
  {
  }

  lemma SupJoinClosing(s: Pool, e: Effect, pc: OPc)
    requires SupJoinDoes(s, e, pc)
    ensures Closing(s, e, pc)
  {
  }

  lemma TeardownClosing(s: Pool, e: Effect, pc: OPc)
    requires TeardownDoes(s, e, pc)
    ensures Closing(s, e, pc)
  {
  }

  lemma QuarantineClosing(s: Pool, e: Effect, pc: OPc)
    requires QuarantineDoes(s, e, pc)
    ensures Closing(s, e, pc)
  {
  }

  lemma StopClosing(s: Pool, e: Effect, pc: OPc)
    requires StopDoes(s, e, pc)
    ensures Closing(s, e, pc)
  {
  }

  lemma PollClosing(s: Pool, e: Effect, pc: OPc)
    requires s.own.OJoin? && s.own.i < |s.ws| && PollDoes(s, e, pc)
    ensures Closing(s, e, pc)
  {
  }

  lemma ExitedClosing(s: Pool, e: Effect, pc: OPc)
    requires s.own.OJoin? && s.own.i < |s.ws| && ExitedDoes(s, e, pc)
    ensures Closing(s, e, pc)
  {
  }

  lemma OwnerClosing(s: Pool, e: Effect, pc: OPc)
    requires OwnerDoes(s, e, pc)
    ensures Closing(s, e, pc)
  {
    hide Closing, SubmitsDoes, SupJoinDoes, TeardownDoes, PollDoes, ExitedDoes, QuarantineDoes, StopDoes;
    if SubmitsDoes(s, e, pc) { SubmitsClosing(s, e, pc); }
    else if SupJoinDoes(s, e, pc) { SupJoinClosing(s, e, pc); }
    else if TeardownDoes(s, e, pc) { TeardownClosing(s, e, pc); }
    else if QuarantineDoes(s, e, pc) { QuarantineClosing(s, e, pc); }
    else if StopDoes(s, e, pc) { StopClosing(s, e, pc); }
    else if PollDoes(s, e, pc) { PollClosing(s, e, pc); }
    else { ExitedClosing(s, e, pc); }
  }

  /** Only PutClosed changes a closed flag. */
  lemma ClosedAfter(s: Pool, e: Effect)
    requires Applies(s, e)
    ensures |WorkersAfter(s, e)| == |s.ws|
    ensures forall j :: 0 <= j < |s.ws| ==>
      WorkersAfter(s, e)[j].closed == if e.PutClosed? && e.i == j then e.b else s.ws[j].closed
  {
  }

  lemma OwnerRings(s: Pool, e: Effect, pc: OPc, s': Pool)
    requires JoinInv(s) && RingInv(s) && OwnerStep(s, e, pc, s')
    ensures RingInv(s')
  {
    hide JoinInv, OwnerDoes, Do, WorkersAfter, Covers, Applies;
    OwnerClosing(s, e, pc);
    ClosedAfter(s, e);
    DoFacts(s, e);
    OwnerEffect(s, e, pc);
    assert forall j :: 0 <= j < |s.ws| && Reopened(s.sup, j) ==> Reopened(s'.sup, j);
  }

  // ---- the supervisor ---------------------------------------------------------

  /** A ring is opened only on the way to the terminal check, which closes it unless the pool is running. */
  ghost predicate Reopening(s: Pool, e: Effect, pc: UPc)
  {
    && (e.PutClosed? && !e.b ==> pc == RTerminal(e.i))
    && (forall j :: 0 <= j < |s.ws| && Reopened(s.sup, j) ==>
          Reopened(pc, j) || e == PutClosed(j, true) || s.g.life == Running)
  }

  lemma ScanReopening(s: Pool, e: Effect, pc: UPc)
    requires ScanDoes(s, e, pc)
    ensures Reopening(s, e, pc)
  {
  }

  lemma StallReopening(s: Pool, e: Effect, pc: UPc)
    requires StallDoes(s, e, pc)
    ensures Reopening(s, e, pc)
  {
  }

  lemma RejoinReopening(s: Pool, e: Effect, pc: UPc)
    requires RejoinDoes(s, e, pc)
    ensures Reopening(s, e, pc)
  {
  }

  lemma StartReopening(s: Pool, e: Effect, pc: UPc)
    requires StartDoes(s, e, pc)
    ensures Reopening(s, e, pc)
  {
  }

  lemma SupRings(s: Pool, e: Effect, pc: UPc, s': Pool)
    requires JoinInv(s) && RingInv(s) && SupStep(s, e, pc, s')
    ensures RingInv(s')
  {
    hide JoinInv, Reopening, ClosedOk, ScanDoes, StallDoes, RejoinDoes, StartDoes, Do, Applies, WorkersAfter;
    if ScanDoes(s, e, pc) { ScanReopening(s, e, pc); }
    else if StallDoes(s, e, pc) { StallReopening(s, e, pc); }
    else if RejoinDoes(s, e, pc) { RejoinReopening(s, e, pc); }
    else { StartReopening(s, e, pc); }
    ClosedAfter(s, e);
    DoFacts(s, e);
    ReopenKeeps(s, e, pc, s'.ws);
  }

  lemma ReopenKeeps(s: Pool, e: Effect, pc: UPc, ws': seq<Worker>)
    requires JoinInv(s) && ClosedOk(s.ws, s.own, s.sup) && Reopening(s, e, pc) && |ws'| == |s.ws|
    requires forall j :: 0 <= j < |s.ws| ==>
      ws'[j].closed == if e.PutClosed? && e.i == j then e.b else s.ws[j].closed
    ensures ClosedOk(ws', s.own, pc)
  {
    assert s.g.life == Running ==> s.own == ONone;
    hide JoinInv;
  }

  // ---- everybody else and all steps -------------------------------------------

  lemma SubRings(s: Pool, t: nat, e: Effect, pc: SPc, s': Pool)
    requires RingInv(s) && t < |s.subs| && SubStep(s, t, e, pc, s')
    ensures RingInv(s')
  {
    SubmitterEffect(s, t, e, pc);
    ClosedAfter(s, e);
    DoFacts(s, e);
    hide SubDoes, Do, WorkersAfter, Covers, Applies;
  }

  lemma DestroyRings(s: Pool, e: Effect, pc: DPc, s': Pool)
    requires RingInv(s) && DestroyStep(s, e, pc, s')
    ensures RingInv(s')
  {
    DestroyEffect(s, e, pc);
    ClosedAfter(s, e);
    DoFacts(s, e);
    hide DestroyDoes, Do, WorkersAfter, Covers, Applies;
  }

  lemma WorkerRings(s: Pool, i: nat, s': Pool)
    requires RingInv(s) && i < |s.ws| && WorkerStep(s, i, s')
    ensures RingInv(s')
  {
    hide WorkerStep, Covers, OwnMove;
    WorkerMoves(s, i, s');
  }

  lemma CallRings(s: Pool, c: nat, s': Pool)
    requires RingInv(s) && c < |s.calls| && CallStep(s, c, s')
    ensures RingInv(s')
  {
    hide CallStep;
    CallEffect(s, c, s');
  }

  lemma TickRings(s: Pool, s': Pool)
    requires RingInv(s) && Tick(s, s')
    ensures RingInv(s')
  {
  }

  lemma NextRings(s: Pool, s': Pool)
    requires JoinInv(s) && RingInv(s) && Next(s, s')
    ensures RingInv(s')
  {
    hide JoinInv, RingInv, WorkerStep, SubStep, CallStep, OwnerStep, SupStep, DestroyStep;
    if i :| 0 <= i < |s.ws| && WorkerStep(s, i, s') { WorkerRings(s, i, s'); }
    else if t, e, pc :| 0 <= t < |s.subs| && SubStep(s, t, e, pc, s') { SubRings(s, t, e, pc, s'); }
    else if c :| 0 <= c < |s.calls| && CallStep(s, c, s') { CallRings(s, c, s'); }
    else if e, pc :| OwnerStep(s, e, pc, s') { OwnerRings(s, e, pc, s'); }
    else if e, pc :| SupStep(s, e, pc, s') { SupRings(s, e, pc, s'); }
    else if e, pc :| DestroyStep(s, e, pc, s') { DestroyRings(s, e, pc, s'); }
    else { TickRings(s, s'); }
  }

  lemma {:induction false} RunRings(tr: seq<Pool>, n: nat)
    requires Run(tr) && n < |tr|
    ensures JoinInv(tr[n]) && RingInv(tr[n])
  {
    hide JoinInv, RingInv, Next, Init;
    RunJoins(tr, n);
    if n == 0 {
      InitRings(tr[0]);
    } else {
      RunRings(tr, n - 1);
      assert NextAt(tr, n - 1);
      NextRings(tr[n - 1], tr[n]);
    }
  }

  // ---- theorems ---------------------------------------------------------------

  /** Once STOPPED every ring is closed, except one between its reopen and the check that follows. */
  lemma StoppedClosed(tr: seq<Pool>, n: nat, j: nat)
    requires Run(tr) && n < |tr| && j < |tr[n].ws| && tr[n].g.life == Stopped
    ensures tr[n].ws[j].closed || Reopened(tr[n].sup, j)
  {
    RunRings(tr, n);
    RunReturns(tr, n);
    assert StageOf(tr[n].own) == Finishing;
    hide JoinInv, RetInv, StageOf, Run;
  }

  /** An upper bound on the supervisor's remaining steps once the pool has left RUNNING. */
  function StepsLeft(u: UPc): nat
  {
    match u
    case UReturned => 0 case UNone => 0 case UReaped => 0
    case UDead => 1 case UExit => 2 case ULoop => 3 case USleep => 4 case UScan(_) => 5
    case TCount(_) => 6 case TMark(_) => 7 case TClose(_) => 8 case TQuar(_) => 9 case TClear(_) => 6
    case FStop(_) => 6 case FCount(_) => 7 case FMark(_) => 8 case FClose(_) => 9 case FJoined(_) => 10
    case FState(_) => 11
    case RCreate(_) => 12 case RStarting(_) => 13 case RClearJoined(_) => 14 case RClearStop(_) => 15
    case RReclose(_) => 6 case RKeepClosed(_) => 6
    case RTerminal(_) => 16 case RReopen(_) => 17 case RRecheck(_) => 18 case RSetState(_) => 19
    case RSetJoined(_) => 20 case RJoin(_) => 21 case RJoined(_) => 22 case RRunning(_) => 23
    case TTest(_) => 24 case TRunning(_) => 25 case TGrace(_) => 26 case TStop(_) => 27
    case TDepth(_) => 28 case UState(_) => 29
    case UAlive => 4 case UBorn => 5
  }

  lemma SupWinds(s: Pool, e: Effect, pc: UPc)
    requires SupDoes(s, e, pc) && s.g.life != Running
    ensures StepsLeft(pc) < StepsLeft(s.sup)
  {
    hide ScanDoes, StallDoes, RejoinDoes, StartDoes, StepsLeft;
    if ScanDoes(s, e, pc) { ScanWinds(s, e, pc); }
    else if StallDoes(s, e, pc) { StallWinds(s, e, pc); }
    else if RejoinDoes(s, e, pc) { RejoinWinds(s, e, pc); }
    else { StartWinds(s, e, pc); }
  }

  lemma ScanWinds(s: Pool, e: Effect, pc: UPc)
    requires ScanDoes(s, e, pc) && s.g.life != Running
    ensures StepsLeft(pc) < StepsLeft(s.sup)
  {
  }

  lemma StallWinds(s: Pool, e: Effect, pc: UPc)
    requires StallDoes(s, e, pc) && s.g.life != Running
    ensures StepsLeft(pc) < StepsLeft(s.sup)
  {
  }

  lemma RejoinWinds(s: Pool, e: Effect, pc: UPc)
    requires RejoinDoes(s, e, pc) && s.g.life != Running
    ensures StepsLeft(pc) < StepsLeft(s.sup)
  {
  }

  lemma RestartWinds(s: Pool, e: Effect, pc: UPc)
    requires StartDoes(s, e, pc) && StepsLeft(s.sup) > 11 && s.g.life != Running
    ensures StepsLeft(pc) < StepsLeft(s.sup)
  {
  }

  lemma FailedStartWinds(s: Pool, e: Effect, pc: UPc)
    requires StartDoes(s, e, pc) && StepsLeft(s.sup) <= 11 && s.g.life != Running
    ensures StepsLeft(pc) < StepsLeft(s.sup)
  {
  }

  lemma StartWinds(s: Pool, e: Effect, pc: UPc)
    requires StartDoes(s, e, pc) && s.g.life != Running
    ensures StepsLeft(pc) < StepsLeft(s.sup)
  {
    hide StartDoes, StepsLeft;
    if StepsLeft(s.sup) > 11 { RestartWinds(s, e, pc); } else { FailedStartWinds(s, e, pc); }
  }

  // ---- over a run --------------------------------------------------------------

  /** The supervisor may be what moved in this step. */
  ghost predicate SupMoves(s: Pool, s': Pool)
  {
    exists e, pc :: SupStep(s, e, pc, s')
  }

  /** Some ring is open after the step that was closed before it. */
  ghost predicate Opens(s: Pool, s': Pool)
  {
    exists j :: 0 <= j < |s.ws| && j < |s'.ws| && s.ws[j].closed && !s'.ws[j].closed
  }

  /** No step but the supervisor's reopening of a ring opens one. */
  lemma NoneOpens(s: Pool, e: Effect, ws': seq<Worker>)
    requires Applies(s, e) && ws' == WorkersAfter(s, e) && (e.PutClosed? ==> e.b)
    ensures forall j :: 0 <= j < |s.ws| && j < |ws'| && s.ws[j].closed ==> ws'[j].closed
  {
    ClosedAfter(s, e);
    hide WorkersAfter, Applies;
  }

  lemma OwnerOpensNone(s: Pool, e: Effect, pc: OPc, s': Pool)
    requires OwnerStep(s, e, pc, s')
    ensures !Opens(s, s') && StepsLeft(s'.sup) <= StepsLeft(s.sup)
  {
    OwnerClosing(s, e, pc);
    assert e.PutClosed? ==> e.b;
    hide OwnerDoes, Do, Applies, WorkersAfter, Closing;
    DoFacts(s, e);
    NoneOpens(s, e, s'.ws);
  }

  lemma ScanReopens(s: Pool, e: Effect, pc: UPc)
    requires ScanDoes(s, e, pc)
    ensures !e.PutClosed?
  {
  }

  lemma StallReopens(s: Pool, e: Effect, pc: UPc)
    requires StallDoes(s, e, pc)
    ensures e.PutClosed? ==> e.b
  {
  }

  lemma RejoinReopens(s: Pool, e: Effect, pc: UPc)
    requires RejoinDoes(s, e, pc)
    ensures e.PutClosed? && !e.b ==> s.sup.RReopen? && pc.RTerminal?
  {
  }

  lemma StartReopens(s: Pool, e: Effect, pc: UPc)
    requires StartDoes(s, e, pc)
    ensures e.PutClosed? ==> e.b
  {
  }

  lemma SupReopens(s: Pool, e: Effect, pc: UPc)
    requires SupDoes(s, e, pc)
    ensures e.PutClosed? && !e.b ==> s.sup.RReopen? && pc.RTerminal?
  {
    hide ScanDoes, StallDoes, RejoinDoes, StartDoes;
    if ScanDoes(s, e, pc) { ScanReopens(s, e, pc); }
    else if StallDoes(s, e, pc) { StallReopens(s, e, pc); }
    else if RejoinDoes(s, e, pc) { RejoinReopens(s, e, pc); }
    else { StartReopens(s, e, pc); }
  }

  lemma SupOpens(s: Pool, e: Effect, pc: UPc, s': Pool)
    requires SupStep(s, e, pc, s') && s.g.life != Running
    ensures StepsLeft(s'.sup) < StepsLeft(s.sup)
    ensures Opens(s, s') ==> s.sup.RReopen? && s'.sup.RTerminal?
  {
    hide SupDoes, Do, Applies, WorkersAfter, StepsLeft;
    SupWinds(s, e, pc);
    SupReopens(s, e, pc);
    DoFacts(s, e);
    if e.PutClosed? ==> e.b { NoneOpens(s, e, s'.ws); }
  }

  lemma SubOpensNone(s: Pool, t: nat, e: Effect, pc: SPc, s': Pool)
    requires t < |s.subs| && SubStep(s, t, e, pc, s')
    ensures !Opens(s, s') && s'.sup == s.sup
  {
    hide SubDoes, Do, Applies, WorkersAfter;
    SubmitterEffect(s, t, e, pc);
    DoFacts(s, e);
    NoneOpens(s, e, s'.ws);
  }

  lemma DestroyOpensNone(s: Pool, e: Effect, pc: DPc, s': Pool)
    requires DestroyStep(s, e, pc, s')
    ensures !Opens(s, s') && s'.sup == s.sup
  {
    hide DestroyDoes, Do, Applies, WorkersAfter;
    DestroyEffect(s, e, pc);
    DoFacts(s, e);
    NoneOpens(s, e, s'.ws);
  }

  lemma NextWinds(s: Pool, s': Pool)
    requires Next(s, s') && s.g.life != Running
    ensures StepsLeft(s'.sup) <= StepsLeft(s.sup) && (SupMoves(s, s') ==> StepsLeft(s'.sup) < StepsLeft(s.sup))
    ensures Opens(s, s') ==> s.sup.RReopen? && s'.sup.RTerminal?
  {
    hide WorkerStep, SubStep, CallStep, OwnerStep, SupStep, DestroyStep, StepsLeft;
    if e, pc :| SupStep(s, e, pc, s') { SupOpens(s, e, pc, s'); }
    else if i :| 0 <= i < |s.ws| && WorkerStep(s, i, s') { WorkerMoves(s, i, s'); }
    else if t, e, pc :| 0 <= t < |s.subs| && SubStep(s, t, e, pc, s') { SubOpensNone(s, t, e, pc, s'); }
    else if c :| 0 <= c < |s.calls| && CallStep(s, c, s') { CallEffect(s, c, s'); }
    else if e, pc :| OwnerStep(s, e, pc, s') { OwnerOpensNone(s, e, pc, s'); }
    else if e, pc :| DestroyStep(s, e, pc, s') { DestroyOpensNone(s, e, pc, s'); }
  }

  /** Number of the supervisor's steps from state m to state n. */
  ghost function SupSteps(tr: seq<Pool>, m: nat, n: nat): nat
    requires m <= n < |tr|
    decreases n - m
  {
    if m == n then 0 else SupSteps(tr, m, n - 1) + (if SupMoves(tr[n - 1], tr[n]) then 1 else 0)
  }

  /** Number of times a closed ring is opened from state m to state n. */
  ghost function Reopens(tr: seq<Pool>, m: nat, n: nat): nat
    requires m <= n < |tr|
    decreases n - m
  {
    if m == n then 0 else Reopens(tr, m, n - 1) + (if Opens(tr[n - 1], tr[n]) then 1 else 0)
  }

  lemma StepsBound(u: UPc)
    ensures StepsLeft(u) <= 29 && (u.RReopen? ==> StepsLeft(u) == 17) && (u.RTerminal? ==> StepsLeft(u) == 16)
  {
  }

  /**
    Once the lifecycle has left RUNNING, in whatever state the supervisor is then, it takes at most
    StepsLeft more steps, at most 29, and at most one ring is ever opened again.
   */
  lemma {:induction false} WindsDown(tr: seq<Pool>, m: nat, n: nat)
    requires Run(tr) && m <= n < |tr| && tr[m].g.life != Running
    ensures SupSteps(tr, m, n) + StepsLeft(tr[n].sup) <= StepsLeft(tr[m].sup) <= 29
    ensures Reopens(tr, m, n) <= 1
    ensures Reopens(tr, m, n) == 1 ==> StepsLeft(tr[n].sup) < StepsLeft(RReopen(0))
    decreases n - m
  {
    hide Next, Init, SupMoves, Opens, StepsLeft;
    StepsBound(tr[m].sup);
    StepsBound(tr[n].sup);
    StepsBound(RReopen(0));
    if m < n {
      WindsDown(tr, m, n - 1);
      LifeForward(tr, m, n - 1);
      assert NextAt(tr, n - 1);
      hide Run;
      StepsBound(tr[n - 1].sup);
      NextWinds(tr[n - 1], tr[n]);
    }
  }

  /** The supervisor's failed check, or its close, of ring j. */
  predicate Recloses(u: UPc, j: nat, e: Effect, pc: UPc)
  {
    || (u == RTerminal(j) && e == Nop && pc == RReclose(j))
    || (u == RReclose(j) && e == PutClosed(j, true) && pc == UScan(j + 1))
  }

  lemma OnlyReclose(s: Pool, j: nat)
    requires Reopened(s.sup, j) && s.g.life != Running
    ensures forall e, pc :: SupDoes(s, e, pc) <==> Recloses(s.sup, j, e, pc)
  {
  }

  /**
    No ring stays open for good: with the pool stopped, the supervisor's only steps from an
    open ring are the failed check and the close, both always possible.
   */
  lemma OpenRingCloses(tr: seq<Pool>, n: nat, j: nat)
    requires Run(tr) && n < |tr| && j < |tr[n].ws| && tr[n].g.life == Stopped && !tr[n].ws[j].closed
    ensures forall e, pc :: SupDoes(tr[n], e, pc) <==> Recloses(tr[n].sup, j, e, pc)
    ensures exists e, pc :: SupDoes(tr[n], e, pc) && Applies(tr[n], e)
  {
    StoppedClosed(tr, n, j);
    hide Run, Init;
    OnlyReclose(tr[n], j);
    hide ScanDoes, StallDoes, RejoinDoes, StartDoes;
    if tr[n].sup == RTerminal(j) {
      assert SupDoes(tr[n], Nop, RReclose(j));
    } else {
      assert SupDoes(tr[n], PutClosed(j, true), UScan(j + 1));
    }
  }
}
