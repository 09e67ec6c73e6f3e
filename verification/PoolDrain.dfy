/**
  Shutdown of a pool whose producers use awp_submit: once active_submits has been read as zero
  nothing is published any more. If in addition workers are never restarted, a shutdown that
  returns 0 has had every accepted message processed.
 */
module PoolDrain {
  import opened Pool
  import opened PoolEffects
  import opened PoolJoins
  import opened PoolReturns
  import opened PoolLogs
  import opened PoolFates

  /** No claim/commit producers, and no supervisor that restarts workers. */
  predicate Plain(cfg: Config) { !cfg.claims && !(cfg.supervised && cfg.restart) }

  // ---- submitters without claims ----------------------------------------------

  predicate SubmitOnly(pc: SPc)
  {
    match pc
    case SRaise(_, _) => false
    case SHeld(_, _) => false
    case SIn(k) => k.Submit?
    case SLife(k, _) => k.Submit?
    case SFlags(k, _) => k.Submit?
    case SClosed(k, _) => k.Submit?
    case SCas(k, _) => k.Submit?
    case SPublish(k, _, _) => k.Submit?
    case _ => true
  }

  /** Before the lifecycle check, or on the way out. */
  predicate Still(pc: SPc) { pc.SIdle? || pc.SIn? || pc.SLife? || pc.SUndo? || pc.SLeave? }

  ghost predicate KindOk(subs: seq<Sub>)
  {
    forall t: Tid :: t < |subs| ==> SubmitOnly(subs[t].pc)
  }

  ghost predicate AllStill(subs: seq<Sub>)
  {
    forall t: Tid :: t < |subs| ==> Still(subs[t].pc)
  }

  lemma SubKind(s: Pool, t: nat, e: Effect, pc: SPc)
    requires t < |s.subs| && !s.cfg.claims && SubmitOnly(s.subs[t].pc) && SubDoes(s, t, e, pc)
    ensures SubmitOnly(pc)
    ensures Still(s.subs[t].pc) && s.g.life != Running ==> Still(pc) && !e.Reserve? && !e.Publish?
  {
  }

  lemma NoneCounted(g: Globals, subs: seq<Sub>)
    requires CountOk(g, subs) && g.active <= 0 && KindOk(subs)
    ensures AllStill(subs)
  {
    forall t: Tid | t < |subs|
      ensures Still(subs[t].pc)
    {
      assert t !in g.inActive;
      assert SubmitOnly(subs[t].pc) && !Counted(subs[t].pc);
    }
  }

  /** With nobody between check and publish, every position is published. */
  lemma AllReady(ws: seq<Worker>, subs: seq<Sub>, w: nat, p: nat)
    requires EntriesOk(ws, subs) && AllStill(subs) && w < |ws| && p < |ws[w].log|
    ensures ws[w].log[p].ready
  {
    assert EntryOk(subs, w, p, ws[w].log[p]);
    assert Still(subs[ws[w].log[p].src].pc);
  }

  // ---- workers ----------------------------------------------------------------

  predicate Gone(th: Thread) { th.Leaving? || th.Returned? || th.Absent? }

  /** Nothing asks a worker to end before the submitters are done, and it ends with an empty ring. */
  ghost predicate WorkerOk(done: bool, w: Worker)
  {
    && (w.closed || w.stop || w.ctl.thread.StopSeen? || w.ctl.thread.Recheck? || Gone(w.ctl.thread) ==> done)
    && (Gone(w.ctl.thread) ==> |w.fate| == |w.log|)
    && NoneAbandoned(w.fate)
  }

  ghost predicate AllWorkersOk(done: bool, ws: seq<Worker>)
  {
    forall i :: 0 <= i < |ws| ==> WorkerOk(done, ws[i])
  }

  lemma WorkerDrains(s: Pool, i: nat, s': Pool, done: bool)
    requires i < |s.ws| && WorkerStep(s, i, s') && FateOk(s.ws[i]) && WorkerOk(done, s.ws[i])
    requires done ==> forall p :: 0 <= p < |s.ws[i].log| ==> s.ws[i].log[p].ready
    ensures WorkerOk(done, s'.ws[i])
  {
    WorkerFate(s, i, s');
    hide NoneAbandoned, Shape;
  }

  // ---- the owner --------------------------------------------------------------

  /** The owner is past the test of active_submits. */
  predicate SubsDone(o: OPc)
  {
    match o
    case ONone => false case OStart => false case OSubs => false case OSubsClock => false
    case OSubsCheck => false case OSubsAbort => false case OSubsClose(_) => false
    case _ => true
  }

  /** The owner gets past the test only if it read zero, or by giving up the teardown. */
  ghost predicate DoneStep(s: Pool, e: Effect, pc: OPc)
  {
    && (SubsDone(s.own) ==> SubsDone(pc))
    && (!SubsDone(s.own) && SubsDone(pc) && s.g.canClose ==> s.own == OSubsCheck && s.g.active <= 0)
  }

  lemma SubmitsDone(s: Pool, e: Effect, pc: OPc)
    requires PathFits(s) && SubmitsDoes(s, e, pc)
    ensures DoneStep(s, e, pc)
  {
    assert s.own.OSubsClose? ==> !s.g.canClose by { hide SubmitsDoes; }
    hide PathFits, Naps, TimeUp, SubsDone;
    SubmitsOrder(s, e, pc);
  }

  lemma SubmitsOrder(s: Pool, e: Effect, pc: OPc)
    requires SubmitsDoes(s, e, pc)
    ensures SubsDone(s.own) ==> SubsDone(pc)
    ensures !SubsDone(s.own) && SubsDone(pc) ==> s.own == OSubsCheck || s.own.OSubsClose?
    ensures SubsDone(pc) && s.own == OSubsCheck ==> s.g.active <= 0
  {
    hide Naps, TimeUp;
  }

  lemma SupJoinDone(s: Pool, e: Effect, pc: OPc)
    requires SupJoinDoes(s, e, pc)
    ensures DoneStep(s, e, pc)
  {
  }

  lemma TeardownDone(s: Pool, e: Effect, pc: OPc)
    requires TeardownDoes(s, e, pc)
    ensures DoneStep(s, e, pc)
  {
  }

  lemma QuarantineDone(s: Pool, e: Effect, pc: OPc)
    requires QuarantineDoes(s, e, pc)
    ensures DoneStep(s, e, pc)
  {
  }

  lemma StopDone(s: Pool, e: Effect, pc: OPc)
    requires StopDoes(s, e, pc)
    ensures DoneStep(s, e, pc)
  {
  }

  lemma PollDone(s: Pool, e: Effect, pc: OPc)
    requires s.own.OJoin? && s.own.i < |s.ws| && PollDoes(s, e, pc)
    ensures DoneStep(s, e, pc)
  {
  }

  lemma ExitedDone(s: Pool, e: Effect, pc: OPc)
    requires s.own.OJoin? && s.own.i < |s.ws| && ExitedDoes(s, e, pc)
    ensures DoneStep(s, e, pc)
  {
  }

  lemma OwnerDone(s: Pool, e: Effect, pc: OPc)
    requires PathFits(s) && OwnerDoes(s, e, pc)
    ensures DoneStep(s, e, pc)
  {
    hide PathFits, DoneStep, SubmitsDoes, SupJoinDoes, TeardownDoes, PollDoes, ExitedDoes, QuarantineDoes, StopDoes;
    if SubmitsDoes(s, e, pc) { SubmitsDone(s, e, pc); }
    else if SupJoinDoes(s, e, pc) { SupJoinDone(s, e, pc); }
    else if TeardownDoes(s, e, pc) { TeardownDone(s, e, pc); }
    else if QuarantineDoes(s, e, pc) { QuarantineDone(s, e, pc); }
    else if StopDoes(s, e, pc) { StopDone(s, e, pc); }
    else if PollDoes(s, e, pc) { PollDone(s, e, pc); }
    else { ExitedDone(s, e, pc); }
  }

  // ---- the supervisor of a plain pool -----------------------------------------

  /** Without restarts the supervisor only looks. */
  predicate Looks(u: UPc)
  {
    u.UNone? || u.UBorn? || u.UAlive? || u.ULoop? || u.UScan? || u.UState? || u.USleep? || u.UExit? ||
    u.UDead? || u.UReturned? || u.UReaped?
  }

  lemma OnlyLooks(s: Pool, e: Effect, pc: UPc)
    requires !s.cfg.restart && Looks(s.sup) && SupDoes(s, e, pc)
    ensures Looks(pc) && (e.Nop? || e.PutPhase? || e.PutAlive?)
  {
    hide ScanDoes, StallDoes, RejoinDoes, StartDoes, Looks;
    StallBusy(s, e, pc);
    RejoinBusy(s, e, pc);
    StartBusy(s, e, pc);
    ScanLooks(s, e, pc);
  }

  lemma ScanLooks(s: Pool, e: Effect, pc: UPc)
    requires !s.cfg.restart && ScanDoes(s, e, pc)
    ensures Looks(pc) && (e.Nop? || e.PutPhase? || e.PutAlive?)
  {
  }

  lemma StallBusy(s: Pool, e: Effect, pc: UPc)
    ensures StallDoes(s, e, pc) ==> !Looks(s.sup)
  {
  }

  lemma RejoinBusy(s: Pool, e: Effect, pc: UPc)
    ensures RejoinDoes(s, e, pc) ==> !Looks(s.sup)
  {
  }

  lemma StartBusy(s: Pool, e: Effect, pc: UPc)
    ensures StartDoes(s, e, pc) ==> !Looks(s.sup)
  {
  }

  // ---- the invariant ----------------------------------------------------------

  /** Past the test no submitter is between its check and its publication. */
  ghost predicate QuietOk(s: Pool)
  {
    KindOk(s.subs) && (s.g.canClose && SubsDone(s.own) ==> AllStill(s.subs))
  }

  /** In a plain pool the supervisor only looks and workers end with an empty ring. */
  ghost predicate EndsOk(s: Pool)
  {
    Looks(s.sup) && (s.g.canClose ==> AllWorkersOk(SubsDone(s.own), s.ws))
  }

  ghost predicate DrainInv(s: Pool)
  {
    && (s.g.life == Stopped && !s.g.canClose ==> s.g.stopQuar)
    && (!s.cfg.claims ==> QuietOk(s))
    && (Plain(s.cfg) ==> EndsOk(s))
  }

  lemma InitDrain(s: Pool)
    requires Init(s)
    ensures DrainInv(s)
  {
  }

  /** Everything already known about a reachable state. */
  ghost predicate Known(s: Pool)
  {
    JoinInv(s) && RetInv(s) && LogInv(s) && FateInv(s)
  }

  lemma WorkerDrain(s: Pool, i: nat, s': Pool)
    requires Known(s) && DrainInv(s) && i < |s.ws| && WorkerStep(s, i, s')
    ensures DrainInv(s')
  {
    WorkerMoves(s, i, s');
    assert FateOk(s.ws[i]);
    hide JoinInv, RetInv, FatesOk, AbandonOk, WorkerStep, OwnMove, SubsOk, OncePosted, OrdersOk, CountOk, AcceptedOk,
      KindOk, FateOk, Looks;
    if Plain(s.cfg) && s.g.canClose {
      var done := SubsDone(s.own);
      if done {
        forall p | 0 <= p < |s.ws[i].log|
          ensures s.ws[i].log[p].ready
        {
          AllReady(s.ws, s.subs, i, p);
        }
      }
      assert WorkerOk(done, s.ws[i]);
      WorkerDrains(s, i, s', done);
      hide WorkerOk, EntriesOk;
      assert AllWorkersOk(done, s'.ws);
    }
  }

  /** How an effect of a submitter changes a worker that may already have ended. */
  lemma LogsDrain(done: bool, w: Worker, w': Worker)
    requires WorkerOk(done, w) && w' == w.(log := w'.log) && (done ==> w'.log == w.log)
    ensures WorkerOk(done, w')
  {
  }

  lemma SubQuiet(s: Pool, t: nat, e: Effect, pc: SPc, s': Pool)
    requires JoinInv(s) && !s.cfg.claims && QuietOk(s) && t < |s.subs| && SubStep(s, t, e, pc, s')
    ensures QuietOk(s')
  {
    SubmitterEffect(s, t, e, pc);
    DoFacts(s, e);
    assert SubsDone(s.own) ==> s.g.life != Running;
    SubKind(s, t, e, pc);
    hide JoinInv, Do, Applies, SubsDone, SubDoes, SubmitOnly, Still;
  }

  lemma SubEnds(s: Pool, t: nat, e: Effect, pc: SPc, s': Pool)
    requires JoinInv(s) && !s.cfg.claims && QuietOk(s) && EndsOk(s) && t < |s.subs| && SubStep(s, t, e, pc, s')
    ensures EndsOk(s')
  {
    SubmitterEffect(s, t, e, pc);
    DoFacts(s, e);
    assert SubsDone(s.own) ==> s.g.life != Running;
    SubKind(s, t, e, pc);
    var done := SubsDone(s.own);
    hide JoinInv, Do, Applies, SubsDone, SubDoes, SubmitOnly, Still, Looks, WorkerOk, WorkersAfter, AllWorkersOk;
    if s.g.canClose { SubWorkers(done, s, e); }
  }

  lemma SubWorkers(done: bool, s: Pool, e: Effect)
    requires AllWorkersOk(done, s.ws) && Applies(s, e) && OfSubmitter(e)
    requires done ==> !e.Reserve? && !e.Publish?
    ensures AllWorkersOk(done, WorkersAfter(s, e))
  {
    hide WorkerOk;
    forall i | 0 <= i < |s.ws|
      ensures WorkerOk(done, WorkersAfter(s, e)[i])
    {
      assert WorkerOk(done, s.ws[i]);
      LogsDrain(done, s.ws[i], WorkersAfter(s, e)[i]);
    }
  }

  lemma SubDrain(s: Pool, t: nat, e: Effect, pc: SPc, s': Pool)
    requires JoinInv(s) && DrainInv(s) && t < |s.subs| && SubStep(s, t, e, pc, s')
    ensures DrainInv(s')
  {
    hide JoinInv, SubDoes, QuietOk, EndsOk, Do;
    if !s.cfg.claims { SubQuiet(s, t, e, pc, s'); }
    if Plain(s.cfg) { SubEnds(s, t, e, pc, s'); }
    SubmitterEffect(s, t, e, pc);
    DoFacts(s, e);
    DoCounts(s, e);
  }

  /** How an effect of the owner changes a worker. */
  lemma EffectDrains(w: Worker, e: Effect, done: bool)
    requires WorkerOk(done, w) && OfOwner(e)
    requires (e.PutClosed? || e.PutStop?) ==> done
    requires e.Reap? ==> w.ctl.thread == Returned
    requires !e.Abandon?
    ensures WorkerOk(done, WorkerAfter(w, e))
  {
    hide NoneAbandoned;
  }

  /** In a plain pool the residual drain finds nothing. */
  lemma NothingLeft(s: Pool, e: Effect)
    requires JoinInv(s) && AllWorkersOk(true, s.ws) && OwnerKnows(s, e)
    ensures !e.Abandon?
  {
    hide WorkersOk, SupOk, PathFits, NoneAbandoned;
  }

  lemma OwnerQuiet(s: Pool, e: Effect, pc: OPc)
    requires CountOk(s.g, s.subs) && QuietOk(s) && DoneStep(s, e, pc)
    ensures KindOk(s.subs) && (s.g.canClose && SubsDone(pc) ==> AllStill(s.subs))
  {
    hide CountOk, KindOk, AllStill;
    if s.g.canClose && SubsDone(pc) && !SubsDone(s.own) { NoneCounted(s.g, s.subs); }
  }

  lemma OwnerEnds(s: Pool, e: Effect, pc: OPc, ws': seq<Worker>)
    requires JoinInv(s) && EndsOk(s) && s.g.canClose && OfOwner(e) && OwnerKnows(s, e)
    requires DoneStep(s, e, pc) && Applies(s, e) && ws' == WorkersAfter(s, e)
    ensures AllWorkersOk(SubsDone(pc), ws')
  {
    assert PathFits(s);
    var done := SubsDone(pc);
    assert s.g.canClose ==> !s.own.OSubsClose? && !s.own.OQuarClose?;
    if SubsDone(s.own) { NothingLeft(s, e); }
    hide JoinInv, PathFits, Looks, NoneAbandoned;
    forall i | 0 <= i < |s.ws|
      ensures WorkerOk(done, ws'[i])
    {
      assert WorkerOk(SubsDone(s.own), s.ws[i]);
      assert WorkerOk(done, s.ws[i]);
      if Target(e) == i { EffectDrains(s.ws[i], e, done); }
    }
  }

  lemma OwnerDrain(s: Pool, e: Effect, pc: OPc, s': Pool)
    requires Known(s) && DrainInv(s) && OwnerStep(s, e, pc, s')
    ensures DrainInv(s')
  {
    assert PathFits(s) && FlagsOk(s.g, s.own) && CountOk(s.g, s.subs) && JoinInv(s);
    hide Known, JoinInv, CountOk, OwnerDoes, Do, PathFits, Applies, OfOwner, KindOk, AllStill, AllWorkersOk, DoneStep,
      SubsDone, Looks, WorkersAfter, ClockAfter;
    OwnerEffect(s, e, pc);
    OwnerDone(s, e, pc);
    DoFacts(s, e);
    DoCounts(s, e);
    OwnerRecords(s, e);
    assert Looks(s.sup) ==> Looks(s'.sup) by { if e.ReapSup? { ReapedLooks(); } }
    hide FlagsOk, OwnerKnows;
    if !s.cfg.claims { OwnerQuiet(s, e, pc); }
    if Plain(s.cfg) && s'.g.canClose { OwnerEnds(s, e, pc, s'.ws); }
  }

  /** STOPPED is published with the record of a teardown that was given up. */
  lemma OwnerRecords(s: Pool, e: Effect)
    requires OwnerKnows(s, e) && FlagsOk(s.g, s.own) && Applies(s, e)
    requires s.g.life == Stopped && !s.g.canClose ==> s.g.stopQuar
    ensures var g := Do(s, e).g; g.life == Stopped && !g.canClose ==> g.stopQuar
  {
    hide Applies, WorkersAfter, ClockAfter;
    if e.PutLife? { PublishRecords(s, e); }
  }

  lemma ReapedLooks()
    ensures Looks(UReaped)
  {
  }

  lemma SupDrain(s: Pool, e: Effect, pc: UPc, s': Pool)
    requires JoinInv(s) && DrainInv(s) && SupStep(s, e, pc, s')
    ensures DrainInv(s')
  {
    SupervisorEffect(s, e, pc);
    SupLives(s, e, pc);
    assert s.cfg.supervised by { hide SupDoes, WorkersOk, FocusOk, PathFits; }
    hide JoinInv, Do, SupDoes, SupKnows, KindOk, AllStill, AllWorkersOk, SubsDone, Looks, Applies;
    DoFacts(s, e);
    DoCounts(s, e);
    if Plain(s.cfg) {
      OnlyLooks(s, e, pc);
      assert s'.ws == s.ws;
    }
  }

  lemma DestroyDrain(s: Pool, e: Effect, pc: DPc, s': Pool)
    requires DrainInv(s) && DestroyStep(s, e, pc, s')
    ensures DrainInv(s')
  {
    DestroyEffect(s, e, pc);
    DoFacts(s, e);
    DoCounts(s, e);
    hide Do, DestroyDoes, KindOk, AllStill, AllWorkersOk, SubsDone, Looks;
  }

  lemma NextDrain(s: Pool, s': Pool)
    requires Known(s) && DrainInv(s) && Next(s, s')
    ensures DrainInv(s')
  {
    assert JoinInv(s);
    hide Known, JoinInv, KindOk, Looks, AllStill, AllWorkersOk, WorkerStep, SubStep, CallStep, OwnerStep, SupStep,
      DestroyStep;
    if i :| 0 <= i < |s.ws| && WorkerStep(s, i, s') { WorkerDrain(s, i, s'); }
    else if t, e, pc :| 0 <= t < |s.subs| && SubStep(s, t, e, pc, s') { SubDrain(s, t, e, pc, s'); }
    else if c :| 0 <= c < |s.calls| && CallStep(s, c, s') { CallDrain(s, c, s'); }
    else if e, pc :| OwnerStep(s, e, pc, s') { OwnerDrain(s, e, pc, s'); }
    else if e, pc :| SupStep(s, e, pc, s') { SupDrain(s, e, pc, s'); }
    else if e, pc :| DestroyStep(s, e, pc, s') { DestroyDrain(s, e, pc, s'); }
  }

  lemma CallDrain(s: Pool, c: nat, s': Pool)
    requires Known(s) && DrainInv(s) && c < |s.calls| && CallStep(s, c, s')
    ensures DrainInv(s')
  {
    CallEffect(s, c, s');
    assert s.g.life == Running <==> s.own == ONone;
    hide Known, CallStep, KindOk, AllStill, AllWorkersOk, Looks;
  }

  lemma {:induction false} RunDrain(tr: seq<Pool>, n: nat)
    requires Run(tr) && n < |tr|
    ensures Known(tr[n]) && DrainInv(tr[n])
  {
    hide JoinInv, RetInv, LogInv, FateInv, DrainInv, Next, Init;
    RunReturns(tr, n);
    RunLogs(tr, n);
    RunFates(tr, n);
    if n == 0 {
      InitDrain(tr[0]);
    } else {
      RunDrain(tr, n - 1);
      assert NextAt(tr, n - 1);
      hide Known;
      NextDrain(tr[n - 1], tr[n]);
    }
  }

  // ---- theorems ---------------------------------------------------------------

  /** Nothing in the pool's logs is left over: every position published, dequeued and processed. */
  ghost predicate AllProcessed(w: Worker)
  {
    |w.fate| == |w.log| && forall p :: 0 <= p < |w.fate| ==> w.log[p].ready && w.fate[p] == Processed
  }

  lemma DrainedWorker(w: Worker)
    requires FateOk(w) && WorkerOk(true, w) && w.ctl.thread == Absent
    ensures AllProcessed(w)
  {
    forall p | 0 <= p < |w.fate|
      ensures w.log[p].ready && w.fate[p] == Processed
    {
      assert p < |w.fate| - 1 ==> w.fate[p] != InHand;
    }
  }

  /** In a plain pool a return of 0 means that every ring has been processed to the end. */
  lemma EverythingProcessed(tr: seq<Pool>, n: nat, c: nat)
    requires Run(tr) && n < |tr| && Plain(tr[n].cfg) && c < |tr[n].calls| && tr[n].calls[c] == CIdle(Ret(0))
    ensures forall w: Wid :: w < |tr[n].ws| ==> AllProcessed(tr[n].ws[w])
  {
    RunDrain(tr, n);
    var s := tr[n];
    assert CallOk(s, s.calls[c]);
    hide Run, JoinInv, CallsOk, FlagsOk, ProgressOk, LogInv, QuietOk, Looks;
    assert SubsDone(s.own) by { StoppedDone(s); }
    forall w: Wid | w < |s.ws|
      ensures AllProcessed(s.ws[w])
    {
      assert FateOk(s.ws[w]) && WorkerOk(true, s.ws[w]) && Settled(s.ws[w].ctl);
      DrainedWorker(s.ws[w]);
    }
  }

  /**
    Without claims and without a restarting supervisor, once a shutdown call has returned 0 every
    call that awp_submit accepted has been processed, exactly once: it has one position among all
    rings, that position was processed, and none was abandoned.
   */
  lemma AcceptedIsProcessed(tr: seq<Pool>, n: nat, c: nat, a: (Wid, nat))
    requires Run(tr) && n < |tr| && Plain(tr[n].cfg)
    requires c < |tr[n].calls| && tr[n].calls[c] == CIdle(Ret(0)) && a in tr[n].g.accepted
    ensures a.0 < |tr[n].ws| && a.1 < |tr[n].ws[a.0].log| && a.1 < |tr[n].ws[a.0].fate|
    ensures tr[n].ws[a.0].fate[a.1] == Processed
    ensures forall w: Wid :: w < |tr[n].ws| ==> AllProcessed(tr[n].ws[w])
    ensures forall w: Wid, p: nat :: w < |tr[n].ws| && p < |tr[n].ws[w].log| && (w, p) != a ==>
      !SameCall(tr[n].ws[w].log[p], tr[n].ws[a.0].log[a.1])
  {
    EverythingProcessed(tr, n, c);
    RunLogs(tr, n);
    hide Run, SubsOk, EntriesOk, CountOk, OrdersOk;
  }

  lemma StoppedDone(s: Pool)
    requires RetInv(s) && s.g.life == Stopped
    ensures SubsDone(s.own)
  {
    hide CallsOk, ProgressOk;
  }

  // ---- after active_submits was read as zero ----------------------------------

  ghost predicate Quiesced(s: Pool)
  {
    s.g.life != Running && KindOk(s.subs) && AllStill(s.subs)
  }

  lemma NextQuiesced(s: Pool, s': Pool)
    requires JoinInv(s) && RetInv(s) && !s.cfg.claims && Quiesced(s) && Next(s, s')
    ensures Quiesced(s') && s'.cfg == s.cfg && SameLogs(s.ws, s'.ws)
  {
    NextLife(s, s');
    hide JoinInv, RetInv, WorkerStep, SubStep, CallStep, OwnerStep, SupStep, DestroyStep, KindOk, AllStill;
    if i :| 0 <= i < |s.ws| && WorkerStep(s, i, s') { WorkerMoves(s, i, s'); }
    else if t, e, pc :| 0 <= t < |s.subs| && SubStep(s, t, e, pc, s') { SubQuiesced(s, t, e, pc, s'); }
    else if c :| 0 <= c < |s.calls| && CallStep(s, c, s') { CallEffect(s, c, s'); }
    else if e, pc :| OwnerStep(s, e, pc, s') { OwnerQuiesced(s, e, pc, s'); }
    else if e, pc :| SupStep(s, e, pc, s') { SupQuiesced(s, e, pc, s'); }
    else if e, pc :| DestroyStep(s, e, pc, s') { DestroyQuiesced(s, e, pc, s'); }
  }

  lemma SubQuiesced(s: Pool, t: nat, e: Effect, pc: SPc, s': Pool)
    requires !s.cfg.claims && Quiesced(s) && t < |s.subs| && SubStep(s, t, e, pc, s')
    ensures KindOk(s'.subs) && AllStill(s'.subs) && s'.cfg == s.cfg && SameLogs(s.ws, s'.ws)
  {
    SubKind(s, t, e, pc);
    DoFacts(s, e);
    EffectLogs(s, e);
    hide SubDoes, Do, SameLogs, SubmitOnly, Still;
  }

  lemma OwnerQuiesced(s: Pool, e: Effect, pc: OPc, s': Pool)
    requires OwnerStep(s, e, pc, s')
    ensures s'.subs == s.subs && s'.cfg == s.cfg && SameLogs(s.ws, s'.ws)
  {
    OwnerEffect(s, e, pc);
    DoFacts(s, e);
    NotOfSubmitter(e);
    EffectLogs(s, e);
    hide OwnerDoes, Do, SameLogs, OwnerKnows, OfOwner;
  }

  lemma SupQuiesced(s: Pool, e: Effect, pc: UPc, s': Pool)
    requires SupStep(s, e, pc, s')
    ensures s'.subs == s.subs && s'.cfg == s.cfg && SameLogs(s.ws, s'.ws)
  {
    SupervisorEffect(s, e, pc);
    DoFacts(s, e);
    NotOfSubmitter(e);
    EffectLogs(s, e);
    hide SupDoes, Do, SameLogs, SupKnows, OfSupervisor;
  }

  lemma DestroyQuiesced(s: Pool, e: Effect, pc: DPc, s': Pool)
    requires DestroyStep(s, e, pc, s')
    ensures s'.subs == s.subs && s'.cfg == s.cfg && SameLogs(s.ws, s'.ws)
  {
    DestroyEffect(s, e, pc);
    DoFacts(s, e);
    NotOfSubmitter(e);
    EffectLogs(s, e);
    hide DestroyDoes, Do, SameLogs, OfDestroy;
  }

  /**
    Once shutdown has read active_submits as zero in QUIESCING, no submit ever publishes or
    even reserves a position again, however the run goes on, restarts included.
   */
  lemma {:induction false} NoLateSubmit(tr: seq<Pool>, m: nat, n: nat)
    requires Run(tr) && m < n < |tr| && !tr[m].cfg.claims
    requires tr[m].own == OSubsCheck && tr[m + 1].own == OSupStop
    ensures Quiesced(tr[n]) && tr[n].cfg == tr[m].cfg && SameLogs(tr[m].ws, tr[n].ws)
    decreases n - m
  {
    hide Init, DrainInv, LogInv, FateInv, JoinInv, RetInv, Next, Quiesced;
    assert NextAt(tr, n - 1);
    RunDrain(tr, n - 1);
    if n == m + 1 {
      CheckedZero(tr[m], tr[n]);
    } else {
      NoLateSubmit(tr, m, n - 1);
      NextQuiesced(tr[n - 1], tr[n]);
    }
  }

  lemma CheckedZero(s: Pool, s': Pool)
    requires Known(s) && DrainInv(s) && !s.cfg.claims && Next(s, s') && s.own == OSubsCheck && s'.own == OSupStop
    ensures Quiesced(s') && s'.cfg == s.cfg && SameLogs(s.ws, s'.ws)
  {
    assert JoinInv(s) && RetInv(s) && CountOk(s.g, s.subs) && KindOk(s.subs) && s.g.life != Running by { hide Next; }
    hide Known, DrainInv, JoinInv, RetInv, CountOk, KindOk, AllStill, SameLogs;
    ZeroRead(s, s');
    NoneCounted(s.g, s.subs);
    NextQuiesced(s, s');
  }

  /** Only the owner's own test leads past it. */
  lemma ZeroRead(s: Pool, s': Pool)
    requires Next(s, s') && s.own == OSubsCheck && s'.own == OSupStop
    ensures s.g.active <= 0
  {
    hide WorkerStep, SubStep, CallStep, OwnerStep, SupStep, DestroyStep;
    if i :| 0 <= i < |s.ws| && WorkerStep(s, i, s') { WorkerMoves(s, i, s'); }
    else if t, e, pc :| 0 <= t < |s.subs| && SubStep(s, t, e, pc, s') { SubKeepsOwner(s, t, e, pc, s'); }
    else if c :| 0 <= c < |s.calls| && CallStep(s, c, s') { CallEffect(s, c, s'); }
    else if e, pc :| OwnerStep(s, e, pc, s') { OwnerZero(s, e, pc, s'); }
    else if e, pc :| SupStep(s, e, pc, s') { SupKeepsOwner(s, e, pc, s'); }
    else if e, pc :| DestroyStep(s, e, pc, s') { DestroyKeepsOwner(s, e, pc, s'); }
  }

  lemma OwnerZero(s: Pool, e: Effect, pc: OPc, s': Pool)
    requires OwnerStep(s, e, pc, s') && s.own == OSubsCheck && s'.own == OSupStop
    ensures s.g.active <= 0
  {
    hide Do, Applies, Naps, TimeUp;
  }
}
