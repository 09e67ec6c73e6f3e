/** What each kind of step can change, in one place. */
module PoolEffects {
  import opened Pool

  predicate InLoop(th: Thread) { th.LoopTop? || th.StopSeen? || th.Pop? || th.Recheck? || th.InProcess? }

  /** The parts of the state after an effect, field by field. */
  lemma DoFacts(s: Pool, e: Effect)
    requires Applies(s, e)
    ensures var s' := Do(s, e);
      && s' == s.(g := s'.g, ws := s'.ws, sup := s'.sup, calls := s'.calls)
      && s'.ws == WorkersAfter(s, e)
      && s'.sup == (if e.ReapSup? then UReaped else s.sup)
      && s'.calls == (if e.CallShutdown? then s.calls[0 := CLoad] else s.calls)
    ensures var g, g' := s.g, Do(s, e).g;
      && g'.canClose == (g.canClose && !e.MarkNoClose?)
      && g'.supJoined == (g.supJoined || e.PutSupJoined?)
      && g'.clk == ClockAfter(g.clk, s.cfg.budget, e)
      && g'.life == (if e.PutLife? then e.life else g.life)
      && g'.quarantined == (g.quarantined || e.Mark? || e.MarkNoClose?)
      && g'.supStop == (g.supStop || e.PutSupStop?)
      && g'.destroying == (g.destroying || e.BeginDestroy?)
      && g.aborts <= g'.aborts
  {
    hide WorkersAfter, ClockAfter;
  }

  /** The counters and acceptances change only by submitters' own effects. */
  lemma DoCounts(s: Pool, e: Effect)
    requires Applies(s, e)
    ensures var g, g' := s.g, Do(s, e).g;
      && (!e.Raise? && !e.Lower? ==> g'.active == g.active && g'.inActive == g.inActive)
      && (!e.Enter? && !e.Leave? ==> g'.api == g.api && g'.inApi == g.inApi && g'.accepted == g.accepted)
      && (!e.PutLife? ==> g'.stopQuar == g.stopQuar)
      && g'.waiters == g.waiters && g'.inWaiters == g.inWaiters
  {
    hide WorkersAfter, ClockAfter;
  }

  /** How a worker's own thread may change its controls. */
  ghost predicate OwnMove(w: Ctl, w': Ctl)
  {
    w'.joined == w.joined &&
    match w.thread
    case Absent => w' == w
    case Returned => w' == w
    case Born => w'.thread == LoopTop && w'.state == WRunning
    case Leaving => w'.thread == Returned && w'.state == Exited
    case _ => w'.state == w.state && (InLoop(w'.thread) || w'.thread == Leaving)
  }

  lemma WorkerMoves(s: Pool, i: nat, s': Pool)
    requires i < |s.ws| && WorkerStep(s, i, s')
    ensures |s'.ws| == |s.ws| && OwnMove(s.ws[i].ctl, s'.ws[i].ctl)
    ensures s'.ws[i] == s.ws[i].(ctl := s'.ws[i].ctl, fate := s'.ws[i].fate, processed := s'.ws[i].processed)
    ensures forall j :: 0 <= j < |s.ws| && j != i ==> s'.ws[j] == s.ws[j]
    ensures s' == s.(g := s.g.(quarantined := s'.g.quarantined, aborts := s'.g.aborts), ws := s'.ws)
    ensures s.g.quarantined ==> s'.g.quarantined
  {
    WorkerFrame(s, i, s');
    WorkerOwn(s, i, s');
    hide WorkerStep, OwnMove;
  }

  lemma WorkerFrame(s: Pool, i: nat, s': Pool)
    requires i < |s.ws| && WorkerStep(s, i, s')
    ensures |s'.ws| == |s.ws| && forall j :: 0 <= j < |s.ws| && j != i ==> s'.ws[j] == s.ws[j]
    ensures s' == s.(g := s.g.(quarantined := s'.g.quarantined, aborts := s'.g.aborts), ws := s'.ws)
    ensures s.g.quarantined ==> s'.g.quarantined
  {
    hide SetThread, HeadReady;
  }

  lemma WorkerOwn(s: Pool, i: nat, s': Pool)
    requires i < |s.ws| && WorkerStep(s, i, s')
    ensures |s'.ws| == |s.ws| && OwnMove(s.ws[i].ctl, s'.ws[i].ctl)
    ensures s'.ws[i] == s.ws[i].(ctl := s'.ws[i].ctl, fate := s'.ws[i].fate, processed := s'.ws[i].processed)
  {
  }

  lemma CallEffect(s: Pool, c: nat, s': Pool)
    requires c < |s.calls| && CallStep(s, c, s')
    ensures |s'.calls| == |s.calls| && forall d :: 0 <= d < |s.calls| && d != c ==> s'.calls[d] == s.calls[d]
    ensures
      || s' == s.(calls := s'.calls, g := s.g.(waiters := s'.g.waiters, inWaiters := s'.g.inWaiters))
      || (s.g.life == Running && s' == s.(calls := s'.calls, own := OStart, g := s.g.(life := Quiescing)))
      || (s.own.ODone? && s' == s.(calls := s'.calls, own := OOver))
  {
  }

  /** Effects of submitters, which only count themselves and write logs. */
  predicate OfSubmitter(e: Effect)
  {
    e.Nop? || e.Enter? || e.Leave? || e.Raise? || e.Lower? || e.Reserve? || e.Publish? || e.CountSubmit?
  }

  lemma SubmitterEffect(s: Pool, t: nat, e: Effect, pc: SPc)
    requires t < |s.subs| && SubDoes(s, t, e, pc)
    ensures OfSubmitter(e)
  {
  }

  predicate OfSupervisor(e: Effect)
  {
    e.Nop? || e.Mark? || e.CountAbort? || e.PutClosed? || e.PutState? || e.PutStop? || e.PutJoined? ||
    e.Reap? || e.Create? || e.PutSupStop? || e.PutPhase? || e.PutAlive?
  }

  /** Where the supervisor stands when it uses an effect that others depend on. */
  ghost predicate SupKnows(s: Pool, e: Effect)
  {
    match e
    case Reap(i) => s.sup == RJoin(i) && i < |s.ws| && s.ws[i].ctl.thread == Returned
    case Create(i) => s.sup == RCreate(i)
    case _ => true
  }

  lemma SupervisorEffect(s: Pool, e: Effect, pc: UPc)
    requires SupDoes(s, e, pc)
    ensures OfSupervisor(e) && SupKnows(s, e)
  {
    hide ScanDoes, StallDoes, RejoinDoes, StartDoes, OfSupervisor, SupKnows;
    if ScanDoes(s, e, pc) { ScanEffect(s, e, pc); }
    else if StallDoes(s, e, pc) { StallEffect(s, e, pc); }
    else if RejoinDoes(s, e, pc) { RejoinEffect(s, e, pc); }
    else { StartEffect(s, e, pc); }
  }

  lemma ScanEffect(s: Pool, e: Effect, pc: UPc)
    requires ScanDoes(s, e, pc)
    ensures OfSupervisor(e) && SupKnows(s, e)
  {
  }

  lemma StallEffect(s: Pool, e: Effect, pc: UPc)
    requires StallDoes(s, e, pc)
    ensures OfSupervisor(e) && SupKnows(s, e)
  {
  }

  lemma RejoinEffect(s: Pool, e: Effect, pc: UPc)
    requires RejoinDoes(s, e, pc)
    ensures OfSupervisor(e) && SupKnows(s, e)
  {
  }

  lemma StartEffect(s: Pool, e: Effect, pc: UPc)
    requires StartDoes(s, e, pc)
    ensures OfSupervisor(e) && SupKnows(s, e)
  {
  }

  predicate OfDestroy(e: Effect) { e.Nop? || e.Mark? || e.BeginDestroy? || e.CallShutdown? }

  lemma DestroyEffect(s: Pool, e: Effect, pc: DPc)
    requires DestroyDoes(s, e, pc)
    ensures OfDestroy(e)
  {
  }

  predicate OfOwner(e: Effect)
  {
    e.Nop? || e.Mark? || e.MarkNoClose? || e.CountAbort? || e.AtLeastOneAbort? || e.PutClosed? ||
    e.PutState? || e.PutStop? || e.PutJoined? || e.Reap? || e.Abandon? || e.PutLife? || e.StartClock? ||
    e.Sleep? || e.PutSupStop? || e.ReapSup? || e.PutSupJoined?
  }

  /** Where the owner stands when it uses an effect that others depend on. */
  ghost predicate OwnerKnows(s: Pool, e: Effect)
  {
    match e
    case Reap(i) => s.own.OJoin? && s.own.i == i && i < |s.ws| && s.ws[i].ctl.thread == Returned
    case Abandon(i) => s.own == ODrainPop(i) && i < |s.ws| && HeadReady(s.ws[i])
    case ReapSup => s.own == OSupWait && s.sup == UReturned
    case PutLife(l) => (s.own == OSetDraining && l == Draining) || (s.own == OStop && l == Stopped)
    case PutClosed(_, b) => b && (s.own.OSubsClose? || s.own.OClose? || s.own.OQuarClose? || s.own.OJoin?)
    case PutStop(i, _) => s.own.OJoin?
    case MarkNoClose => s.own == OSubsCheck || s.own == OSupFail
    case StartClock => s.own == OStart
    case Sleep(now) =>
      && s.own != ONone && s.own != OStart && now >= s.g.clk.now + s.cfg.nap
      && (!TimeUp(s.g.clk) || s.own == OSupPhase)
    case _ => true
  }

  /** What every step of the owner respects; it starts a nap on the supervisor only before the deadline. */
  ghost predicate OwnerSound(s: Pool, e: Effect, pc: OPc)
  {
    OfOwner(e) && OwnerKnows(s, e) && (pc == OSupPhase ==> s.own == OSupClock && e == Nop && !TimeUp(s.g.clk))
  }

  lemma OwnerEffect(s: Pool, e: Effect, pc: OPc)
    requires OwnerDoes(s, e, pc)
    ensures OwnerSound(s, e, pc)
  {
    hide SubmitsDoes, SupJoinDoes, TeardownDoes, PollDoes, ExitedDoes, QuarantineDoes, StopDoes, OwnerSound;
    if SubmitsDoes(s, e, pc) { SubmitsEffect(s, e, pc); }
    else if SupJoinDoes(s, e, pc) { SupJoinEffect(s, e, pc); }
    else if TeardownDoes(s, e, pc) { TeardownEffect(s, e, pc); }
    else if QuarantineDoes(s, e, pc) { QuarantineEffect(s, e, pc); }
    else if StopDoes(s, e, pc) { StopEffect(s, e, pc); }
    else if PollDoes(s, e, pc) { PollEffect(s, e, pc); }
    else { ExitedEffect(s, e, pc); }
  }

  lemma SubmitsEffect(s: Pool, e: Effect, pc: OPc)
    requires SubmitsDoes(s, e, pc)
    ensures OwnerSound(s, e, pc)
  {
  }

  lemma SupJoinEffect(s: Pool, e: Effect, pc: OPc)
    requires SupJoinDoes(s, e, pc)
    ensures OwnerSound(s, e, pc)
  {
  }

  lemma TeardownEffect(s: Pool, e: Effect, pc: OPc)
    requires TeardownDoes(s, e, pc)
    ensures OwnerSound(s, e, pc)
  {
  }

  lemma PollEffect(s: Pool, e: Effect, pc: OPc)
    requires s.own.OJoin? && s.own.i < |s.ws| && PollDoes(s, e, pc)
    ensures OwnerSound(s, e, pc)
  {
  }

  lemma ExitedEffect(s: Pool, e: Effect, pc: OPc)
    requires s.own.OJoin? && s.own.i < |s.ws| && ExitedDoes(s, e, pc)
    ensures OwnerSound(s, e, pc)
  {
  }

  lemma QuarantineEffect(s: Pool, e: Effect, pc: OPc)
    requires QuarantineDoes(s, e, pc)
    ensures OwnerSound(s, e, pc)
  {
  }

  lemma StopEffect(s: Pool, e: Effect, pc: OPc)
    requires StopDoes(s, e, pc)
    ensures OwnerSound(s, e, pc)
  {
  }

  // ---- who moves the owner ------------------------------------------------------

  lemma SubKeepsOwner(s: Pool, t: nat, e: Effect, pc: SPc, s': Pool)
    requires t < |s.subs| && SubStep(s, t, e, pc, s')
    ensures s'.own == s.own
  {
    hide SubDoes;
  }

  lemma SupKeepsOwner(s: Pool, e: Effect, pc: UPc, s': Pool)
    requires SupStep(s, e, pc, s')
    ensures s'.own == s.own
  {
    hide SupDoes;
  }

  lemma DestroyKeepsOwner(s: Pool, e: Effect, pc: DPc, s': Pool)
    requires DestroyStep(s, e, pc, s')
    ensures s'.own == s.own
  {
    hide DestroyDoes;
  }

  // ---- in the teardown of a worker the owner does nothing else ------------------

  predicate InTeardown(o: OPc) { o.OJoin? || o.ODrain? || o.ODrainPop? }

  lemma SubmitsElsewhere(s: Pool, e: Effect, pc: OPc)
    requires InTeardown(s.own)
    ensures !SubmitsDoes(s, e, pc)
  {
  }

  lemma SupJoinElsewhere(s: Pool, e: Effect, pc: OPc)
    requires InTeardown(s.own)
    ensures !SupJoinDoes(s, e, pc)
  {
  }

  lemma QuarantineElsewhere(s: Pool, e: Effect, pc: OPc)
    requires InTeardown(s.own)
    ensures !QuarantineDoes(s, e, pc)
  {
  }

  lemma StopElsewhere(s: Pool, e: Effect, pc: OPc)
    requires InTeardown(s.own)
    ensures !StopDoes(s, e, pc)
  {
  }
}
