/**
  What a shutdown call may return: only after STOPPED, never 0 when the pool was
  quarantined then, and 0 only if every worker and the supervisor have been joined.
 */
module PoolReturns {
  import opened Pool
  import opened PoolEffects
  import opened PoolJoins

  /** The lifecycle the owner has published at each point. */
  function LifeAt(o: OPc): Life
  {
    match o
    case ONone => Running
    case OStart => Quiescing case OSubs => Quiescing case OSubsClock => Quiescing case OSubsCheck => Quiescing
    case OSubsAbort => Quiescing case OSubsClose(_) => Quiescing case OSupStop => Quiescing
    case OSetDraining => Quiescing
    case OAborts => Stopped case OQuar(_) => Stopped case ODone(_) => Stopped case OOver => Stopped
    case _ => Draining
  }

  predicate Settled(w: Ctl) { w.joined && w.thread.Absent? }

  ghost predicate AllSettled(ws: seq<Worker>)
  {
    forall i :: 0 <= i < |ws| ==> Settled(ws[i].ctl)
  }

  /** How many workers the owner is finished with. */
  function JoinedUpTo(o: OPc, n: nat): nat
  {
    match o
    case OJoin(i, j) => if j.JAbort? then i + 1 else i
    case ODrainTest(i) => i + 1
    case ODrain(i) => i + 1
    case ODrainPop(i) => i + 1
    case _ => if StageOf(o) == Finishing then n else 0
  }

  /** Unless the pool is quarantined, every worker the owner is finished with has been joined. */
  ghost predicate ProgressOk(quarantined: bool, ws: seq<Worker>, o: OPc)
  {
    quarantined ||
    (&& (forall i :: 0 <= i < |ws| && i < JoinedUpTo(o, |ws|) ==> Settled(ws[i].ctl))
     && (o.OJoin? && o.j.XSetState? ==> o.i < |ws| && ws[o.i].ctl.joined)
     && !(o.OJoin? && o.j.XTimeoutState?))
  }

  /** All workers and any supervisor are joined. */
  ghost predicate Resolved(s: Pool)
  {
    AllSettled(s.ws) && SupOut(s.cfg, s.g.supJoined, s.sup)
  }

  ghost predicate AnswerOk(s: Pool, r: nat)
  {
    s.g.life == Stopped && (r == 0 ==> Resolved(s)) && (s.g.stopQuar ==> r > 0)
  }

  ghost predicate CallOk(s: Pool, pc: CPc)
  {
    match pc
    case CIdle(Ret(r)) => AnswerOk(s, r)
    case CAborts(_) => s.g.life == Stopped
    case CQuar(_, _) => s.g.life == Stopped
    case CLeave(r) => AnswerOk(s, r)
    case COwner => s.own != ONone && s.own != OOver
    case _ => true
  }

  ghost predicate CallsOk(s: Pool)
  {
    && (forall c :: 0 <= c < |s.calls| ==> CallOk(s, s.calls[c]))
    && (forall c, d :: 0 <= c < |s.calls| && 0 <= d < |s.calls| && s.calls[c].COwner? && s.calls[d].COwner? ==> c == d)
    && (s.own.ODone? ==> AnswerOk(s, s.own.r))
  }

  ghost predicate FlagsOk(g: Globals, o: OPc)
  {
    g.life == LifeAt(o) && (!g.canClose ==> g.quarantined) && (g.stopQuar ==> g.quarantined)
  }

  ghost predicate RetInv(s: Pool)
  {
    FlagsOk(s.g, s.own) && ProgressOk(s.g.quarantined, s.ws, s.own) && CallsOk(s)
  }

  lemma InitReturns(s: Pool)
    requires Init(s)
    ensures RetInv(s)
  {
  }

  /** A stopped pool that is not quarantined is resolved. */
  lemma StopResolved(s: Pool)
    requires JoinInv(s) && FlagsOk(s.g, s.own) && ProgressOk(s.g.quarantined, s.ws, s.own)
    requires s.g.life == Stopped && !s.g.quarantined
    ensures Resolved(s)
  {
    assert StageOf(s.own) == Finishing;
    hide FocusOk, WorkersOk, SupOk, Settled;
  }

  // ---- answers stay true ------------------------------------------------------

  /** Nothing an answer speaks of is undone. */
  ghost predicate Keeps(s: Pool, s': Pool)
  {
    && (s.g.life == Stopped ==> s'.g.life == Stopped && s'.g.stopQuar == s.g.stopQuar)
    && (s.g.life == Stopped && Resolved(s) ==> Resolved(s'))
  }

  lemma CallsKeep(s: Pool, s': Pool)
    requires CallsOk(s) && Keeps(s, s') && s'.calls == s.calls
    requires s'.own == s.own || (s.own != ONone && s'.own != ONone && s'.own != OOver)
    requires s'.own.ODone? && s'.own != s.own ==> AnswerOk(s', s'.own.r)
    ensures CallsOk(s')
  {
    hide Resolved;
    forall c | 0 <= c < |s.calls|
      ensures CallOk(s', s'.calls[c])
    {
      assert CallOk(s, s.calls[c]);
    }
  }

  // ---- the owner --------------------------------------------------------------

  ghost predicate FlagsAfter(s: Pool, e: Effect, pc: OPc)
  {
    && (if e.PutLife? then e.life else s.g.life) == LifeAt(pc)
    && (e.PutLife? ==> Rank(s.g.life) < Rank(e.life))
    && (e.PutLife? && e.life == Stopped ==> s.own == OStop)
    && (!(s.g.canClose && !e.MarkNoClose?) ==> s.g.quarantined || e.Mark? || e.MarkNoClose?)
  }

  predicate MarksPool(e: Effect) { e.Mark? || e.MarkNoClose? }

  lemma OwnerRetOk(s: Pool, e: Effect, pc: OPc)
    requires JoinInv(s) && RetInv(s) && OfOwner(e) && Applies(s, e) && FlagsAfter(s, e, pc)
    requires ProgressOk(s.g.quarantined || MarksPool(e), WorkersAfter(s, e), pc)
    requires s.own != ONone && pc != ONone && pc != OOver
    requires s.g.life == Stopped ==> e == Nop
    requires pc.ODone? ==> s.g.life == Stopped && e == Nop && exists r :: pc.r == Final(r, s.g.quarantined)
    ensures RetInv(Do(s, e).(own := pc))
  {
    var s' := Do(s, e).(own := pc);
    DoFacts(s, e);
    DoCounts(s, e);
    assert s'.g.stopQuar ==> s'.g.quarantined;
    if s.g.life == Stopped && !s.g.quarantined { StopResolved(s); }
    hide JoinInv, ProgressOk, LifeAt, Do, Resolved, Applies, WorkersAfter, OfOwner;
    assert s.g.life == Stopped ==> s' == s.(own := pc);
    CallsKeep(s, s') by {
      assert s.g.life == Stopped ==> Resolved(s.(own := pc)) == Resolved(s) by { ResolvedFrame(s, s.(own := pc)); }
    }
  }

  lemma ResolvedFrame(s: Pool, s': Pool)
    requires s'.ws == s.ws && s'.cfg == s.cfg && s'.g.supJoined == s.g.supJoined && s'.sup == s.sup
    ensures Resolved(s') == Resolved(s)
  {
  }

  lemma SubmitsFlags(s: Pool, e: Effect, pc: OPc)
    requires FlagsOk(s.g, s.own) && PathFits(s) && SubmitsDoes(s, e, pc)
    ensures FlagsAfter(s, e, pc)
    ensures s.own != ONone && s.own != OOver && pc != ONone && pc != OOver
    ensures s.g.life == Stopped ==> e == Nop
    ensures pc.ODone? ==> s.g.life == Stopped && e == Nop && exists r :: pc.r == Final(r, s.g.quarantined)
  {
  }

  lemma SameSize(s: Pool, e: Effect)
    requires Applies(s, e)
    ensures |WorkersAfter(s, e)| == |s.ws|
  {
  }

  lemma SubmitsFar(s: Pool, e: Effect, pc: OPc)
    requires SubmitsDoes(s, e, pc)
    ensures MarksPool(e) || (JoinedUpTo(pc, |s.ws|) == 0 && !pc.OJoin?)
  {
  }

  lemma SubmitsProgress(s: Pool, e: Effect, pc: OPc)
    requires SubmitsDoes(s, e, pc) && Applies(s, e)
    ensures ProgressOk(s.g.quarantined || MarksPool(e), WorkersAfter(s, e), pc)
  {
    hide SubmitsDoes, JoinedUpTo, WorkersAfter;
    SubmitsFar(s, e, pc);
    SameSize(s, e);
  }

  lemma SubmitsRet(s: Pool, e: Effect, pc: OPc)
    requires JoinInv(s) && RetInv(s) && SubmitsDoes(s, e, pc) && Applies(s, e)
    ensures RetInv(Do(s, e).(own := pc))
  {
    hide WorkersOk, SupOk, FocusOk, PathFits, FlagsOk, ProgressOk, CallsOk, Do, Applies, SubmitsDoes, FlagsAfter;
    SubmitsEffect(s, e, pc);
    SubmitsFlags(s, e, pc);
    SubmitsProgress(s, e, pc);
    OwnerRetOk(s, e, pc);
  }

  lemma SupJoinFlags(s: Pool, e: Effect, pc: OPc)
    requires FlagsOk(s.g, s.own) && PathFits(s) && SupJoinDoes(s, e, pc)
    ensures FlagsAfter(s, e, pc)
    ensures s.own != ONone && s.own != OOver && pc != ONone && pc != OOver
    ensures s.g.life == Stopped ==> e == Nop
    ensures pc.ODone? ==> s.g.life == Stopped && e == Nop && exists r :: pc.r == Final(r, s.g.quarantined)
  {
  }

  lemma SupJoinFar(s: Pool, e: Effect, pc: OPc)
    requires SupJoinDoes(s, e, pc)
    ensures MarksPool(e) || (JoinedUpTo(pc, |s.ws|) == 0 && !pc.OJoin?)
  {
  }

  lemma SupJoinProgress(s: Pool, e: Effect, pc: OPc)
    requires SupJoinDoes(s, e, pc) && Applies(s, e)
    ensures ProgressOk(s.g.quarantined || MarksPool(e), WorkersAfter(s, e), pc)
  {
    hide SupJoinDoes, JoinedUpTo, WorkersAfter;
    SupJoinFar(s, e, pc);
    SameSize(s, e);
  }

  lemma SupJoinRet(s: Pool, e: Effect, pc: OPc)
    requires JoinInv(s) && RetInv(s) && SupJoinDoes(s, e, pc) && Applies(s, e)
    ensures RetInv(Do(s, e).(own := pc))
  {
    hide WorkersOk, SupOk, FocusOk, PathFits, FlagsOk, ProgressOk, CallsOk, Do, Applies, SupJoinDoes, FlagsAfter;
    SupJoinEffect(s, e, pc);
    SupJoinFlags(s, e, pc);
    SupJoinProgress(s, e, pc);
    OwnerRetOk(s, e, pc);
  }

  lemma TeardownFlags(s: Pool, e: Effect, pc: OPc)
    requires FlagsOk(s.g, s.own) && PathFits(s) && TeardownDoes(s, e, pc)
    ensures FlagsAfter(s, e, pc)
    ensures s.own != ONone && s.own != OOver && pc != ONone && pc != OOver
    ensures s.g.life == Stopped ==> e == Nop
    ensures pc.ODone? ==> s.g.life == Stopped && e == Nop && exists r :: pc.r == Final(r, s.g.quarantined)
  {
  }

  lemma TeardownFar(s: Pool, e: Effect, pc: OPc)
    requires TeardownDoes(s, e, pc)
    ensures e.Nop? || e.PutClosed? || e.Abandon?
    ensures JoinedUpTo(pc, |s.ws|) <= JoinedUpTo(s.own, |s.ws|) && (pc.OJoin? ==> pc.j.JJoined?)
  {
  }

  lemma SameControls(s: Pool, e: Effect)
    requires Applies(s, e) && (e.Nop? || e.PutClosed? || e.Abandon?)
    ensures |WorkersAfter(s, e)| == |s.ws|
    ensures forall k :: 0 <= k < |s.ws| ==> WorkersAfter(s, e)[k].ctl == s.ws[k].ctl
  {
  }

  lemma TeardownProgress(s: Pool, e: Effect, pc: OPc)
    requires ProgressOk(s.g.quarantined, s.ws, s.own) && TeardownDoes(s, e, pc) && Applies(s, e)
    ensures ProgressOk(s.g.quarantined || MarksPool(e), WorkersAfter(s, e), pc)
  {
    hide TeardownDoes, JoinedUpTo, WorkersAfter, Applies, Settled, MarksPool;
    TeardownFar(s, e, pc);
    SameControls(s, e);
  }

  lemma TeardownRet(s: Pool, e: Effect, pc: OPc)
    requires JoinInv(s) && RetInv(s) && TeardownDoes(s, e, pc) && Applies(s, e)
    ensures RetInv(Do(s, e).(own := pc))
  {
    hide WorkersOk, SupOk, FocusOk, PathFits, FlagsOk, ProgressOk, CallsOk, Do, Applies, TeardownDoes, FlagsAfter;
    TeardownEffect(s, e, pc);
    TeardownFlags(s, e, pc);
    TeardownProgress(s, e, pc);
    OwnerRetOk(s, e, pc);
  }

  lemma QuarantineFlags(s: Pool, e: Effect, pc: OPc)
    requires FlagsOk(s.g, s.own) && PathFits(s) && QuarantineDoes(s, e, pc)
    ensures FlagsAfter(s, e, pc)
    ensures s.own != ONone && s.own != OOver && pc != ONone && pc != OOver
    ensures s.g.life == Stopped ==> e == Nop
    ensures pc.ODone? ==> s.g.life == Stopped && e == Nop && exists r :: pc.r == Final(r, s.g.quarantined)
  {
  }

  lemma QuarantineFar(s: Pool, e: Effect, pc: OPc)
    requires QuarantineDoes(s, e, pc)
    ensures MarksPool(e) || (JoinedUpTo(pc, |s.ws|) == 0 && !pc.OJoin?)
  {
  }

  lemma QuarantineProgress(s: Pool, e: Effect, pc: OPc)
    requires QuarantineDoes(s, e, pc) && Applies(s, e)
    ensures ProgressOk(s.g.quarantined || MarksPool(e), WorkersAfter(s, e), pc)
  {
    hide QuarantineDoes, JoinedUpTo, WorkersAfter;
    QuarantineFar(s, e, pc);
    SameSize(s, e);
  }

  lemma QuarantineRet(s: Pool, e: Effect, pc: OPc)
    requires JoinInv(s) && RetInv(s) && QuarantineDoes(s, e, pc) && Applies(s, e)
    ensures RetInv(Do(s, e).(own := pc))
  {
    hide WorkersOk, SupOk, FocusOk, PathFits, FlagsOk, ProgressOk, CallsOk, Do, Applies, QuarantineDoes, FlagsAfter;
    QuarantineEffect(s, e, pc);
    QuarantineFlags(s, e, pc);
    QuarantineProgress(s, e, pc);
    OwnerRetOk(s, e, pc);
  }

  lemma StopFlags(s: Pool, e: Effect, pc: OPc)
    requires FlagsOk(s.g, s.own) && PathFits(s) && StopDoes(s, e, pc)
    ensures FlagsAfter(s, e, pc)
    ensures s.own != ONone && s.own != OOver && pc != ONone && pc != OOver
    ensures s.g.life == Stopped ==> e == Nop
    ensures pc.ODone? ==> s.g.life == Stopped && e == Nop && exists r :: pc.r == Final(r, s.g.quarantined)
  {
  }

  lemma StopProgress(s: Pool, e: Effect, pc: OPc)
    requires WorkersOk(s.g.canClose, s.g.clk, s.ws) && FocusOk(s.g.clk, s.ws, s.own)
    requires ProgressOk(s.g.quarantined, s.ws, s.own) && StopDoes(s, e, pc) && Applies(s, e)
    ensures ProgressOk(s.g.quarantined || MarksPool(e), WorkersAfter(s, e), pc)
  {
  }

  lemma StopRet(s: Pool, e: Effect, pc: OPc)
    requires JoinInv(s) && RetInv(s) && StopDoes(s, e, pc) && Applies(s, e)
    ensures RetInv(Do(s, e).(own := pc))
  {
    hide WorkersOk, SupOk, FocusOk, PathFits, FlagsOk, ProgressOk, CallsOk, Do, Applies, StopDoes, FlagsAfter;
    StopEffect(s, e, pc);
    StopFlags(s, e, pc);
    StopProgress(s, e, pc);
    OwnerRetOk(s, e, pc);
  }

  lemma StageLife(o: OPc)
    requires StageOf(o) == TearingDown
    ensures LifeAt(o) == Draining && o != ONone && o != OOver && !o.ODone?
  {
  }

  lemma PollFlags(s: Pool, e: Effect, pc: OPc)
    requires s.own.OJoin? && s.own.i < |s.ws|
    requires FlagsOk(s.g, s.own) && PathFits(s) && PollDoes(s, e, pc)
    ensures FlagsAfter(s, e, pc)
    ensures s.own != ONone && s.own != OOver && pc != ONone && pc != OOver
    ensures s.g.life == Stopped ==> e == Nop
    ensures pc.ODone? ==> s.g.life == Stopped && e == Nop && exists r :: pc.r == Final(r, s.g.quarantined)
  {
    PollStages(s, e, pc);
    hide PollDoes;
    StageLife(s.own);
    StageLife(pc);
    hide StageOf, LifeAt;
  }

  /** The part of ProgressOk about the worker i that the owner is busy with. */
  ghost predicate Advanced(quarantined: bool, w: Ctl, i: nat, o: OPc, n: nat)
  {
    quarantined ||
    (&& (JoinedUpTo(o, n) <= i || (JoinedUpTo(o, n) == i + 1 && Settled(w)))
     && (o.OJoin? && o.j.XSetState? ==> o.i == i && w.joined)
     && !(o.OJoin? && o.j.XTimeoutState?))
  }

  lemma OnlyTarget(s: Pool, e: Effect, i: nat)
    requires i < |s.ws| && Applies(s, e) && (Target(e) == -1 || Target(e) == i) && !e.Reserve? && !e.Publish?
    ensures var ws' := WorkersAfter(s, e);
      && |ws'| == |s.ws| && ws'[i].ctl == WorkerAfter(s.ws[i], e).ctl
      && forall k :: 0 <= k < |s.ws| && k != i ==> ws'[k] == s.ws[k]
  {
  }

  lemma FocusProgress(q: bool, q': bool, ws: seq<Worker>, ws': seq<Worker>, o: OPc, pc: OPc)
    requires o.OJoin? && o.i < |ws| && |ws'| == |ws| && ProgressOk(q, ws, o) && (q ==> q')
    requires Advanced(q', ws'[o.i].ctl, o.i, pc, |ws|)
    requires forall k :: 0 <= k < |ws| && k != o.i ==> ws'[k] == ws[k]
    ensures ProgressOk(q', ws', pc)
  {
    assert o.i <= JoinedUpTo(o, |ws|);
    hide Settled;
  }

  lemma PollTarget(s: Pool, e: Effect, pc: OPc)
    requires s.own.OJoin? && s.own.i < |s.ws| && PollDoes(s, e, pc)
    ensures Target(e) == -1 || Target(e) == s.own.i
    ensures !e.Reserve? && !e.Publish?
  {
  }

  lemma PollStays(s: Pool, e: Effect, pc: OPc)
    requires s.own.OJoin? && s.own.i < |s.ws| && PollDoes(s, e, pc)
    requires !s.own.j.JAbort? && !s.own.j.JJoined?
    ensures pc.OJoin? && pc.i == s.own.i && (pc.j.JAbort? ==> MarksPool(e))
    ensures !pc.j.XSetState? && !pc.j.XTimeoutState?
  {
    hide TimeUp;
  }

  lemma PollStep(s: Pool, e: Effect, pc: OPc)
    requires s.own.OJoin? && s.own.i < |s.ws| && PollDoes(s, e, pc) && !s.own.j.JAbort? && !s.own.j.JJoined?
    requires CtlOk(s.ws[s.own.i].ctl) && JoinOk(s.g.clk, s.ws[s.own.i].ctl, s.own.j)
    requires Advanced(s.g.quarantined, s.ws[s.own.i].ctl, s.own.i, s.own, |s.ws|)
    ensures Advanced(s.g.quarantined || MarksPool(e), WorkerAfter(s.ws[s.own.i], e).ctl, s.own.i, pc, |s.ws|)
  {
    PollStays(s, e, pc);
    hide PollDoes, CtlOk, JoinOk, WorkerAfter;
  }

  lemma PollEnds(s: Pool, e: Effect, pc: OPc)
    requires s.own.OJoin? && s.own.i < |s.ws| && PollDoes(s, e, pc) && (s.own.j.JAbort? || s.own.j.JJoined?)
    requires CtlOk(s.ws[s.own.i].ctl) && JoinOk(s.g.clk, s.ws[s.own.i].ctl, s.own.j)
    requires Advanced(s.g.quarantined, s.ws[s.own.i].ctl, s.own.i, s.own, |s.ws|)
    ensures Advanced(s.g.quarantined || MarksPool(e), WorkerAfter(s.ws[s.own.i], e).ctl, s.own.i, pc, |s.ws|)
  {
    hide StageOf, TimeUp;
  }

  lemma PollAdvance(s: Pool, e: Effect, pc: OPc)
    requires s.own.OJoin? && s.own.i < |s.ws| && PollDoes(s, e, pc)
    requires CtlOk(s.ws[s.own.i].ctl) && JoinOk(s.g.clk, s.ws[s.own.i].ctl, s.own.j)
    requires Advanced(s.g.quarantined, s.ws[s.own.i].ctl, s.own.i, s.own, |s.ws|)
    ensures Advanced(s.g.quarantined || MarksPool(e), WorkerAfter(s.ws[s.own.i], e).ctl, s.own.i, pc, |s.ws|)
  {
    hide PollDoes, CtlOk, JoinOk, Advanced, WorkerAfter, MarksPool;
    if s.own.j.JAbort? || s.own.j.JJoined? { PollEnds(s, e, pc); } else { PollStep(s, e, pc); }
  }

  lemma PollProgress(s: Pool, e: Effect, pc: OPc)
    requires s.own.OJoin? && s.own.i < |s.ws|
    requires WorkersOk(s.g.canClose, s.g.clk, s.ws) && FocusOk(s.g.clk, s.ws, s.own)
    requires ProgressOk(s.g.quarantined, s.ws, s.own) && PollDoes(s, e, pc) && Applies(s, e)
    ensures ProgressOk(s.g.quarantined || MarksPool(e), WorkersAfter(s, e), pc)
  {
    assert CtlOk(s.ws[s.own.i].ctl) && JoinOk(s.g.clk, s.ws[s.own.i].ctl, s.own.j);
    assert Advanced(s.g.quarantined, s.ws[s.own.i].ctl, s.own.i, s.own, |s.ws|) by { hide PollDoes, CtlOk, JoinOk; }
    hide WorkersOk, FocusOk, PollDoes, CtlOk, JoinOk, MarksPool, WorkerAfter, WorkersAfter, Advanced, ProgressOk, Applies;
    PollTarget(s, e, pc);
    PollAdvance(s, e, pc);
    OnlyTarget(s, e, s.own.i);
    FocusProgress(s.g.quarantined, s.g.quarantined || MarksPool(e), s.ws, WorkersAfter(s, e), s.own, pc);
  }

  lemma PollRet(s: Pool, e: Effect, pc: OPc)
    requires s.own.OJoin? && s.own.i < |s.ws|
    requires JoinInv(s) && RetInv(s) && PollDoes(s, e, pc) && Applies(s, e)
    ensures RetInv(Do(s, e).(own := pc))
  {
    hide WorkersOk, SupOk, FocusOk, PathFits, FlagsOk, ProgressOk, CallsOk, Do, Applies, PollDoes, FlagsAfter;
    PollEffect(s, e, pc);
    PollFlags(s, e, pc);
    PollProgress(s, e, pc);
    OwnerRetOk(s, e, pc);
  }

  lemma ExitedFlags(s: Pool, e: Effect, pc: OPc)
    requires s.own.OJoin? && s.own.i < |s.ws|
    requires FlagsOk(s.g, s.own) && PathFits(s) && ExitedDoes(s, e, pc)
    ensures FlagsAfter(s, e, pc)
    ensures s.own != ONone && s.own != OOver && pc != ONone && pc != OOver
    ensures s.g.life == Stopped ==> e == Nop
    ensures pc.ODone? ==> s.g.life == Stopped && e == Nop && exists r :: pc.r == Final(r, s.g.quarantined)
  {
    ExitedStages(s, e, pc);
    hide ExitedDoes;
    StageLife(s.own);
    StageLife(pc);
    hide StageOf, LifeAt;
  }

  lemma ExitedTarget(s: Pool, e: Effect, pc: OPc)
    requires s.own.OJoin? && s.own.i < |s.ws| && ExitedDoes(s, e, pc)
    ensures Target(e) == -1 || Target(e) == s.own.i
    ensures !e.Reserve? && !e.Publish?
  {
  }

  lemma ExitedStep(s: Pool, e: Effect, pc: OPc)
    requires s.own.OJoin? && s.own.i < |s.ws| && ExitedDoes(s, e, pc) && !(s.own.j.XJoined? || s.own.j.XSetJoined? || s.own.j.XSetState?)
    requires CtlOk(s.ws[s.own.i].ctl) && JoinOk(s.g.clk, s.ws[s.own.i].ctl, s.own.j)
    requires Advanced(s.g.quarantined, s.ws[s.own.i].ctl, s.own.i, s.own, |s.ws|)
    ensures Advanced(s.g.quarantined || MarksPool(e), WorkerAfter(s.ws[s.own.i], e).ctl, s.own.i, pc, |s.ws|)
  {
    ExitedStays(s, e, pc);
    hide ExitedDoes, CtlOk, JoinOk, WorkerAfter;
  }

  lemma ExitedEnds(s: Pool, e: Effect, pc: OPc)
    requires s.own.OJoin? && s.own.i < |s.ws| && ExitedDoes(s, e, pc) && (s.own.j.XJoined? || s.own.j.XSetJoined? || s.own.j.XSetState?)
    requires CtlOk(s.ws[s.own.i].ctl) && JoinOk(s.g.clk, s.ws[s.own.i].ctl, s.own.j)
    requires Advanced(s.g.quarantined, s.ws[s.own.i].ctl, s.own.i, s.own, |s.ws|)
    ensures Advanced(s.g.quarantined || MarksPool(e), WorkerAfter(s.ws[s.own.i], e).ctl, s.own.i, pc, |s.ws|)
  {
    hide StageOf, TimeUp;
  }

  lemma ExitedAdvance(s: Pool, e: Effect, pc: OPc)
    requires s.own.OJoin? && s.own.i < |s.ws| && ExitedDoes(s, e, pc)
    requires CtlOk(s.ws[s.own.i].ctl) && JoinOk(s.g.clk, s.ws[s.own.i].ctl, s.own.j)
    requires Advanced(s.g.quarantined, s.ws[s.own.i].ctl, s.own.i, s.own, |s.ws|)
    ensures Advanced(s.g.quarantined || MarksPool(e), WorkerAfter(s.ws[s.own.i], e).ctl, s.own.i, pc, |s.ws|)
  {
    hide ExitedDoes, CtlOk, JoinOk, Advanced, WorkerAfter, MarksPool;
    if s.own.j.XJoined? || s.own.j.XSetJoined? || s.own.j.XSetState? { ExitedEnds(s, e, pc); } else { ExitedStep(s, e, pc); }
  }

  lemma ExitedStays(s: Pool, e: Effect, pc: OPc)
    requires s.own.OJoin? && s.own.i < |s.ws| && ExitedDoes(s, e, pc)
    requires !s.own.j.XJoined? && !s.own.j.XSetJoined? && !s.own.j.XSetState?
    ensures pc.OJoin? && pc.i == s.own.i && (pc.j.JAbort? || pc.j.XTimeoutState? ==> MarksPool(e) || s.own.j.XTimeoutState?)
    ensures !pc.j.XSetState?
  {
    hide TimeUp;
  }

  lemma ExitedProgress(s: Pool, e: Effect, pc: OPc)
    requires s.own.OJoin? && s.own.i < |s.ws|
    requires WorkersOk(s.g.canClose, s.g.clk, s.ws) && FocusOk(s.g.clk, s.ws, s.own)
    requires ProgressOk(s.g.quarantined, s.ws, s.own) && ExitedDoes(s, e, pc) && Applies(s, e)
    ensures ProgressOk(s.g.quarantined || MarksPool(e), WorkersAfter(s, e), pc)
  {
    assert CtlOk(s.ws[s.own.i].ctl) && JoinOk(s.g.clk, s.ws[s.own.i].ctl, s.own.j);
    assert Advanced(s.g.quarantined, s.ws[s.own.i].ctl, s.own.i, s.own, |s.ws|) by { hide ExitedDoes, CtlOk, JoinOk; }
    hide WorkersOk, FocusOk, ExitedDoes, CtlOk, JoinOk, MarksPool, WorkerAfter, WorkersAfter, Advanced, ProgressOk, Applies;
    ExitedTarget(s, e, pc);
    ExitedAdvance(s, e, pc);
    OnlyTarget(s, e, s.own.i);
    FocusProgress(s.g.quarantined, s.g.quarantined || MarksPool(e), s.ws, WorkersAfter(s, e), s.own, pc);
  }

  lemma ExitedRet(s: Pool, e: Effect, pc: OPc)
    requires s.own.OJoin? && s.own.i < |s.ws|
    requires JoinInv(s) && RetInv(s) && ExitedDoes(s, e, pc) && Applies(s, e)
    ensures RetInv(Do(s, e).(own := pc))
  {
    hide WorkersOk, SupOk, FocusOk, PathFits, FlagsOk, ProgressOk, CallsOk, Do, Applies, ExitedDoes, FlagsAfter;
    ExitedEffect(s, e, pc);
    ExitedFlags(s, e, pc);
    ExitedProgress(s, e, pc);
    OwnerRetOk(s, e, pc);
  }

  lemma OwnerRet(s: Pool, e: Effect, pc: OPc, s': Pool)
    requires JoinInv(s) && RetInv(s) && OwnerStep(s, e, pc, s')
    ensures RetInv(s')
  {
    hide JoinInv, RetInv, SubmitsDoes, SupJoinDoes, TeardownDoes, PollDoes, ExitedDoes, QuarantineDoes, StopDoes, Do,
      Applies;
    if SubmitsDoes(s, e, pc) { SubmitsRet(s, e, pc); }
    else if SupJoinDoes(s, e, pc) { SupJoinRet(s, e, pc); }
    else if TeardownDoes(s, e, pc) { TeardownRet(s, e, pc); }
    else if QuarantineDoes(s, e, pc) { QuarantineRet(s, e, pc); }
    else if StopDoes(s, e, pc) { StopRet(s, e, pc); }
    else if PollDoes(s, e, pc) { PollRet(s, e, pc); }
    else { ExitedRet(s, e, pc); }
  }

  // ---- everybody else ---------------------------------------------------------

  /** Steps that undo no join and leave owner, supervisor and callers where they are. */
  ghost predicate Quiet(s: Pool, s': Pool)
  {
    && s'.cfg == s.cfg && s'.own == s.own && s'.sup == s.sup
    && s'.g.life == s.g.life && s'.g.canClose == s.g.canClose && s'.g.supJoined == s.g.supJoined
    && s'.g.stopQuar == s.g.stopQuar && (s.g.quarantined ==> s'.g.quarantined)
    && |s'.ws| == |s.ws|
    && forall i :: 0 <= i < |s.ws| ==>
         (Settled(s.ws[i].ctl) ==> Settled(s'.ws[i].ctl)) && (s.ws[i].ctl.joined ==> s'.ws[i].ctl.joined)
  }

  lemma QuietRet(s: Pool, s': Pool)
    requires RetInv(s) && Quiet(s, s')
    ensures FlagsOk(s'.g, s'.own) && ProgressOk(s'.g.quarantined, s'.ws, s'.own) && Keeps(s, s')
    ensures s'.calls == s.calls ==> RetInv(s')
  {
    hide LifeAt, Settled, JoinedUpTo, SupOut;
    if s'.calls == s.calls {
      CallsKeep(s, s');
    }
  }

  lemma WorkerRet(s: Pool, i: nat, s': Pool)
    requires RetInv(s) && i < |s.ws| && WorkerStep(s, i, s')
    ensures RetInv(s')
  {
    WorkerMoves(s, i, s');
    assert Quiet(s, s') by { hide WorkerStep; }
    hide WorkerStep, RetInv, Quiet;
    QuietRet(s, s');
  }

  lemma SubRet(s: Pool, t: nat, e: Effect, pc: SPc, s': Pool)
    requires RetInv(s) && t < |s.subs| && SubStep(s, t, e, pc, s')
    ensures RetInv(s')
  {
    SubmitterEffect(s, t, e, pc);
    DoFacts(s, e);
    DoCounts(s, e);
    assert Quiet(s, s') by { hide SubDoes, Do, RetInv; }
    hide SubDoes, Do, RetInv, Quiet;
    QuietRet(s, s');
  }

  lemma DestroyRet(s: Pool, e: Effect, pc: DPc, s': Pool)
    requires RetInv(s) && DestroyStep(s, e, pc, s')
    ensures RetInv(s')
  {
    DestroyEffect(s, e, pc);
    DoFacts(s, e);
    DoCounts(s, e);
    assert Quiet(s, s') by { hide DestroyDoes, Do, RetInv; }
    hide DestroyDoes, Do, Quiet, FlagsOk, ProgressOk, CallsOk;
    QuietRet(s, s');
    if e.CallShutdown? {
      Recall(s, s');
    }
  }

  /** Destroy's own call of shutdown replaces an idle caller. */
  lemma Recall(s: Pool, s': Pool)
    requires CallsOk(s) && Keeps(s, s') && s'.own == s.own && |s.calls| > 0 && s'.calls == s.calls[0 := CLoad]
    ensures CallsOk(s')
  {
    hide Resolved;
    forall c | 0 <= c < |s.calls|
      ensures CallOk(s', s'.calls[c])
    {
      assert CallOk(s, s.calls[c]);
    }
  }

  /** A live supervisor leaves no answer 0 behind and no worker the owner is finished with. */
  lemma SupRet(s: Pool, e: Effect, pc: UPc, s': Pool)
    requires JoinInv(s) && RetInv(s) && SupStep(s, e, pc, s')
    ensures RetInv(s')
  {
    SupervisorEffect(s, e, pc);
    SupLives(s, e, pc);
    OwnerNotFocused(s);
    DoFacts(s, e);
    DoCounts(s, e);
    hide SupDoes, Do, Applies, OfSupervisor, WorkersOk, SupOk, FocusOk;
    assert StageOf(s.own) == Finishing ==> s.g.quarantined;
    assert Keeps(s, s');
    hide StageOf, Resolved, LifeAt, Keeps;
    CallsKeep(s, s');
  }

  lemma SupLives(s: Pool, e: Effect, pc: UPc)
    requires SupDoes(s, e, pc)
    ensures s.sup != UNone && s.sup != UReaped
  {
    hide ScanDoes, StallDoes, RejoinDoes, StartDoes;
    if ScanDoes(s, e, pc) { ScanAlive(s, e, pc); }
    else if StallDoes(s, e, pc) { StallAlive(s, e, pc); }
    else if RejoinDoes(s, e, pc) { RejoinAlive(s, e, pc); }
    else { StartAlive(s, e, pc); }
  }

  lemma CallRet(s: Pool, c: nat, s': Pool)
    requires JoinInv(s) && RetInv(s) && c < |s.calls| && CallStep(s, c, s')
    ensures RetInv(s')
  {
    CallEffect(s, c, s');
    if s.g.life == Stopped && !s.g.quarantined { StopResolved(s); }
    ResolvedFrame(s, s');
    assert CallOk(s, s.calls[c]);
    assert s.g.life == Running <==> s.own == ONone;
    hide JoinInv, Resolved;
    assert FlagsOk(s'.g, s'.own) && ProgressOk(s'.g.quarantined, s'.ws, s'.own) by { hide CallStep; }
    hide LifeAt, ProgressOk, CallsOk;
    CallsAfter(s, c, s');
  }

  lemma CallsAfter(s: Pool, c: nat, s': Pool)
    requires CallsOk(s) && c < |s.calls| && CallStep(s, c, s')
    requires FlagsOk(s.g, s.own) && (s.g.life == Running <==> s.own == ONone)
    requires s.g.life == Stopped && !s.g.quarantined ==> Resolved(s)
    requires Resolved(s') == Resolved(s)
    ensures CallsOk(s')
  {
    assert CallOk(s, s.calls[c]);
    OneWinner(s, c, s');
    ThisCall(s, c, s');
    CallEffect(s, c, s');
    OwnerGone(s, c, s');
    assert s'.own.ODone? ==> s'.own == s.own;
    hide Resolved, CallStep, FlagsOk;
    forall d | 0 <= d < |s.calls| && d != c
      ensures CallOk(s', s'.calls[d])
    {
      assert CallOk(s, s.calls[d]);
    }
  }

  /** Only the call that won takes the owner's answer. */
  lemma OwnerGone(s: Pool, c: nat, s': Pool)
    requires c < |s.calls| && CallStep(s, c, s') && (s.g.life == Running ==> s.own == ONone)
    ensures s'.own == s.own || (s.own == ONone && s'.own == OStart) || (s.own.ODone? && s'.own == OOver && s.calls[c].COwner?)
  {
  }

  lemma ThisCall(s: Pool, c: nat, s': Pool)
    requires c < |s.calls| && CallOk(s, s.calls[c]) && CallStep(s, c, s')
    requires s.own.ODone? ==> AnswerOk(s, s.own.r)
    requires s.g.stopQuar ==> s.g.quarantined
    requires s.g.life == Stopped && !s.g.quarantined ==> Resolved(s)
    requires Resolved(s') == Resolved(s)
    ensures |s'.calls| == |s.calls| && CallOk(s', s'.calls[c])
  {
    hide Resolved;
  }

  lemma OneWinner(s: Pool, c: nat, s': Pool)
    requires CallsOk(s) && c < |s.calls| && CallStep(s, c, s') && (s.g.life == Running <==> s.own == ONone)
    ensures |s'.calls| == |s.calls|
    ensures forall a, d :: 0 <= a < |s'.calls| && 0 <= d < |s'.calls| && s'.calls[a].COwner? && s'.calls[d].COwner? ==> a == d
  {
    hide AnswerOk;
  }

  lemma NextRet(s: Pool, s': Pool)
    requires JoinInv(s) && RetInv(s) && Next(s, s')
    ensures RetInv(s')
  {
    hide JoinInv, RetInv, WorkerStep, SubStep, CallStep, OwnerStep, SupStep, DestroyStep;
    if i :| 0 <= i < |s.ws| && WorkerStep(s, i, s') { WorkerRet(s, i, s'); }
    else if t, e, pc :| 0 <= t < |s.subs| && SubStep(s, t, e, pc, s') { SubRet(s, t, e, pc, s'); }
    else if c :| 0 <= c < |s.calls| && CallStep(s, c, s') { CallRet(s, c, s'); }
    else if e, pc :| OwnerStep(s, e, pc, s') { OwnerRet(s, e, pc, s'); }
    else if e, pc :| SupStep(s, e, pc, s') { SupRet(s, e, pc, s'); }
    else if e, pc :| DestroyStep(s, e, pc, s') { DestroyRet(s, e, pc, s'); }
    else { QuietRet(s, s'); }
  }

  lemma {:induction false} RunReturns(tr: seq<Pool>, n: nat)
    requires Run(tr) && n < |tr|
    ensures JoinInv(tr[n]) && RetInv(tr[n])
  {
    hide JoinInv, RetInv, Next, Init;
    RunJoins(tr, n);
    if n == 0 {
      InitReturns(tr[0]);
    } else {
      RunReturns(tr, n - 1);
      assert NextAt(tr, n - 1);
      NextRet(tr[n - 1], tr[n]);
    }
  }

  // ---- theorems ---------------------------------------------------------------

  /** STOPPED is final, and the step that publishes it records the quarantine flag. */
  ghost predicate StopKept(g: Globals, g': Globals)
  {
    && (g.life == Stopped ==> g'.stopQuar == g.stopQuar)
    && (g.life != Stopped && g'.life == Stopped ==> g'.stopQuar == g'.quarantined)
  }

  /** One step never takes the lifecycle back, and only a step out of RUNNING makes a caller the owner. */
  lemma NextLife(s: Pool, s': Pool)
    requires JoinInv(s) && RetInv(s) && Next(s, s')
    ensures Rank(s.g.life) <= Rank(s'.g.life) && StopKept(s.g, s'.g) && |s'.calls| == |s.calls|
    ensures forall c :: 0 <= c < |s.calls| && BecomesOwner(s.calls[c], s'.calls[c]) ==>
      s.g.life == Running && s'.g.life == Quiescing
    ensures forall c, d :: (
        && 0 <= c < |s.calls| && 0 <= d < |s.calls|
        && BecomesOwner(s.calls[c], s'.calls[c]) && BecomesOwner(s.calls[d], s'.calls[d])) ==> c == d
  {
    hide JoinInv, RetInv, WorkerStep, SubStep, CallStep, OwnerStep, SupStep, DestroyStep;
    if i :| 0 <= i < |s.ws| && WorkerStep(s, i, s') { WorkerMoves(s, i, s'); }
    else if t, e, pc :| 0 <= t < |s.subs| && SubStep(s, t, e, pc, s') { SubLife(s, t, e, pc, s'); }
    else if c :| 0 <= c < |s.calls| && CallStep(s, c, s') { CallLife(s, c, s'); }
    else if e, pc :| OwnerStep(s, e, pc, s') { OwnerLife(s, e, pc, s'); }
    else if e, pc :| SupStep(s, e, pc, s') { SupLife(s, e, pc, s'); }
    else if e, pc :| DestroyStep(s, e, pc, s') { DestroyLife(s, e, pc, s'); }
  }

  predicate BecomesOwner(p: CPc, p': CPc) { !p.COwner? && p'.COwner? }

  lemma SubLife(s: Pool, t: nat, e: Effect, pc: SPc, s': Pool)
    requires t < |s.subs| && SubStep(s, t, e, pc, s')
    ensures s'.g.life == s.g.life && s'.g.stopQuar == s.g.stopQuar && s'.calls == s.calls
  {
    SubmitterEffect(s, t, e, pc);
    DoFacts(s, e);
    DoCounts(s, e);
    hide SubDoes, Do;
  }

  lemma SupLife(s: Pool, e: Effect, pc: UPc, s': Pool)
    requires SupStep(s, e, pc, s')
    ensures s'.g.life == s.g.life && s'.g.stopQuar == s.g.stopQuar && s'.calls == s.calls
  {
    SupervisorEffect(s, e, pc);
    DoFacts(s, e);
    DoCounts(s, e);
    hide SupDoes, Do;
  }

  lemma DestroyLife(s: Pool, e: Effect, pc: DPc, s': Pool)
    requires DestroyStep(s, e, pc, s')
    ensures s'.g.life == s.g.life && s'.g.stopQuar == s.g.stopQuar && |s'.calls| == |s.calls|
    ensures forall c :: 0 <= c < |s.calls| ==> s'.calls[c] == s.calls[c] || s'.calls[c] == CLoad
  {
    DestroyEffect(s, e, pc);
    DoFacts(s, e);
    DoCounts(s, e);
    hide DestroyDoes, Do;
  }

  lemma CallLife(s: Pool, c: nat, s': Pool)
    requires c < |s.calls| && CallStep(s, c, s')
    ensures Rank(s.g.life) <= Rank(s'.g.life) && StopKept(s.g, s'.g)
    ensures |s'.calls| == |s.calls| && forall d :: 0 <= d < |s.calls| && d != c ==> s'.calls[d] == s.calls[d]
    ensures BecomesOwner(s.calls[c], s'.calls[c]) ==> s.g.life == Running && s'.g.life == Quiescing
  {
    CallEffect(s, c, s');
    TakesOverFrom(s, c, s');
    hide CallStep;
  }

  lemma TakesOverFrom(s: Pool, c: nat, s': Pool)
    requires c < |s.calls| && CallStep(s, c, s') && |s'.calls| == |s.calls|
    ensures BecomesOwner(s.calls[c], s'.calls[c]) ==> s.g.life == Running && s'.g.life == Quiescing
  {
  }

  lemma OwnerFlags(s: Pool, e: Effect, pc: OPc)
    requires FlagsOk(s.g, s.own) && PathFits(s) && OwnerDoes(s, e, pc)
    ensures FlagsAfter(s, e, pc)
    ensures s.own != ONone && s.own != OOver && pc != ONone && pc != OOver
    ensures s.g.life == Stopped ==> e == Nop
  {
    hide FlagsOk, PathFits, FlagsAfter, SubmitsDoes, SupJoinDoes, TeardownDoes, PollDoes, ExitedDoes, QuarantineDoes,
      StopDoes;
    if SubmitsDoes(s, e, pc) { SubmitsFlags(s, e, pc); }
    else if SupJoinDoes(s, e, pc) { SupJoinFlags(s, e, pc); }
    else if TeardownDoes(s, e, pc) { TeardownFlags(s, e, pc); }
    else if QuarantineDoes(s, e, pc) { QuarantineFlags(s, e, pc); }
    else if StopDoes(s, e, pc) { StopFlags(s, e, pc); }
    else if PollDoes(s, e, pc) { PollFlags(s, e, pc); }
    else { ExitedFlags(s, e, pc); }
  }

  lemma OwnerLife(s: Pool, e: Effect, pc: OPc, s': Pool)
    requires JoinInv(s) && RetInv(s) && OwnerStep(s, e, pc, s')
    ensures Rank(s.g.life) <= Rank(s'.g.life) && StopKept(s.g, s'.g) && s'.calls == s.calls
  {
    hide OwnerDoes, Do, Applies, WorkersOk, SupOk, FocusOk, PathFits, FlagsOk, ProgressOk, CallsOk, LifeAt, OfOwner;
    OwnerEffect(s, e, pc);
    OwnerFlags(s, e, pc);
    DoFacts(s, e);
    DoCounts(s, e);
    assert !e.CallShutdown? by { OwnerNoCall(e); }
    if e.PutLife? { PublishRecords(s, e); }
  }

  lemma OwnerNoCall(e: Effect)
    requires OfOwner(e)
    ensures !e.CallShutdown?
  {
  }

  lemma PublishRecords(s: Pool, e: Effect)
    requires Applies(s, e) && e.PutLife?
    ensures e.life == Stopped ==> Do(s, e).g.stopQuar == Do(s, e).g.quarantined
  {
  }

  /** A run that has stopped its pool without quarantine has joined every worker and any supervisor. */
  lemma CleanStop(tr: seq<Pool>, n: nat)
    requires Run(tr) && n < |tr| && tr[n].g.life == Stopped && !tr[n].g.quarantined
    ensures Resolved(tr[n])
  {
    RunReturns(tr, n);
    hide Run, JoinInv, Resolved;
    StopResolved(tr[n]);
  }

  /** The lifecycle never moves backwards over a run. */
  lemma {:induction false} LifeForward(tr: seq<Pool>, m: nat, n: nat)
    requires Run(tr) && m <= n < |tr|
    ensures Rank(tr[m].g.life) <= Rank(tr[n].g.life) && |tr[n].calls| == |tr[m].calls|
    ensures tr[m].g.life == Stopped ==> tr[n].g.stopQuar == tr[m].g.stopQuar
    decreases n - m
  {
    hide JoinInv, RetInv, Next, Init;
    if m < n {
      LifeForward(tr, m, n - 1);
      RunReturns(tr, n - 1);
      assert NextAt(tr, n - 1);
      NextLife(tr[n - 1], tr[n]);
    }
  }

  ghost predicate TakesOver(tr: seq<Pool>, n: nat, c: nat)
  {
    && n + 1 < |tr| && c < |tr[n].calls| && c < |tr[n + 1].calls|
    && BecomesOwner(tr[n].calls[c], tr[n + 1].calls[c])
  }

  /** In a whole run, restarts and retries included, exactly one call can win the shutdown. */
  lemma OneOwner(tr: seq<Pool>, m: nat, c: nat, n: nat, d: nat)
    requires Run(tr) && TakesOver(tr, m, c) && TakesOver(tr, n, d)
    ensures m == n && c == d
  {
    hide JoinInv, RetInv, Next, Init;
    RunReturns(tr, m);
    RunReturns(tr, n);
    assert NextAt(tr, m) && NextAt(tr, n);
    NextLife(tr[m], tr[m + 1]);
    NextLife(tr[n], tr[n + 1]);
    if m < n { LifeForward(tr, m + 1, n); }
    if n < m { LifeForward(tr, n + 1, m); }
  }

  lemma AnswerFacts(s: Pool, c: nat)
    requires RetInv(s) && c < |s.calls| && s.calls[c].CIdle? && s.calls[c].ret.Ret?
    ensures AnswerOk(s, s.calls[c].ret.r)
  {
    assert CallOk(s, s.calls[c]);
    hide FlagsOk, ProgressOk;
  }

  /**
    Every answer of a shutdown call is given after STOPPED; it is positive if the pool was
    quarantined when STOPPED was published; and 0 means that every worker thread and any
    supervisor thread has been joined, then and ever after.
   */
  lemma ShutdownAnswers(tr: seq<Pool>, m: nat, n: nat, c: nat)
    requires Run(tr) && m + 1 < |tr| && n < |tr| && c < |tr[n].calls| && tr[n].calls[c].CIdle? && tr[n].calls[c].ret.Ret?
    ensures tr[n].g.life == Stopped
    ensures tr[n].calls[c].ret.r == 0 ==>
      && (forall i :: 0 <= i < |tr[n].ws| ==> tr[n].ws[i].ctl.joined && tr[n].ws[i].ctl.thread == Absent)
      && SupOut(tr[n].cfg, tr[n].g.supJoined, tr[n].sup)
    ensures tr[m].g.life != Stopped && tr[m + 1].g.life == Stopped && tr[m + 1].g.quarantined ==>
      tr[n].calls[c].ret.r > 0
  {
    hide JoinInv, RetInv, Next, Init;
    RunReturns(tr, n);
    AnswerFacts(tr[n], c);
    hide SupOut;
    if tr[m].g.life != Stopped && tr[m + 1].g.life == Stopped {
      RunReturns(tr, m);
      assert NextAt(tr, m);
      NextLife(tr[m], tr[m + 1]);
      if n <= m { LifeForward(tr, n, m); } else { LifeForward(tr, m + 1, n); }
    }
  }
}
