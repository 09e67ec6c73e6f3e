/**
  awp_pool_destroy frees the pool only when nobody can reach it any more; otherwise it leaks.
 */
module PoolDestroy {
  import opened Pool
  import opened PoolEffects
  import opened PoolJoins
  import opened PoolReturns
  import opened PoolLogs

  /** How much destroy has already made sure of. */
  function Checked(d: DPc): nat
  {
    match d
    case DIdle => 0
    case DLife => 1
    case DShutdown => 2
    case DWaiters => 3
    case DApi => 4 case DQuar => 4 case DLeaked => 4
    case DWorker(_) => 5 case DActive => 5 case DApiAgain => 5
    case DSup => 6 case DJoined(_) => 6 case DFree => 6 case DFreed => 6
  }

  ghost predicate CallsIdle(calls: seq<CPc>)
  {
    forall c :: 0 <= c < |calls| ==> calls[c].CIdle?
  }

  /** Destroy's own shutdown call is caller 0; the others are done or counted in shutdown_waiters. */
  ghost predicate OthersWait(calls: seq<CPc>)
  {
    |calls| > 0 && forall c :: 1 <= c < |calls| ==> calls[c].CIdle? || IsWaiter(calls[c])
  }

  ghost predicate WaitersOk(waiters: int, inWaiters: set<nat>, calls: seq<CPc>)
  {
    waiters == |inWaiters| && forall c: nat :: c in inWaiters <==> c < |calls| && IsWaiter(calls[c])
  }

  ghost predicate SubsIdle(subs: seq<Sub>)
  {
    forall t :: 0 <= t < |subs| ==> subs[t].pc.SIdle?
  }

  /** A shutdown in progress is some caller's. */
  ghost predicate OwnedBy(calls: seq<CPc>, o: OPc)
  {
    o != ONone && o != OOver ==> exists c :: 0 <= c < |calls| && calls[c].COwner?
  }

  /** Where the shutdown callers can be after k checks. */
  ghost predicate CallersOk(k: nat, calls: seq<CPc>)
  {
    && (k >= 1 ==> OthersWait(calls))
    && (k == 1 || k >= 3 ==> calls[0].CIdle?)
    && (k == 2 ==> calls[0].CIdle? ==> calls[0].ret.Ret?)
    && (k >= 4 ==> CallsIdle(calls))
  }

  ghost predicate DesInv(s: Pool)
  {
    var k := Checked(s.des);
    && OwnedBy(s.calls, s.own) && WaitersOk(s.g.waiters, s.g.inWaiters, s.calls) && CallersOk(k, s.calls)
    && (k >= 1 ==> s.g.destroying)
    && (k >= 3 ==> s.g.life == Stopped)
    && (k >= 5 ==> Resolved(s))
    && (k >= 6 ==> SubsIdle(s.subs))
  }

  lemma InitDestroy(s: Pool)
    requires Init(s)
    ensures DesInv(s)
  {
  }

  /** Steps that leave destroy, callers and submitters where they are. */
  lemma FrameDestroy(s: Pool, s': Pool)
    requires DesInv(s) && Keeps(s, s') && s'.calls == s.calls && s'.subs == s.subs && s'.des == s.des
    requires s'.g.waiters == s.g.waiters && s'.g.inWaiters == s.g.inWaiters
    requires s'.g.destroying == s.g.destroying && (s'.own == s.own || (s.own != ONone && s.own != OOver))
    ensures DesInv(s')
  {
    hide Resolved, Checked, CallersOk, WaitersOk, SubsIdle;
  }

  lemma WorkerDestroy(s: Pool, i: nat, s': Pool)
    requires RetInv(s) && DesInv(s) && i < |s.ws| && WorkerStep(s, i, s')
    ensures DesInv(s')
  {
    WorkerMoves(s, i, s');
    assert Quiet(s, s') by { hide WorkerStep; }
    hide WorkerStep, RetInv, Quiet, DesInv;
    QuietRet(s, s');
    FrameDestroy(s, s');
  }

  /** While a submitter can still move, destroy has not passed its second look at api_refs. */
  lemma NoneIdle(s: Pool, t: nat, e: Effect, pc: SPc)
    requires DesInv(s) && t < |s.subs| && SubDoes(s, t, e, pc)
    ensures Checked(s.des) < 6
  {
    hide Resolved, CallersOk, WaitersOk;
  }

  lemma SubDestroy(s: Pool, t: nat, e: Effect, pc: SPc, s': Pool)
    requires RetInv(s) && DesInv(s) && t < |s.subs| && SubStep(s, t, e, pc, s')
    ensures DesInv(s')
  {
    SubmitterEffect(s, t, e, pc);
    NoneIdle(s, t, e, pc);
    SubIsQuiet(s, t, e, pc, s');
    hide SubDoes, Do, Applies, RetInv, Quiet, Resolved, Checked, CallersOk, WaitersOk, SubsIdle;
    DoFacts(s, e);
    DoCounts(s, e);
    QuietRet(s, s');
  }

  lemma SubIsQuiet(s: Pool, t: nat, e: Effect, pc: SPc, s': Pool)
    requires t < |s.subs| && OfSubmitter(e) && SubStep(s, t, e, pc, s')
    ensures Quiet(s, s')
  {
    hide SubDoes, Do;
    DoFacts(s, e);
    DoCounts(s, e);
  }

  lemma OwnerDestroy(s: Pool, e: Effect, pc: OPc, s': Pool)
    requires JoinInv(s) && RetInv(s) && DesInv(s) && OwnerStep(s, e, pc, s')
    ensures DesInv(s')
  {
    OwnerEffect(s, e, pc);
    assert PathFits(s) && FlagsOk(s.g, s.own);
    OwnerFlags(s, e, pc);
    DoFacts(s, e);
    DoCounts(s, e);
    OwnerNoCall(e);
    hide JoinInv, RetInv, OwnerDoes, OwnerKnows, Do, Applies, PathFits, LifeAt, DesInv;
    if s.g.life == Stopped { ResolvedFrame(s, s'); }
    FrameDestroy(s, s');
  }

  lemma SupDestroy(s: Pool, e: Effect, pc: UPc, s': Pool)
    requires JoinInv(s) && RetInv(s) && DesInv(s) && SupStep(s, e, pc, s')
    ensures DesInv(s')
  {
    SupervisorEffect(s, e, pc);
    SupLives(s, e, pc);
    DoFacts(s, e);
    DoCounts(s, e);
    hide JoinInv, RetInv, SupDoes, SupKnows, Do, Applies, Checked, CallersOk, WaitersOk, SubsIdle;
  }

  lemma CallDestroy(s: Pool, c: nat, s': Pool)
    requires JoinInv(s) && RetInv(s) && DesInv(s) && c < |s.calls| && CallStep(s, c, s')
    ensures DesInv(s')
  {
    hide JoinInv, RetInv, SubsIdle, Resolved, CallStep, CallersOk, OwnedBy, WaitersOk;
    CallWaiters(s, c, s');
    CallStage(Checked(s.des), s, c, s');
    CallOwner(s, c, s');
    CallLeaves(s, c, s');
    ResolvedFrame(s, s');
    hide Checked;
  }

  lemma CallLeaves(s: Pool, c: nat, s': Pool)
    requires c < |s.calls| && CallStep(s, c, s')
    ensures s'.cfg == s.cfg && s'.ws == s.ws && s'.subs == s.subs && s'.des == s.des && s'.sup == s.sup
    ensures s'.g.supJoined == s.g.supJoined && s'.g.destroying == s.g.destroying
    ensures s.g.life == Stopped ==> s'.g.life == Stopped
  {
    hide CallStep;
    CallEffect(s, c, s');
  }

  lemma CallWaiters(s: Pool, c: nat, s': Pool)
    requires WaitersOk(s.g.waiters, s.g.inWaiters, s.calls) && c < |s.calls| && CallStep(s, c, s')
    ensures WaitersOk(s'.g.waiters, s'.g.inWaiters, s'.calls)
  {
    hide CallStep, WaitersOk, IsWaiter;
    CallEffect(s, c, s');
    WaiterCounts(s, c, s');
    WaitersStep(s.g.waiters, s.g.inWaiters, s.calls, c, s'.calls[c]);
    assert s'.calls == s.calls[c := s'.calls[c]];
  }

  lemma WaitersStep(waiters: int, inWaiters: set<nat>, calls: seq<CPc>, c: nat, pc: CPc)
    requires WaitersOk(waiters, inWaiters, calls) && c < |calls|
    ensures IsWaiter(pc) == IsWaiter(calls[c]) ==> WaitersOk(waiters, inWaiters, calls[c := pc])
    ensures IsWaiter(pc) && !IsWaiter(calls[c]) ==> WaitersOk(waiters + 1, inWaiters + {c}, calls[c := pc])
    ensures !IsWaiter(pc) && IsWaiter(calls[c]) ==> WaitersOk(waiters - 1, inWaiters - {c}, calls[c := pc])
  {
    hide IsWaiter;
  }

  /** shutdown_waiters counts a call from its fetch_add to its fetch_sub. */
  lemma WaiterCounts(s: Pool, c: nat, s': Pool)
    requires c < |s.calls| && CallStep(s, c, s') && |s'.calls| == |s.calls|
    ensures var w, w' := IsWaiter(s.calls[c]), IsWaiter(s'.calls[c]);
      if !w && w' then s'.g.waiters == s.g.waiters + 1 && s'.g.inWaiters == s.g.inWaiters + {c}
      else if w && !w' then s'.g.waiters == s.g.waiters - 1 && s'.g.inWaiters == s.g.inWaiters - {c}
      else s'.g.waiters == s.g.waiters && s'.g.inWaiters == s.g.inWaiters
  {
    match s.calls[c] {
      case CEnter =>
      case CLeave(_) =>
      case CCas =>
      case CQuar(_, _) =>
      case _ =>
    }
  }

  /** Once destroy runs, only its own call and counted waiters still move. */
  lemma CallStage(k: nat, s: Pool, c: nat, s': Pool)
    requires CallersOk(k, s.calls) && (k >= 1 ==> s.g.destroying) && c < |s.calls| && CallStep(s, c, s')
    ensures CallersOk(k, s'.calls)
  {
    CallEffect(s, c, s');
    if k >= 1 && c >= 1 { WaiterMoves(s, c, s'); }
  }

  lemma WaiterMoves(s: Pool, c: nat, s': Pool)
    requires c < |s.calls| && CallStep(s, c, s') && |s'.calls| == |s.calls| && IsWaiter(s.calls[c])
    ensures s'.calls[c].CIdle? || IsWaiter(s'.calls[c])
  {
  }

  lemma CallOwner(s: Pool, c: nat, s': Pool)
    requires OwnedBy(s.calls, s.own) && c < |s.calls| && CallStep(s, c, s')
    ensures OwnedBy(s'.calls, s'.own)
  {
    CallEffect(s, c, s');
    assert s.calls[c].COwner? ==> s'.own == OOver;
    assert s'.own == OStart && s.own != OStart ==> s'.calls[c].COwner?;
    hide CallStep;
    if s'.own == s.own && s.own != ONone && s.own != OOver {
      var d :| 0 <= d < |s.calls| && s.calls[d].COwner?;
      assert s'.calls[d].COwner?;
    }
  }

  /** What each check of destroy establishes, from what was known before it. */
  lemma DestroyChecks(s: Pool, e: Effect, pc: DPc)
    requires DesInv(s) && DestroyDoes(s, e, pc)
    requires s.g.life == Stopped && !s.g.quarantined ==> Resolved(s)
    requires s.g.api <= 0 ==> SubsIdle(s.subs)
    requires s.g.waiters <= 0 ==> forall c :: 0 <= c < |s.calls| ==> !IsWaiter(s.calls[c])
    requires |s.calls| > 0 && s.calls[0].CIdle? && s.calls[0].ret.Ret? ==> s.g.life == Stopped
    ensures s.g.destroying || e.BeginDestroy?
    ensures OthersWait(s.calls) && s.calls[0].CIdle? && pc != DIdle
    ensures Checked(pc) >= 4 ==> CallsIdle(s.calls)
    ensures e.CallShutdown? <==> pc == DShutdown
    ensures Checked(pc) >= 3 ==> s.g.life == Stopped
    ensures Checked(pc) >= 5 ==> Resolved(s)
    ensures Checked(pc) >= 6 ==> SubsIdle(s.subs)
  {
    hide Resolved, SubsIdle, OwnedBy, WaitersOk, IsWaiter;
  }

  lemma DestroyDestroy(s: Pool, e: Effect, pc: DPc, s': Pool)
    requires JoinInv(s) && RetInv(s) && CountOk(s.g, s.subs) && DesInv(s) && DestroyStep(s, e, pc, s')
    ensures DesInv(s')
  {
    if s.g.life == Stopped && !s.g.quarantined { StopResolved(s); }
    assert |s.calls| > 0 ==> CallOk(s, s.calls[0]);
    assert OwnedBy(s.calls, s.own) && WaitersOk(s.g.waiters, s.g.inWaiters, s.calls);
    hide JoinInv, RetInv, CountOk, Do, Resolved, SubsIdle, DesInv, DestroyDoes, WaitersOk;
    if s.g.api <= 0 { NoneInside(s.g, s.subs); }
    if s.g.waiters <= 0 { NoneWaits(s.g.waiters, s.g.inWaiters, s.calls); }
    DestroyEffect(s, e, pc);
    DoFacts(s, e);
    DoCounts(s, e);
    ResolvedFrame(s, s');
    DestroyChecks(s, e, pc);
    hide Checked, Applies, CallOk;
    if e.CallShutdown? { Replaced(s.g.waiters, s.g.inWaiters, s.calls, s.own); }
    Assembled(s');
  }

  /** Destroy's shutdown call starts from an idle caller, which was neither owner nor waiter. */
  lemma Replaced(waiters: int, inWaiters: set<nat>, calls: seq<CPc>, o: OPc)
    requires WaitersOk(waiters, inWaiters, calls) && OthersWait(calls) && calls[0].CIdle? && OwnedBy(calls, o)
    ensures WaitersOk(waiters, inWaiters, calls[0 := CLoad]) && OthersWait(calls[0 := CLoad])
    ensures OwnedBy(calls[0 := CLoad], o)
  {
  }

  lemma Assembled(s: Pool)
    requires OwnedBy(s.calls, s.own) && WaitersOk(s.g.waiters, s.g.inWaiters, s.calls)
    requires s.g.destroying && s.des != DIdle && OthersWait(s.calls)
    requires if s.des == DShutdown then s.calls[0] == CLoad else s.calls[0].CIdle?
    requires Checked(s.des) >= 4 ==> CallsIdle(s.calls)
    requires Checked(s.des) >= 3 ==> s.g.life == Stopped
    requires Checked(s.des) >= 5 ==> Resolved(s)
    requires Checked(s.des) >= 6 ==> SubsIdle(s.subs)
    ensures DesInv(s)
  {
    hide Resolved, SubsIdle, OwnedBy, WaitersOk, CallsIdle;
  }

  lemma NoneWaits(waiters: int, inWaiters: set<nat>, calls: seq<CPc>)
    requires WaitersOk(waiters, inWaiters, calls) && waiters <= 0
    ensures forall c :: 0 <= c < |calls| ==> !IsWaiter(calls[c])
  {
    forall c: nat | c < |calls|
      ensures !IsWaiter(calls[c])
    {
      assert c !in inWaiters;
    }
  }

  lemma NoneInside(g: Globals, subs: seq<Sub>)
    requires CountOk(g, subs) && g.api <= 0
    ensures SubsIdle(subs)
  {
    forall t: Tid | t < |subs|
      ensures subs[t].pc.SIdle?
    {
      assert t !in g.inApi;
    }
  }

  lemma NextDestroy(s: Pool, s': Pool)
    requires JoinInv(s) && RetInv(s) && LogInv(s) && DesInv(s) && Next(s, s')
    ensures DesInv(s')
  {
    assert CountOk(s.g, s.subs) by { hide JoinInv, RetInv, DesInv, Next; }
    hide JoinInv, RetInv, LogInv, DesInv, CountOk, WorkerStep, SubStep, CallStep, OwnerStep, SupStep, DestroyStep;
    if i :| 0 <= i < |s.ws| && WorkerStep(s, i, s') { WorkerDestroy(s, i, s'); }
    else if t, e, pc :| 0 <= t < |s.subs| && SubStep(s, t, e, pc, s') { SubDestroy(s, t, e, pc, s'); }
    else if c :| 0 <= c < |s.calls| && CallStep(s, c, s') { CallDestroy(s, c, s'); }
    else if e, pc :| OwnerStep(s, e, pc, s') { OwnerDestroy(s, e, pc, s'); }
    else if e, pc :| SupStep(s, e, pc, s') { SupDestroy(s, e, pc, s'); }
    else if e, pc :| DestroyStep(s, e, pc, s') { DestroyDestroy(s, e, pc, s'); }
    else { ResolvedFrame(s, s'); FrameDestroy(s, s'); }
  }

  lemma {:induction false} RunDestroy(tr: seq<Pool>, n: nat)
    requires Run(tr) && n < |tr|
    ensures JoinInv(tr[n]) && RetInv(tr[n]) && LogInv(tr[n]) && DesInv(tr[n])
  {
    hide JoinInv, RetInv, LogInv, DesInv, Next, Init;
    RunReturns(tr, n);
    RunLogs(tr, n);
    if n == 0 {
      InitDestroy(tr[0]);
    } else {
      RunDestroy(tr, n - 1);
      assert NextAt(tr, n - 1);
      NextDestroy(tr[n - 1], tr[n]);
    }
  }

  // ---- theorems ---------------------------------------------------------------

  /** In every run shutdown_waiters is the number of shutdown calls inside their counted wait. */
  lemma WaitersCounted(tr: seq<Pool>, n: nat)
    requires Run(tr) && n < |tr|
    ensures tr[n].g.waiters == |tr[n].g.inWaiters|
    ensures forall c: nat :: c in tr[n].g.inWaiters <==> c < |tr[n].calls| && IsWaiter(tr[n].calls[c])
  {
    RunDestroy(tr, n);
    hide Run, JoinInv, RetInv, LogInv;
  }

  /** What destroy has established when it frees the pool. */
  lemma Freed(tr: seq<Pool>, n: nat)
    requires Run(tr) && n < |tr| && (tr[n].des == DFree || tr[n].des == DFreed)
    ensures PathFits(tr[n]) && FlagsOk(tr[n].g, tr[n].own) && tr[n].g.destroying && tr[n].g.life == Stopped
    ensures SubsIdle(tr[n].subs) && CallsIdle(tr[n].calls) && OwnedBy(tr[n].calls, tr[n].own) && tr[n].g.waiters == 0
    ensures Resolved(tr[n])
  {
    RunDestroy(tr, n);
    hide Run;
    FreedState(tr[n]);
  }

  lemma FreedState(s: Pool)
    requires JoinInv(s) && RetInv(s) && DesInv(s) && (s.des == DFree || s.des == DFreed)
    ensures PathFits(s) && FlagsOk(s.g, s.own) && s.g.destroying && s.g.life == Stopped
    ensures SubsIdle(s.subs) && CallsIdle(s.calls) && OwnedBy(s.calls, s.own) && s.g.waiters == 0
    ensures Resolved(s)
  {
    assert CallsIdle(s.calls) && WaitersOk(s.g.waiters, s.g.inWaiters, s.calls) && Resolved(s) by { hide JoinInv, RetInv; }
    IdleCallers(s.g.waiters, s.g.inWaiters, s.calls);
    hide CallsIdle, WaitersOk, Resolved, PathFits, FlagsOk, OwnedBy, SubsIdle, CallersOk;
  }

  lemma IdleCallers(waiters: int, inWaiters: set<nat>, calls: seq<CPc>)
    requires WaitersOk(waiters, inWaiters, calls) && CallsIdle(calls)
    ensures waiters == 0
  {
    assert inWaiters == {};
  }

  lemma IdleCounts(g: Globals, subs: seq<Sub>)
    requires CountOk(g, subs) && SubsIdle(subs)
    ensures g.active == 0 && g.api == 0
  {
    assert g.inActive == {} && g.inApi == {} by {
      forall t: Tid | t < |subs|
        ensures !Counted(subs[t].pc) && subs[t].pc.SIdle?
      {
      }
    }
  }

  /** A position that is not published belongs to a call that has not returned. */
  lemma IdlePublished(ws: seq<Worker>, subs: seq<Sub>)
    requires EntriesOk(ws, subs) && SubsIdle(subs)
    ensures forall w, p :: 0 <= w < |ws| && 0 <= p < |ws[w].log| ==> ws[w].log[p].ready
  {
    forall w: Wid, p: nat | w < |ws| && p < |ws[w].log|
      ensures ws[w].log[p].ready
    {
      assert EntryOk(subs, w, p, ws[w].log[p]);
      assert subs[ws[w].log[p].src].pc.SIdle?;
    }
  }

  /**
    Whenever destroy frees the pool's storage, over every history of shutdowns, quarantines and
    restarts: the pool is stopped, no worker thread and no supervisor thread exists, no submit is
    counted or referenced, no claimed position is still unpublished, and no shutdown call is under way.
   */
  lemma ReclaimIsSafe(tr: seq<Pool>, n: nat)
    requires Run(tr) && n < |tr| && (tr[n].des == DFree || tr[n].des == DFreed)
    ensures tr[n].g.life == Stopped && tr[n].g.active == 0 && tr[n].g.api == 0 && tr[n].g.waiters == 0
    ensures forall i :: 0 <= i < |tr[n].ws| ==> tr[n].ws[i].ctl.thread == Absent && tr[n].ws[i].ctl.joined
    ensures SupOut(tr[n].cfg, tr[n].g.supJoined, tr[n].sup)
    ensures forall w, p :: 0 <= w < |tr[n].ws| && 0 <= p < |tr[n].ws[w].log| ==> tr[n].ws[w].log[p].ready
    ensures forall c :: 0 <= c < |tr[n].calls| ==> tr[n].calls[c].CIdle?
  {
    Freed(tr, n);
    RunLogs(tr, n);
    var s := tr[n];
    hide Run, PathFits, FlagsOk, SubsOk, OncePosted, OrdersOk, AcceptedOk, OwnedBy, CallsIdle;
    IdleCounts(s.g, s.subs);
    IdlePublished(s.ws, s.subs);
  }

  lemma NoWorker(s: Pool, i: nat, s': Pool)
    requires i < |s.ws| && s.ws[i].ctl.thread == Absent
    ensures !WorkerStep(s, i, s')
  {
  }

  /** After the pool has been freed nothing but time moves: no thread touches it again. */
  lemma NothingAfterFree(tr: seq<Pool>, n: nat)
    requires Run(tr) && n + 1 < |tr| && tr[n].des == DFreed
    ensures Tick(tr[n], tr[n + 1])
  {
    var s, s' := tr[n], tr[n + 1];
    Freed(tr, n);
    assert NextAt(tr, n);
    hide PathFits, FlagsOk, Run, NextAt, SubsIdle, CallsIdle, OwnedBy, SupOut;
    hide WorkerStep, SubStep, CallStep, OwnerStep, SupStep, DestroyStep, Tick;
    forall i | 0 <= i < |s.ws| ensures !WorkerStep(s, i, s') { NoWorker(s, i, s'); }
    forall t: nat, e, pc | t < |s.subs| ensures !SubStep(s, t, e, pc, s') { NoSubmit(s, t, e, pc, s'); }
    forall c: nat | c < |s.calls| ensures !CallStep(s, c, s') { NoCall(s, c, s'); }
    forall e, pc ensures !OwnerStep(s, e, pc, s') { NoOwner(s, e, pc, s'); }
    forall e, pc ensures !SupStep(s, e, pc, s') { NoSup(s, e, pc, s'); }
    forall e, pc ensures !DestroyStep(s, e, pc, s') { NoDestroy(s, e, pc, s'); }
  }

  lemma NoSubmit(s: Pool, t: nat, e: Effect, pc: SPc, s': Pool)
    requires s.g.destroying && SubsIdle(s.subs) && t < |s.subs|
    ensures !SubStep(s, t, e, pc, s')
  {
  }

  lemma NoCall(s: Pool, c: nat, s': Pool)
    requires s.g.destroying && CallsIdle(s.calls) && c < |s.calls|
    ensures !CallStep(s, c, s')
  {
  }

  lemma NoOwner(s: Pool, e: Effect, pc: OPc, s': Pool)
    requires PathFits(s) && FlagsOk(s.g, s.own) && CallsIdle(s.calls) && OwnedBy(s.calls, s.own)
    ensures !OwnerStep(s, e, pc, s')
  {
    hide OwnerDoes, PathFits, FlagsOk, FlagsAfter;
    if OwnerDoes(s, e, pc) { OwnerFlags(s, e, pc); }
  }

  lemma NoSup(s: Pool, e: Effect, pc: UPc, s': Pool)
    requires SupOut(s.cfg, s.g.supJoined, s.sup)
    ensures !SupStep(s, e, pc, s')
  {
    hide SupDoes;
    if SupDoes(s, e, pc) { SupLives(s, e, pc); }
  }

  lemma NoDestroy(s: Pool, e: Effect, pc: DPc, s': Pool)
    requires s.des == DFreed
    ensures !DestroyStep(s, e, pc, s')
  {
  }
}
