/** Concrete runs of a small pool, one step at a time: one worker, one producer, one shutdown caller. */
module PoolReach {
  import opened Pool
  import opened PoolEffects
  import Shard

  ghost predicate Reachable(s: Pool)
  {
    exists tr :: Run(tr) && tr[|tr| - 1] == s
  }

  lemma Extend(s: Pool, s': Pool)
    requires Reachable(s) && Next(s, s')
    ensures Reachable(s')
  {
    hide Next, Init;
    var tr :| Run(tr) && tr[|tr| - 1] == s;
    LongerRun(tr, s');
    hide Run;
    assert (tr + [s'])[|tr + [s']| - 1] == s';
  }

  lemma LongerRun(tr: seq<Pool>, s': Pool)
    requires Run(tr) && Next(tr[|tr| - 1], s')
    ensures Run(tr + [s'])
  {
    hide Next, Init;
    forall n | 0 <= n < |tr|
      ensures NextAt(tr + [s'], n)
    {
      assert n < |tr| - 1 ==> NextAt(tr, n);
    }
  }

  lemma Start(s: Pool)
    requires Init(s)
    ensures Reachable(s)
  {
    hide Init;
    assert Run([s]) && [s][|[s]| - 1] == s;
  }

  function One(cfg: Config, g: Globals, w: Worker, b: Sub, c: CPc, o: OPc, u: UPc): Pool
  {
    Pool(cfg, Shard.Routing(1, 0, []), g, [w], [b], [c], o, u, DIdle)
  }

  // ---- one step of each kind --------------------------------------------------

  lemma WorkerGo(cfg: Config, g: Globals, w: Worker, b: Sub, c: CPc, o: OPc, u: UPc, w': Worker)
    requires Reachable(One(cfg, g, w, b, c, o, u))
    requires WorkerStep(One(cfg, g, w, b, c, o, u), 0, One(cfg, g, w', b, c, o, u))
    ensures Reachable(One(cfg, g, w', b, c, o, u))
  {
    hide WorkerStep, Reachable;
    Extend(One(cfg, g, w, b, c, o, u), One(cfg, g, w', b, c, o, u));
  }

  lemma CallGo(cfg: Config, g: Globals, w: Worker, b: Sub, c: CPc, o: OPc, u: UPc, s': Pool)
    requires Reachable(One(cfg, g, w, b, c, o, u)) && CallStep(One(cfg, g, w, b, c, o, u), 0, s')
    ensures Reachable(s')
  {
    hide CallStep, Reachable;
    Extend(One(cfg, g, w, b, c, o, u), s');
  }

  lemma SubGo(cfg: Config, g: Globals, w: Worker, b: Sub, c: CPc, o: OPc, u: UPc, e: Effect, pc: SPc)
    requires Reachable(One(cfg, g, w, b, c, o, u)) && SubDoes(One(cfg, g, w, b, c, o, u), 0, e, pc)
    requires Applies(One(cfg, g, w, b, c, o, u), e)
    ensures var w' := WorkersAfter(One(cfg, g, w, b, c, o, u), e)[0];
      Reachable(One(cfg, GlobalsAfter(g, cfg.budget, e), w', SubAfter(b, pc), c, o, u))
  {
    hide SubDoes, Reachable, OfSubmitter, GlobalsAfter;
    var s := One(cfg, g, w, b, c, o, u);
    SubmitterEffect(s, 0, e, pc);
    OneWrites(s, e);
    var s' := One(cfg, GlobalsAfter(g, cfg.budget, e), WorkersAfter(s, e)[0], SubAfter(b, pc), c, o, u);
    hide Do, Applies, WorkersAfter, SubAfter;
    assert SubStep(s, 0, e, pc, s');
    hide OwnerStep, WorkerStep, SubStep, CallStep, SupStep, DestroyStep;
    Extend(s, s');
  }

  lemma OneWrites(s: Pool, e: Effect)
    requires |s.ws| == 1 && OfSubmitter(e) && Applies(s, e)
    ensures |WorkersAfter(s, e)| == 1
    ensures Do(s, e) == s.(g := GlobalsAfter(s.g, s.cfg.budget, e), ws := [WorkersAfter(s, e)[0]])
  {
    hide GlobalsAfter;
  }

  lemma OwnerGo(cfg: Config, g: Globals, w: Worker, b: Sub, c: CPc, o: OPc, u: UPc, e: Effect, pc: OPc)
    requires Reachable(One(cfg, g, w, b, c, o, u)) && OwnerDoes(One(cfg, g, w, b, c, o, u), e, pc)
    requires Target(e) <= 0 && !e.ReapSup?
    ensures Reachable(One(cfg, GlobalsAfter(g, cfg.budget, e), WorkerAfter(w, e), b, c, pc, u))
  {
    hide OwnerDoes, Reachable, OwnerKnows, OfOwner, Applies, Do, WorkerAfter, GlobalsAfter, WorkerStep, SubStep,
      CallStep, SupStep, DestroyStep;
    var s := One(cfg, g, w, b, c, o, u);
    OwnerEffect(s, e, pc);
    OneAfter(s, w, e);
    var s' := One(cfg, GlobalsAfter(g, cfg.budget, e), WorkerAfter(w, e), b, c, pc, u);
    assert OwnerStep(s, e, pc, s');
    hide OwnerStep;
    Extend(s, s');
  }

  lemma OwnerReaps(cfg: Config, g: Globals, w: Worker, b: Sub)
    requires Reachable(One(cfg, g, w, b, COwner, OSupWait, UReturned))
    ensures Reachable(One(cfg, g, w, b, COwner, OSupJoined, UReaped))
  {
    hide SubmitsDoes, TeardownDoes, PollDoes, ExitedDoes, QuarantineDoes, StopDoes, WorkerStep, SubStep, CallStep,
      SupStep, DestroyStep, Reachable;
    var s, s' := One(cfg, g, w, b, COwner, OSupWait, UReturned), One(cfg, g, w, b, COwner, OSupJoined, UReaped);
    assert SupJoinDoes(s, ReapSup, OSupJoined);
    assert Do(s, ReapSup).(own := OSupJoined) == s';
    hide SupJoinDoes, Do;
    assert OwnerStep(s, ReapSup, OSupJoined, s');
    hide OwnerStep;
    Extend(s, s');
  }

  lemma SupGo(cfg: Config, g: Globals, w: Worker, b: Sub, c: CPc, o: OPc, u: UPc, e: Effect, pc: UPc)
    requires Reachable(One(cfg, g, w, b, c, o, u)) && SupDoes(One(cfg, g, w, b, c, o, u), e, pc) && Target(e) <= 0
    ensures Reachable(One(cfg, GlobalsAfter(g, cfg.budget, e), WorkerAfter(w, e), b, c, o, pc))
  {
    hide SupDoes, Reachable, SupKnows, OfSupervisor, Applies, Do, WorkerAfter, GlobalsAfter, WorkerStep, SubStep,
      CallStep, OwnerStep, DestroyStep;
    var s := One(cfg, g, w, b, c, o, u);
    SupervisorEffect(s, e, pc);
    SupReapsNone(e);
    OneAfter(s, w, e);
    var s' := One(cfg, GlobalsAfter(g, cfg.budget, e), WorkerAfter(w, e), b, c, o, pc);
    assert SupStep(s, e, pc, s');
    hide SupStep;
    Extend(s, s');
  }

  lemma ScanGo(cfg: Config, g: Globals, w: Worker, b: Sub, c: CPc, o: OPc, u: UPc, e: Effect, pc: UPc)
    requires Reachable(One(cfg, g, w, b, c, o, u)) && ScanDoes(One(cfg, g, w, b, c, o, u), e, pc) && Target(e) < 0
    ensures Reachable(One(cfg, GlobalsAfter(g, cfg.budget, e), w, b, c, o, pc))
  {
    hide ScanDoes, StallDoes, RejoinDoes, StartDoes, Reachable;
    SupGo(cfg, g, w, b, c, o, u, e, pc);
    assert WorkerAfter(w, e) == w;
  }

  lemma PhaseGo(cfg: Config, g: Globals, w: Worker, b: Sub, c: CPc, o: OPc, u: UPc, n: nat, pc: UPc)
    requires Reachable(One(cfg, g, w, b, c, o, u)) && ScanDoes(One(cfg, g, w, b, c, o, u), PutPhase(n), pc)
    ensures Reachable(One(cfg, g.(supPhase := n), w, b, c, o, pc))
  {
    hide ScanDoes, Reachable;
    ScanGo(cfg, g, w, b, c, o, u, PutPhase(n), pc);
    assert GlobalsAfter(g, cfg.budget, PutPhase(n)) == g.(supPhase := n);
  }

  lemma AliveGo(cfg: Config, g: Globals, w: Worker, b: Sub, c: CPc, o: OPc, u: UPc, a: bool, pc: UPc)
    requires Reachable(One(cfg, g, w, b, c, o, u)) && ScanDoes(One(cfg, g, w, b, c, o, u), PutAlive(a), pc)
    ensures Reachable(One(cfg, g.(supAlive := a), w, b, c, o, pc))
  {
    hide ScanDoes, Reachable;
    ScanGo(cfg, g, w, b, c, o, u, PutAlive(a), pc);
    assert GlobalsAfter(g, cfg.budget, PutAlive(a)) == g.(supAlive := a);
  }

  lemma SupReapsNone(e: Effect)
    requires OfSupervisor(e)
    ensures !e.ReapSup?
  {
  }

  lemma OneAfter(s: Pool, w: Worker, e: Effect)
    requires s.ws == [w] && (OfOwner(e) || OfSupervisor(e)) && Target(e) <= 0 && !e.ReapSup?
    ensures Applies(s, e)
    ensures Do(s, e) == s.(g := GlobalsAfter(s.g, s.cfg.budget, e), ws := [WorkerAfter(w, e)])
  {
    hide GlobalsAfter;
  }

  // ---- steps that only look ---------------------------------------------------

  lemma NopChangesNothing(g: Globals, budget: nat)
    ensures GlobalsAfter(g, budget, Nop) == g
  {
  }

  lemma SubPass(cfg: Config, g: Globals, w: Worker, b: Sub, c: CPc, o: OPc, u: UPc, pc: SPc)
    requires Reachable(One(cfg, g, w, b, c, o, u)) && SubDoes(One(cfg, g, w, b, c, o, u), 0, Nop, pc) && !b.pc.SIdle?
    ensures Reachable(One(cfg, g, w, Sub(pc, b.calls), c, o, u))
  {
    hide SubDoes, Reachable;
    SubGo(cfg, g, w, b, c, o, u, Nop, pc);
    NopChangesNothing(g, cfg.budget);
  }

  lemma SupPass(cfg: Config, g: Globals, w: Worker, b: Sub, c: CPc, o: OPc, u: UPc, pc: UPc)
    requires Reachable(One(cfg, g, w, b, c, o, u)) && SupDoes(One(cfg, g, w, b, c, o, u), Nop, pc)
    ensures Reachable(One(cfg, g, w, b, c, o, pc))
  {
    hide SupDoes, Reachable;
    SupGo(cfg, g, w, b, c, o, u, Nop, pc);
    NopChangesNothing(g, cfg.budget);
  }

  lemma OwnerPass(cfg: Config, g: Globals, w: Worker, b: Sub, o: OPc, u: UPc, pc: OPc)
    requires Reachable(One(cfg, g, w, b, COwner, o, u)) && OwnerDoes(One(cfg, g, w, b, COwner, o, u), Nop, pc)
    ensures Reachable(One(cfg, g, w, b, COwner, pc, u))
  {
    hide OwnerDoes, Reachable;
    OwnerGo(cfg, g, w, b, COwner, o, u, Nop, pc);
    NopChangesNothing(g, cfg.budget);
  }

  lemma StopPass(cfg: Config, g: Globals, w: Worker, b: Sub, o: OPc, u: UPc, pc: OPc)
    requires Reachable(One(cfg, g, w, b, COwner, o, u)) && StopDoes(One(cfg, g, w, b, COwner, o, u), Nop, pc)
    ensures Reachable(One(cfg, g, w, b, COwner, pc, u))
  {
    hide SubmitsDoes, SupJoinDoes, TeardownDoes, PollDoes, ExitedDoes, QuarantineDoes, StopDoes, Reachable;
    OwnerPass(cfg, g, w, b, o, u, pc);
  }

  lemma SupJoinPass(cfg: Config, g: Globals, w: Worker, b: Sub, o: OPc, u: UPc, pc: OPc)
    requires Reachable(One(cfg, g, w, b, COwner, o, u)) && SupJoinDoes(One(cfg, g, w, b, COwner, o, u), Nop, pc)
    ensures Reachable(One(cfg, g, w, b, COwner, pc, u))
  {
    hide SubmitsDoes, SupJoinDoes, TeardownDoes, PollDoes, ExitedDoes, QuarantineDoes, StopDoes, Reachable;
    OwnerPass(cfg, g, w, b, o, u, pc);
  }

  lemma JoinPass(cfg: Config, g: Globals, w: Worker, b: Sub, j: JPc, u: UPc, pc: OPc)
    requires Reachable(One(cfg, g, w, b, COwner, OJoin(0, j), u))
    requires var s := One(cfg, g, w, b, COwner, OJoin(0, j), u); PollDoes(s, Nop, pc) || ExitedDoes(s, Nop, pc)
    ensures Reachable(One(cfg, g, w, b, COwner, pc, u))
  {
    hide SubmitsDoes, SupJoinDoes, TeardownDoes, PollDoes, ExitedDoes, QuarantineDoes, StopDoes, Reachable;
    OwnerPass(cfg, g, w, b, OJoin(0, j), u, pc);
  }
}
