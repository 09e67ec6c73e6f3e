/**
  When the drain guarantee fails. A claim is counted in active_submits only after it has won its
  position, so shutdown may read zero and drain before the commit. And a worker that a stalled
  supervisor asked to stop may end before a later submit, whose message the residual drain then
  abandons although shutdown returns 0. Concrete runs show both and make the condition exact.
 */
module PoolDrainGap {
  import opened Pool
  import opened PoolDrain
  import opened PoolLogs
  import opened PoolReach
  import Shard
  import opened Options

  /** Nothing has gone wrong: no quarantine, no abort, nobody counted, no destroy. */
  predicate Fine(g: Globals)
  {
    !g.quarantined && g.aborts == 0 && g.active == 0 && !g.destroying && g.canClose
  }

  /** Fine, running, and no shutdown yet. */
  predicate Open(g: Globals) { Fine(g) && g.life == Running && !g.supStop }

  // ---- submitting -------------------------------------------------------------

  /** The producer's calls: one key, and the only shard there is. */
  const SUBMIT := Submit(Shard.Key(None, None, false))
  const CLAIM := Claim(0)

  lemma OneRoute(k: Kind)
    ensures Route(Shard.Routing(1, 0, []), k) == 0
  {
  }

  function Posted(w: Worker, e: Entry): Worker { w.(log := w.log + [e]) }

  /** One whole awp_submit of the producer's next call, accepted at the end of the log. */
  lemma Submits(cfg: Config, g: Globals, w: Worker, b: Sub, u: UPc) returns (g': Globals)
    requires b.pc.SIdle? && Open(g) && !w.closed && |w.log| < |w.fate| + cfg.cap
    requires Reachable(One(cfg, g, w, b, CIdle(NoRet), ONone, u))
    ensures var k := b.calls + 1;
      Reachable(One(cfg, g', Posted(w, Entry(0, k, SUBMIT, true)), Sub(SIdle(Accepted(0, |w.log|)), k), CIdle(NoRet), ONone, u))
    ensures Open(g') && (0, |w.log|) in g'.accepted && g'.supJoined == g.supJoined
  {
    hide Reachable;
    var c, o, k, pos := CIdle(NoRet), ONone, b.calls + 1, |w.log|;
    var g1 := Enters(cfg, g, w, b, u);
    SubGo(cfg, g1, w, Sub(SCas(SUBMIT, 0), k), c, o, u, Reserve(0, 0, SUBMIT), SPublish(SUBMIT, 0, pos));
    assert GlobalsAfter(g1, cfg.budget, Reserve(0, 0, SUBMIT)) == g1;
    var w' := Posted(w, Entry(0, k, SUBMIT, false));
    assert w'.log[pos := Entry(0, k, SUBMIT, true)] == w.log + [Entry(0, k, SUBMIT, true)];
    g' := Publishes(cfg, g1, w', pos, k, SUBMIT, c, o, u);
  }

  lemma Enters(cfg: Config, g: Globals, w: Worker, b: Sub, u: UPc) returns (g': Globals)
    requires b.pc.SIdle? && Open(g) && !w.closed
    requires Reachable(One(cfg, g, w, b, CIdle(NoRet), ONone, u))
    ensures Reachable(One(cfg, g', w, Sub(SCas(SUBMIT, 0), b.calls + 1), CIdle(NoRet), ONone, u))
    ensures Open(g'.(active := 0)) && g'.active == 1 && g'.supJoined == g.supJoined
  {
    hide Reachable;
    var c, o, k := CIdle(NoRet), ONone, b.calls + 1;
    var g1 := GlobalsAfter(g, cfg.budget, Enter(0));
    OneRoute(SUBMIT);
    hide Route;
    SubGo(cfg, g, w, b, c, o, u, Enter(0), SIn(SUBMIT));
    g' := GlobalsAfter(g1, cfg.budget, Raise(0));
    SubGo(cfg, g1, w, Sub(SIn(SUBMIT), k), c, o, u, Raise(0), SLife(SUBMIT, 0));
    Passes(cfg, g', w, k, u);
  }

  /** The three checks before the claiming exchange. */
  lemma Passes(cfg: Config, g: Globals, w: Worker, k: nat, u: UPc)
    requires Open(g.(active := 0)) && !w.closed
    requires Reachable(One(cfg, g, w, Sub(SLife(SUBMIT, 0), k), CIdle(NoRet), ONone, u))
    ensures Reachable(One(cfg, g, w, Sub(SCas(SUBMIT, 0), k), CIdle(NoRet), ONone, u))
  {
    hide Reachable;
    var c, o := CIdle(NoRet), ONone;
    SubPass(cfg, g, w, Sub(SLife(SUBMIT, 0), k), c, o, u, SFlags(SUBMIT, 0));
    SubPass(cfg, g, w, Sub(SFlags(SUBMIT, 0), k), c, o, u, SClosed(SUBMIT, 0));
    SubPass(cfg, g, w, Sub(SClosed(SUBMIT, 0), k), c, o, u, SCas(SUBMIT, 0));
  }

  /** From the reserved position to the return of 0. */
  lemma Publishes(cfg: Config, g: Globals, w: Worker, pos: nat, k: nat, kind: Kind, c: CPc, o: OPc, u: UPc)
    returns (g': Globals)
    requires pos < |w.log| && w.log[pos] == Entry(0, k, kind, false)
    requires Reachable(One(cfg, g, w, Sub(SPublish(kind, 0, pos), k), c, o, u))
    ensures var w' := w.(log := w.log[pos := Entry(0, k, kind, true)]);
      Reachable(One(cfg, g', w', Sub(SIdle(Accepted(0, pos)), k), c, o, u))
    ensures (0, pos) in g'.accepted && g'.active == g.active - 1 && g'.clk == g.clk && g'.life == g.life
    ensures g'.quarantined == g.quarantined && g'.aborts == g.aborts && g'.destroying == g.destroying
    ensures g'.canClose == g.canClose && g'.supStop == g.supStop && g'.supJoined == g.supJoined
  {
    hide Reachable;
    SubGo(cfg, g, w, Sub(SPublish(kind, 0, pos), k), c, o, u, Publish(0, pos), SCount(0, pos));
    var g1, w' := GlobalsAfter(g, cfg.budget, Publish(0, pos)), w.(log := w.log[pos := Entry(0, k, kind, true)]);
    SubGo(cfg, g1, w', Sub(SCount(0, pos), k), c, o, u, CountSubmit, SLower(0, pos));
    var g2 := GlobalsAfter(g1, cfg.budget, CountSubmit);
    g' := Accepts(cfg, g2, w', pos, k, c, o, u);
  }

  lemma Accepts(cfg: Config, g2: Globals, w': Worker, pos: nat, k: nat, c: CPc, o: OPc, u: UPc) returns (g': Globals)
    requires Reachable(One(cfg, g2, w', Sub(SLower(0, pos), k), c, o, u))
    ensures Reachable(One(cfg, g', w', Sub(SIdle(Accepted(0, pos)), k), c, o, u))
    ensures (0, pos) in g'.accepted && g'.active == g2.active - 1 && g'.clk == g2.clk && g'.life == g2.life
    ensures g'.quarantined == g2.quarantined && g'.aborts == g2.aborts && g'.destroying == g2.destroying
    ensures g'.canClose == g2.canClose && g'.supStop == g2.supStop && g'.supJoined == g2.supJoined
  {
    hide Reachable;
    SubGo(cfg, g2, w', Sub(SLower(0, pos), k), c, o, u, Lower(0), SLeave(Accepted(0, pos)));
    var g3 := GlobalsAfter(g2, cfg.budget, Lower(0));
    SubGo(cfg, g3, w', Sub(SLeave(Accepted(0, pos)), k), c, o, u, Leave(0, Accepted(0, pos)), SIdle(Accepted(0, pos)));
    g' := GlobalsAfter(g3, cfg.budget, Leave(0, Accepted(0, pos)));
  }

  // ---- claiming ---------------------------------------------------------------

  /** The producer wins position 0 and is about to be counted. */
  lemma Claims(cfg: Config, g: Globals, w: Worker, u: UPc) returns (g': Globals)
    requires cfg.cap > 0 && cfg.claims && w.log == [] && w.fate == [] && !w.closed && Open(g)
    requires Reachable(One(cfg, g, w, Sub(SIdle(NoAnswer), 0), CIdle(NoRet), ONone, u))
    ensures Reachable(One(cfg, g', w.(log := [Entry(0, 1, CLAIM, false)]), Sub(SRaise(0, 0), 1), CIdle(NoRet), ONone, u))
    ensures Open(g') && g'.supJoined == g.supJoined
  {
    hide Reachable;
    var c, o := CIdle(NoRet), ONone;
    g' := GlobalsAfter(g, cfg.budget, Enter(0));
    SubGo(cfg, g, w, Sub(SIdle(NoAnswer), 0), c, o, u, Enter(0), SIn(CLAIM));
    OneRoute(CLAIM);
    SubPass(cfg, g', w, Sub(SIn(CLAIM), 1), c, o, u, SLife(CLAIM, 0));
    SubPass(cfg, g', w, Sub(SLife(CLAIM, 0), 1), c, o, u, SFlags(CLAIM, 0));
    SubPass(cfg, g', w, Sub(SFlags(CLAIM, 0), 1), c, o, u, SClosed(CLAIM, 0));
    SubPass(cfg, g', w, Sub(SClosed(CLAIM, 0), 1), c, o, u, SCas(CLAIM, 0));
    Wins(cfg, g', w, u);
  }

  lemma Wins(cfg: Config, g: Globals, w: Worker, u: UPc)
    requires cfg.cap > 0 && w.log == [] && w.fate == []
    requires Reachable(One(cfg, g, w, Sub(SCas(CLAIM, 0), 1), CIdle(NoRet), ONone, u))
    ensures Reachable(One(cfg, g, w.(log := [Entry(0, 1, CLAIM, false)]), Sub(SRaise(0, 0), 1), CIdle(NoRet), ONone, u))
  {
    hide Reachable;
    SubGo(cfg, g, w, Sub(SCas(CLAIM, 0), 1), CIdle(NoRet), ONone, u, Reserve(0, 0, CLAIM), SRaise(0, 0));
    assert w.log + [Entry(0, 1, CLAIM, false)] == [Entry(0, 1, CLAIM, false)];
    assert GlobalsAfter(g, cfg.budget, Reserve(0, 0, CLAIM)) == g;
  }

  /** The claim is counted, committed and accepted after all. */
  lemma Commits(cfg: Config, g: Globals, w: Worker, c: CPc, o: OPc, u: UPc) returns (g': Globals)
    requires w.log == [Entry(0, 1, CLAIM, false)]
    requires Reachable(One(cfg, g, w, Sub(SRaise(0, 0), 1), c, o, u))
    ensures Reachable(One(cfg, g', w.(log := [Entry(0, 1, CLAIM, true)]), Sub(SIdle(Accepted(0, 0)), 1), c, o, u))
    ensures (0, 0) in g'.accepted
  {
    hide Reachable;
    SubGo(cfg, g, w, Sub(SRaise(0, 0), 1), c, o, u, Raise(0), SHeld(0, 0));
    var g1 := GlobalsAfter(g, cfg.budget, Raise(0));
    SubPass(cfg, g1, w, Sub(SHeld(0, 0), 1), c, o, u, SPublish(CLAIM, 0, 0));
    assert w.log[0 := Entry(0, 1, CLAIM, true)] == [Entry(0, 1, CLAIM, true)];
    g' := Publishes(cfg, g1, w, 0, 1, CLAIM, c, o, u);
  }

  // ---- shutdown ---------------------------------------------------------------

  /** Shutdown wins, reads active_submits as zero, and turns to the supervisor. */
  lemma Begins(cfg: Config, g: Globals, w: Worker, b: Sub, u: UPc) returns (g': Globals)
    requires Open(g) && cfg.budget > 0
    requires Reachable(One(cfg, g, w, b, CIdle(NoRet), ONone, u))
    ensures Reachable(One(cfg, g', w, b, COwner, OSupTest, u))
    ensures Fine(g') && g'.life == Draining && !TimeUp(g'.clk) && g'.accepted == g.accepted && g'.supJoined == g.supJoined
  {
    hide Reachable;
    CallGo(cfg, g, w, b, CIdle(NoRet), ONone, u, One(cfg, g, w, b, CLoad, ONone, u));
    CallGo(cfg, g, w, b, CLoad, ONone, u, One(cfg, g, w, b, CCas, ONone, u));
    var g1 := g.(life := Quiescing);
    CallGo(cfg, g, w, b, CCas, ONone, u, One(cfg, g1, w, b, COwner, OStart, u));
    g' := Quiesces(cfg, g1, w, b, u);
  }

  lemma Quiesces(cfg: Config, g: Globals, w: Worker, b: Sub, u: UPc) returns (g': Globals)
    requires Fine(g) && cfg.budget > 0
    requires Reachable(One(cfg, g, w, b, COwner, OStart, u))
    ensures Reachable(One(cfg, g', w, b, COwner, OSupTest, u))
    ensures Fine(g') && g'.life == Draining && !TimeUp(g'.clk) && g'.accepted == g.accepted && g'.supJoined == g.supJoined
  {
    hide Reachable, SupJoinDoes, TeardownDoes, PollDoes, ExitedDoes, QuarantineDoes, StopDoes;
    OwnerGo(cfg, g, w, b, COwner, OStart, u, StartClock, OSubs);
    var g1 := GlobalsAfter(g, cfg.budget, StartClock);
    OwnerPass(cfg, g1, w, b, OSubs, u, OSubsCheck);
    g' := Drains(cfg, g1, w, b, u);
  }

  lemma Drains(cfg: Config, g1: Globals, w: Worker, b: Sub, u: UPc) returns (g': Globals)
    requires Fine(g1) && !TimeUp(g1.clk)
    requires Reachable(One(cfg, g1, w, b, COwner, OSubsCheck, u))
    ensures Reachable(One(cfg, g', w, b, COwner, OSupTest, u))
    ensures Fine(g') && g'.life == Draining && !TimeUp(g'.clk) && g'.accepted == g1.accepted && g'.supJoined == g1.supJoined
  {
    hide Reachable, SupJoinDoes, TeardownDoes, PollDoes, ExitedDoes, QuarantineDoes, StopDoes;
    OwnerPass(cfg, g1, w, b, OSubsCheck, u, OSupStop);
    OwnerGo(cfg, g1, w, b, COwner, OSupStop, u, PutSupStop, OSetDraining);
    var g2 := GlobalsAfter(g1, cfg.budget, PutSupStop);
    OwnerGo(cfg, g2, w, b, COwner, OSetDraining, u, PutLife(Draining), OSupTest);
    g' := GlobalsAfter(g2, cfg.budget, PutLife(Draining));
  }

  /** Where the supervisor stands when shutdown begins. */
  predicate Waiting(cfg: Config, u: UPc)
  {
    if cfg.supervised then u == UBorn || u == TGrace(0) else u == UNone
  }

  function Out(cfg: Config): UPc { if cfg.supervised then UReaped else UNone }

  /** The supervisor, if there is one, sees the pool no longer running, returns and is joined. */
  lemma SupervisorEnds(cfg: Config, g: Globals, w: Worker, b: Sub, u: UPc) returns (g': Globals)
    requires Waiting(cfg, u) && Fine(g) && g.life == Draining && !TimeUp(g.clk) && g.supJoined == !cfg.supervised
    requires Reachable(One(cfg, g, w, b, COwner, OSupTest, u))
    ensures Reachable(One(cfg, g', w, b, COwner, OClose(0), Out(cfg)))
    ensures Fine(g') && g'.clk == g.clk && g'.accepted == g.accepted
  {
    hide Reachable;
    if cfg.supervised {
      var g1 := LeavesLoop(cfg, g, w, b, u);
      var g2 := Returns(cfg, g1, w, b);
      Awaits(cfg, g2, w, b);
      OwnerReaps(cfg, g2, w, b);
      OwnerGo(cfg, g2, w, b, COwner, OSupJoined, UReaped, PutSupJoined, OClose(0));
      g' := GlobalsAfter(g2, cfg.budget, PutSupJoined);
    } else {
      SupJoinPass(cfg, g, w, b, OSupTest, UNone, OClose(0));
      g' := g;
    }
  }

  lemma LeavesLoop(cfg: Config, g: Globals, w: Worker, b: Sub, u: UPc) returns (g': Globals)
    requires (u == UBorn || u == TGrace(0)) && Fine(g) && g.life == Draining
    requires Reachable(One(cfg, g, w, b, COwner, OSupTest, u))
    ensures Reachable(One(cfg, g', w, b, COwner, OSupTest, UExit))
    ensures Fine(g') && g'.life == Draining && g'.clk == g.clk && g'.accepted == g.accepted && g'.supJoined == g.supJoined
  {
    hide Reachable, StallDoes, RejoinDoes, StartDoes;
    g' := g;
    if u == UBorn {
      PhaseGo(cfg, g, w, b, COwner, OSupTest, UBorn, 2, UAlive);
      AliveGo(cfg, g.(supPhase := 2), w, b, COwner, OSupTest, UAlive, true, ULoop);
      g' := g.(supPhase := 2, supAlive := true);
    } else {
      LeavesStall(cfg, g, w, b);
    }
    SupPass(cfg, g', w, b, COwner, OSupTest, ULoop, UExit);
  }

  lemma LeavesStall(cfg: Config, g: Globals, w: Worker, b: Sub)
    requires g.life == Draining
    requires Reachable(One(cfg, g, w, b, COwner, OSupTest, TGrace(0)))
    ensures Reachable(One(cfg, g, w, b, COwner, OSupTest, ULoop))
  {
    hide Reachable, RejoinDoes, StartDoes;
    SupPass(cfg, g, w, b, COwner, OSupTest, TGrace(0), TRunning(0));
    SupPass(cfg, g, w, b, COwner, OSupTest, TRunning(0), USleep);
    SupPass(cfg, g, w, b, COwner, OSupTest, USleep, ULoop);
  }

  lemma Returns(cfg: Config, g: Globals, w: Worker, b: Sub) returns (g': Globals)
    requires Fine(g)
    requires Reachable(One(cfg, g, w, b, COwner, OSupTest, UExit))
    ensures Reachable(One(cfg, g', w, b, COwner, OSupTest, UReturned))
    ensures Fine(g') && g'.supPhase == 3 && g'.clk == g.clk && g'.accepted == g.accepted && g'.supJoined == g.supJoined
  {
    hide Reachable;
    PhaseGo(cfg, g, w, b, COwner, OSupTest, UExit, 3, UDead);
    AliveGo(cfg, g.(supPhase := 3), w, b, COwner, OSupTest, UDead, false, UReturned);
    g' := g.(supPhase := 3, supAlive := false);
  }

  lemma Awaits(cfg: Config, g: Globals, w: Worker, b: Sub)
    requires cfg.supervised && !g.supJoined && g.supPhase == 3 && !TimeUp(g.clk)
    requires Reachable(One(cfg, g, w, b, COwner, OSupTest, UReturned))
    ensures Reachable(One(cfg, g, w, b, COwner, OSupWait, UReturned))
  {
    hide Reachable;
    SupJoinPass(cfg, g, w, b, OSupTest, UReturned, OSupClock);
    SupJoinPass(cfg, g, w, b, OSupClock, UReturned, OSupPhase);
    SupJoinPass(cfg, g, w, b, OSupPhase, UReturned, OSupFinal);
    SupJoinPass(cfg, g, w, b, OSupFinal, UReturned, OSupJoin);
    SupJoinPass(cfg, g, w, b, OSupJoin, UReturned, OSupWait);
  }

  lemma ClosesRing(cfg: Config, g: Globals, w: Worker, b: Sub, u: UPc)
    requires Reachable(One(cfg, g, w, b, COwner, OClose(0), u))
    ensures Reachable(One(cfg, g, w.(closed := true), b, COwner, OJoin(0, JJoined), u))
  {
    hide Reachable, SubmitsDoes, SupJoinDoes, PollDoes, ExitedDoes, QuarantineDoes, StopDoes;
    OwnerGo(cfg, g, w, b, COwner, OClose(0), u, PutClosed(0, true), OClose(1));
    assert GlobalsAfter(g, cfg.budget, PutClosed(0, true)) == g;
    OwnerPass(cfg, g, w.(closed := true), b, OClose(1), u, OJoin(0, JJoined));
  }

  /** A worker that has returned is joined in time. */
  lemma JoinsWorker(cfg: Config, g: Globals, w: Worker, b: Sub, u: UPc)
    requires w.ctl == Ctl(Exited, false, Returned) && !TimeUp(g.clk)
    requires Reachable(One(cfg, g, w, b, COwner, OJoin(0, JJoined), u))
    ensures Reachable(One(cfg, g, w.(ctl := Ctl(Joined, true, Absent)), b, COwner, ODrainTest(0), u))
  {
    hide Reachable, ExitedDoes;
    JoinPass(cfg, g, w, b, JJoined, u, OJoin(0, JState));
    JoinPass(cfg, g, w, b, JState, u, OJoin(0, JPoll));
    JoinPass(cfg, g, w, b, JPoll, u, OJoin(0, JReload));
    JoinPass(cfg, g, w, b, JReload, u, OJoin(0, XJoined(false)));
    AwaitsWorker(cfg, g, w, b, u);
  }

  lemma AwaitsWorker(cfg: Config, g: Globals, w: Worker, b: Sub, u: UPc)
    requires w.ctl == Ctl(Exited, false, Returned) && !TimeUp(g.clk)
    requires Reachable(One(cfg, g, w, b, COwner, OJoin(0, XJoined(false)), u))
    ensures Reachable(One(cfg, g, w.(ctl := Ctl(Joined, true, Absent)), b, COwner, ODrainTest(0), u))
  {
    hide Reachable, PollDoes;
    JoinPass(cfg, g, w, b, XJoined(false), u, OJoin(0, XClock(false)));
    JoinPass(cfg, g, w, b, XClock(false), u, OJoin(0, XWait(false)));
    ReapsWorker(cfg, g, w, b, u);
  }

  lemma ReapsWorker(cfg: Config, g: Globals, w: Worker, b: Sub, u: UPc)
    requires w.ctl == Ctl(Exited, false, Returned)
    requires Reachable(One(cfg, g, w, b, COwner, OJoin(0, XWait(false)), u))
    ensures Reachable(One(cfg, g, w.(ctl := Ctl(Joined, true, Absent)), b, COwner, ODrainTest(0), u))
  {
    hide Reachable;
    var w1, w2 := w.(ctl := Ctl(Exited, false, Absent)), w.(ctl := Ctl(Exited, true, Absent));
    Joining(cfg, g, w, b, XWait(false), u, Reap(0), OJoin(0, XSetJoined(false)));
    Joining(cfg, g, w1, b, XSetJoined(false), u, PutJoined(0, true), OJoin(0, XSetState(false)));
    Joining(cfg, g, w2, b, XSetState(false), u, PutState(0, Joined), ODrainTest(0));
  }

  /** A step of the bounded join that writes only the worker's controls. */
  lemma Joining(cfg: Config, g: Globals, w: Worker, b: Sub, j: JPc, u: UPc, e: Effect, pc: OPc)
    requires e == Reap(0) || e == PutJoined(0, true) || e == PutState(0, Joined)
    requires ExitedDoes(One(cfg, g, w, b, COwner, OJoin(0, j), u), e, pc)
    requires Reachable(One(cfg, g, w, b, COwner, OJoin(0, j), u))
    ensures Reachable(One(cfg, g, WorkerAfter(w, e), b, COwner, pc, u))
  {
    hide Reachable, ExitedDoes, PollDoes, WorkerAfter;
    OwnerGo(cfg, g, w, b, COwner, OJoin(0, j), u, e, pc);
    assert GlobalsAfter(g, cfg.budget, e) == g;
  }

  /** The residual drain finds no published head and moves on. */
  lemma FindsNothing(cfg: Config, g: Globals, w: Worker, b: Sub, o: OPc, u: UPc)
    requires (o == ODrainTest(0) || o == ODrain(0)) && w.ctl.state == Joined && w.closed && !HeadReady(w) && !TimeUp(g.clk)
    requires Reachable(One(cfg, g, w, b, COwner, o, u))
    ensures Reachable(One(cfg, g, w, b, COwner, OAny(0), u))
  {
    hide Reachable, SubmitsDoes, SupJoinDoes, PollDoes, ExitedDoes, QuarantineDoes, StopDoes;
    if o == ODrainTest(0) { OwnerPass(cfg, g, w, b, ODrainTest(0), u, ODrain(0)); }
    OwnerPass(cfg, g, w, b, ODrain(0), u, ODrainPop(0));
    OwnerPass(cfg, g, w, b, ODrainPop(0), u, OAny(0));
  }

  /** The residual drain abandons the one message left. */
  lemma Abandons(cfg: Config, g: Globals, w: Worker, b: Sub, u: UPc) returns (g': Globals)
    requires w.ctl.state == Joined && HeadReady(w) && !TimeUp(g.clk) && Fine(g)
    requires Reachable(One(cfg, g, w, b, COwner, ODrainTest(0), u))
    ensures Reachable(One(cfg, g', w.(fate := w.fate + [Abandoned]), b, COwner, ODrain(0), u))
    ensures Fine(g') && g'.clk == g.clk && g'.accepted == g.accepted
  {
    hide Reachable, SubmitsDoes, SupJoinDoes, PollDoes, ExitedDoes, QuarantineDoes, StopDoes;
    OwnerPass(cfg, g, w, b, ODrainTest(0), u, ODrain(0));
    OwnerPass(cfg, g, w, b, ODrain(0), u, ODrainPop(0));
    OwnerGo(cfg, g, w, b, COwner, ODrainPop(0), u, Abandon(0), ODrain(0));
    g' := GlobalsAfter(g, cfg.budget, Abandon(0));
  }

  /** Shutdown publishes STOPPED and returns 0. */
  lemma Stops(cfg: Config, g: Globals, w: Worker, b: Sub, u: UPc) returns (g': Globals)
    requires w.ctl.state == Joined && Fine(g)
    requires Reachable(One(cfg, g, w, b, COwner, OAny(0), u))
    ensures Reachable(One(cfg, g', w, b, CIdle(Ret(0)), OOver, u)) && g'.accepted == g.accepted
  {
    hide Reachable, SubmitsDoes, SupJoinDoes, TeardownDoes, PollDoes, ExitedDoes, QuarantineDoes;
    StopPass(cfg, g, w, b, OAny(0), u, OAny(1));
    StopPass(cfg, g, w, b, OAny(1), u, OAnyActive);
    StopPass(cfg, g, w, b, OAnyActive, u, OPersist);
    StopPass(cfg, g, w, b, OPersist, u, OStop);
    OwnerGo(cfg, g, w, b, COwner, OStop, u, PutLife(Stopped), OAborts);
    g' := GlobalsAfter(g, cfg.budget, PutLife(Stopped));
    Answers(cfg, g', w, b, u);
  }

  lemma Answers(cfg: Config, g: Globals, w: Worker, b: Sub, u: UPc)
    requires !g.quarantined && g.aborts == 0
    requires Reachable(One(cfg, g, w, b, COwner, OAborts, u))
    ensures Reachable(One(cfg, g, w, b, CIdle(Ret(0)), OOver, u))
  {
    hide Reachable;
    StopPass(cfg, g, w, b, OAborts, u, OQuar(0));
    StopPass(cfg, g, w, b, OQuar(0), u, ODone(0));
    CallGo(cfg, g, w, b, COwner, ODone(0), u, One(cfg, g, w, b, CIdle(Ret(0)), OOver, u));
  }

  // ---- workers ----------------------------------------------------------------

  /** The worker starts, finds the head unpublished in a closed ring, and returns. */
  lemma Leaves(cfg: Config, g: Globals, w: Worker, b: Sub, c: CPc, o: OPc, u: UPc)
    requires w.ctl == Ctl(Starting, false, Born) && w.closed && !w.stop && !HeadReady(w)
    requires Reachable(One(cfg, g, w, b, c, o, u))
    ensures Reachable(One(cfg, g, w.(ctl := Ctl(Exited, false, Returned)), b, c, o, u))
  {
    hide Reachable;
    var w1 := w.(ctl := Ctl(WRunning, false, LoopTop));
    WorkerGo(cfg, g, w, b, c, o, u, w1);
    WorkerGo(cfg, g, w1, b, c, o, u, SetThread(w1, Pop));
    WorkerGo(cfg, g, SetThread(w1, Pop), b, c, o, u, SetThread(w1, Recheck));
    WorkerGo(cfg, g, SetThread(w1, Recheck), b, c, o, u, SetThread(w1, Leaving));
    WorkerGo(cfg, g, SetThread(w1, Leaving), b, c, o, u, w.(ctl := Ctl(Exited, false, Returned)));
  }

  /** Asked to stop, the worker processes the one message there is and returns. */
  lemma WorksAndLeaves(cfg: Config, g: Globals, w: Worker, b: Sub, c: CPc, o: OPc, u: UPc)
    requires w.ctl == Ctl(WRunning, false, LoopTop) && w.stop && w.fate == [] && |w.log| == 1 && w.log[0].ready
    requires Reachable(One(cfg, g, w, b, c, o, u))
    ensures var w' := w.(ctl := Ctl(Exited, false, Returned), fate := [Processed], processed := w.processed + 1);
      Reachable(One(cfg, g, w', b, c, o, u))
  {
    hide Reachable;
    WorkerGo(cfg, g, w, b, c, o, u, SetThread(w, StopSeen));
    WorkerGo(cfg, g, SetThread(w, StopSeen), b, c, o, u, SetThread(w, Pop));
    var w1 := w.(fate := [InHand]);
    assert w.fate + [InHand] == [InHand];
    WorkerGo(cfg, g, SetThread(w, Pop), b, c, o, u, SetThread(w1, InProcess));
    var w2 := w.(fate := [Processed], processed := w.processed + 1);
    assert w1.fate[0 := Processed] == [Processed];
    WorkerGo(cfg, g, SetThread(w1, InProcess), b, c, o, u, SetThread(w2, LoopTop));
    Ends(cfg, g, w2, b, c, o, u);
  }

  lemma Ends(cfg: Config, g: Globals, w: Worker, b: Sub, c: CPc, o: OPc, u: UPc)
    requires w.ctl.state == WRunning && !w.ctl.joined && w.stop && |w.fate| == |w.log|
    requires Reachable(One(cfg, g, SetThread(w, LoopTop), b, c, o, u))
    ensures Reachable(One(cfg, g, w.(ctl := Ctl(Exited, false, Returned)), b, c, o, u))
  {
    hide Reachable;
    WorkerGo(cfg, g, SetThread(w, LoopTop), b, c, o, u, SetThread(w, StopSeen));
    WorkerGo(cfg, g, SetThread(w, StopSeen), b, c, o, u, SetThread(w, Leaving));
    WorkerGo(cfg, g, SetThread(w, Leaving), b, c, o, u, w.(ctl := Ctl(Exited, false, Returned)));
  }

  /** The supervisor starts, takes the waiting message for a stall, and asks the worker to stop. */
  lemma Stalls(cfg: Config, g: Globals, w: Worker, b: Sub) returns (g': Globals)
    requires cfg.restart && Open(g) && w.ctl.state == WRunning && |w.fate| < |w.log|
    requires Reachable(One(cfg, g, w, b, CIdle(NoRet), ONone, UBorn))
    ensures Reachable(One(cfg, g', w.(stop := true), b, CIdle(NoRet), ONone, TGrace(0)))
    ensures Open(g') && g'.supJoined == g.supJoined
  {
    hide Reachable;
    var c, o := CIdle(NoRet), ONone;
    PhaseGo(cfg, g, w, b, c, o, UBorn, 2, UAlive);
    AliveGo(cfg, g.(supPhase := 2), w, b, c, o, UAlive, true, ULoop);
    g' := g.(supPhase := 2, supAlive := true);
    SeesStall(cfg, g', w, b);
    StopsWorker(cfg, g', w, b);
  }

  lemma SeesStall(cfg: Config, g: Globals, w: Worker, b: Sub)
    requires cfg.restart && LifeRunning(g) && w.ctl.state == WRunning
    requires Reachable(One(cfg, g, w, b, CIdle(NoRet), ONone, ULoop))
    ensures Reachable(One(cfg, g, w, b, CIdle(NoRet), ONone, TDepth(0)))
  {
    hide Reachable;
    SupPass(cfg, g, w, b, CIdle(NoRet), ONone, ULoop, UScan(0));
    SupPass(cfg, g, w, b, CIdle(NoRet), ONone, UScan(0), UState(0));
    SupPass(cfg, g, w, b, CIdle(NoRet), ONone, UState(0), TDepth(0));
  }

  lemma StopsWorker(cfg: Config, g: Globals, w: Worker, b: Sub)
    requires |w.fate| < |w.log|
    requires Reachable(One(cfg, g, w, b, CIdle(NoRet), ONone, TDepth(0)))
    ensures Reachable(One(cfg, g, w.(stop := true), b, CIdle(NoRet), ONone, TGrace(0)))
  {
    hide Reachable;
    SupPass(cfg, g, w, b, CIdle(NoRet), ONone, TDepth(0), TStop(0));
    SupGo(cfg, g, w, b, CIdle(NoRet), ONone, TStop(0), PutStop(0, true), TGrace(0));
    assert GlobalsAfter(g, cfg.budget, PutStop(0, true)) == g;
  }

  // ---- the two runs -----------------------------------------------------------

  /** What a shutdown that returned 0 should mean for accepted messages. */
  ghost predicate Drained(s: Pool)
  {
    forall c, a: (Wid, nat) :: 0 <= c < |s.calls| && s.calls[c] == CIdle(Ret(0)) && a in s.g.accepted ==>
      a.0 < |s.ws| && a.1 < |s.ws[a.0].fate| && s.ws[a.0].fate[a.1] == Processed
  }

  lemma NotDrained(s: Pool, pos: nat)
    requires |s.calls| > 0 && s.calls[0] == CIdle(Ret(0)) && (0, pos) in s.g.accepted && |s.ws| > 0
    requires pos < |s.ws[0].fate| ==> s.ws[0].fate[pos] != Processed
    ensures !Drained(s)
  {
  }

  const FRESH := Worker(Ctl(Starting, false, Born), false, false, [], [], 0)

  lemma Creates(cfg: Config) returns (g: Globals, u: UPc)
    requires cfg.cap > 0 && cfg.nap > 0 && cfg.budget > 0
    ensures Reachable(One(cfg, g, FRESH, Sub(SIdle(NoAnswer), 0), CIdle(NoRet), ONone, u)) && Fine(g) && g.life == Running
    ensures !g.supStop && g.supJoined == !cfg.supervised && u == if cfg.supervised then UBorn else UNone
  {
    var k := Clock(0, false, 0, 0, 0);
    g := Globals(Running, 0, 0, false, if cfg.supervised then 1 else 0, false, !cfg.supervised, false, false, 0, 0, 0, 0,
                 true, k, {}, {}, {}, {}, false);
    u := if cfg.supervised then UBorn else UNone;
    Start(One(cfg, g, FRESH, Sub(SIdle(NoAnswer), 0), CIdle(NoRet), ONone, u));
  }

  /** With claims, a shutdown may return 0 and an accepted message is never processed. */
  lemma ClaimEscapes(cfg: Config) returns (s: Pool)
    requires cfg.cap > 0 && cfg.nap > 0 && cfg.budget > 0 && cfg.claims
    ensures Reachable(s) && s.cfg == cfg && !Drained(s)
  {
    hide Reachable, Drained;
    var g, u := Creates(cfg);
    var b := Sub(SRaise(0, 0), 1);
    var w1 := FRESH.(log := [Entry(0, 1, CLAIM, false)]);
    var g1 := Claims(cfg, g, FRESH, u);
    var g2 := Begins(cfg, g1, w1, b, u);
    var g3 := SupervisorEnds(cfg, g2, w1, b, u);
    var w2 := w1.(closed := true);
    ClosesRing(cfg, g3, w1, b, Out(cfg));
    Leaves(cfg, g3, w2, b, COwner, OJoin(0, JJoined), Out(cfg));
    s := ReturnsEarly(cfg, g3, w2.(ctl := Ctl(Exited, false, Returned)), b);
  }

  lemma ReturnsEarly(cfg: Config, g: Globals, w: Worker, b: Sub) returns (s: Pool)
    requires w.ctl == Ctl(Exited, false, Returned) && w.closed && w.fate == [] && w.log == [Entry(0, 1, CLAIM, false)]
    requires Fine(g) && !TimeUp(g.clk) && b == Sub(SRaise(0, 0), 1)
    requires Reachable(One(cfg, g, w, b, COwner, OJoin(0, JJoined), Out(cfg)))
    ensures Reachable(s) && s.cfg == cfg && !Drained(s)
  {
    hide Reachable, Drained;
    var u, w' := Out(cfg), w.(ctl := Ctl(Joined, true, Absent));
    JoinsWorker(cfg, g, w, b, u);
    FindsNothing(cfg, g, w', b, ODrainTest(0), u);
    var g1 := Stops(cfg, g, w', b, u);
    var g2 := Commits(cfg, g1, w', CIdle(Ret(0)), OOver, u);
    s := One(cfg, g2, w'.(log := [Entry(0, 1, CLAIM, true)]), Sub(SIdle(Accepted(0, 0)), 1), CIdle(Ret(0)), OOver, u);
    NotDrained(s, 0);
  }

  /**
    With restarts, a worker asked to stop ends before a later submit; shutdown comes before the
    restart, joins everybody in time, abandons the message, and returns 0.
   */
  lemma RestartAbandons(cfg: Config) returns (s: Pool)
    requires cfg.cap > 0 && cfg.nap > 0 && cfg.budget > 0 && cfg.supervised && cfg.restart
    ensures Reachable(s) && s.cfg == cfg && !Drained(s)
  {
    hide Reachable, Drained;
    var g, u := Creates(cfg);
    var g1 := Submits(cfg, g, FRESH, Sub(SIdle(NoAnswer), 0), u);
    var b1, w1 := Sub(SIdle(Accepted(0, 0)), 1), FRESH.(log := [Entry(0, 1, SUBMIT, true)]);
    assert [] + [Entry(0, 1, SUBMIT, true)] == [Entry(0, 1, SUBMIT, true)];
    var w2 := w1.(ctl := Ctl(WRunning, false, LoopTop));
    WorkerGo(cfg, g1, w1, b1, CIdle(NoRet), ONone, u, w2);
    var g2 := Stalls(cfg, g1, w2, b1);
    var w3 := w2.(stop := true);
    WorksAndLeaves(cfg, g2, w3, b1, CIdle(NoRet), ONone, TGrace(0));
    var w4 := w3.(ctl := Ctl(Exited, false, Returned), fate := [Processed], processed := 1);
    var g3 := Submits(cfg, g2, w4, b1, TGrace(0));
    assert w4.log + [Entry(0, 2, SUBMIT, true)] == [Entry(0, 1, SUBMIT, true), Entry(0, 2, SUBMIT, true)];
    s := LosesSecond(cfg, g3, w4.(log := [Entry(0, 1, SUBMIT, true), Entry(0, 2, SUBMIT, true)]), Sub(SIdle(Accepted(0, 1)), 2));
  }

  lemma LosesSecond(cfg: Config, g: Globals, w: Worker, b: Sub) returns (s: Pool)
    requires cfg.budget > 0 && cfg.supervised && Open(g) && !g.supJoined && (0, 1) in g.accepted
    requires w.ctl == Ctl(Exited, false, Returned) && w.fate == [Processed] && |w.log| == 2 && w.log[1].ready
    requires Reachable(One(cfg, g, w, b, CIdle(NoRet), ONone, TGrace(0)))
    ensures Reachable(s) && s.cfg == cfg && !Drained(s)
  {
    hide Reachable, Drained;
    var g1 := Begins(cfg, g, w, b, TGrace(0));
    var g2 := SupervisorEnds(cfg, g1, w, b, TGrace(0));
    ClosesRing(cfg, g2, w, b, UReaped);
    var w1 := w.(closed := true);
    JoinsWorker(cfg, g2, w1, b, UReaped);
    var w2 := w1.(ctl := Ctl(Joined, true, Absent));
    var g3 := Abandons(cfg, g2, w2, b, UReaped);
    var w3 := w2.(fate := w2.fate + [Abandoned]);
    FindsNothing(cfg, g3, w3, b, ODrain(0), UReaped);
    var g4 := Stops(cfg, g3, w3, b, UReaped);
    s := One(cfg, g4, w3, b, CIdle(Ret(0)), OOver, UReaped);
    NotDrained(s, 1);
  }

  // ---- the exact condition ----------------------------------------------------

  /** Every run of a configuration drains if and only if it has neither claims nor a restarting supervisor. */
  lemma DrainsIff(cfg: Config)
    requires cfg.cap > 0 && cfg.nap > 0 && cfg.budget > 0
    ensures (forall s :: Reachable(s) && s.cfg == cfg ==> Drained(s)) <==>
      !cfg.claims && !(cfg.supervised && cfg.restart)
  {
    if cfg.claims {
      var s := ClaimEscapes(cfg);
    } else if cfg.supervised && cfg.restart {
      var s := RestartAbandons(cfg);
    } else {
      forall s | Reachable(s) && s.cfg == cfg
        ensures Drained(s)
      {
        PlainDrains(s);
      }
    }
  }

  lemma PlainDrains(s: Pool)
    requires Reachable(s) && Plain(s.cfg)
    ensures Drained(s)
  {
    var tr :| Run(tr) && tr[|tr| - 1] == s;
    hide Run, Plain, Drained;
    RunDrained(tr);
  }

  lemma RunDrained(tr: seq<Pool>)
    requires Run(tr) && Plain(tr[|tr| - 1].cfg)
    ensures Drained(tr[|tr| - 1])
  {
    hide Next, Init, Plain;
    var s := tr[|tr| - 1];
    forall c, a: (Wid, nat) | 0 <= c < |s.calls| && s.calls[c] == CIdle(Ret(0)) && a in s.g.accepted
      ensures a.0 < |s.ws| && a.1 < |s.ws[a.0].fate| && s.ws[a.0].fate[a.1] == Processed
    {
      OneProcessed(tr, c, a);
    }
  }

  lemma OneProcessed(tr: seq<Pool>, c: nat, a: (Wid, nat))
    requires Run(tr) && Plain(tr[|tr| - 1].cfg)
    requires var s := tr[|tr| - 1]; c < |s.calls| && s.calls[c] == CIdle(Ret(0)) && a in s.g.accepted
    ensures var s := tr[|tr| - 1]; a.0 < |s.ws| && a.1 < |s.ws[a.0].fate| && s.ws[a.0].fate[a.1] == Processed
  {
    hide Next, Init, AllProcessed, SameCall;
    AcceptedIsProcessed(tr, |tr| - 1, c, a);
  }
}
