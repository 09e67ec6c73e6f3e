/**
  Who may touch a worker's thread and ring: the supervisor while it lives, the shutdown
  owner only once the supervisor is joined, and never while the worker's own thread runs.
 */
module PoolJoins {
  import opened Pool
  import opened PoolEffects

  /** Not consuming and never going to: returned from its main function, or gone. */
  predicate Finished(th: Thread) { th.Returned? || th.Absent? }

  /** A worker's published state against what its thread is really doing. */
  ghost predicate CtlOk(w: Ctl)
  {
    && (w.thread.Born? ==> w.state == Starting || w.state == Quarantined)
    && (InLoop(w.thread) || w.thread.Leaving? ==> w.state == WRunning || w.state == Quarantined)
    && (w.thread.Returned? ==> w.state == Exited || w.state == Quarantined)
    && (w.thread != Absent ==> !w.joined)
    && (w.state == Exited ==> Finished(w.thread))
    && (w.state == Joined ==> w.thread.Absent?)
  }

  /** The worker the supervisor has joined and is about to start again. */
  function Restarting(u: UPc): int
  {
    match u
    case RSetJoined(i) => i case RSetState(i) => i case RRecheck(i) => i case RKeepClosed(i) => i
    case RReopen(i) => i case RTerminal(i) => i case RReclose(i) => i case RClearStop(i) => i
    case RClearJoined(i) => i case RStarting(i) => i case RCreate(i) => i
    case FState(i) => i case FJoined(i) => i
    case _ => -1
  }

  /** What the supervisor's program counter says about the worker it is busy with. */
  ghost predicate Handles(canClose: bool, k: Clock, ws: seq<Worker>, u: UPc)
  {
    match u
    case TQuar(i) => i < |ws| && !ws[i].ctl.thread.Born?
    case RStarting(i) => i < |ws| && ws[i].ctl.thread.Absent? && !ws[i].ctl.joined
    case RCreate(i) =>
      && i < |ws| && ws[i].ctl.thread.Absent?
      && CtlOk(ws[i].ctl.(thread := Born)) && BornOk(canClose, k, ws[i].ctl.(thread := Born))
    case _ => Restarting(u) >= 0 ==> Restarting(u) < |ws| && ws[Restarting(u)].ctl.thread.Absent?
  }

  ghost predicate SupOk(cfg: Config, joined: bool, canClose: bool, k: Clock, ws: seq<Worker>, u: UPc)
  {
    && (!cfg.supervised ==> u == UNone)
    && (cfg.supervised && joined ==> u == UReaped)
    && Handles(canClose, k, ws, u)
  }

  /** There is no supervisor thread any more. */
  predicate SupOut(cfg: Config, joined: bool, u: UPc)
  {
    if cfg.supervised then joined && u == UReaped else u == UNone
  }

  /** How far the shutdown owner got. */
  datatype Stage = NotBegun | Begun | Waiting | GivenUp | SupReaped | TearingDown | Finishing

  function StageOf(o: OPc): Stage
  {
    match o
    case ONone => NotBegun
    case OStart => Begun
    case OSubsAbort => GivenUp case OSubsClose(_) => GivenUp case OSupFailCount => GivenUp
    case OQuarClose(_) => GivenUp case OQuarTest(_) => GivenUp case OQuarAgain(_) => GivenUp
    case OQuarStore(_) => GivenUp case OQuarMark => GivenUp
    case OSupJoined => SupReaped
    case OClose(_) => TearingDown case OJoin(_, _) => TearingDown
    case ODrainTest(_) => TearingDown case ODrain(_) => TearingDown case ODrainPop(_) => TearingDown
    case OAny(_) => Finishing case OAnyActive => Finishing case OPersist => Finishing
    case OStop => Finishing case OAborts => Finishing case OQuar(_) => Finishing
    case ODone(_) => Finishing case OOver => Finishing
    case _ => Waiting
  }

  predicate Expired(k: Clock) { k.running && TimeUp(k) }

  /** What the owner knows about worker w at each point of the bounded join. */
  ghost predicate JoinOk(k: Clock, w: Ctl, j: JPc)
  {
    match j
    case JJoined => true
    case JState => true
    case JMark => SafeToDrain(k, w)
    case JAbort => SafeToDrain(k, w)
    case JPoll => w.state != Quarantined
    case JClock => w.state != Quarantined
    case JReload => Expired(k) || w.state == Exited || w.state == Joined
    case JStop => Expired(k)
    case JClose => Expired(k)
    case JGrace => Expired(k)
    case JGraceClock => Expired(k)
    case JLate => Expired(k)
    case JQuar => Expired(k)
    case JQuarMark => Expired(k)
    case XSetJoined(_) => w.thread.Absent?
    case XSetState(_) => w.thread.Absent?
    case _ => Finished(w.thread)
  }

  /** No time is left, or the thread finished, or it is marked and can only finish. */
  predicate SafeToDrain(k: Clock, w: Ctl)
  {
    Expired(k) || Finished(w.thread) || (w.state == Quarantined && !w.thread.Born?)
  }

  /** What the owner's program counter says about the worker it is busy with. */
  ghost predicate FocusOk(k: Clock, ws: seq<Worker>, o: OPc)
  {
    match o
    case OJoin(i, j) => i < |ws| && JoinOk(k, ws[i].ctl, j)
    case ODrainTest(i) => i < |ws| && SafeToDrain(k, ws[i].ctl)
    case ODrain(i) => i < |ws| && (Expired(k) || Finished(ws[i].ctl.thread))
    case ODrainPop(i) => i < |ws| && Finished(ws[i].ctl.thread)
    case _ => true
  }

  /** Worker teardown needs the supervisor out; quarantine skips it. */
  predicate PathOk(cfg: Config, canClose: bool, supJoined: bool, running: bool, life: Life, o: Stage, u: UPc)
  {
    && (o == TearingDown ==> canClose)
    && (o == GivenUp ==> !canClose)
    && ((o == TearingDown || o == Finishing) && canClose ==> SupOut(cfg, supJoined, u))
    && (o == SupReaped ==> u == UReaped)
    && (running <==> o != NotBegun && o != Begun)
    && (life == Running <==> o == NotBegun)
  }

  ghost predicate PathFits(s: Pool)
  {
    PathOk(s.cfg, s.g.canClose, s.g.supJoined, s.g.clk.running, s.g.life, StageOf(s.own), s.sup)
  }

  /** The same after an effect and a move of the owner, without building the new state. */
  ghost predicate PathAfter(s: Pool, e: Effect, pc: OPc)
  {
    PathOk(s.cfg, s.g.canClose && !e.MarkNoClose?, s.g.supJoined || e.PutSupJoined?,
           s.g.clk.running || e.StartClock?, if e.PutLife? then e.life else s.g.life,
           StageOf(pc), if e.ReapSup? then UReaped else s.sup)
  }

  /** A thread that was quarantined before it ran: only past the deadline, or with no teardown at all. */
  ghost predicate BornOk(canClose: bool, k: Clock, w: Ctl)
  {
    w.thread.Born? && w.state == Quarantined ==> !canClose || Expired(k)
  }

  ghost predicate WorkersOk(canClose: bool, k: Clock, ws: seq<Worker>)
  {
    forall i :: 0 <= i < |ws| ==> CtlOk(ws[i].ctl) && BornOk(canClose, k, ws[i].ctl)
  }

  ghost predicate JoinInv(s: Pool)
  {
    && WorkersOk(s.g.canClose, s.g.clk, s.ws) && SupOk(s.cfg, s.g.supJoined, s.g.canClose, s.g.clk, s.ws, s.sup)
    && FocusOk(s.g.clk, s.ws, s.own) && PathFits(s)
  }

  lemma InitJoins(s: Pool)
    requires Init(s)
    ensures JoinInv(s)
  {
  }

  // ---- the workers' part ------------------------------------------------------

  predicate TimeMoves(k: Clock, e: Effect)
  {
    (e.Sleep? ==> e.now >= k.now) && (e.StartClock? ==> !k.running)
  }

  lemma WorkersAfterOk(s: Pool, e: Effect)
    requires WorkersOk(s.g.canClose, s.g.clk, s.ws) && Applies(s, e) && TimeMoves(s.g.clk, e)
    requires Target(e) >= 0 ==>
      var w := WorkerAfter(s.ws[Target(e)], e).ctl; CtlOk(w) && BornOk(s.g.canClose, s.g.clk, w)
    ensures WorkersOk(Do(s, e).g.canClose, Do(s, e).g.clk, Do(s, e).ws)
  {
    var g', ws' := Do(s, e).g, Do(s, e).ws;
    DoFacts(s, e);
    hide Do;
    forall i | 0 <= i < |s.ws|
      ensures CtlOk(ws'[i].ctl) && BornOk(g'.canClose, g'.clk, ws'[i].ctl)
    {
      assert CtlOk(s.ws[i].ctl) && BornOk(s.g.canClose, s.g.clk, s.ws[i].ctl);
      assert i != Target(e) ==> ws'[i].ctl == s.ws[i].ctl;
    }
  }

  // ---- the owner --------------------------------------------------------------

  /** An owner effect on a worker's controls, with the supervisor out or the pool given up. */
  ghost predicate OwnerSafe(s: Pool, e: Effect)
  {
    && OfOwner(e) && Applies(s, e) && TimeMoves(s.g.clk, e)
    && (Target(e) >= 0 ==>
          var w := WorkerAfter(s.ws[Target(e)], e).ctl;
          CtlOk(w) && BornOk(s.g.canClose, s.g.clk, w))
    && (e.PutJoined? || e.Reap? || e.PutState? ==>
          SupOut(s.cfg, s.g.supJoined, s.sup) || (e.PutState? && e.st == Quarantined && !s.g.canClose))
    && (e.ReapSup? ==> s.sup == UReturned)
    && (e.PutSupJoined? ==> s.sup == UReaped)
  }

  /** Beside a supervisor that is not out, the owner changes no thread and no join flag. */
  ghost predicate BesideSup(canClose: bool, w: Ctl, w': Ctl)
  {
    w'.thread == w.thread && w'.joined == w.joined && (w'.state == w.state || (w'.state == Quarantined && !canClose))
  }

  lemma OwnerBeside(s: Pool, e: Effect)
    requires OwnerSafe(s, e) && !SupOut(s.cfg, s.g.supJoined, s.sup) && Target(e) >= 0
    ensures BesideSup(s.g.canClose, s.ws[Target(e)].ctl, WorkerAfter(s.ws[Target(e)], e).ctl)
  {
    hide CtlOk, BornOk, TimeMoves;
  }

  lemma AllBeside(s: Pool, e: Effect)
    requires OwnerSafe(s, e) && !SupOut(s.cfg, s.g.supJoined, s.sup)
    ensures |WorkersAfter(s, e)| == |s.ws|
    ensures forall i :: 0 <= i < |s.ws| ==> BesideSup(s.g.canClose, s.ws[i].ctl, WorkersAfter(s, e)[i].ctl)
  {
    if Target(e) >= 0 { OwnerBeside(s, e); }
    hide CtlOk, BornOk, TimeMoves, WorkerAfter, SupOut;
  }

  lemma HandlesBeside(canClose: bool, k: Clock, ws: seq<Worker>, u: UPc, canClose': bool, k': Clock, ws': seq<Worker>)
    requires Handles(canClose, k, ws, u) && |ws'| == |ws| && (canClose' ==> canClose) && (Expired(k) ==> Expired(k'))
    requires forall i :: 0 <= i < |ws| ==> BesideSup(canClose, ws[i].ctl, ws'[i].ctl)
    ensures Handles(canClose', k', ws', u)
  {
    hide Expired;
  }

  lemma StillExpired(k: Clock, budget: nat, e: Effect)
    requires TimeMoves(k, e) && Expired(k)
    ensures Expired(ClockAfter(k, budget, e))
  {
  }

  lemma SupOwnerOk(s: Pool, e: Effect)
    requires SupOk(s.cfg, s.g.supJoined, s.g.canClose, s.g.clk, s.ws, s.sup) && OwnerSafe(s, e)
    ensures SupOk(s.cfg, Do(s, e).g.supJoined, Do(s, e).g.canClose, Do(s, e).g.clk, Do(s, e).ws, Do(s, e).sup)
  {
    hide Applies, Handles, Expired, BesideSup, WorkersAfter, ClockAfter;
    DoFacts(s, e);
    assert (e.ReapSup? ==> s.sup == UReturned) && (e.PutSupJoined? ==> s.sup == UReaped);
    if Expired(s.g.clk) { StillExpired(s.g.clk, s.cfg.budget, e); }
    if !SupOut(s.cfg, s.g.supJoined, s.sup) { AllBeside(s, e); }
    hide OwnerSafe, Do;
    if SupOut(s.cfg, s.g.supJoined, s.sup) || e.ReapSup? {
      NothingHandled(Do(s, e).g.canClose, Do(s, e).g.clk, Do(s, e).ws, Do(s, e).sup);
    } else {
      HandlesBeside(s.g.canClose, s.g.clk, s.ws, s.sup, Do(s, e).g.canClose, Do(s, e).g.clk, Do(s, e).ws);
    }
  }

  lemma NothingHandled(canClose: bool, k: Clock, ws: seq<Worker>, u: UPc)
    requires u == UNone || u == UReaped
    ensures Handles(canClose, k, ws, u)
  {
  }

  lemma PathStep(s: Pool, e: Effect, pc: OPc)
    requires Applies(s, e) && PathAfter(s, e, pc)
    ensures PathFits(Do(s, e).(own := pc))
  {
    hide PathOk, StageOf;
    DoFacts(s, e);
  }

  lemma OwnerStepOk(s: Pool, e: Effect, pc: OPc)
    requires JoinInv(s) && OwnerSafe(s, e) && PathAfter(s, e, pc)
    requires FocusOk(ClockAfter(s.g.clk, s.cfg.budget, e), WorkersAfter(s, e), pc)
    ensures JoinInv(Do(s, e).(own := pc))
  {
    WorkersAfterOk(s, e);
    SupOwnerOk(s, e);
    PathStep(s, e, pc);
    DoFacts(s, e);
    hide WorkersOk, SupOk, FocusOk, PathFits, PathAfter, OwnerSafe, Do, Applies;
  }

  lemma SubmitsPath(s: Pool, e: Effect, pc: OPc)
    requires PathFits(s) && SubmitsDoes(s, e, pc)
    ensures PathAfter(s, e, pc)
  {
  }

  lemma SubmitsSafe(s: Pool, e: Effect, pc: OPc)
    requires JoinInv(s) && SubmitsDoes(s, e, pc) && Applies(s, e)
    ensures OwnerSafe(s, e)
  {
    SubmitsEffect(s, e, pc);
  }

  lemma SubmitsFocus(s: Pool, e: Effect, pc: OPc)
    requires SubmitsDoes(s, e, pc) && Applies(s, e)
    ensures FocusOk(ClockAfter(s.g.clk, s.cfg.budget, e), WorkersAfter(s, e), pc)
  {
  }

  lemma SubmitsJoins(s: Pool, e: Effect, pc: OPc)
    requires JoinInv(s) && SubmitsDoes(s, e, pc) && Applies(s, e)
    ensures JoinInv(Do(s, e).(own := pc))
  {
    hide WorkersOk, SupOk, FocusOk, PathFits, PathAfter, OwnerSafe, Do, Applies, SubmitsDoes;
    SubmitsPath(s, e, pc);
    SubmitsSafe(s, e, pc);
    SubmitsFocus(s, e, pc);
    OwnerStepOk(s, e, pc);
  }

  /** Most of the supervisor's join only waits. */
  lemma SupJoinWaits(s: Pool, e: Effect, pc: OPc)
    requires SupJoinDoes(s, e, pc) && s.own != OSupTest && s.own != OSupJoined && s.own != OSupFail && s.own != OSupFailCount
    ensures StageOf(s.own) == Waiting && (if e.ReapSup? then StageOf(pc) == SupReaped else StageOf(pc) == Waiting)
    ensures e.Nop? || e.Sleep? || e.ReapSup?
  {
  }

  /** The two points where the supervisor is out and teardown may begin. */
  lemma SupJoinSettles(s: Pool, e: Effect, pc: OPc)
    requires SupJoinDoes(s, e, pc) && (s.own == OSupTest || s.own == OSupJoined) && PathFits(s)
    requires (!s.cfg.supervised ==> s.sup == UNone) && (s.cfg.supervised && s.g.supJoined ==> s.sup == UReaped)
    ensures PathAfter(s, e, pc)
  {
  }

  /** The supervisor could not be joined: the pool is given up. */
  lemma SupJoinGivesUp(s: Pool, e: Effect, pc: OPc)
    requires SupJoinDoes(s, e, pc) && (s.own == OSupFail || s.own == OSupFailCount) && PathFits(s)
    ensures PathAfter(s, e, pc)
  {
  }

  lemma SupJoinPath(s: Pool, e: Effect, pc: OPc)
    requires PathFits(s) && SupOk(s.cfg, s.g.supJoined, s.g.canClose, s.g.clk, s.ws, s.sup) && SupJoinDoes(s, e, pc)
    ensures PathAfter(s, e, pc)
  {
    hide SupJoinDoes, Handles;
    if s.own == OSupTest || s.own == OSupJoined {
      hide PathFits, PathAfter;
      SupJoinSettles(s, e, pc);
    } else if s.own == OSupFail || s.own == OSupFailCount {
      hide PathFits, PathAfter;
      SupJoinGivesUp(s, e, pc);
    } else {
      SupJoinWaits(s, e, pc);
    }
  }

  lemma SupJoinSafe(s: Pool, e: Effect, pc: OPc)
    requires JoinInv(s) && SupJoinDoes(s, e, pc) && Applies(s, e)
    ensures OwnerSafe(s, e)
  {
    SupJoinEffect(s, e, pc);
  }

  lemma SupJoinFocus(s: Pool, e: Effect, pc: OPc)
    requires WorkersOk(s.g.canClose, s.g.clk, s.ws) && FocusOk(s.g.clk, s.ws, s.own)
    requires PathFits(s) && SupJoinDoes(s, e, pc) && Applies(s, e)
    ensures FocusOk(ClockAfter(s.g.clk, s.cfg.budget, e), WorkersAfter(s, e), pc)
  {
  }

  lemma SupJoinJoins(s: Pool, e: Effect, pc: OPc)
    requires JoinInv(s) && SupJoinDoes(s, e, pc) && Applies(s, e)
    ensures JoinInv(Do(s, e).(own := pc))
  {
    hide WorkersOk, SupOk, FocusOk, PathFits, PathAfter, OwnerSafe, Do, Applies, SupJoinDoes;
    SupJoinPath(s, e, pc);
    SupJoinSafe(s, e, pc);
    SupJoinFocus(s, e, pc);
    OwnerStepOk(s, e, pc);
  }

  lemma TeardownStages(s: Pool, e: Effect, pc: OPc)
    requires TeardownDoes(s, e, pc)
    ensures StageOf(s.own) == TearingDown && (StageOf(pc) == TearingDown || StageOf(pc) == Finishing)
    ensures !e.MarkNoClose? && !e.PutSupJoined? && !e.StartClock? && !e.ReapSup? && !e.PutLife?
  {
  }

  lemma TeardownPath(s: Pool, e: Effect, pc: OPc)
    requires PathFits(s) && TeardownDoes(s, e, pc)
    ensures PathAfter(s, e, pc)
  {
    hide TeardownDoes, StageOf;
    TeardownStages(s, e, pc);
  }

  lemma TeardownSafe(s: Pool, e: Effect, pc: OPc)
    requires JoinInv(s) && TeardownDoes(s, e, pc) && Applies(s, e)
    ensures OwnerSafe(s, e)
  {
    TeardownEffect(s, e, pc);
  }

  lemma TeardownFocus(s: Pool, e: Effect, pc: OPc)
    requires WorkersOk(s.g.canClose, s.g.clk, s.ws) && FocusOk(s.g.clk, s.ws, s.own)
    requires PathFits(s) && TeardownDoes(s, e, pc) && Applies(s, e)
    ensures FocusOk(ClockAfter(s.g.clk, s.cfg.budget, e), WorkersAfter(s, e), pc)
  {
  }

  lemma TeardownJoins(s: Pool, e: Effect, pc: OPc)
    requires JoinInv(s) && TeardownDoes(s, e, pc) && Applies(s, e)
    ensures JoinInv(Do(s, e).(own := pc))
  {
    hide WorkersOk, SupOk, FocusOk, PathFits, PathAfter, OwnerSafe, Do, Applies, TeardownDoes;
    TeardownPath(s, e, pc);
    TeardownSafe(s, e, pc);
    TeardownFocus(s, e, pc);
    OwnerStepOk(s, e, pc);
  }

  lemma QuarantineStages(s: Pool, e: Effect, pc: OPc)
    requires QuarantineDoes(s, e, pc)
    ensures StageOf(s.own) == GivenUp && (StageOf(pc) == GivenUp || StageOf(pc) == Finishing)
    ensures !e.MarkNoClose? && !e.PutSupJoined? && !e.StartClock? && !e.ReapSup? && !e.PutLife?
  {
  }

  lemma QuarantinePath(s: Pool, e: Effect, pc: OPc)
    requires PathFits(s) && QuarantineDoes(s, e, pc)
    ensures PathAfter(s, e, pc)
  {
    hide QuarantineDoes, StageOf;
    QuarantineStages(s, e, pc);
  }

  lemma QuarantineSafe(s: Pool, e: Effect, pc: OPc)
    requires JoinInv(s) && QuarantineDoes(s, e, pc) && Applies(s, e)
    ensures OwnerSafe(s, e)
  {
    QuarantineEffect(s, e, pc);
  }

  lemma QuarantineFocus(s: Pool, e: Effect, pc: OPc)
    requires WorkersOk(s.g.canClose, s.g.clk, s.ws) && FocusOk(s.g.clk, s.ws, s.own)
    requires PathFits(s) && QuarantineDoes(s, e, pc) && Applies(s, e)
    ensures FocusOk(ClockAfter(s.g.clk, s.cfg.budget, e), WorkersAfter(s, e), pc)
  {
  }

  lemma QuarantineJoins(s: Pool, e: Effect, pc: OPc)
    requires JoinInv(s) && QuarantineDoes(s, e, pc) && Applies(s, e)
    ensures JoinInv(Do(s, e).(own := pc))
  {
    hide WorkersOk, SupOk, FocusOk, PathFits, PathAfter, OwnerSafe, Do, Applies, QuarantineDoes;
    QuarantinePath(s, e, pc);
    QuarantineSafe(s, e, pc);
    QuarantineFocus(s, e, pc);
    OwnerStepOk(s, e, pc);
  }

  lemma StopStages(s: Pool, e: Effect, pc: OPc)
    requires StopDoes(s, e, pc)
    ensures StageOf(s.own) == Finishing && StageOf(pc) == Finishing
    ensures !e.MarkNoClose? && !e.PutSupJoined? && !e.StartClock? && !e.ReapSup? && (e.PutLife? ==> e.life == Stopped)
  {
  }

  lemma StopPath(s: Pool, e: Effect, pc: OPc)
    requires PathFits(s) && StopDoes(s, e, pc)
    ensures PathAfter(s, e, pc)
  {
    hide StopDoes, StageOf;
    StopStages(s, e, pc);
  }

  lemma StopSafe(s: Pool, e: Effect, pc: OPc)
    requires JoinInv(s) && StopDoes(s, e, pc) && Applies(s, e)
    ensures OwnerSafe(s, e)
  {
    StopEffect(s, e, pc);
  }

  lemma StopFocus(s: Pool, e: Effect, pc: OPc)
    requires WorkersOk(s.g.canClose, s.g.clk, s.ws) && FocusOk(s.g.clk, s.ws, s.own)
    requires PathFits(s) && StopDoes(s, e, pc) && Applies(s, e)
    ensures FocusOk(ClockAfter(s.g.clk, s.cfg.budget, e), WorkersAfter(s, e), pc)
  {
  }

  lemma StopJoins(s: Pool, e: Effect, pc: OPc)
    requires JoinInv(s) && StopDoes(s, e, pc) && Applies(s, e)
    ensures JoinInv(Do(s, e).(own := pc))
  {
    hide WorkersOk, SupOk, FocusOk, PathFits, PathAfter, OwnerSafe, Do, Applies, StopDoes;
    StopPath(s, e, pc);
    StopSafe(s, e, pc);
    StopFocus(s, e, pc);
    OwnerStepOk(s, e, pc);
  }

  lemma PollStages(s: Pool, e: Effect, pc: OPc)
    requires s.own.OJoin? && s.own.i < |s.ws| && PollDoes(s, e, pc)
    ensures StageOf(pc) == TearingDown
    ensures !e.MarkNoClose? && !e.PutSupJoined? && !e.StartClock? && !e.PutLife? && !e.ReapSup?
  {
  }

  lemma PollPath(s: Pool, e: Effect, pc: OPc)
    requires s.own.OJoin? && s.own.i < |s.ws|
    requires PathFits(s) && PollDoes(s, e, pc)
    ensures PathAfter(s, e, pc)
  {
    hide PollDoes;
    PollStages(s, e, pc);
  }

  /** Polling writes stop and closed flags, and a state only to quarantine past the deadline. */
  lemma PollWrites(s: Pool, e: Effect, pc: OPc)
    requires s.own.OJoin? && s.own.i < |s.ws| && PollDoes(s, e, pc)
    ensures TimeMoves(s.g.clk, e) && !e.PutJoined? && !e.Reap? && !e.Create? && !e.ReapSup? && !e.PutSupJoined?
    ensures Target(e) < 0 || Target(e) == s.own.i
    ensures e.PutState? ==> e.st == Quarantined && s.own.j.JQuar?
  {
  }

  lemma PollSafe(s: Pool, e: Effect, pc: OPc)
    requires s.own.OJoin? && s.own.i < |s.ws|
    requires JoinInv(s) && PollDoes(s, e, pc) && Applies(s, e)
    ensures OwnerSafe(s, e)
  {
    assert CtlOk(s.ws[s.own.i].ctl) && BornOk(s.g.canClose, s.g.clk, s.ws[s.own.i].ctl);
    assert s.own.j.JQuar? ==> Expired(s.g.clk);
    assert SupOut(s.cfg, s.g.supJoined, s.sup);
    hide PollDoes, OfOwner, JoinInv, SupOut, TimeMoves, Expired;
    PollEffect(s, e, pc);
    PollWrites(s, e, pc);
  }

  lemma PollFocus(s: Pool, e: Effect, pc: OPc)
    requires s.own.OJoin? && s.own.i < |s.ws|
    requires WorkersOk(s.g.canClose, s.g.clk, s.ws) && FocusOk(s.g.clk, s.ws, s.own)
    requires PathFits(s) && PollDoes(s, e, pc) && Applies(s, e)
    ensures FocusOk(ClockAfter(s.g.clk, s.cfg.budget, e), WorkersAfter(s, e), pc)
  {
    assert CtlOk(s.ws[s.own.i].ctl) && BornOk(s.g.canClose, s.g.clk, s.ws[s.own.i].ctl);
  }

  lemma PollJoins(s: Pool, e: Effect, pc: OPc)
    requires s.own.OJoin? && s.own.i < |s.ws|
    requires JoinInv(s) && PollDoes(s, e, pc) && Applies(s, e)
    ensures JoinInv(Do(s, e).(own := pc))
  {
    hide WorkersOk, SupOk, FocusOk, PathFits, PathAfter, OwnerSafe, Do, Applies, PollDoes;
    PollPath(s, e, pc);
    PollSafe(s, e, pc);
    PollFocus(s, e, pc);
    OwnerStepOk(s, e, pc);
  }

  lemma ExitedStages(s: Pool, e: Effect, pc: OPc)
    requires s.own.OJoin? && s.own.i < |s.ws| && ExitedDoes(s, e, pc)
    ensures StageOf(pc) == TearingDown
    ensures !e.MarkNoClose? && !e.PutSupJoined? && !e.StartClock? && !e.PutLife? && !e.ReapSup?
  {
  }

  lemma ExitedPath(s: Pool, e: Effect, pc: OPc)
    requires s.own.OJoin? && s.own.i < |s.ws|
    requires PathFits(s) && ExitedDoes(s, e, pc)
    ensures PathAfter(s, e, pc)
  {
    hide ExitedDoes;
    ExitedStages(s, e, pc);
  }

  /** Before the thread is reaped, the reaping, its record, and the ways of failing. */
  datatype ExitedPart = Looking | Reaping | Recording | Failing | Elsewhere

  function PartOf(j: JPc): ExitedPart
  {
    match j
    case XJoined(_) => Looking
    case XClock(_) => Looking
    case XWait(_) => Reaping
    case XSetJoined(_) => Recording
    case XSetState(_) => Recording
    case XTimeout => Failing
    case XTimeoutState => Failing
    case XError => Failing
    case _ => Elsewhere
  }

  lemma ExitedIsHere(s: Pool, e: Effect, pc: OPc)
    requires s.own.OJoin? && s.own.i < |s.ws| && ExitedDoes(s, e, pc)
    ensures PartOf(s.own.j) != Elsewhere
  {
  }

  /** The owner stays with its worker, and knows about it what the next point needs. */
  ghost predicate Lands(s: Pool, e: Effect, pc: OPc)
    requires s.own.OJoin? && s.own.i < |s.ws|
  {
    var i, k, w := s.own.i, ClockAfter(s.g.clk, s.cfg.budget, e), WorkerAfter(s.ws[s.own.i], e).ctl;
    && (Target(e) < 0 || Target(e) == i)
    && if pc.OJoin? then pc.i == i && JoinOk(k, w, pc.j) else pc == ODrainTest(i) && SafeToDrain(k, w)
  }

  lemma LandsFocus(s: Pool, e: Effect, pc: OPc)
    requires s.own.OJoin? && s.own.i < |s.ws| && Lands(s, e, pc) && OfOwner(e) && Applies(s, e)
    ensures FocusOk(ClockAfter(s.g.clk, s.cfg.budget, e), WorkersAfter(s, e), pc)
  {
    hide ClockAfter, JoinOk, SafeToDrain;
  }

  lemma LookingLands(s: Pool, e: Effect, pc: OPc)
    requires s.own.OJoin? && s.own.i < |s.ws| && ExitedDoes(s, e, pc) && PartOf(s.own.j) == Looking
    requires Finished(s.ws[s.own.i].ctl.thread)
    ensures Lands(s, e, pc)
  {
  }

  lemma ReapingLands(s: Pool, e: Effect, pc: OPc)
    requires s.own.OJoin? && s.own.i < |s.ws| && ExitedDoes(s, e, pc) && PartOf(s.own.j) == Reaping
    requires Finished(s.ws[s.own.i].ctl.thread)
    ensures Lands(s, e, pc)
  {
  }

  lemma RecordingLands(s: Pool, e: Effect, pc: OPc)
    requires s.own.OJoin? && s.own.i < |s.ws| && ExitedDoes(s, e, pc) && PartOf(s.own.j) == Recording
    requires s.ws[s.own.i].ctl.thread.Absent?
    ensures Lands(s, e, pc)
  {
  }

  lemma FailingLands(s: Pool, e: Effect, pc: OPc)
    requires s.own.OJoin? && s.own.i < |s.ws| && ExitedDoes(s, e, pc) && PartOf(s.own.j) == Failing
    requires Finished(s.ws[s.own.i].ctl.thread)
    ensures Lands(s, e, pc)
  {
  }

  lemma ExitedFocus(s: Pool, e: Effect, pc: OPc)
    requires s.own.OJoin? && s.own.i < |s.ws| && FocusOk(s.g.clk, s.ws, s.own) && ExitedDoes(s, e, pc) && Applies(s, e)
    ensures FocusOk(ClockAfter(s.g.clk, s.cfg.budget, e), WorkersAfter(s, e), pc)
  {
    hide ExitedDoes, Applies, WorkersAfter, ClockAfter, Lands, OfOwner;
    ExitedEffect(s, e, pc);
    ExitedIsHere(s, e, pc);
    match PartOf(s.own.j) {
      case Looking => LookingLands(s, e, pc);
      case Reaping => ReapingLands(s, e, pc);
      case Recording => RecordingLands(s, e, pc);
      case Failing => FailingLands(s, e, pc);
    }
    LandsFocus(s, e, pc);
  }

  lemma LookingSafe(s: Pool, e: Effect, pc: OPc)
    requires s.own.OJoin? && s.own.i < |s.ws| && ExitedDoes(s, e, pc) && PartOf(s.own.j) == Looking
    requires var w := s.ws[s.own.i].ctl; CtlOk(w) && BornOk(s.g.canClose, s.g.clk, w) && JoinOk(s.g.clk, w, s.own.j)
    requires SupOut(s.cfg, s.g.supJoined, s.sup) && Applies(s, e)
    ensures OwnerSafe(s, e)
  {
    hide OfOwner, SupOut;
    ExitedEffect(s, e, pc);
  }

  lemma ReapingSafe(s: Pool, e: Effect, pc: OPc)
    requires s.own.OJoin? && s.own.i < |s.ws| && ExitedDoes(s, e, pc) && PartOf(s.own.j) == Reaping
    requires var w := s.ws[s.own.i].ctl; CtlOk(w) && BornOk(s.g.canClose, s.g.clk, w) && JoinOk(s.g.clk, w, s.own.j)
    requires SupOut(s.cfg, s.g.supJoined, s.sup) && Applies(s, e)
    ensures OwnerSafe(s, e)
  {
    hide OfOwner, SupOut;
    ExitedEffect(s, e, pc);
  }

  lemma RecordingSafe(s: Pool, e: Effect, pc: OPc)
    requires s.own.OJoin? && s.own.i < |s.ws| && ExitedDoes(s, e, pc) && PartOf(s.own.j) == Recording
    requires var w := s.ws[s.own.i].ctl; CtlOk(w) && BornOk(s.g.canClose, s.g.clk, w) && JoinOk(s.g.clk, w, s.own.j)
    requires SupOut(s.cfg, s.g.supJoined, s.sup) && Applies(s, e)
    ensures OwnerSafe(s, e)
  {
    hide OfOwner, SupOut;
    ExitedEffect(s, e, pc);
  }

  lemma FailingSafe(s: Pool, e: Effect, pc: OPc)
    requires s.own.OJoin? && s.own.i < |s.ws| && ExitedDoes(s, e, pc) && PartOf(s.own.j) == Failing
    requires var w := s.ws[s.own.i].ctl; CtlOk(w) && BornOk(s.g.canClose, s.g.clk, w) && JoinOk(s.g.clk, w, s.own.j)
    requires SupOut(s.cfg, s.g.supJoined, s.sup) && Applies(s, e)
    ensures OwnerSafe(s, e)
  {
    hide OfOwner, SupOut;
    ExitedEffect(s, e, pc);
  }

  lemma ExitedSafe(s: Pool, e: Effect, pc: OPc)
    requires s.own.OJoin? && s.own.i < |s.ws|
    requires JoinInv(s) && ExitedDoes(s, e, pc) && Applies(s, e)
    ensures OwnerSafe(s, e)
  {
    assert SupOut(s.cfg, s.g.supJoined, s.sup) by { hide WorkersOk, SupOk, FocusOk; }
    hide PartOf, ExitedDoes, Applies, CtlOk, BornOk, JoinOk, OwnerSafe, SupOk, PathFits, SupOut;
    ExitedIsHere(s, e, pc);
    match PartOf(s.own.j) {
      case Looking => LookingSafe(s, e, pc);
      case Reaping => ReapingSafe(s, e, pc);
      case Recording => RecordingSafe(s, e, pc);
      case Failing => FailingSafe(s, e, pc);
    }
  }

  lemma ExitedJoins(s: Pool, e: Effect, pc: OPc)
    requires s.own.OJoin? && s.own.i < |s.ws|
    requires JoinInv(s) && ExitedDoes(s, e, pc) && Applies(s, e)
    ensures JoinInv(Do(s, e).(own := pc))
  {
    hide WorkersOk, SupOk, FocusOk, PathFits, PathAfter, OwnerSafe, Do, Applies, ExitedDoes;
    ExitedPath(s, e, pc);
    ExitedSafe(s, e, pc);
    ExitedFocus(s, e, pc);
    OwnerStepOk(s, e, pc);
  }

  // ---- the supervisor ---------------------------------------------------------

  ghost predicate SupSafe(s: Pool, e: Effect)
  {
    && OfSupervisor(e) && Applies(s, e)
    && (Target(e) >= 0 ==>
          var w := WorkerAfter(s.ws[Target(e)], e).ctl;
          CtlOk(w) && BornOk(s.g.canClose, s.g.clk, w))
  }

  /** While the supervisor moves, the owner is busy with no worker. */
  lemma OwnerNotFocused(s: Pool)
    requires PathFits(s) && s.sup != UNone && s.sup != UReaped
    ensures StageOf(s.own) != TearingDown
  {
  }

  lemma PathSup(s: Pool, e: Effect, pc: UPc)
    requires PathFits(s) && s.sup != UNone && s.sup != UReaped && OfSupervisor(e) && Applies(s, e)
    ensures PathFits(Do(s, e).(sup := pc))
  {
    hide StageOf;
    DoFacts(s, e);
  }

  lemma FocusSup(s: Pool, ws': seq<Worker>)
    requires PathFits(s) && s.sup != UNone && s.sup != UReaped
    ensures FocusOk(s.g.clk, ws', s.own)
  {
    OwnerNotFocused(s);
  }

  lemma SupAlive(cfg: Config, joined: bool, canClose: bool, k: Clock, ws: seq<Worker>, u: UPc, ws': seq<Worker>, u': UPc)
    requires SupOk(cfg, joined, canClose, k, ws, u) && u != UNone && u != UReaped && Handles(canClose, k, ws', u')
    ensures SupOk(cfg, joined, canClose, k, ws', u')
  {
  }

  lemma SupStepOk(s: Pool, e: Effect, pc: UPc)
    requires JoinInv(s) && SupSafe(s, e) && s.sup != UNone && s.sup != UReaped
    requires Handles(s.g.canClose, s.g.clk, WorkersAfter(s, e), pc)
    ensures JoinInv(Do(s, e).(sup := pc))
  {
    hide WorkersOk, SupOk, Handles, FocusOk, PathFits, Do, WorkersAfter, CtlOk, BornOk, WorkerAfter, Applies;
    SupLeaves(s, e);
    SupAlive(s.cfg, s.g.supJoined, s.g.canClose, s.g.clk, s.ws, s.sup, WorkersAfter(s, e), pc);
    WorkersAfterOk(s, e);
    PathSup(s, e, pc);
    FocusSup(s, Do(s, e).ws);
  }

  /** What no effect of the supervisor changes. */
  lemma SupLeaves(s: Pool, e: Effect)
    requires OfSupervisor(e) && Applies(s, e)
    ensures var s' := Do(s, e);
      && s'.cfg == s.cfg && s'.own == s.own && s'.ws == WorkersAfter(s, e)
      && s'.g.clk == s.g.clk && s'.g.canClose == s.g.canClose && s'.g.supJoined == s.g.supJoined
  {
  }

  lemma ScanSafe(s: Pool, e: Effect, pc: UPc)
    requires WorkersOk(s.g.canClose, s.g.clk, s.ws) && SupOk(s.cfg, s.g.supJoined, s.g.canClose, s.g.clk, s.ws, s.sup)
    requires ScanDoes(s, e, pc) && Applies(s, e)
    ensures SupSafe(s, e)
  {
    ScanEffect(s, e, pc);
  }

  lemma ScanAlive(s: Pool, e: Effect, pc: UPc)
    requires ScanDoes(s, e, pc)
    ensures s.sup != UNone && s.sup != UReaped
  {
  }

  /** An effect of the supervisor that is aimed at no worker. */
  lemma SameWorkers(s: Pool, e: Effect)
    requires OfSupervisor(e) && Applies(s, e) && Target(e) < 0
    ensures WorkersAfter(s, e) == s.ws
  {
  }

  lemma ScanLooks(s: Pool, e: Effect, pc: UPc)
    requires ScanDoes(s, e, pc)
    ensures Target(e) < 0 && Restarting(pc) < 0 && !pc.TQuar?
  {
  }

  lemma ScanHandles(s: Pool, e: Effect, pc: UPc)
    requires ScanDoes(s, e, pc) && Applies(s, e)
    ensures Handles(s.g.canClose, s.g.clk, WorkersAfter(s, e), pc)
  {
    hide ScanDoes, WorkersAfter, Applies;
    ScanLooks(s, e, pc);
  }

  lemma ScanJoins(s: Pool, e: Effect, pc: UPc)
    requires JoinInv(s) && ScanDoes(s, e, pc) && Applies(s, e)
    ensures JoinInv(Do(s, e).(sup := pc))
  {
    hide WorkersOk, Handles, FocusOk, PathFits, SupSafe, Do, Applies, ScanDoes;
    ScanSafe(s, e, pc);
    ScanAlive(s, e, pc);
    ScanHandles(s, e, pc);
    SupStepOk(s, e, pc);
  }

  lemma StallSafe(s: Pool, e: Effect, pc: UPc)
    requires WorkersOk(s.g.canClose, s.g.clk, s.ws) && SupOk(s.cfg, s.g.supJoined, s.g.canClose, s.g.clk, s.ws, s.sup)
    requires StallDoes(s, e, pc) && Applies(s, e)
    ensures SupSafe(s, e)
  {
    StallEffect(s, e, pc);
    if Target(e) >= 0 {
      assert CtlOk(s.ws[Target(e)].ctl) && BornOk(s.g.canClose, s.g.clk, s.ws[Target(e)].ctl);
    }
  }

  lemma StallAlive(s: Pool, e: Effect, pc: UPc)
    requires StallDoes(s, e, pc)
    ensures s.sup != UNone && s.sup != UReaped
  {
  }

  lemma StallLooks(s: Pool, e: Effect, pc: UPc)
    requires StallDoes(s, e, pc) && Target(e) < 0
    requires Handles(s.g.canClose, s.g.clk, s.ws, s.sup)
    requires s.sup.i < |s.ws| ==> CtlOk(s.ws[s.sup.i].ctl)
    ensures Handles(s.g.canClose, s.g.clk, s.ws, pc)
  {
  }

  lemma StallWrites(s: Pool, e: Effect, pc: UPc)
    requires StallDoes(s, e, pc) && Applies(s, e) && Target(e) >= 0
    requires Handles(s.g.canClose, s.g.clk, s.ws, s.sup)
    requires s.sup.i < |s.ws| ==> CtlOk(s.ws[s.sup.i].ctl)
    ensures Handles(s.g.canClose, s.g.clk, WorkersAfter(s, e), pc)
  {
  }

  lemma StallHandles(s: Pool, e: Effect, pc: UPc)
    requires StallDoes(s, e, pc) && Applies(s, e)
    requires Handles(s.g.canClose, s.g.clk, s.ws, s.sup)
    requires s.sup.i < |s.ws| ==> CtlOk(s.ws[s.sup.i].ctl)
    ensures Handles(s.g.canClose, s.g.clk, WorkersAfter(s, e), pc)
  {
    hide StallDoes, Handles;
    StallEffect(s, e, pc);
    if Target(e) < 0 { SameWorkers(s, e); StallLooks(s, e, pc); } else { StallWrites(s, e, pc); }
  }

  lemma StallJoins(s: Pool, e: Effect, pc: UPc)
    requires JoinInv(s) && StallDoes(s, e, pc) && Applies(s, e)
    ensures JoinInv(Do(s, e).(sup := pc))
  {
    assert s.sup.i < |s.ws| ==> CtlOk(s.ws[s.sup.i].ctl);
    hide WorkersOk, Handles, FocusOk, PathFits, SupSafe, Do, Applies, StallDoes;
    StallSafe(s, e, pc);
    StallAlive(s, e, pc);
    StallHandles(s, e, pc);
    SupStepOk(s, e, pc);
  }

  lemma RejoinSafe(s: Pool, e: Effect, pc: UPc)
    requires WorkersOk(s.g.canClose, s.g.clk, s.ws) && SupOk(s.cfg, s.g.supJoined, s.g.canClose, s.g.clk, s.ws, s.sup)
    requires RejoinDoes(s, e, pc) && Applies(s, e)
    ensures SupSafe(s, e)
  {
    RejoinEffect(s, e, pc);
    if Target(e) >= 0 {
      assert CtlOk(s.ws[Target(e)].ctl) && BornOk(s.g.canClose, s.g.clk, s.ws[Target(e)].ctl);
    }
  }

  lemma RejoinAlive(s: Pool, e: Effect, pc: UPc)
    requires RejoinDoes(s, e, pc)
    ensures s.sup != UNone && s.sup != UReaped
  {
  }

  /** A thread is absent where the supervisor has joined the worker. */
  ghost predicate AtRest(ws: seq<Worker>, u: UPc)
  {
    Restarting(u) >= 0 ==> Restarting(u) < |ws| && ws[Restarting(u)].ctl.thread.Absent?
  }

  lemma RejoinShape(s: Pool, e: Effect, pc: UPc)
    requires RejoinDoes(s, e, pc) && Target(e) < 0 && AtRest(s.ws, s.sup)
    requires s.sup.i < |s.ws| && s.ws[s.sup.i].ctl.joined ==> s.ws[s.sup.i].ctl.thread.Absent?
    ensures !pc.TQuar? && !pc.RStarting? && !pc.RCreate? && AtRest(s.ws, pc)
  {
  }

  lemma RejoinLooks(s: Pool, e: Effect, pc: UPc)
    requires RejoinDoes(s, e, pc) && Target(e) < 0
    requires Handles(s.g.canClose, s.g.clk, s.ws, s.sup)
    requires s.sup.i < |s.ws| ==> CtlOk(s.ws[s.sup.i].ctl)
    ensures Handles(s.g.canClose, s.g.clk, s.ws, pc)
  {
    assert AtRest(s.ws, s.sup) by { hide RejoinDoes; }
    hide RejoinDoes, Target;
    RejoinShape(s, e, pc);
  }

  lemma RejoinWrites(s: Pool, e: Effect, pc: UPc)
    requires RejoinDoes(s, e, pc) && Applies(s, e) && Target(e) >= 0
    requires Handles(s.g.canClose, s.g.clk, s.ws, s.sup)
    requires s.sup.i < |s.ws| ==> CtlOk(s.ws[s.sup.i].ctl)
    ensures Handles(s.g.canClose, s.g.clk, WorkersAfter(s, e), pc)
  {
  }

  lemma RejoinHandles(s: Pool, e: Effect, pc: UPc)
    requires RejoinDoes(s, e, pc) && Applies(s, e)
    requires Handles(s.g.canClose, s.g.clk, s.ws, s.sup)
    requires s.sup.i < |s.ws| ==> CtlOk(s.ws[s.sup.i].ctl)
    ensures Handles(s.g.canClose, s.g.clk, WorkersAfter(s, e), pc)
  {
    hide RejoinDoes, Handles;
    RejoinEffect(s, e, pc);
    if Target(e) < 0 { SameWorkers(s, e); RejoinLooks(s, e, pc); } else { RejoinWrites(s, e, pc); }
  }

  lemma RejoinJoins(s: Pool, e: Effect, pc: UPc)
    requires JoinInv(s) && RejoinDoes(s, e, pc) && Applies(s, e)
    ensures JoinInv(Do(s, e).(sup := pc))
  {
    assert s.sup.i < |s.ws| ==> CtlOk(s.ws[s.sup.i].ctl);
    hide WorkersOk, Handles, FocusOk, PathFits, SupSafe, Do, Applies, RejoinDoes;
    RejoinSafe(s, e, pc);
    RejoinAlive(s, e, pc);
    RejoinHandles(s, e, pc);
    SupStepOk(s, e, pc);
  }

  lemma StartSafe(s: Pool, e: Effect, pc: UPc)
    requires WorkersOk(s.g.canClose, s.g.clk, s.ws) && SupOk(s.cfg, s.g.supJoined, s.g.canClose, s.g.clk, s.ws, s.sup)
    requires StartDoes(s, e, pc) && Applies(s, e)
    ensures SupSafe(s, e)
  {
    StartEffect(s, e, pc);
    if Target(e) >= 0 {
      assert CtlOk(s.ws[Target(e)].ctl) && BornOk(s.g.canClose, s.g.clk, s.ws[Target(e)].ctl);
    }
  }

  lemma StartAlive(s: Pool, e: Effect, pc: UPc)
    requires StartDoes(s, e, pc)
    ensures s.sup != UNone && s.sup != UReaped
  {
  }

  lemma StartLooks(s: Pool, e: Effect, pc: UPc)
    requires StartDoes(s, e, pc) && Target(e) < 0
    requires Handles(s.g.canClose, s.g.clk, s.ws, s.sup)
    ensures Handles(s.g.canClose, s.g.clk, s.ws, pc)
  {
  }

  lemma StartSets(s: Pool, e: Effect, pc: UPc)
    requires StartDoes(s, e, pc) && Applies(s, e) && Target(e) >= 0 && s.sup.RStarting?
    requires Handles(s.g.canClose, s.g.clk, s.ws, s.sup)
    ensures Handles(s.g.canClose, s.g.clk, WorkersAfter(s, e), pc)
  {
  }

  lemma StartRest(s: Pool, e: Effect, pc: UPc)
    requires StartDoes(s, e, pc) && Applies(s, e) && Target(e) >= 0 && !s.sup.RStarting?
    requires Handles(s.g.canClose, s.g.clk, s.ws, s.sup)
    ensures Handles(s.g.canClose, s.g.clk, WorkersAfter(s, e), pc)
  {
  }

  lemma StartWrites(s: Pool, e: Effect, pc: UPc)
    requires StartDoes(s, e, pc) && Applies(s, e) && Target(e) >= 0
    requires Handles(s.g.canClose, s.g.clk, s.ws, s.sup)
    ensures Handles(s.g.canClose, s.g.clk, WorkersAfter(s, e), pc)
  {
    hide StartDoes, Handles, WorkersAfter, Applies, Target;
    if s.sup.RStarting? { StartSets(s, e, pc); } else { StartRest(s, e, pc); }
  }

  lemma StartHandles(s: Pool, e: Effect, pc: UPc)
    requires StartDoes(s, e, pc) && Applies(s, e)
    requires Handles(s.g.canClose, s.g.clk, s.ws, s.sup)
    ensures Handles(s.g.canClose, s.g.clk, WorkersAfter(s, e), pc)
  {
    hide StartDoes, Handles;
    StartEffect(s, e, pc);
    if Target(e) < 0 { SameWorkers(s, e); StartLooks(s, e, pc); } else { StartWrites(s, e, pc); }
  }

  lemma StartJoins(s: Pool, e: Effect, pc: UPc)
    requires JoinInv(s) && StartDoes(s, e, pc) && Applies(s, e)
    ensures JoinInv(Do(s, e).(sup := pc))
  {
    hide WorkersOk, Handles, FocusOk, PathFits, SupSafe, Do, Applies, StartDoes;
    StartSafe(s, e, pc);
    StartAlive(s, e, pc);
    StartHandles(s, e, pc);
    SupStepOk(s, e, pc);
  }

  // ---- workers ----------------------------------------------------------------

  lemma MoveOk(canClose: bool, k: Clock, w: Ctl, w': Ctl)
    requires CtlOk(w) && BornOk(canClose, k, w) && OwnMove(w, w')
    ensures CtlOk(w') && BornOk(canClose, k, w')
    ensures Finished(w.thread) ==> w' == w
    ensures w'.thread.Absent? ==> w.thread.Absent?
    ensures !w'.thread.Born?
    ensures SafeToDrain(k, w) ==> SafeToDrain(k, w')
  {
  }

  lemma MoveJoinOk(k: Clock, w: Ctl, w': Ctl, j: JPc)
    requires CtlOk(w) && OwnMove(w, w') && JoinOk(k, w, j)
    ensures JoinOk(k, w', j)
  {
  }

  lemma WorkerJoins(s: Pool, i: nat, s': Pool)
    requires JoinInv(s) && i < |s.ws| && WorkerStep(s, i, s')
    ensures JoinInv(s')
  {
    hide WorkerStep, OwnMove, CtlOk, BornOk, JoinOk, SafeToDrain, PathOk, StageOf;
    WorkerMoves(s, i, s');
    MoveOk(s.g.canClose, s.g.clk, s.ws[i].ctl, s'.ws[i].ctl);
    if s.own.OJoin? && s.own.i == i {
      MoveJoinOk(s.g.clk, s.ws[i].ctl, s'.ws[i].ctl, s.own.j);
    }
  }

  // ---- everybody else ---------------------------------------------------------

  /** Steps that touch no control, no owner and no supervisor. */
  lemma FrameJoins(s: Pool, s': Pool)
    requires JoinInv(s) && s'.cfg == s.cfg && s'.own == s.own && s'.sup == s.sup
    requires |s'.ws| == |s.ws| && forall i :: 0 <= i < |s.ws| ==> s'.ws[i].ctl == s.ws[i].ctl
    requires s'.g.clk == s.g.clk.(now := s'.g.clk.now) && s.g.clk.now <= s'.g.clk.now
    requires s'.g.canClose == s.g.canClose && s'.g.supJoined == s.g.supJoined && s'.g.life == s.g.life
    ensures JoinInv(s')
  {
    hide PathOk, StageOf, CtlOk;
  }

  lemma SubJoins(s: Pool, t: nat, e: Effect, pc: SPc, s': Pool)
    requires JoinInv(s) && t < |s.subs| && SubStep(s, t, e, pc, s')
    ensures JoinInv(s')
  {
    SubmitterEffect(s, t, e, pc);
    DoFacts(s, e);
    hide SubDoes, JoinInv, Do;
    FrameJoins(s, s');
  }

  lemma DestroyJoins(s: Pool, e: Effect, pc: DPc, s': Pool)
    requires JoinInv(s) && DestroyStep(s, e, pc, s')
    ensures JoinInv(s')
  {
    DestroyEffect(s, e, pc);
    DoFacts(s, e);
    hide DestroyDoes, JoinInv, Do;
    FrameJoins(s, s');
  }

  lemma CallJoins(s: Pool, c: nat, s': Pool)
    requires JoinInv(s) && c < |s.calls| && CallStep(s, c, s')
    ensures JoinInv(s')
  {
    hide CallStep, WorkersOk, CtlOk, BornOk, Restarting;
    CallEffect(s, c, s');
  }

  // ---- all steps --------------------------------------------------------------

  lemma OwnerJoins(s: Pool, e: Effect, pc: OPc, s': Pool)
    requires JoinInv(s) && OwnerStep(s, e, pc, s')
    ensures JoinInv(s')
  {
    hide JoinInv, SubmitsDoes, SupJoinDoes, TeardownDoes, PollDoes, ExitedDoes, QuarantineDoes, StopDoes, Do, Applies;
    if SubmitsDoes(s, e, pc) { SubmitsJoins(s, e, pc); }
    else if SupJoinDoes(s, e, pc) { SupJoinJoins(s, e, pc); }
    else if TeardownDoes(s, e, pc) { TeardownJoins(s, e, pc); }
    else if QuarantineDoes(s, e, pc) { QuarantineJoins(s, e, pc); }
    else if StopDoes(s, e, pc) { StopJoins(s, e, pc); }
    else if PollDoes(s, e, pc) { PollJoins(s, e, pc); }
    else { ExitedJoins(s, e, pc); }
  }

  lemma SupJoins(s: Pool, e: Effect, pc: UPc, s': Pool)
    requires JoinInv(s) && SupStep(s, e, pc, s')
    ensures JoinInv(s')
  {
    hide JoinInv, ScanDoes, StallDoes, RejoinDoes, StartDoes, Do, Applies;
    if ScanDoes(s, e, pc) { ScanJoins(s, e, pc); }
    else if StallDoes(s, e, pc) { StallJoins(s, e, pc); }
    else if RejoinDoes(s, e, pc) { RejoinJoins(s, e, pc); }
    else { StartJoins(s, e, pc); }
  }

  lemma NextJoins(s: Pool, s': Pool)
    requires JoinInv(s) && Next(s, s')
    ensures JoinInv(s')
  {
    hide JoinInv, WorkerStep, SubStep, CallStep, OwnerStep, SupStep, DestroyStep;
    if i :| 0 <= i < |s.ws| && WorkerStep(s, i, s') { WorkerJoins(s, i, s'); }
    else if t, e, pc :| 0 <= t < |s.subs| && SubStep(s, t, e, pc, s') { SubJoins(s, t, e, pc, s'); }
    else if c :| 0 <= c < |s.calls| && CallStep(s, c, s') { CallJoins(s, c, s'); }
    else if e, pc :| OwnerStep(s, e, pc, s') { OwnerJoins(s, e, pc, s'); }
    else if e, pc :| SupStep(s, e, pc, s') { SupJoins(s, e, pc, s'); }
    else if e, pc :| DestroyStep(s, e, pc, s') { DestroyJoins(s, e, pc, s'); }
    else { FrameJoins(s, s'); }
  }

  lemma {:induction false} RunJoins(tr: seq<Pool>, n: nat)
    requires Run(tr) && n < |tr|
    ensures JoinInv(tr[n])
  {
    hide JoinInv, Next, Init;
    if n == 0 {
      InitJoins(tr[0]);
    } else {
      RunJoins(tr, n - 1);
      assert NextAt(tr, n - 1);
      NextJoins(tr[n - 1], tr[n]);
    }
  }

  lemma OneConsumerOf(s: Pool, i: nat)
    requires JoinInv(s) && i < |s.ws|
    ensures s.sup == RCreate(i) ==> s.ws[i].ctl.thread == Absent
    ensures s.own == ODrainPop(i) ==> Finished(s.ws[i].ctl.thread) && SupOut(s.cfg, s.g.supJoined, s.sup)
  {
    assert s.sup == RCreate(i) ==> s.ws[i].ctl.thread == Absent by { hide WorkersOk, FocusOk, PathFits, CtlOk, BornOk; }
    hide WorkersOk, SupOk;
  }

  /**
    At most one thread ever consumes a worker's ring: a thread is created only when the
    previous one has been joined, and while the owner pops residual messages of worker i
    no thread of worker i is running or can be started.
   */
  lemma OneConsumer(tr: seq<Pool>, n: nat, i: nat)
    requires Run(tr) && n < |tr| && i < |tr[n].ws|
    ensures tr[n].sup == RCreate(i) ==> tr[n].ws[i].ctl.thread == Absent
    ensures tr[n].own == ODrainPop(i) ==> Finished(tr[n].ws[i].ctl.thread) && SupOut(tr[n].cfg, tr[n].g.supJoined, tr[n].sup)
  {
    RunJoins(tr, n);
    hide Run;
    OneConsumerOf(tr[n], i);
  }
}
