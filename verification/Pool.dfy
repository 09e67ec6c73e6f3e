/**
  The pool's lifecycle as a state machine: any number of workers, submitters and
  shutdown callers, one supervisor, and a destroy call, one atomic access per step.
  A worker's ring appears as reserved, published and dequeued positions: module RingView shows that
  the ring machine, and module PoolView that this one, makes only the moves RingView.ViewNext on it.
 */
module Pool {
  import Shard

  type Tid = nat
  type Wid = nat

  datatype Life = Running | Quiescing | Draining | Stopped

  function Rank(l: Life): nat
  {
    match l case Running => 0 case Quiescing => 1 case Draining => 2 case Stopped => 3
  }

  datatype WState = Starting | WRunning | Exited | Joined | Quarantined

  /** The thread of a worker: absent, created, in its loop, about to leave, returned but not joined. */
  datatype Thread =
    | Absent
    | Born
    | LoopTop
    | StopSeen
    | Pop
    | Recheck
    | InProcess
    | Leaving
    | Returned

  /** What became of a dequeued message. */
  datatype Fate = InHand | Processed | Abandoned

  /** An awp_submit of a key, or a claim for the shard that the caller names. */
  datatype Kind = Submit(key: Shard.Key) | Claim(shard: nat)

  /** The worker a call goes to. */
  function Route(r: Shard.Routes, k: Kind): Wid
  {
    match k
    case Submit(key) => Shard.ShardOf(r, key)
    case Claim(n) => if n >= r.workers then n % r.workers else n
  }

  /** The message of submitter `src`'s call number `call`. */
  datatype Entry = Entry(src: Tid, call: nat, kind: Kind, ready: bool)

  /** `fate[p]` tells about position p, so `|fate|` is the dequeue position. */
  datatype Worker = Worker(
    ctl: Ctl,
    stop: bool,
    closed: bool,
    log: seq<Entry>,
    fate: seq<Fate>,
    processed: nat)

  datatype Ctl = Ctl(state: WState, joined: bool, thread: Thread)

  function SetThread(w: Worker, th: Thread): Worker { w.(ctl := w.ctl.(thread := th)) }

  datatype Answer = NoAnswer | Accepted(w: Wid, pos: nat) | Refused

  /** awp_submit, and awp_claim_frame .. awp_commit_frame as one call. */
  datatype SPc =
    | SIdle(ans: Answer)
    | SIn(k: Kind)
    | SLife(k: Kind, w: Wid)
    | SFlags(k: Kind, w: Wid)
    | SClosed(k: Kind, w: Wid)
    | SCas(k: Kind, w: Wid)
    | SRaise(w: Wid, pos: nat)       // claim: slot won, active_submits not raised yet
    | SHeld(w: Wid, pos: nat)        // claim ticket in the caller's hands
    | SPublish(k: Kind, w: Wid, pos: nat)
    | SCount(w: Wid, pos: nat)
    | SLower(w: Wid, pos: nat)
    | SUndo
    | SLeave(ans: Answer)

  datatype Sub = Sub(pc: SPc, calls: nat)

  /** awp_pool_shutdown up to the compare-exchange, and wait_until_stopped. */
  datatype CPc =
    | CIdle(ret: Ret)
    | CLoad
    | CCas
    | COwner
    | CEnter
    | CWait
    | CAborts(counted: bool)
    | CQuar(r: nat, counted: bool)
    | CLeave(r: nat)

  datatype Ret = NoRet | Ret(r: nat)

  /** awp_worker_join_deadline with join_exited_deadline and awp_pthread_join_deadline. */
  datatype JPc =
    | JJoined | JState | JMark
    | JPoll | JClock | JReload
    | JStop | JClose | JGrace | JGraceClock | JLate
    | JQuar | JQuarMark
    | XJoined(late: bool) | XClock(late: bool) | XWait(late: bool) | XSetJoined(late: bool) | XSetState(late: bool)
    | XTimeout | XTimeoutState | XError
    | JAbort

  /** The owner's part of awp_pool_shutdown. */
  datatype OPc =
    | ONone
    | OStart
    | OSubs | OSubsClock | OSubsCheck | OSubsAbort | OSubsClose(i: nat)
    | OSupStop | OSetDraining | OSupTest
    | OSupClock | OSupPhase | OSupFinal | OSupJoin | OSupWait | OSupJoined | OSupFail | OSupFailCount
    | OClose(i: nat)
    | OJoin(i: nat, j: JPc)
    | ODrainTest(i: nat) | ODrain(i: nat) | ODrainPop(i: nat)
    | OQuarClose(i: nat) | OQuarTest(i: nat) | OQuarAgain(i: nat) | OQuarStore(i: nat) | OQuarMark
    | OAny(i: nat) | OAnyActive | OPersist | OStop
    | OAborts | OQuar(r: nat) | ODone(r: nat) | OOver

  /** The supervisor thread; U.. scans, T.. handles a stall, R.. restarts worker i. */
  datatype UPc =
    | UNone
    | UBorn | UAlive
    | ULoop | UScan(i: nat) | UState(i: nat) | USleep
    | TDepth(i: nat) | TStop(i: nat) | TGrace(i: nat) | TRunning(i: nat) | TTest(i: nat)
    | TQuar(i: nat) | TClose(i: nat) | TMark(i: nat) | TCount(i: nat) | TClear(i: nat)
    | RRunning(i: nat) | RJoined(i: nat) | RJoin(i: nat) | RSetJoined(i: nat) | RSetState(i: nat)
    | RRecheck(i: nat) | RKeepClosed(i: nat) | RReopen(i: nat) | RTerminal(i: nat) | RReclose(i: nat)
    | RClearStop(i: nat) | RClearJoined(i: nat) | RStarting(i: nat) | RCreate(i: nat)
    | FState(i: nat) | FJoined(i: nat) | FClose(i: nat) | FMark(i: nat) | FCount(i: nat) | FStop(i: nat)
    | UExit | UDead | UReturned | UReaped

  /** awp_pool_destroy. */
  datatype DPc =
    | DIdle
    | DLife | DShutdown | DWaiters | DApi
    | DQuar | DWorker(i: nat) | DActive | DApiAgain | DSup | DJoined(i: nat)
    | DFree | DFreed | DLeaked

  datatype Config = Config(cap: nat, restart: bool, supervised: bool, claims: bool, budget: nat, nap: nat)

  /** The monotonic clock, and the owner's start, deadline and number of sleeps once set. */
  datatype Clock = Clock(now: nat, running: bool, start: nat, deadline: nat, naps: nat)

  /** `inActive`, `inApi` and `inWaiters` record who is counted; `stopQuar` the flag when STOPPED was published. */
  datatype Globals = Globals(
    life: Life,
    active: int,
    api: int,
    supStop: bool,
    supPhase: nat,
    supAlive: bool,
    supJoined: bool,
    quarantined: bool,
    destroying: bool,
    aborts: nat,
    abandoned: nat,
    submitted: nat,
    waiters: int,
    canClose: bool,
    clk: Clock,
    inActive: set<Tid>,
    inApi: set<Tid>,
    inWaiters: set<nat>,
    accepted: set<(Wid, nat)>,
    stopQuar: bool)

  datatype Pool = Pool(
    cfg: Config,
    routes: Shard.Routes,
    g: Globals,
    ws: seq<Worker>,
    subs: seq<Sub>,
    calls: seq<CPc>,
    own: OPc,
    sup: UPc,
    des: DPc)

  /** What awp_pool_create hands out: running, all workers just created, nothing submitted. */
  ghost predicate Init(s: Pool)
  {
    && s.cfg.cap > 0 && s.cfg.nap > 0 && s.cfg.budget > 0
    && s.g == Globals(Running, 0, 0, false, if s.cfg.supervised then 1 else 0, false,
                      !s.cfg.supervised, false, false, 0, 0, 0, 0, true,
                      Clock(s.g.clk.now, false, 0, 0, 0), {}, {}, {}, {}, false)
    && |s.ws| == s.routes.workers
    && (forall i :: 0 <= i < |s.ws| ==> s.ws[i] == Worker(Ctl(Starting, false, Born), false, false, [], [], 0))
    && (forall t :: 0 <= t < |s.subs| ==> s.subs[t] == Sub(SIdle(NoAnswer), 0))
    && |s.calls| > 0
    && (forall c :: 0 <= c < |s.calls| ==> s.calls[c] == CIdle(NoRet))
    && s.own == ONone && s.sup == (if s.cfg.supervised then UBorn else UNone) && s.des == DIdle
  }

  // ---- effects of single steps ------------------------------------------------

  /** Everything a step of the owner, the supervisor, destroy or a submitter can do to shared state. */
  datatype Effect =
    | Nop
    | Mark                            // awp_pool_mark_quarantined
    | MarkNoClose                     // the same, and can_close = 0
    | CountAbort
    | AtLeastOneAbort                 // persist_quarantine_abort
    | PutClosed(i: Wid, b: bool)
    | PutState(i: Wid, st: WState)
    | PutStop(i: Wid, b: bool)
    | PutJoined(i: Wid, b: bool)
    | Reap(i: Wid)                    // pthread_join returned
    | Create(i: Wid)                  // pthread_create succeeded
    | Abandon(i: Wid)                 // residual drain
    | PutLife(life: Life)
    | StartClock
    | Sleep(now: nat)
    | PutSupStop
    | PutPhase(n: nat)
    | PutAlive(b: bool)
    | ReapSup
    | PutSupJoined
    | Enter(t: Tid)                   // awp_api_enter
    | Leave(t: Tid, ans: Answer)      // awp_api_leave
    | Raise(t: Tid)                   // active_submits + 1
    | Lower(t: Tid)
    | Reserve(t: Tid, w: Wid, k: Kind) // the claiming compare-exchange
    | Publish(w: Wid, pos: nat)
    | CountSubmit                     // submitted + 1
    | BeginDestroy
    | CallShutdown

  predicate Applies(s: Pool, e: Effect)
  {
    match e
    case PutClosed(i, _) => i < |s.ws|
    case PutState(i, _) => i < |s.ws|
    case PutStop(i, _) => i < |s.ws|
    case PutJoined(i, _) => i < |s.ws|
    case Reap(i) => i < |s.ws|
    case Create(i) => i < |s.ws|
    case Abandon(i) => i < |s.ws|
    case Reserve(t, w, _) => t < |s.subs| && w < |s.ws|
    case Publish(w, pos) => w < |s.ws| && pos < |s.ws[w].log|
    case CallShutdown => |s.calls| > 0
    case _ => true
  }

  function SetW(s: Pool, i: nat, w: Worker): Pool
    requires i < |s.ws|
  {
    s.(ws := s.ws[i := w])
  }

  /** The worker after an effect aimed at it. */
  function WorkerAfter(w: Worker, e: Effect): Worker
  {
    match e
    case PutClosed(_, b) => w.(closed := b)
    case PutState(_, st) => w.(ctl := w.ctl.(state := st))
    case PutStop(_, b) => w.(stop := b)
    case PutJoined(_, b) => w.(ctl := w.ctl.(joined := b))
    case Reap(_) => w.(ctl := w.ctl.(thread := Absent))
    case Create(_) => w.(ctl := w.ctl.(thread := Born))
    case Abandon(_) => w.(fate := w.fate + [Abandoned])
    case _ => w
  }

  /** The worker an effect of the owner or the supervisor is aimed at. */
  function Target(e: Effect): int
  {
    match e
    case PutClosed(i, _) => i
    case PutState(i, _) => i
    case PutStop(i, _) => i
    case PutJoined(i, _) => i
    case Reap(i) => i
    case Create(i) => i
    case Abandon(i) => i
    case _ => -1
  }

  function WorkersAfter(s: Pool, e: Effect): seq<Worker>
    requires Applies(s, e)
  {
    if Target(e) >= 0 then s.ws[Target(e) := WorkerAfter(s.ws[Target(e)], e)]
    else match e
      case Reserve(t, w, k) =>
        s.ws[w := s.ws[w].(log := s.ws[w].log + [Entry(t, s.subs[t].calls, k, false)])]
      case Publish(w, pos) =>
        s.ws[w := s.ws[w].(log := s.ws[w].log[pos := s.ws[w].log[pos].(ready := true)])]
      case _ => s.ws
  }

  function ClockAfter(k: Clock, budget: nat, e: Effect): Clock
  {
    match e
    case StartClock => k.(running := true, start := k.now, deadline := k.now + budget)
    case Sleep(now) => k.(now := now, naps := k.naps + 1)
    case _ => k
  }

  function GlobalsAfter(g: Globals, budget: nat, e: Effect): Globals
  {
    Globals(
      life := if e.PutLife? then e.life else g.life,
      active := if e.Raise? then g.active + 1 else if e.Lower? then g.active - 1 else g.active,
      api := if e.Enter? then g.api + 1 else if e.Leave? then g.api - 1 else g.api,
      supStop := g.supStop || e.PutSupStop?,
      supPhase := if e.PutPhase? then e.n else g.supPhase,
      supAlive := if e.PutAlive? then e.b else g.supAlive,
      supJoined := g.supJoined || e.PutSupJoined?,
      quarantined := g.quarantined || e.Mark? || e.MarkNoClose?,
      destroying := g.destroying || e.BeginDestroy?,
      aborts := if e.CountAbort? || (e.AtLeastOneAbort? && g.aborts == 0) then g.aborts + 1 else g.aborts,
      abandoned := if e.Abandon? then g.abandoned + 1 else g.abandoned,
      submitted := if e.CountSubmit? then g.submitted + 1 else g.submitted,
      waiters := g.waiters,
      canClose := g.canClose && !e.MarkNoClose?,
      clk := ClockAfter(g.clk, budget, e),
      inActive := if e.Raise? then g.inActive + {e.t} else if e.Lower? then g.inActive - {e.t} else g.inActive,
      inApi := if e.Enter? then g.inApi + {e.t} else if e.Leave? then g.inApi - {e.t} else g.inApi,
      inWaiters := g.inWaiters,
      accepted := if e.Leave? && e.ans.Accepted? then g.accepted + {(e.ans.w, e.ans.pos)} else g.accepted,
      stopQuar := if e.PutLife? && e.life == Stopped then g.quarantined else g.stopQuar)
  }

  function Do(s: Pool, e: Effect): Pool
    requires Applies(s, e)
  {
    s.(g := GlobalsAfter(s.g, s.cfg.budget, e),
       ws := WorkersAfter(s, e),
       sup := if e.ReapSup? then UReaped else s.sup,
       calls := if e.CallShutdown? then s.calls[0 := CLoad] else s.calls)
  }

  // ---- conditions -------------------------------------------------------------

  predicate HeadReady(w: Worker) { |w.fate| < |w.log| && w.log[|w.fate|].ready }

  /** life_is_running */
  predicate LifeRunning(g: Globals) { g.life == Running && !g.supStop }

  predicate Active(st: WState) { st == Starting || st == WRunning }

  predicate TimeUp(k: Clock) { k.now >= k.deadline }

  // ---- worker threads (awp_worker_main) ---------------------------------------

  ghost predicate WorkerStep(s: Pool, i: nat, s': Pool)
    requires i < |s.ws|
  {
    var w := s.ws[i];
    match w.ctl.thread
    case Absent => false
    case Born => s' == SetW(s, i, w.(ctl := w.ctl.(state := WRunning, thread := LoopTop)))
    case LoopTop => s' == SetW(s, i, SetThread(w, if w.stop then StopSeen else Pop))
    case StopSeen => s' == SetW(s, i, SetThread(w, if |w.fate| == |w.log| then Leaving else Pop))
    case Pop =>
      || (HeadReady(w) && s' == SetW(s, i, SetThread(w.(fate := w.fate + [InHand]), InProcess)))
      || (w.closed && s' == SetW(s, i, SetThread(w, Recheck)))
    case Recheck => s' == SetW(s, i, SetThread(w, if HeadReady(w) then Pop else Leaving))
    case InProcess =>
      || (|w.fate| > 0 &&
          s' == SetW(s, i, SetThread(w.(fate := w.fate[|w.fate| - 1 := Processed], processed := w.processed + 1), LoopTop)))
      // the callback calls destroy: quarantine and at least one abort
      || s' == s.(g := s.g.(quarantined := true, aborts := if s.g.aborts == 0 then 1 else s.g.aborts))
    case Leaving => s' == SetW(s, i, w.(ctl := w.ctl.(state := Exited, thread := Returned)))
    case Returned => false
  }

  // ---- submitters -------------------------------------------------------------

  /** What submitter t does next: the effect and its new program counter. */
  ghost predicate SubDoes(s: Pool, t: Tid, e: Effect, pc: SPc)
    requires t < |s.subs|
  {
    match s.subs[t].pc
    case SIdle(_) =>
      // the owner protocol: no new calls once destroy began
      !s.g.destroying && e == Enter(t) && pc.SIn? && (pc.k.Claim? ==> s.cfg.claims)
    case SIn(k) =>
      || (e == Nop && pc == SLeave(Refused))               // bad arguments
      || (pc == SLife(k, Route(s.routes, k)) && e == if k.Submit? then Raise(t) else Nop)
    case SLife(k, w) => e == Nop && pc == if s.g.life == Running then SFlags(k, w) else Refuse(k)
    case SFlags(k, w) =>
      e == Nop && pc == if s.g.quarantined || s.g.destroying then Refuse(k) else SClosed(k, w)
    case SClosed(k, w) =>
      w < |s.ws| && e == Nop && pc == if s.ws[w].closed then Refuse(k) else SCas(k, w)
    case SCas(k, w) =>
      && w < |s.ws|
      && (|| (|s.ws[w].log| < |s.ws[w].fate| + s.cfg.cap && e == Reserve(t, w, k) &&
              pc == if k.Submit? then SPublish(k, w, |s.ws[w].log|) else SRaise(w, |s.ws[w].log|))
          || (e == Nop && pc == if k.Submit? then SLife(k, w) else SLeave(Refused)))
    case SRaise(w, pos) => e == Raise(t) && pc == SHeld(w, pos)
    case SHeld(w, pos) => e == Nop && pc == SPublish(Claim(w), w, pos)
    case SPublish(_, w, pos) => e == Publish(w, pos) && pc == SCount(w, pos)
    case SCount(w, pos) => e == CountSubmit && pc == SLower(w, pos)
    case SLower(w, pos) => e == Lower(t) && pc == SLeave(Accepted(w, pos))
    case SUndo => e == Lower(t) && pc == SLeave(Refused)
    case SLeave(a) => e == Leave(t, a) && pc == SIdle(a)
  }

  /** A refused submit lowers active_submits first; a refused claim never raised it. */
  function Refuse(k: Kind): SPc
  {
    if k.Submit? then SUndo else SLeave(Refused)
  }

  function SubAfter(b: Sub, pc: SPc): Sub
  {
    Sub(pc, if b.pc.SIdle? then b.calls + 1 else b.calls)
  }

  ghost predicate SubStep(s: Pool, t: Tid, e: Effect, pc: SPc, s': Pool)
    requires t < |s.subs|
  {
    SubDoes(s, t, e, pc) && Applies(s, e) && s' == Do(s, e).(subs := s.subs[t := SubAfter(s.subs[t], pc)])
  }

  // ---- shutdown callers -------------------------------------------------------

  ghost predicate CallStep(s: Pool, c: nat, s': Pool)
    requires c < |s.calls|
  {
    match s.calls[c]
    case CIdle(_) => !s.g.destroying && s' == s.(calls := s.calls[c := CLoad])
    case CLoad =>
      s' == s.(calls := s.calls[c := match s.g.life
                                     case Running => CCas
                                     case Stopped => CAborts(false)
                                     case _ => CEnter])
    case CCas =>
      if s.g.life == Running then
        s' == s.(calls := s.calls[c := COwner], g := s.g.(life := Quiescing), own := OStart)
      else
        s' == s.(calls := s.calls[c := CLoad])
    case COwner => s.own.ODone? && s' == s.(calls := s.calls[c := CIdle(Ret(s.own.r))], own := OOver)
    case CEnter =>
      s' == s.(calls := s.calls[c := CWait], g := s.g.(waiters := s.g.waiters + 1, inWaiters := s.g.inWaiters + {c}))
    case CWait => s.g.life == Stopped && s' == s.(calls := s.calls[c := CAborts(true)])
    case CAborts(n) => s' == s.(calls := s.calls[c := CQuar(s.g.aborts, n)])
    case CQuar(r, n) =>
      var r' := Final(r, s.g.quarantined);
      s' == s.(calls := s.calls[c := if n then CLeave(r') else CIdle(Ret(r'))])
    case CLeave(r) =>
      s' == s.(calls := s.calls[c := CIdle(Ret(r))],
               g := s.g.(waiters := s.g.waiters - 1, inWaiters := s.g.inWaiters - {c}))
  }

  /** Counted in shutdown_waiters. */
  predicate IsWaiter(pc: CPc)
  {
    pc.CWait? || (pc.CAborts? && pc.counted) || (pc.CQuar? && pc.counted) || pc.CLeave?
  }

  function Final(r: nat, quarantined: bool): nat { if r == 0 && quarantined then 1 else r }

  // ---- the shutdown owner -----------------------------------------------------

  /** One sleep of a polling loop lasts at least cfg.nap. */
  predicate Sleeps(s: Pool, e: Effect) { e.Sleep? && e.now >= s.g.clk.now + s.cfg.nap }

  /** The clock shows time left, so the loop sleeps once more. */
  predicate Naps(s: Pool, e: Effect) { !TimeUp(s.g.clk) && Sleeps(s, e) }

  ghost predicate SubmitsDoes(s: Pool, e: Effect, pc: OPc)
  {
    match s.own
    case OStart => e == StartClock && pc == OSubs
    case OSubs => e == Nop && pc == if s.g.active > 0 then OSubsClock else OSubsCheck
    case OSubsClock => if TimeUp(s.g.clk) then e == Nop && pc == OSubsCheck else Naps(s, e) && pc == OSubs
    case OSubsCheck =>
      if s.g.active > 0 then e == MarkNoClose && pc == OSubsAbort else e == Nop && pc == OSupStop
    case OSubsAbort => e == CountAbort && pc == OSubsClose(0)
    case OSubsClose(i) =>
      if i < |s.ws| then e == PutClosed(i, true) && pc == OSubsClose(i + 1) else e == Nop && pc == OSupStop
    case OSupStop => e == PutSupStop && pc == OSetDraining
    case OSetDraining => e == PutLife(Draining) && pc == OSupTest
    case _ => false
  }

  /** Where the owner goes once the supervisor question is settled. */
  function AfterSup(canClose: bool): OPc { if canClose then OClose(0) else OQuarClose(0) }

  ghost predicate SupJoinDoes(s: Pool, e: Effect, pc: OPc)
  {
    match s.own
    case OSupTest =>
      e == Nop && pc == if s.cfg.supervised && !s.g.supJoined then OSupClock else AfterSup(s.g.canClose)
    case OSupClock => e == Nop && pc == if TimeUp(s.g.clk) then OSupFinal else OSupPhase
    case OSupPhase =>
      if s.g.supPhase == 3 || (s.g.supPhase == 0 && !s.g.supAlive) then e == Nop && pc == OSupFinal
      else Sleeps(s, e) && pc == OSupClock
    case OSupFinal =>
      e == Nop &&
      pc == if s.g.supPhase == 3 || (s.g.supPhase != 1 && s.g.supPhase != 2 && !s.g.supAlive)
            then OSupJoin else OSupFail
    case OSupJoin => e == Nop && (pc == OSupFail || (!TimeUp(s.g.clk) && pc == OSupWait))
    case OSupWait =>
      || (s.sup == UReturned && e == ReapSup && pc == OSupJoined)
      || (e == Nop && pc == OSupFail)
      || (Naps(s, e) && pc == OSupWait)
    case OSupJoined => e == PutSupJoined && pc == AfterSup(s.g.canClose)
    case OSupFail => e == MarkNoClose && pc == OSupFailCount
    case OSupFailCount => e == CountAbort && pc == OQuarClose(0)
    case _ => false
  }

  /** awp_worker_join_deadline on worker i: polling for EXITED. */
  ghost predicate PollDoes(s: Pool, e: Effect, pc: OPc)
    requires s.own.OJoin? && s.own.i < |s.ws|
  {
    var i := s.own.i;
    var w := s.ws[i].ctl;
    match s.own.j
    case JJoined => e == Nop && pc == if w.joined then ODrainTest(i) else OJoin(i, JState)
    case JState => e == Nop && pc == OJoin(i, if w.state == Quarantined then JMark else JPoll)
    case JMark => e == Mark && pc == OJoin(i, JAbort)
    case JPoll => e == Nop && pc == OJoin(i, if Active(w.state) then JClock else JReload)
    case JClock =>
      if TimeUp(s.g.clk) then e == Nop && pc == OJoin(i, JReload) else Naps(s, e) && pc == OJoin(i, JPoll)
    case JReload =>
      e == Nop && pc == OJoin(i, if w.state == Exited || w.state == Joined then XJoined(false) else JStop)
    case JStop => e == PutStop(i, true) && pc == OJoin(i, JClose)
    case JClose => e == PutClosed(i, true) && pc == OJoin(i, JGrace)
    case JGrace => e == Nop && pc == OJoin(i, if Active(w.state) then JGraceClock else JLate)
    case JGraceClock => (e == Nop && pc == OJoin(i, JLate)) || (Naps(s, e) && pc == OJoin(i, JGrace))
    case JLate => e == Nop && pc == OJoin(i, if w.state == Exited then XJoined(true) else JQuar)
    case JQuar => e == PutState(i, Quarantined) && pc == OJoin(i, JQuarMark)
    case JQuarMark => e == Mark && pc == OJoin(i, JAbort)
    case JAbort => e == CountAbort && pc == ODrainTest(i)
    case _ => false
  }

  /** join_exited_deadline with awp_pthread_join_deadline; `late` after the grace period. */
  ghost predicate ExitedDoes(s: Pool, e: Effect, pc: OPc)
    requires s.own.OJoin? && s.own.i < |s.ws|
  {
    var i := s.own.i;
    var w := s.ws[i].ctl;
    match s.own.j
    case XJoined(late) => e == Nop && pc == if w.joined then JoinEnds(i, late) else OJoin(i, XClock(late))
    case XClock(late) =>
      && e == Nop
      && (if TimeUp(s.g.clk) then pc == OJoin(i, XTimeout)
          else pc == OJoin(i, XWait(late)) || pc == OJoin(i, XError))
    case XWait(late) =>
      || (w.thread == Returned && e == Reap(i) && pc == OJoin(i, XSetJoined(late)))
      || (TimeUp(s.g.clk) && e == Nop && pc == OJoin(i, XTimeout))
      || (e == Nop && pc == OJoin(i, XError))
      || (Naps(s, e) && pc == OJoin(i, XWait(late)))
    case XSetJoined(late) => e == PutJoined(i, true) && pc == OJoin(i, XSetState(late))
    case XSetState(late) => e == PutState(i, Joined) && pc == JoinEnds(i, late)
    case XTimeout => e == Mark && pc == OJoin(i, XTimeoutState)
    case XTimeoutState => e == PutState(i, Quarantined) && pc == OJoin(i, JAbort)
    case XError => e == Mark && pc == OJoin(i, JAbort)
    case _ => false
  }

  /** Joined in time: no abort; joined after the grace period: one abort. */
  function JoinEnds(i: nat, late: bool): OPc
  {
    if late then OJoin(i, JAbort) else ODrainTest(i)
  }

  function NextJoin(n: nat, i: nat): OPc { if i < n then OJoin(i, JJoined) else OAny(0) }

  ghost predicate TeardownDoes(s: Pool, e: Effect, pc: OPc)
  {
    match s.own
    case OClose(i) =>
      if i < |s.ws| then e == PutClosed(i, true) && pc == OClose(i + 1)
      else e == Nop && pc == NextJoin(|s.ws|, 0)
    case ODrainTest(i) =>
      && i < |s.ws| && e == Nop
      && pc == if s.ws[i].ctl.state != Quarantined then ODrain(i) else NextJoin(|s.ws|, i + 1)
    case ODrain(i) => e == Nop && pc == if TimeUp(s.g.clk) then NextJoin(|s.ws|, i + 1) else ODrainPop(i)
    case ODrainPop(i) =>
      && i < |s.ws|
      && (if HeadReady(s.ws[i]) then e == Abandon(i) && pc == ODrain(i)
          else s.ws[i].closed && e == Nop && pc == NextJoin(|s.ws|, i + 1))
    case _ => false
  }

  ghost predicate QuarantineDoes(s: Pool, e: Effect, pc: OPc)
  {
    match s.own
    case OQuarClose(i) =>
      if i < |s.ws| then e == PutClosed(i, true) && pc == OQuarTest(i) else e == Nop && pc == OQuarMark
    case OQuarTest(i) =>
      && i < |s.ws| && e == Nop
      && pc == if s.ws[i].ctl.state == WRunning then OQuarStore(i) else OQuarAgain(i)
    case OQuarAgain(i) =>
      && i < |s.ws| && e == Nop
      && pc == if s.ws[i].ctl.state == Starting then OQuarStore(i) else OQuarClose(i + 1)
    case OQuarStore(i) => e == PutState(i, Quarantined) && pc == OQuarClose(i + 1)
    case OQuarMark => e == Mark && pc == OAny(0)
    case _ => false
  }

  ghost predicate StopDoes(s: Pool, e: Effect, pc: OPc)
  {
    match s.own
    case OAny(i) =>
      if i >= |s.ws| then e == Nop && pc == OAnyActive
      else if s.ws[i].ctl.state == Quarantined then e == Mark && pc == OPersist
      else e == Nop && pc == OAny(i + 1)
    case OAnyActive => pc == OPersist && e == if s.g.active > 0 then Mark else Nop
    case OPersist => pc == OStop && e == if s.g.quarantined then AtLeastOneAbort else Nop
    case OStop => e == PutLife(Stopped) && pc == OAborts
    case OAborts => e == Nop && pc == OQuar(s.g.aborts)
    case OQuar(r) => e == Nop && pc == ODone(Final(r, s.g.quarantined))
    case _ => false
  }

  ghost predicate OwnerDoes(s: Pool, e: Effect, pc: OPc)
  {
    || SubmitsDoes(s, e, pc) || SupJoinDoes(s, e, pc) || TeardownDoes(s, e, pc)
    || (s.own.OJoin? && s.own.i < |s.ws| && (PollDoes(s, e, pc) || ExitedDoes(s, e, pc)))
    || QuarantineDoes(s, e, pc) || StopDoes(s, e, pc)
  }

  ghost predicate OwnerStep(s: Pool, e: Effect, pc: OPc, s': Pool)
  {
    OwnerDoes(s, e, pc) && Applies(s, e) && s' == Do(s, e).(own := pc)
  }

  // ---- the supervisor ---------------------------------------------------------

  ghost predicate ScanDoes(s: Pool, e: Effect, pc: UPc)
  {
    match s.sup
    case UBorn => e == PutPhase(2) && pc == UAlive
    case UAlive => e == PutAlive(true) && pc == ULoop
    case ULoop => e == Nop && pc == if LifeRunning(s.g) then UScan(0) else UExit
    case UScan(i) => e == Nop && pc == if i < |s.ws| && LifeRunning(s.g) then UState(i) else USleep
    case UState(i) =>
      && i < |s.ws| && e == Nop
      && (match s.ws[i].ctl.state
          case Exited => pc == if s.cfg.restart then RRunning(i) else UScan(i + 1)
          case WRunning => pc == UScan(i + 1) || (s.cfg.restart && pc == TDepth(i))
          case _ => pc == UScan(i + 1))
    case USleep => e == Nop && pc == ULoop
    case UExit => e == PutPhase(3) && pc == UDead
    case UDead => e == PutAlive(false) && pc == UReturned
    case _ => false
  }

  ghost predicate StallDoes(s: Pool, e: Effect, pc: UPc)
  {
    match s.sup
    case TDepth(i) =>
      i < |s.ws| && e == Nop && pc == if |s.ws[i].fate| < |s.ws[i].log| then TStop(i) else UScan(i + 1)
    case TStop(i) => e == PutStop(i, true) && pc == TGrace(i)
    case TGrace(i) =>
      // progress seen: the stop request is withdrawn
      (e == Nop || e == PutStop(i, false)) && pc == TRunning(i)
    case TRunning(i) => e == Nop && pc == if LifeRunning(s.g) then TTest(i) else USleep
    case TTest(i) =>
      && i < |s.ws| && e == Nop
      && (|| (s.ws[i].ctl.state == Exited && pc == RRunning(i))
          || (s.ws[i].ctl.state == WRunning && s.ws[i].stop && pc == TQuar(i))
          || (s.ws[i].ctl.state != Exited && pc == TClear(i)))
    case TQuar(i) => e == PutState(i, Quarantined) && pc == TClose(i)
    case TClose(i) => e == PutClosed(i, true) && pc == TMark(i)
    case TMark(i) => e == Mark && pc == TCount(i)
    case TCount(i) => e == CountAbort && pc == UScan(i + 1)
    case TClear(i) => e == PutStop(i, false) && pc == UScan(i + 1)
    case _ => false
  }

  /** restart_worker up to the terminal check after the reopen. */
  ghost predicate RejoinDoes(s: Pool, e: Effect, pc: UPc)
  {
    match s.sup
    case RRunning(i) => e == Nop && pc == if LifeRunning(s.g) then RJoined(i) else UScan(i + 1)
    case RJoined(i) => i < |s.ws| && e == Nop && pc == if s.ws[i].ctl.joined then RRecheck(i) else RJoin(i)
    case RJoin(i) =>
      && i < |s.ws|
      && (|| (s.ws[i].ctl.thread == Returned && e == Reap(i) && pc == RSetJoined(i))
          || (e == Mark && pc == UScan(i + 1)))            // pthread_join failed
    case RSetJoined(i) => e == PutJoined(i, true) && pc == RSetState(i)
    case RSetState(i) => e == PutState(i, Joined) && pc == RRecheck(i)
    case RRecheck(i) => e == Nop && pc == if LifeRunning(s.g) then RReopen(i) else RKeepClosed(i)
    case RKeepClosed(i) => e == PutClosed(i, true) && pc == UScan(i + 1)
    case RReopen(i) => e == PutClosed(i, false) && pc == RTerminal(i)
    case RTerminal(i) => e == Nop && pc == if LifeRunning(s.g) then RClearStop(i) else RReclose(i)
    case RReclose(i) => e == PutClosed(i, true) && pc == UScan(i + 1)
    case _ => false
  }

  /** awp_worker_start from restart_worker, and what follows when pthread_create fails. */
  ghost predicate StartDoes(s: Pool, e: Effect, pc: UPc)
  {
    match s.sup
    case RClearStop(i) => e == PutStop(i, false) && pc == RClearJoined(i)
    case RClearJoined(i) => e == PutJoined(i, false) && pc == RStarting(i)
    case RStarting(i) => e == PutState(i, Starting) && pc == RCreate(i)
    case RCreate(i) => (e == Create(i) && pc == UScan(i + 1)) || (e == Nop && pc == FState(i))
    case FState(i) => e == PutState(i, Joined) && pc == FJoined(i)
    case FJoined(i) => e == PutJoined(i, true) && pc == FClose(i)
    case FClose(i) => e == PutClosed(i, true) && pc == FMark(i)
    case FMark(i) => e == Mark && pc == FCount(i)
    case FCount(i) => e == CountAbort && pc == FStop(i)
    case FStop(i) => e == PutSupStop && pc == UScan(i + 1)
    case _ => false
  }

  ghost predicate SupDoes(s: Pool, e: Effect, pc: UPc)
  {
    ScanDoes(s, e, pc) || StallDoes(s, e, pc) || RejoinDoes(s, e, pc) || StartDoes(s, e, pc)
  }

  ghost predicate SupStep(s: Pool, e: Effect, pc: UPc, s': Pool)
  {
    SupDoes(s, e, pc) && Applies(s, e) && s' == Do(s, e).(sup := pc)
  }

  // ---- destroy ----------------------------------------------------------------

  ghost predicate DestroyDoes(s: Pool, e: Effect, pc: DPc)
  {
    match s.des
    case DIdle =>
      // owner protocol: shutdown has returned to its owner; others may still be in wait_until_stopped
      && |s.calls| > 0 && s.calls[0].CIdle?
      && (forall c :: 0 <= c < |s.calls| ==> s.calls[c].CIdle? || IsWaiter(s.calls[c]))
      && e == BeginDestroy && pc == DLife
    case DLife => if s.g.life == Stopped then e == Nop && pc == DWaiters else e == CallShutdown && pc == DShutdown
    case DShutdown => |s.calls| > 0 && s.calls[0].CIdle? && e == Nop && pc == DWaiters
    case DWaiters => s.g.waiters <= 0 && e == Nop && pc == DApi
    case DApi =>
      // the second arm: gave up after 5 s
      pc == DQuar && ((s.g.api <= 0 && e == Nop) || e == Mark)
    case DQuar => e == Nop && pc == if s.g.quarantined then DLeaked else DWorker(0)
    case DWorker(i) =>
      && e == Nop
      && pc == if i >= |s.ws| then DActive
               else if s.ws[i].ctl.state == Quarantined then DLeaked else DWorker(i + 1)
    case DActive => e == Nop && pc == if s.g.active > 0 then DLeaked else DApiAgain
    case DApiAgain => e == Nop && pc == if s.g.api > 0 then DLeaked else DSup
    case DSup => e == Nop && pc == if s.cfg.supervised && !s.g.supJoined then DLeaked else DJoined(0)
    case DJoined(i) =>
      if i >= |s.ws| then e == Nop && pc == DFree
      else if !s.ws[i].ctl.joined && s.ws[i].ctl.state != Quarantined then e == Mark && pc == DLeaked
      else e == Nop && pc == DJoined(i + 1)
    case DFree => e == Nop && pc == DFreed
    case _ => false
  }

  ghost predicate DestroyStep(s: Pool, e: Effect, pc: DPc, s': Pool)
  {
    DestroyDoes(s, e, pc) && Applies(s, e) && s' == Do(s, e).(des := pc)
  }

  // ---- runs -------------------------------------------------------------------

  ghost predicate Tick(s: Pool, s': Pool)
  {
    s'.g.clk.now >= s.g.clk.now && s' == s.(g := s.g.(clk := s.g.clk.(now := s'.g.clk.now)))
  }

  ghost predicate Next(s: Pool, s': Pool)
  {
    || (exists i :: 0 <= i < |s.ws| && WorkerStep(s, i, s'))
    || (exists t, e, pc :: 0 <= t < |s.subs| && SubStep(s, t, e, pc, s'))
    || (exists c :: 0 <= c < |s.calls| && CallStep(s, c, s'))
    || (exists e, pc :: OwnerStep(s, e, pc, s'))
    || (exists e, pc :: SupStep(s, e, pc, s'))
    || (exists e, pc :: DestroyStep(s, e, pc, s'))
    || Tick(s, s')
  }

  ghost predicate Run(tr: seq<Pool>)
  {
    && |tr| > 0 && Init(tr[0])
    && forall n :: 0 <= n < |tr| - 1 ==> NextAt(tr, n)
  }

  ghost predicate NextAt(tr: seq<Pool>, n: nat)
    requires n + 1 < |tr|
  {
    Next(tr[n], tr[n + 1])
  }
}
