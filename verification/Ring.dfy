/**
  The bounded sequence ring of src/ring.c as a state machine: every thread has a
  program counter and every step performs one atomic load, store, compare-exchange
  or fetch-add (or one plain access to a cell's data pointer).  Steps of different
  threads interleave arbitrarily; compare-exchange may fail spuriously and condition
  waits may wake spuriously.
 */
module Ring {
  import opened Options
  import opened Positions

  /** A message is represented by a token; its bytes play no part in the protocol. */
  type Msg = nat
  type Tid = nat

  datatype Mode = SPSC | MPSC | SPMC | MPMC

  predicate SoleProducer(m: Mode) { m.SPSC? || m.SPMC? }
  predicate SoleConsumer(m: Mode) { m.SPSC? || m.MPSC? }

  /**
    The life of a position, recorded beside the cell that currently stores it.
    A claimed position belongs to the thread that won it or, between
    awp_claim_frame and awp_commit_frame, to the claim ticket.
   */
  datatype Owner = ByThread(t: Tid) | ByTicket
  datatype Phase =
    | Free(pos: nat)
    | Claimed(pos: nat, owner: Owner)
    | Full(pos: nat)
    | Taking(pos: nat, taker: Tid)

  datatype Cell = Cell(seqno: nat, data: Option<Msg>, phase: Phase)

  /** push retries until it succeeds, try_push and claim_frame give up with -EAGAIN. */
  datatype Kind = Blocking | Trying | Claiming

  datatype Outcome =
    | Nothing
    | Pushed
    | Reserved(pos: nat)
    | Rejected                 // push: -1, ring closed
    | Again                    // try_push, claim_frame: -EAGAIN
    | Popped(pos: nat, data: Option<Msg>)
    | Drained                  // pop: -1, closed and empty
    | Done

  datatype WaitFor = ForSpace(v: Msg) | ForData

  datatype Pc =
    | Idle(res: Outcome)
    // push_sp, push_mp, try_push_*, claim_frame
    | PushClosed(k: Kind, v: Msg)
    | PushPos(k: Kind, v: Msg)
    | PushSeq(k: Kind, v: Msg, pos: nat)
    | PushCas(k: Kind, v: Msg, pos: nat)
    | PushWrite(v: Msg, pos: nat)
    | PushPublish(v: Msg, pos: nat)
    | SoloWrite(v: Msg, pos: nat)
    | SoloPublish(v: Msg, pos: nat)
    | SoloAdvance(pos: nat)
    // pop_sc, pop_mc
    | PopPos
    | PopSeq(pos: nat)
    | PopCas(pos: nat)
    | PopStore(pos: nat)
    | PopRead(pos: nat)
    | PopClear(pos: nat, data: Option<Msg>)
    | PopRelease(pos: nat, data: Option<Msg>)
    | PopClosed(pos: nat)
    | PopRecheck(pos: nat)
    // close, reopen
    | SetClosed(c: bool)
    // wake_if_needed, wake_all; then the call returns res
    | Waking(at: WakePc, res: Outcome)
    // wait_space, wait_data
    | Waiting(on: WaitPc, w: WaitFor)

  datatype WakePc = WTest | WLock | WCast | WUnlock

  datatype WaitPc = Enter | Acquire | TestClosed | LoadEnq | LoadDeq(e: nat) | Sleep | Parked | Unlock | Leave

  /**
    Positions and cells.  `log[p]` is what was enqueued at position p (None while a
    ticket holds it), `delivered` what each finished dequeue handed out.  `log`,
    `delivered`, `tickets`, `gap` and the cells' phases are history: no effect on the
    other fields depends on them.
   */
  datatype CoreState = CoreState(
    mode: Mode,
    producers: set<Tid>,
    consumers: set<Tid>,
    enq: nat,
    deq: nat,
    cells: seq<Cell>,
    log: seq<Option<Msg>>,
    delivered: map<nat, Option<Msg>>,
    tickets: set<nat>,
    gap: Option<Tid>)          // single producer between its publish and its enqueue_pos store

  type Core = c: CoreState | |c.cells| >= 2
    witness CoreState(MPMC, {}, {}, 0, 0,
      [Cell(0, None, Free(0)), Cell(1, None, Free(1))], [], map[], {}, None)

  /** `inWait`, `taker`, `sealed` and `quit` are history too. */
  datatype Ring = Ring(
    core: Core,
    threads: seq<Pc>,
    closed: bool,
    waiters: int,
    mu: Option<Tid>,
    inWait: set<Tid>,
    taker: Option<Tid>,        // who made the latest dequeue
    sealed: bool,              // closed while no push was under way, not reopened since
    quit: set<Tid>)            // consumers whose latest pop, since sealing, returned -1

  function At(c: Core, pos: nat): nat { Slot(pos, |c.cells|) }

  function CellOf(c: Core, pos: nat): Cell { c.cells[At(c, pos)] }

  /** awp_ring_init: empty and open, cell i waiting for position i. */
  ghost predicate InitCore(c: Core)
  {
    && c.enq == 0 && c.deq == 0
    && (forall i :: 0 <= i < |c.cells| ==> c.cells[i].seqno == i && c.cells[i].phase == Free(i))
    && c.log == [] && c.delivered == map[] && c.tickets == {} && c.gap == None
    && RolesFit(c)
  }

  ghost predicate Init(s: Ring)
  {
    && InitCore(s.core)
    && (forall t :: 0 <= t < |s.threads| ==> s.threads[t] == Idle(Nothing))
    && !s.closed && s.waiters == 0 && s.mu == None
    && s.inWait == {} && s.taker == None && !s.sealed && s.quit == {}
  }

  /** The caller keeps to the mode: one producing thread where it promises one, and one consuming thread likewise. */
  ghost predicate RolesFit(c: Core) { ModeFits(c.mode, c.producers, c.consumers) }

  predicate ModeFits(mode: Mode, producers: set<Tid>, consumers: set<Tid>)
  {
    && (SoleProducer(mode) ==> forall t, u :: t in producers && u in producers ==> t == u)
    && (SoleConsumer(mode) ==> forall t, u :: t in consumers && u in consumers ==> t == u)
  }

  // ---- effects of single steps ----------------------------------------------

  function Goto(s: Ring, t: Tid, pc: Pc): Ring
    requires t < |s.threads|
  {
    s.(threads := s.threads[t := pc])
  }

  function SetCell(c: Core, pos: nat, cell: Cell): Core
  {
    c.(cells := c.cells[At(c, pos) := cell])
  }

  /** A successful claim of the next position by compare-exchange on enqueue_pos. */
  function ClaimCore(c: Core, t: Tid, k: Kind, v: Msg, pos: nat): Core
  {
    var owner := if k.Claiming? then ByTicket else ByThread(t);
    SetCell(c, pos, CellOf(c, pos).(phase := Claimed(pos, owner))).(
      enq := pos + 1,
      log := c.log + [if k.Claiming? then None else Some(v)],
      tickets := if k.Claiming? then c.tickets + {pos} else c.tickets)
  }

  function AfterClaim(k: Kind, v: Msg, pos: nat): Pc
  {
    if k.Claiming? then Idle(Reserved(pos)) else PushWrite(v, pos)
  }

  function WriteCore(c: Core, pos: nat, d: Option<Msg>): Core
  {
    SetCell(c, pos, CellOf(c, pos).(data := d))
  }

  function PublishCore(c: Core, pos: nat): Core
  {
    SetCell(c, pos, CellOf(c, pos).(seqno := pos + 1, phase := Full(pos)))
  }

  /** push_sp publishes first and advances enqueue_pos afterwards. */
  function PublishSoloCore(c: Core, t: Tid, v: Msg, pos: nat): Core
  {
    PublishCore(c, pos).(log := c.log + [Some(v)], gap := Some(t))
  }

  function AdvanceCore(c: Core, pos: nat): Core
  {
    c.(enq := pos + 1, gap := None)
  }

  /** awp_commit_frame takes the ticket and goes on as a push that already owns its slot. */
  function CommitCore(c: Core, t: Tid, pos: nat, v: Msg): Core
    requires pos < |c.log|
  {
    SetCell(c, pos, CellOf(c, pos).(phase := Claimed(pos, ByThread(t)))).(
      tickets := c.tickets - {pos},
      log := c.log[pos := Some(v)])
  }

  /** Advancing dequeue_pos past pos, by compare-exchange or by the sole consumer's store. */
  function TakeCore(c: Core, t: Tid, pos: nat): Core
  {
    SetCell(c, pos, CellOf(c, pos).(phase := Taking(pos, t))).(deq := pos + 1)
  }

  function ReleaseCore(c: Core, pos: nat, d: Option<Msg>): Core
  {
    var cap := |c.cells|;
    SetCell(c, pos, CellOf(c, pos).(seqno := pos + cap, phase := Free(pos + cap))).(
      delivered := c.delivered[pos := d])
  }

  function Do(s: Ring, t: Tid, c: Core, pc: Pc): Ring
    requires t < |s.threads|
  {
    s.(core := c, threads := s.threads[t := pc])
  }

  function ReturnDrained(s: Ring, t: Tid): Ring
    requires t < |s.threads|
  {
    Goto(if s.sealed then s.(quit := s.quit + {t}) else s, t, Idle(Drained))
  }

  function BeginPop(s: Ring, t: Tid): Ring
    requires t < |s.threads|
  {
    Goto(s.(quit := s.quit - {t}), t, PopPos)
  }

  /** No push is past its closed check and no ticket is out. */
  ghost predicate Quiet(s: Ring)
  {
    s.core.tickets == {} && forall t :: 0 <= t < |s.threads| ==> !InPush(s.threads[t])
  }

  ghost function StoreClosed(s: Ring, t: Tid, c: bool): Ring
    requires t < |s.threads|
  {
    var seal := c && Quiet(s);
    Goto(s.(closed := c, sealed := seal, quit := if seal && s.sealed then s.quit else {}), t, Waking(WLock, Done))
  }

  predicate IsParked(pc: Pc) { pc.Waiting? && pc.on == Parked }

  /** pthread_cond_broadcast by t, which holds the mutex. */
  function Broadcast(s: Ring, t: Tid, res: Outcome): Ring
    requires t < |s.threads|
  {
    var woken := seq(|s.threads|, i requires 0 <= i < |s.threads| =>
      if IsParked(s.threads[i]) then Waiting(Acquire, s.threads[i].w) else s.threads[i]);
    Goto(s.(threads := woken), t, Waking(WUnlock, res))
  }

  function LockMu(s: Ring, t: Tid, pc: Pc): Ring
    requires t < |s.threads|
  {
    Goto(s.(mu := Some(t)), t, pc)
  }

  function UnlockMu(s: Ring, t: Tid, pc: Pc): Ring
    requires t < |s.threads|
  {
    Goto(s.(mu := None), t, pc)
  }

  /** awp_ring_depth from the two positions it loaded. */
  function Depth(e: nat, d: nat, cap: nat): nat
  {
    if e < d then 0 else if e - d > cap then cap else e - d
  }

  function MustPark(w: WaitFor, e: nat, d: nat, cap: nat): bool
  {
    if w.ForSpace? then Depth(e, d, cap) >= cap else Depth(e, d, cap) == 0
  }

  // ---- program counters by region -------------------------------------------

  /** Past the closed check of a push and not yet finished with the slot. */
  predicate InPush(pc: Pc)
  {
    pc.PushPos? || pc.PushSeq? || pc.PushCas? || pc.PushWrite? || pc.PushPublish? ||
    pc.SoloWrite? || pc.SoloPublish? || pc.SoloAdvance?
  }

  // ---- the transition relation ----------------------------------------------

  ghost predicate Begin(s: Ring, t: Tid, s': Ring)
    requires t < |s.threads|
  {
    || (t in s.core.producers && exists k, v :: s' == Goto(s, t, PushClosed(k, v)))
    || (exists p, v :: p in s.core.tickets && p < |s.core.log| &&
                       s' == Do(s, t, CommitCore(s.core, t, p, v), PushWrite(v, p)))
    || (t in s.core.consumers && s' == BeginPop(s, t))
    || s' == Goto(s, t, SetClosed(true))
    || s' == Goto(s, t, SetClosed(false))
  }

  /** A producer looks for room. */
  ghost predicate AdmitStep(s: Ring, t: Tid, s': Ring)
    requires t < |s.threads|
  {
    var c := s.core;
    match s.threads[t]
    case PushClosed(k, v) =>
      s' == Goto(s, t, if s.closed then Idle(Rejected) else PushPos(k, v))
    case PushPos(k, v) =>
      s' == Goto(s, t, PushSeq(k, v, c.enq))
    case PushSeq(k, v, pos) =>
      var q := CellOf(c, pos).seqno;
      if q == pos then
        s' == Goto(s, t, if SoleProducer(c.mode) && !k.Claiming? then SoloWrite(v, pos) else PushCas(k, v, pos))
      else if !k.Blocking? then
        s' == Goto(s, t, Idle(Again))
      else
        s' == Goto(s, t, PushClosed(k, v)) || (q < pos && s' == Goto(s, t, Waiting(Enter, ForSpace(v))))
    case _ => false
  }

  /** A producer claims and fills a slot. */
  ghost predicate PutStep(s: Ring, t: Tid, s': Ring)
    requires t < |s.threads|
  {
    var c := s.core;
    match s.threads[t]
    case PushCas(k, v, pos) =>
      || (c.enq == pos && s' == Do(s, t, ClaimCore(c, t, k, v, pos), AfterClaim(k, v, pos)))
      || s' == Goto(s, t, if k.Blocking? then PushClosed(k, v) else Idle(Again))
    case PushWrite(v, pos) => s' == Do(s, t, WriteCore(c, pos, Some(v)), PushPublish(v, pos))
    case PushPublish(v, pos) => s' == Do(s, t, PublishCore(c, pos), Waking(WTest, Pushed))
    case SoloWrite(v, pos) => s' == Do(s, t, WriteCore(c, pos, Some(v)), SoloPublish(v, pos))
    case SoloPublish(v, pos) => s' == Do(s, t, PublishSoloCore(c, t, v, pos), SoloAdvance(pos))
    case SoloAdvance(pos) => s' == Do(s, t, AdvanceCore(c, pos), Waking(WTest, Pushed))
    case _ => false
  }

  /** A consumer looks for a published head. */
  ghost predicate SeekStep(s: Ring, t: Tid, s': Ring)
    requires t < |s.threads|
  {
    var c := s.core;
    match s.threads[t]
    case PopPos => s' == Goto(s, t, PopSeq(c.deq))
    case PopSeq(pos) =>
      var q := CellOf(c, pos).seqno;
      if q == pos + 1 then
        s' == Goto(s, t, if SoleConsumer(c.mode) then PopStore(pos) else PopCas(pos))
      else
        s' == Goto(s, t, if q < pos + 1 then PopClosed(pos) else PopPos)
    case PopClosed(pos) =>
      if s.closed then s' == Goto(s, t, PopRecheck(pos))
      else s' == Goto(s, t, PopPos) || s' == Goto(s, t, Waiting(Enter, ForData))
    case PopRecheck(pos) =>
      s' == if CellOf(c, pos).seqno == pos + 1 then Goto(s, t, PopPos) else ReturnDrained(s, t)
    case _ => false
  }

  /** A consumer takes the head and releases its cell. */
  ghost predicate TakeStep(s: Ring, t: Tid, s': Ring)
    requires t < |s.threads|
  {
    var c := s.core;
    match s.threads[t]
    case PopCas(pos) =>
      || (c.deq == pos && s' == Do(s.(taker := Some(t)), t, TakeCore(c, t, pos), PopRead(pos)))
      || s' == Goto(s, t, PopPos)
    case PopStore(pos) => s' == Do(s.(taker := Some(t)), t, TakeCore(c, t, pos), PopRead(pos))
    case PopRead(pos) => s' == Goto(s, t, PopClear(pos, CellOf(c, pos).data))
    case PopClear(pos, d) => s' == Do(s, t, WriteCore(c, pos, None), PopRelease(pos, d))
    case PopRelease(pos, d) => s' == Do(s, t, ReleaseCore(c, pos, d), Waking(WTest, Popped(pos, d)))
    case _ => false
  }

  ghost predicate WakeStep(s: Ring, t: Tid, s': Ring)
    requires t < |s.threads|
  {
    match s.threads[t]
    case Waking(WTest, r) => s' == Goto(s, t, if s.waiters > 0 then Waking(WLock, r) else Idle(r))
    case Waking(WLock, r) => s.mu == None && s' == LockMu(s, t, Waking(WCast, r))
    case Waking(WCast, r) => s' == Broadcast(s, t, r)
    case Waking(WUnlock, r) => s' == UnlockMu(s, t, Idle(r))
    case SetClosed(c) => s' == StoreClosed(s, t, c)
    case _ => false
  }

  ghost predicate WaitStep(s: Ring, t: Tid, s': Ring)
    requires t < |s.threads| && s.threads[t].Waiting?
  {
    var w := s.threads[t].w;
    match s.threads[t].on
    case Enter =>
      s' == Goto(s.(waiters := s.waiters + 1, inWait := s.inWait + {t}), t, Waiting(Acquire, w))
    case Acquire => s.mu == None && s' == LockMu(s, t, Waiting(TestClosed, w))
    case TestClosed => s' == Goto(s, t, Waiting(if s.closed then Unlock else LoadEnq, w))
    case LoadEnq => s' == Goto(s, t, Waiting(LoadDeq(s.core.enq), w))
    case LoadDeq(e) =>
      s' == Goto(s, t, Waiting(if MustPark(w, e, s.core.deq, |s.core.cells|) then Sleep else Unlock, w))
    case Sleep => s' == UnlockMu(s, t, Waiting(Parked, w))
    case Parked => s' == Goto(s, t, Waiting(Acquire, w))
    case Unlock => s' == UnlockMu(s, t, Waiting(Leave, w))
    case Leave =>
      s' == Goto(s.(waiters := s.waiters - 1, inWait := s.inWait - {t}), t,
                 if w.ForSpace? then PushClosed(Blocking, w.v) else PopPos)
  }

  ghost predicate Next(s: Ring, t: Tid, s': Ring)
  {
    && t < |s.threads|
    && match s.threads[t] {
         case Idle(_) => Begin(s, t, s')
         case Waiting(_, _) => WaitStep(s, t, s')
         case _ => AdmitStep(s, t, s') || PutStep(s, t, s') || SeekStep(s, t, s') || TakeStep(s, t, s') || WakeStep(s, t, s')
       }
  }

  /** A run: any interleaving of steps from an initial ring. */
  ghost predicate Run(tr: seq<Ring>)
  {
    && |tr| > 0 && Init(tr[0])
    && forall i :: 0 <= i < |tr| - 1 ==> StepAt(tr, i)
  }

  ghost predicate StepAt(tr: seq<Ring>, i: nat)
    requires i + 1 < |tr|
  {
    Step(tr[i], tr[i + 1])
  }

  ghost predicate Step(s: Ring, s': Ring)
  {
    exists t :: Next(s, t, s')
  }
}
