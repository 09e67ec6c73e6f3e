/** The pool's rings follow the same three operations that every step of the ring machine maps to. */
module PoolView {
  import opened Pool
  import opened PoolEffects
  import opened PoolLogs
  import opened PoolFates
  import RingView

  function ReadyFlags(log: seq<Entry>): seq<bool>
  {
    seq(|log|, p requires 0 <= p < |log| => log[p].ready)
  }

  function RingOf(cap: nat, w: Worker): RingView.View
  {
    RingView.View(cap, ReadyFlags(w.log), |w.fate|)
  }

  /** Each worker's ring, seen as a `View`, makes at most one of the ring's own moves. */
  ghost predicate RingsMove(cap: nat, ws: seq<Worker>, ws': seq<Worker>)
  {
    |ws'| == |ws| && forall i :: 0 <= i < |ws| ==> RingView.ViewNext(RingOf(cap, ws[i]), RingOf(cap, ws'[i]))
  }

  lemma WorkerRings(s: Pool, i: nat, s': Pool)
    requires i < |s.ws| && WorkerStep(s, i, s')
    ensures RingsMove(s.cfg.cap, s.ws, s'.ws)
  {
    WorkerMoves(s, i, s');
    TakesHead(s, i, s');
    var v, v' := RingOf(s.cfg.cap, s.ws[i]), RingOf(s.cfg.cap, s'.ws[i]);
    hide WorkerStep, OwnMove, ReadyFlags;
    if v' != v { assert RingView.Dequeues(v, v'); }
  }

  /** The dequeue position moves only past a published head. */
  lemma TakesHead(s: Pool, i: nat, s': Pool)
    requires i < |s.ws| && WorkerStep(s, i, s')
    ensures |s'.ws| == |s.ws|
    ensures |s'.ws[i].fate| == |s.ws[i].fate| || (|s'.ws[i].fate| == |s.ws[i].fate| + 1 && HeadReady(s.ws[i]))
  {
  }

  lemma OthersMove(s: Pool, e: Effect)
    requires Applies(s, e) && !e.Reserve? && !e.Publish?
    requires e.Abandon? ==> HeadReady(s.ws[e.i])
    ensures RingsMove(s.cfg.cap, s.ws, WorkersAfter(s, e))
  {
    if e.Abandon? {
      assert RingView.Dequeues(RingOf(s.cfg.cap, s.ws[e.i]), RingOf(s.cfg.cap, WorkersAfter(s, e)[e.i]));
    }
  }

  lemma ReserveMoves(cap: nat, w: Worker, en: Entry)
    requires |w.log| < |w.fate| + cap && !en.ready
    ensures RingView.Reserves(RingOf(cap, w), RingOf(cap, w.(log := w.log + [en])))
  {
    assert ReadyFlags(w.log + [en]) == ReadyFlags(w.log) + [false];
  }

  lemma PublishMoves(cap: nat, w: Worker, p: nat)
    requires FateOk(w) && p < |w.log| && !w.log[p].ready
    ensures RingView.PublishesAt(RingOf(cap, w), p, RingOf(cap, w.(log := w.log[p := w.log[p].(ready := true)])))
  {
    assert ReadyFlags(w.log[p := w.log[p].(ready := true)]) == ReadyFlags(w.log)[p := true];
  }

  lemma SubRings(s: Pool, t: nat, e: Effect, pc: SPc, s': Pool)
    requires LogInv(s) && FateInv(s) && t < |s.subs| && SubStep(s, t, e, pc, s')
    ensures RingsMove(s.cfg.cap, s.ws, s'.ws)
  {
    assert SubOk(s.ws, t, s.subs[t]) by { hide SubDoes; }
    SubmitterEffect(s, t, e, pc);
    ReservesRoom(s, t, e, pc);
    SubWrites(s, t, e, pc);
    hide SubDoes, LogInv;
    DoFacts(s, e);
    if e.Reserve? {
      ReserveMoves(s.cfg.cap, s.ws[e.w], Entry(t, s.subs[t].calls, e.k, false));
    } else if e.Publish? {
      assert FateOk(s.ws[e.w]);
      PublishMoves(s.cfg.cap, s.ws[e.w], e.pos);
    }
  }

  lemma ReservesRoom(s: Pool, t: nat, e: Effect, pc: SPc)
    requires t < |s.subs| && SubDoes(s, t, e, pc)
    ensures e.Reserve? ==> e.w < |s.ws| && |s.ws[e.w].log| < |s.ws[e.w].fate| + s.cfg.cap
  {
  }

  lemma OwnerRings(s: Pool, e: Effect, pc: OPc, s': Pool)
    requires OwnerStep(s, e, pc, s')
    ensures RingsMove(s.cfg.cap, s.ws, s'.ws)
  {
    OwnerEffect(s, e, pc);
    hide OwnerDoes, Do, RingsMove, WorkersAfter;
    NotOfSubmitter(e);
    DoFacts(s, e);
    OthersMove(s, e);
  }

  lemma SupRings(s: Pool, e: Effect, pc: UPc, s': Pool)
    requires SupStep(s, e, pc, s')
    ensures RingsMove(s.cfg.cap, s.ws, s'.ws)
  {
    SupervisorEffect(s, e, pc);
    hide SupDoes, Do, RingsMove, WorkersAfter;
    NotOfSubmitter(e);
    DoFacts(s, e);
    OthersMove(s, e);
  }

  lemma DestroyRings(s: Pool, e: Effect, pc: DPc, s': Pool)
    requires DestroyStep(s, e, pc, s')
    ensures RingsMove(s.cfg.cap, s.ws, s'.ws)
  {
    DestroyEffect(s, e, pc);
    hide DestroyDoes, Do, RingsMove, WorkersAfter;
    NotOfSubmitter(e);
    DoFacts(s, e);
    OthersMove(s, e);
  }

  lemma NoMove(cap: nat, ws: seq<Worker>)
    ensures RingsMove(cap, ws, ws)
  {
  }

  lemma NextMoves(s: Pool, s': Pool)
    requires LogInv(s) && FateInv(s) && Next(s, s')
    ensures s'.cfg == s.cfg && RingsMove(s.cfg.cap, s.ws, s'.ws)
  {
    hide LogInv, FateInv, RingsMove, WorkerStep, SubDoes, CallStep, OwnerDoes, SupDoes, DestroyDoes, Do;
    if i :| 0 <= i < |s.ws| && WorkerStep(s, i, s') { WorkerRings(s, i, s'); WorkerMoves(s, i, s'); }
    else if t, e, pc :| 0 <= t < |s.subs| && SubStep(s, t, e, pc, s') { SubRings(s, t, e, pc, s'); DoFacts(s, e); }
    else if c :| 0 <= c < |s.calls| && CallStep(s, c, s') { CallEffect(s, c, s'); NoMove(s.cfg.cap, s.ws); }
    else if e, pc :| OwnerStep(s, e, pc, s') { OwnerRings(s, e, pc, s'); DoFacts(s, e); }
    else if e, pc :| SupStep(s, e, pc, s') { SupRings(s, e, pc, s'); DoFacts(s, e); }
    else if e, pc :| DestroyStep(s, e, pc, s') { DestroyRings(s, e, pc, s'); DoFacts(s, e); }
    else { NoMove(s.cfg.cap, s.ws); }
  }

  /**
    In every run of the pool the ring of each worker starts empty and then only reserves, publishes
    and dequeues published heads, whoever acts on it: the moves the ring machine refines to.
   */
  lemma RunMoves(tr: seq<Pool>, n: nat, i: nat)
    requires Run(tr) && n + 1 < |tr| && i < |tr[n].ws|
    ensures forall w :: 0 <= w < |tr[0].ws| ==> RingOf(tr[0].cfg.cap, tr[0].ws[w]) == RingView.View(tr[0].cfg.cap, [], 0)
    ensures tr[n + 1].cfg == tr[n].cfg && i < |tr[n + 1].ws|
    ensures RingView.ViewNext(RingOf(tr[n].cfg.cap, tr[n].ws[i]), RingOf(tr[n].cfg.cap, tr[n + 1].ws[i]))
  {
    RunLogs(tr, n);
    RunFates(tr, n);
    assert NextAt(tr, n);
    hide LogInv, FateInv, Next;
    NextMoves(tr[n], tr[n + 1]);
  }
}
