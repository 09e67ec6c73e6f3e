/**
  The residual drain of a ring ends: nothing is added to the queue, every round takes one off, and
  the owner is never parked in the pop, because the ring is closed.
 */
module PoolResidual {
  import opened Pool
  import opened PoolEffects
  import opened PoolJoins
  import opened PoolReturns
  import opened PoolRings
  import opened PoolLogs
  import opened PoolFates
  import opened PoolDrain

  predicate DrainsRing(o: OPc, i: nat) { o == ODrain(i) || o == ODrainPop(i) }

  function Depth(w: Worker): int { |w.log| - |w.fate| }

  /** The owner took a message off ring i in step n. */
  ghost predicate PopsAt(tr: seq<Pool>, n: nat, i: nat)
    requires n + 1 < |tr|
  {
    tr[n].own == ODrainPop(i) && tr[n + 1].own == ODrain(i)
  }

  ghost function Pops(tr: seq<Pool>, m: nat, n: nat, i: nat): nat
    requires m <= n < |tr|
    decreases n - m
  {
    if m == n then 0 else Pops(tr, m, n - 1, i) + (if PopsAt(tr, n - 1, i) then 1 else 0)
  }

  /** Number of steps of the owner from m to n; inside the drain each of them moves it. */
  ghost function Moves(tr: seq<Pool>, m: nat, n: nat): nat
    requires m <= n < |tr|
    decreases n - m
  {
    if m == n then 0 else Moves(tr, m, n - 1) + (if tr[n].own != tr[n - 1].own then 1 else 0)
  }

  // ---- one step inside the drain ----------------------------------------------

  ghost predicate FatesGrow(ws: seq<Worker>, ws': seq<Worker>)
  {
    |ws'| == |ws| && forall j :: 0 <= j < |ws| ==> |ws[j].fate| <= |ws'[j].fate|
  }

  lemma EffectFatesGrow(s: Pool, e: Effect)
    requires Applies(s, e)
    ensures FatesGrow(s.ws, WorkersAfter(s, e))
    ensures e.Abandon? ==> |WorkersAfter(s, e)[e.i].fate| == |s.ws[e.i].fate| + 1
  {
  }

  lemma WorkerFatesGrow(s: Pool, i: nat, s': Pool)
    requires i < |s.ws| && WorkerStep(s, i, s')
    ensures FatesGrow(s.ws, s'.ws) && s'.own == s.own
  {
  }

  /** The owner alternates between the clock and a pop, and each pop takes one message. */
  ghost predicate Round(s: Pool, s': Pool, i: nat)
  {
    || s'.own == s.own
    || (s.own == ODrain(i) && s'.own == ODrainPop(i))
    || (s.own == ODrainPop(i) && s'.own == ODrain(i) && i < |s.ws| && i < |s'.ws| &&
        |s'.ws[i].fate| == |s.ws[i].fate| + 1)
  }

  lemma TeardownRound(s: Pool, e: Effect, pc: OPc, i: nat)
    requires TeardownDoes(s, e, pc) && DrainsRing(s.own, i) && DrainsRing(pc, i)
    ensures pc != s.own && (s.own == ODrainPop(i) ==> e == Abandon(i))
  {
    hide TimeUp;
  }

  lemma OwnerRound(s: Pool, e: Effect, pc: OPc, s': Pool, i: nat)
    requires OwnerStep(s, e, pc, s') && DrainsRing(s.own, i) && DrainsRing(pc, i)
    ensures FatesGrow(s.ws, s'.ws) && Round(s, s', i)
  {
    hide SubmitsDoes, SupJoinDoes, TeardownDoes, PollDoes, ExitedDoes, QuarantineDoes, StopDoes;
    SubmitsElsewhere(s, e, pc);
    SupJoinElsewhere(s, e, pc);
    QuarantineElsewhere(s, e, pc);
    StopElsewhere(s, e, pc);
    TeardownRound(s, e, pc, i);
    EffectFatesGrow(s, e);
    assert e.Abandon? ==> e.i < |s.ws|;
    hide WorkersAfter, Applies;
  }

  lemma NextRound(s: Pool, s': Pool, i: nat)
    requires Next(s, s') && DrainsRing(s.own, i) && DrainsRing(s'.own, i)
    ensures FatesGrow(s.ws, s'.ws) && Round(s, s', i)
  {
    hide WorkerStep, SubStep, CallStep, OwnerStep, SupStep, DestroyStep;
    if j :| 0 <= j < |s.ws| && WorkerStep(s, j, s') { WorkerFatesGrow(s, j, s'); }
    else if t, e, pc :| 0 <= t < |s.subs| && SubStep(s, t, e, pc, s') { SubRound(s, t, e, pc, s'); }
    else if c :| 0 <= c < |s.calls| && CallStep(s, c, s') { CallEffect(s, c, s'); }
    else if e, pc :| OwnerStep(s, e, pc, s') { OwnerMoved(s, e, pc, s'); OwnerRound(s, e, pc, s', i); }
    else if e, pc :| SupStep(s, e, pc, s') { SupRound(s, e, pc, s'); }
    else if e, pc :| DestroyStep(s, e, pc, s') { DestroyRound(s, e, pc, s'); }
  }

  lemma OwnerMoved(s: Pool, e: Effect, pc: OPc, s': Pool)
    requires OwnerStep(s, e, pc, s')
    ensures s'.own == pc
  {
    hide OwnerDoes;
  }

  lemma SubRound(s: Pool, t: nat, e: Effect, pc: SPc, s': Pool)
    requires t < |s.subs| && SubStep(s, t, e, pc, s')
    ensures FatesGrow(s.ws, s'.ws) && s'.own == s.own
  {
    hide SubDoes, WorkersAfter, Applies;
    EffectFatesGrow(s, e);
  }

  lemma SupRound(s: Pool, e: Effect, pc: UPc, s': Pool)
    requires SupStep(s, e, pc, s')
    ensures FatesGrow(s.ws, s'.ws) && s'.own == s.own
  {
    hide SupDoes, WorkersAfter, Applies;
    EffectFatesGrow(s, e);
  }

  lemma DestroyRound(s: Pool, e: Effect, pc: DPc, s': Pool)
    requires DestroyStep(s, e, pc, s')
    ensures FatesGrow(s.ws, s'.ws) && s'.own == s.own
  {
    hide DestroyDoes, WorkersAfter, Applies;
    EffectFatesGrow(s, e);
  }

  // ---- the whole drain of one ring --------------------------------------------

  /** During teardown without claims the submitters have gone quiet. */
  lemma DrainIsQuiet(s: Pool, i: nat)
    requires Known(s) && DrainInv(s) && !s.cfg.claims && DrainsRing(s.own, i)
    ensures Quiesced(s) && JoinInv(s) && RetInv(s)
    ensures i < |s.ws| ==> |s.ws[i].fate| <= |s.ws[i].log|
  {
    assert PathFits(s) && FlagsOk(s.g, s.own) && QuietOk(s);
    assert i < |s.ws| ==> FateOk(s.ws[i]);
    hide Known, DrainInv;
  }

  lemma {:induction false} DrainRounds(tr: seq<Pool>, m: nat, n: nat, i: nat)
    requires Run(tr) && m <= n < |tr| && !tr[m].cfg.claims && i < |tr[m].ws| && tr[m].own == ODrain(i)
    requires forall k :: m <= k <= n ==> DrainsRing(tr[k].own, i)
    ensures SameLogs(tr[m].ws, tr[n].ws) && tr[n].cfg == tr[m].cfg
    ensures Pops(tr, m, n, i) <= |tr[n].ws[i].fate| - |tr[m].ws[i].fate|
    ensures Moves(tr, m, n) == 2 * Pops(tr, m, n, i) + (if tr[n].own == ODrainPop(i) then 1 else 0)
    decreases n - m
  {
    hide Next, Init, Known, DrainInv, Quiesced, JoinInv, RetInv;
    if m < n {
      DrainRounds(tr, m, n - 1, i);
      assert NextAt(tr, n - 1);
      RunDrain(tr, n - 1);
      DrainIsQuiet(tr[n - 1], i);
      NextQuiesced(tr[n - 1], tr[n]);
      NextRound(tr[n - 1], tr[n], i);
      hide Run;
    }
  }

  /** While the owner drains a ring, the ring is closed and the supervisor is out: nobody can reopen it. */
  lemma DrainsClosed(tr: seq<Pool>, n: nat, i: nat)
    requires Run(tr) && n < |tr| && DrainsRing(tr[n].own, i)
    ensures i < |tr[n].ws| && tr[n].ws[i].closed && SupOut(tr[n].cfg, tr[n].g.supJoined, tr[n].sup)
  {
    RunRings(tr, n);
    hide Run, WorkersOk, SupOk;
    assert FocusOk(tr[n].g.clk, tr[n].ws, tr[n].own) && PathFits(tr[n]) && Covers(tr[n].own, i);
  }

  lemma DrainStep(s: Pool, e: Effect, pc: OPc)
    requires TeardownDoes(s, e, pc) && Applies(s, e)
    ensures OwnerStep(s, e, pc, Do(s, e).(own := pc))
  {
    hide SubmitsDoes, SupJoinDoes, TeardownDoes, PollDoes, ExitedDoes, QuarantineDoes, StopDoes, Applies, Do;
  }

  lemma DrainLooks(s: Pool, i: nat)
    requires s.own == ODrain(i)
    ensures exists e, pc, s' :: OwnerStep(s, e, pc, s')
  {
    var pc := if TimeUp(s.g.clk) then NextJoin(|s.ws|, i + 1) else ODrainPop(i);
    DrainStep(s, Nop, pc);
    hide OwnerStep;
  }

  lemma DrainPops(s: Pool, i: nat)
    requires s.own == ODrainPop(i) && i < |s.ws| && s.ws[i].closed
    ensures exists e, pc, s' :: OwnerStep(s, e, pc, s')
  {
    if HeadReady(s.ws[i]) {
      DrainStep(s, Abandon(i), ODrain(i));
    } else {
      DrainStep(s, Nop, NextJoin(|s.ws|, i + 1));
    }
    hide OwnerStep;
  }

  /** In every run, claims and restarts included, the owner has a step at each moment of the drain. */
  lemma DrainNeverParks(tr: seq<Pool>, n: nat, i: nat)
    requires Run(tr) && n < |tr| && DrainsRing(tr[n].own, i)
    ensures exists e, pc, s' :: OwnerStep(tr[n], e, pc, s')
  {
    DrainsClosed(tr, n, i);
    hide Run, OwnerStep;
    if tr[n].own == ODrain(i) { DrainLooks(tr[n], i); } else { DrainPops(tr[n], i); }
  }


  /**
    From the moment the owner turns to the residual drain of ring i, restarts or not, and for as
    long as it stays there: without claims the log does not change, at most as many messages are
    popped as were queued, and the owner makes at most two steps for each of them and one more.
    In each of those states it has a step, so the drain ends unless the owner is never scheduled again.
   */
  lemma DrainBounded(tr: seq<Pool>, m: nat, n: nat, i: nat)
    requires Run(tr) && m <= n < |tr| && !tr[m].cfg.claims && i < |tr[m].ws| && tr[m].own == ODrain(i)
    requires forall k :: m <= k <= n ==> DrainsRing(tr[k].own, i)
    ensures |tr[n].ws| == |tr[m].ws| && tr[n].ws[i].log == tr[m].ws[i].log
    ensures Pops(tr, m, n, i) <= Depth(tr[m].ws[i])
    ensures Moves(tr, m, n) <= 2 * Depth(tr[m].ws[i]) + 1
    ensures exists e, pc, s' :: OwnerStep(tr[n], e, pc, s')
  {
    DrainNeverParks(tr, n, i);
    hide OwnerStep;
    DrainRounds(tr, m, n, i);
    RunDrain(tr, n);
    DrainIsQuiet(tr[n], i);
    hide Run, Known, DrainInv, Quiesced, JoinInv, RetInv;
  }
}
