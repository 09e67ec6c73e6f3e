/** Conservation: what becomes of every reserved position, and what the counter `abandoned` counts. */
module PoolConserve {
  import opened Pool
  import opened PoolEffects
  import opened PoolJoins
  import opened PoolFates

  function Count(f: Fate, fate: seq<Fate>): nat
  {
    if fate == [] then 0
    else Count(f, fate[..|fate| - 1]) + (if fate[|fate| - 1] == f then 1 else 0)
  }

  function Total(ws: seq<Worker>): nat
  {
    if ws == [] then 0 else Total(ws[..|ws| - 1]) + Count(Abandoned, ws[|ws| - 1].fate)
  }

  lemma CountAppend(f: Fate, fate: seq<Fate>, x: Fate)
    ensures Count(f, fate + [x]) == Count(f, fate) + (if x == f then 1 else 0)
  {
    assert (fate + [x])[..|fate|] == fate;
  }

  /** Finishing the message in hand. */
  lemma CountLast(f: Fate, fate: seq<Fate>, x: Fate)
    requires |fate| > 0
    ensures Count(f, fate[|fate| - 1 := x]) ==
      Count(f, fate) - (if fate[|fate| - 1] == f then 1 else 0) + (if x == f then 1 else 0)
  {
    var n := |fate| - 1;
    assert fate[n := x] == fate[..n] + [x];
    CountAppend(f, fate[..n], x);
  }

  lemma {:induction false} TotalUpdate(ws: seq<Worker>, i: nat, w: Worker)
    requires i < |ws|
    ensures Total(ws[i := w]) == Total(ws) - Count(Abandoned, ws[i].fate) + Count(Abandoned, w.fate)
    decreases |ws|
  {
    var n := |ws| - 1;
    if i == n {
      assert ws[i := w][..n] == ws[..n];
    } else {
      TotalUpdate(ws[..n], i, w);
      assert ws[i := w][..n] == ws[..n][i := w];
    }
  }

  lemma {:induction false} TotalSame(ws: seq<Worker>, ws': seq<Worker>)
    requires SameFates(ws, ws')
    ensures Total(ws') == Total(ws)
    decreases |ws|
  {
    if ws != [] { TotalSame(ws[..|ws| - 1], ws'[..|ws'| - 1]); }
  }

  ghost predicate Balanced(s: Pool) { s.g.abandoned == Total(s.ws) }

  lemma {:induction false} NothingYet(ws: seq<Worker>)
    requires forall i :: 0 <= i < |ws| ==> ws[i].fate == []
    ensures Total(ws) == 0
  {
    if ws != [] { NothingYet(ws[..|ws| - 1]); }
  }

  lemma WorkerBalance(s: Pool, i: nat, s': Pool)
    requires FateInv(s) && Balanced(s) && i < |s.ws| && WorkerStep(s, i, s')
    ensures Balanced(s')
  {
    var fate, fate' := s.ws[i].fate, s'.ws[i].fate;
    assert FateOk(s.ws[i]);
    FateMoves(s, i, s');
    WorkerMoves(s, i, s');
    hide WorkerStep, FateInv, FateOk, Count, Total, OwnMove;
    CountAppend(Abandoned, fate, InHand);
    if |fate| > 0 { CountLast(Abandoned, fate, Processed); }
    assert s'.ws == s.ws[i := s'.ws[i]];
    TotalUpdate(s.ws, i, s'.ws[i]);
  }

  lemma FateMoves(s: Pool, i: nat, s': Pool)
    requires i < |s.ws| && WorkerStep(s, i, s') && FateOk(s.ws[i])
    ensures var fate, fate' := s.ws[i].fate, s'.ws[i].fate;
      || fate' == fate || fate' == fate + [InHand]
      || (|fate| > 0 && fate[|fate| - 1] == InHand && fate' == fate[|fate| - 1 := Processed])
    ensures s'.g.abandoned == s.g.abandoned
    ensures s'.ws[i].processed == s.ws[i].processed + (if Finishes(s.ws[i].fate, s'.ws[i].fate) then 1 else 0)
  {
    hide Shape;
  }

  /** The message in hand became a processed one. */
  predicate Finishes(fate: seq<Fate>, fate': seq<Fate>)
  {
    |fate| > 0 && fate[|fate| - 1] == InHand && fate' == fate[|fate| - 1 := Processed]
  }

  /** An effect changes the counter and the fates together, or neither. */
  lemma EffectBalance(s: Pool, e: Effect)
    requires Balanced(s) && Applies(s, e)
    ensures Balanced(Do(s, e))
  {
    if e.Abandon? {
      CountAppend(Abandoned, s.ws[e.i].fate, Abandoned);
      TotalUpdate(s.ws, e.i, WorkerAfter(s.ws[e.i], e));
    } else {
      NoFateWritten(s, e);
      hide WorkersAfter, Applies;
      TotalSame(s.ws, Do(s, e).ws);
    }
  }

  lemma NoFateWritten(s: Pool, e: Effect)
    requires Applies(s, e) && !e.Abandon?
    ensures SameFates(s.ws, WorkersAfter(s, e))
  {
  }

  lemma NextBalance(s: Pool, s': Pool)
    requires FateInv(s) && Balanced(s) && Next(s, s')
    ensures Balanced(s')
  {
    hide FateInv, WorkerStep, CallStep, SubDoes, OwnerDoes, SupDoes, DestroyDoes, Do, Applies, Total;
    if i :| 0 <= i < |s.ws| && WorkerStep(s, i, s') { WorkerBalance(s, i, s'); }
    else if t, e, pc :| 0 <= t < |s.subs| && SubStep(s, t, e, pc, s') { EffectBalance(s, e); }
    else if c :| 0 <= c < |s.calls| && CallStep(s, c, s') { CallEffect(s, c, s'); }
    else if e, pc :| OwnerStep(s, e, pc, s') { EffectBalance(s, e); }
    else if e, pc :| SupStep(s, e, pc, s') { EffectBalance(s, e); }
    else if e, pc :| DestroyStep(s, e, pc, s') { EffectBalance(s, e); }
  }

  lemma {:induction false} RunBalance(tr: seq<Pool>, n: nat)
    requires Run(tr) && n < |tr|
    ensures Balanced(tr[n])
  {
    hide FateInv, Balanced, Next, JoinInv;
    if n == 0 {
      assert Balanced(tr[0]) by { InitBalance(tr[0]); }
    } else {
      RunBalance(tr, n - 1);
      RunFates(tr, n - 1);
      assert NextAt(tr, n - 1);
      NextBalance(tr[n - 1], tr[n]);
    }
  }

  lemma InitBalance(s: Pool)
    requires Init(s)
    ensures Balanced(s)
  {
    NothingYet(s.ws);
  }

  // ---- the workers' own counters ----------------------------------------------

  ghost predicate ProcessedOk(ws: seq<Worker>)
  {
    forall i :: 0 <= i < |ws| ==> ws[i].processed == Count(Processed, ws[i].fate)
  }

  lemma WorkerProcessed(s: Pool, i: nat, s': Pool)
    requires FateInv(s) && ProcessedOk(s.ws) && i < |s.ws| && WorkerStep(s, i, s')
    ensures ProcessedOk(s'.ws)
  {
    var w, w' := s.ws[i], s'.ws[i];
    assert FateOk(w);
    FateMoves(s, i, s');
    WorkerMoves(s, i, s');
    hide WorkerStep, FateInv, FateOk, Count, OwnMove;
    CountAppend(Processed, w.fate, InHand);
    if |w.fate| > 0 { CountLast(Processed, w.fate, Processed); }
  }

  lemma EffectProcessed(s: Pool, e: Effect)
    requires ProcessedOk(s.ws) && Applies(s, e)
    ensures ProcessedOk(WorkersAfter(s, e))
  {
    hide Count;
    if e.Abandon? { CountAppend(Processed, s.ws[e.i].fate, Abandoned); }
  }

  lemma NextProcessed(s: Pool, s': Pool)
    requires FateInv(s) && ProcessedOk(s.ws) && Next(s, s')
    ensures ProcessedOk(s'.ws)
  {
    hide FateInv, ProcessedOk, WorkerStep, CallStep, SubDoes, OwnerDoes, SupDoes, DestroyDoes, Applies, WorkersAfter;
    if i :| 0 <= i < |s.ws| && WorkerStep(s, i, s') { WorkerProcessed(s, i, s'); }
    else if t, e, pc :| 0 <= t < |s.subs| && SubStep(s, t, e, pc, s') { EffectProcessed(s, e); }
    else if c :| 0 <= c < |s.calls| && CallStep(s, c, s') { CallEffect(s, c, s'); }
    else if e, pc :| OwnerStep(s, e, pc, s') { EffectProcessed(s, e); }
    else if e, pc :| SupStep(s, e, pc, s') { EffectProcessed(s, e); }
    else if e, pc :| DestroyStep(s, e, pc, s') { EffectProcessed(s, e); }
  }

  lemma {:induction false} RunProcessed(tr: seq<Pool>, n: nat)
    requires Run(tr) && n < |tr|
    ensures ProcessedOk(tr[n].ws)
  {
    hide FateInv, ProcessedOk, Next, JoinInv;
    if n == 0 {
      assert ProcessedOk(tr[0].ws) by { InitProcessed(tr[0]); }
    } else {
      RunProcessed(tr, n - 1);
      RunFates(tr, n - 1);
      assert NextAt(tr, n - 1);
      NextProcessed(tr[n - 1], tr[n]);
    }
  }

  lemma InitProcessed(s: Pool)
    requires Init(s)
    ensures ProcessedOk(s.ws)
  {
  }

  // ---- theorems ---------------------------------------------------------------

  lemma {:induction false} FatesAddUp(fate: seq<Fate>)
    ensures Count(Processed, fate) + Count(InHand, fate) + Count(Abandoned, fate) == |fate|
  {
    if fate != [] { FatesAddUp(fate[..|fate| - 1]); }
  }

  lemma {:induction false} OnlyLastInHand(fate: seq<Fate>)
    requires forall p :: 0 <= p < |fate| - 1 ==> fate[p] != InHand
    ensures Count(InHand, fate) == if |fate| > 0 && fate[|fate| - 1] == InHand then 1 else 0
  {
    if |fate| > 1 { OnlyLastInHand(fate[..|fate| - 1]); }
  }

  lemma WorkerAddsUp(w: Worker)
    requires FateOk(w) && w.processed == Count(Processed, w.fate)
    ensures |w.fate| <= |w.log|
    ensures |w.fate| == w.processed + Count(Abandoned, w.fate) + (if w.ctl.thread == InProcess then 1 else 0)
  {
    FatesAddUp(w.fate);
    OnlyLastInHand(w.fate);
  }

  /**
    No message is lost or counted twice: a ring's reserved positions are those still queued, those
    its worker counted in `processed`, the abandoned ones and the one the worker has in hand, and
    the pool's counter `abandoned` is the number of abandoned messages of all rings.
   */
  lemma Conservation(tr: seq<Pool>, n: nat, i: nat)
    requires Run(tr) && n < |tr| && i < |tr[n].ws|
    ensures tr[n].g.abandoned == Total(tr[n].ws)
    ensures var w := tr[n].ws[i];
      && |w.fate| <= |w.log|
      && |w.log| == (|w.log| - |w.fate|) + w.processed + Count(Abandoned, w.fate) +
                    (if w.ctl.thread == InProcess then 1 else 0)
  {
    RunBalance(tr, n);
    RunProcessed(tr, n);
    RunFates(tr, n);
    hide Run, JoinInv, FateOk;
    assert FateOk(tr[n].ws[i]);
    WorkerAddsUp(tr[n].ws[i]);
  }
}
