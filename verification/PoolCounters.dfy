/** The pool's counter `submitted` against the positions that were really published. */
module PoolCounters {
  import opened Pool
  import opened PoolEffects
  import opened PoolReturns
  import opened PoolLogs
  import opened PoolFates
  import opened PoolJoins
  import opened PoolDrain
  import opened PoolConserve

  function Published(log: seq<Entry>): nat
  {
    if log == [] then 0 else Published(log[..|log| - 1]) + (if log[|log| - 1].ready then 1 else 0)
  }

  function AllPublished(ws: seq<Worker>): nat
  {
    if ws == [] then 0 else AllPublished(ws[..|ws| - 1]) + Published(ws[|ws| - 1].log)
  }

  function AllCounted(ws: seq<Worker>): nat
  {
    if ws == [] then 0 else AllCounted(ws[..|ws| - 1]) + ws[|ws| - 1].processed
  }

  /** Submitters that have published and not yet counted it. */
  function Pending(subs: seq<Sub>): nat
  {
    if subs == [] then 0 else Pending(subs[..|subs| - 1]) + (if subs[|subs| - 1].pc.SCount? then 1 else 0)
  }

  ghost predicate CountsSubmits(submitted: nat, subs: seq<Sub>, ws: seq<Worker>)
  {
    submitted + Pending(subs) == AllPublished(ws)
  }

  // ---- sums under updates -----------------------------------------------------

  lemma PublishedAppend(log: seq<Entry>, e: Entry)
    ensures Published(log + [e]) == Published(log) + (if e.ready then 1 else 0)
  {
    assert (log + [e])[..|log|] == log;
  }

  lemma {:induction false} PublishedSet(log: seq<Entry>, p: nat)
    requires p < |log| && !log[p].ready
    ensures Published(log[p := log[p].(ready := true)]) == Published(log) + 1
    decreases |log|
  {
    var n := |log| - 1;
    var log' := log[p := log[p].(ready := true)];
    if p == n {
      assert log'[..n] == log[..n];
    } else {
      PublishedSet(log[..n], p);
      assert log'[..n] == log[..n][p := log[p].(ready := true)];
    }
  }

  lemma {:induction false} AllPublishedUpdate(ws: seq<Worker>, i: nat, w: Worker)
    requires i < |ws|
    ensures AllPublished(ws[i := w]) == AllPublished(ws) - Published(ws[i].log) + Published(w.log)
    decreases |ws|
  {
    var n := |ws| - 1;
    if i == n {
      assert ws[i := w][..n] == ws[..n];
    } else {
      AllPublishedUpdate(ws[..n], i, w);
      assert ws[i := w][..n] == ws[..n][i := w];
    }
  }

  lemma {:induction false} AllPublishedSame(ws: seq<Worker>, ws': seq<Worker>)
    requires SameLogs(ws, ws')
    ensures AllPublished(ws') == AllPublished(ws)
    decreases |ws|
  {
    if ws != [] {
      assert ws'[|ws| - 1].log == ws[|ws| - 1].log;
      AllPublishedSame(ws[..|ws| - 1], ws'[..|ws'| - 1]);
    }
  }

  lemma {:induction false} PendingUpdate(subs: seq<Sub>, t: nat, b: Sub)
    requires t < |subs|
    ensures Pending(subs[t := b]) ==
      Pending(subs) - (if subs[t].pc.SCount? then 1 else 0) + (if b.pc.SCount? then 1 else 0)
    decreases |subs|
  {
    var n := |subs| - 1;
    if t == n {
      assert subs[t := b][..n] == subs[..n];
    } else {
      PendingUpdate(subs[..n], t, b);
      assert subs[t := b][..n] == subs[..n][t := b];
    }
  }

  // ---- steps ------------------------------------------------------------------

  /** SCount is entered by publishing and left by counting. */
  lemma SubCountsOne(s: Pool, t: nat, e: Effect, pc: SPc)
    requires t < |s.subs| && SubDoes(s, t, e, pc)
    ensures e.Publish? <==> pc.SCount?
    ensures e.CountSubmit? <==> s.subs[t].pc.SCount?
  {
  }

  lemma SubmittedAfter(s: Pool, e: Effect)
    requires Applies(s, e)
    ensures Do(s, e).g.submitted == s.g.submitted + (if e.CountSubmit? then 1 else 0)
  {
    hide WorkersAfter;
  }

  lemma SubSubmits(s: Pool, t: nat, e: Effect, pc: SPc, s': Pool)
    requires LogInv(s) && CountsSubmits(s.g.submitted, s.subs, s.ws) && t < |s.subs| && SubStep(s, t, e, pc, s')
    ensures CountsSubmits(s'.g.submitted, s'.subs, s'.ws)
  {
    assert SubOk(s.ws, t, s.subs[t]) by { hide SubDoes; }
    hide LogInv, SubDoes, Do, Pending, AllPublished, Published, Applies, HasSlot, SlotOf;
    var b := SubAfter(s.subs[t], pc);
    AfterPc(s.subs[t], pc);
    PendingUpdate(s.subs, t, b);
    SubCountsOne(s, t, e, pc);
    SubWrites(s, t, e, pc);
    SubmittedAfter(s, e);
    DoFacts(s, e);
    if e.Reserve? {
      PublishedAppend(s.ws[e.w].log, Entry(t, s.subs[t].calls, e.k, false));
      AllPublishedUpdate(s.ws, e.w, s'.ws[e.w]);
    } else if e.Publish? {
      PublishedSet(s.ws[e.w].log, e.pos);
      AllPublishedUpdate(s.ws, e.w, s'.ws[e.w]);
    } else {
      EffectLogs(s, e);
      AllPublishedSame(s.ws, s'.ws);
    }
  }

  lemma QuietSubmits(s: Pool, s': Pool)
    requires CountsSubmits(s.g.submitted, s.subs, s.ws)
    requires s'.subs == s.subs && s'.g.submitted == s.g.submitted && SameLogs(s.ws, s'.ws)
    ensures CountsSubmits(s'.g.submitted, s'.subs, s'.ws)
  {
    AllPublishedSame(s.ws, s'.ws);
  }

  lemma OwnerSubmits(s: Pool, e: Effect, pc: OPc, s': Pool)
    requires OwnerStep(s, e, pc, s')
    ensures s'.subs == s.subs && s'.g.submitted == s.g.submitted && SameLogs(s.ws, s'.ws)
  {
    OwnerEffect(s, e, pc);
    hide OwnerDoes, Do, OwnerKnows, SameLogs;
    NotOfSubmitter(e);
    SubmittedAfter(s, e);
    DoFacts(s, e);
    EffectLogs(s, e);
  }

  lemma SupSubmits(s: Pool, e: Effect, pc: UPc, s': Pool)
    requires SupStep(s, e, pc, s')
    ensures s'.subs == s.subs && s'.g.submitted == s.g.submitted && SameLogs(s.ws, s'.ws)
  {
    SupervisorEffect(s, e, pc);
    hide SupDoes, Do, SupKnows, SameLogs;
    NotOfSubmitter(e);
    SubmittedAfter(s, e);
    DoFacts(s, e);
    EffectLogs(s, e);
  }

  lemma DestroySubmits(s: Pool, e: Effect, pc: DPc, s': Pool)
    requires DestroyStep(s, e, pc, s')
    ensures s'.subs == s.subs && s'.g.submitted == s.g.submitted && SameLogs(s.ws, s'.ws)
  {
    DestroyEffect(s, e, pc);
    hide DestroyDoes, Do, SameLogs;
    NotOfSubmitter(e);
    SubmittedAfter(s, e);
    DoFacts(s, e);
    EffectLogs(s, e);
  }

  lemma SameLogsAlways(ws: seq<Worker>)
    ensures SameLogs(ws, ws)
  {
  }

  lemma WorkerSubmits(s: Pool, i: nat, s': Pool)
    requires i < |s.ws| && WorkerStep(s, i, s')
    ensures s'.subs == s.subs && s'.g.submitted == s.g.submitted && SameLogs(s.ws, s'.ws)
  {
    hide WorkerStep, OwnMove;
    WorkerMoves(s, i, s');
  }

  lemma CallSubmits(s: Pool, c: nat, s': Pool)
    requires c < |s.calls| && CallStep(s, c, s')
    ensures s'.subs == s.subs && s'.g.submitted == s.g.submitted && SameLogs(s.ws, s'.ws)
  {
    hide CallStep;
    CallEffect(s, c, s');
  }

  lemma NextSubmits(s: Pool, s': Pool)
    requires LogInv(s) && CountsSubmits(s.g.submitted, s.subs, s.ws) && Next(s, s')
    ensures CountsSubmits(s'.g.submitted, s'.subs, s'.ws)
  {
    hide LogInv, CountsSubmits, SameLogs, WorkerStep, SubStep, CallStep, OwnerStep, SupStep, DestroyStep;
    if i :| 0 <= i < |s.ws| && WorkerStep(s, i, s') { WorkerSubmits(s, i, s'); QuietSubmits(s, s'); }
    else if t, e, pc :| 0 <= t < |s.subs| && SubStep(s, t, e, pc, s') { SubSubmits(s, t, e, pc, s'); }
    else if c :| 0 <= c < |s.calls| && CallStep(s, c, s') { CallSubmits(s, c, s'); QuietSubmits(s, s'); }
    else if e, pc :| OwnerStep(s, e, pc, s') { OwnerSubmits(s, e, pc, s'); QuietSubmits(s, s'); }
    else if e, pc :| SupStep(s, e, pc, s') { SupSubmits(s, e, pc, s'); QuietSubmits(s, s'); }
    else if e, pc :| DestroyStep(s, e, pc, s') { DestroySubmits(s, e, pc, s'); QuietSubmits(s, s'); }
    else { SameLogsAlways(s.ws); QuietSubmits(s, s'); }
  }

  lemma {:induction false} NoneYet(subs: seq<Sub>, ws: seq<Worker>)
    requires forall t :: 0 <= t < |subs| ==> !subs[t].pc.SCount?
    requires forall i :: 0 <= i < |ws| ==> ws[i].log == []
    ensures Pending(subs) == 0 && AllPublished(ws) == 0
    decreases |subs| + |ws|
  {
    if subs != [] {
      NoneYet(subs[..|subs| - 1], ws);
    } else if ws != [] {
      NoneYet(subs, ws[..|ws| - 1]);
    }
  }

  lemma InitSubmits(s: Pool)
    requires Init(s)
    ensures CountsSubmits(s.g.submitted, s.subs, s.ws)
  {
    NoneYet(s.subs, s.ws);
  }

  // ---- theorems ---------------------------------------------------------------

  /** `submitted` is the number of published positions of all rings, less the producers about to count. */
  lemma {:induction false} SubmittedCounts(tr: seq<Pool>, n: nat)
    requires Run(tr) && n < |tr|
    ensures tr[n].g.submitted + Pending(tr[n].subs) == AllPublished(tr[n].ws)
  {
    hide LogInv, Next, Init, Pending, AllPublished;
    if n == 0 {
      InitSubmits(tr[0]);
    } else {
      SubmittedCounts(tr, n - 1);
      RunLogs(tr, n - 1);
      assert NextAt(tr, n - 1);
      NextSubmits(tr[n - 1], tr[n]);
    }
  }

  lemma {:induction false} FullyProcessed(fate: seq<Fate>, log: seq<Entry>)
    requires |fate| == |log| && forall p :: 0 <= p < |fate| ==> fate[p] == Processed && log[p].ready
    ensures Count(Processed, fate) == Published(log)
  {
    if fate != [] { FullyProcessed(fate[..|fate| - 1], log[..|log| - 1]); }
  }

  lemma {:induction false} SumsAgree(ws: seq<Worker>)
    requires ProcessedOk(ws) && forall i :: 0 <= i < |ws| ==> AllProcessed(ws[i])
    ensures AllCounted(ws) == AllPublished(ws)
  {
    if ws != [] {
      var w := ws[|ws| - 1];
      FullyProcessed(w.fate, w.log);
      SumsAgree(ws[..|ws| - 1]);
    }
  }

  lemma {:induction false} StillCountsNobody(subs: seq<Sub>)
    requires forall t :: 0 <= t < |subs| ==> !subs[t].pc.SCount?
    ensures Pending(subs) == 0
  {
    if subs != [] { StillCountsNobody(subs[..|subs| - 1]); }
  }

  /**
    Without claims and restarting supervisor, once a shutdown has returned 0 the
    pool's counter of submitted messages is the sum of its workers' counters of processed ones.
   */
  lemma SubmittedIsProcessed(tr: seq<Pool>, n: nat, c: nat)
    requires Run(tr) && n < |tr| && Plain(tr[n].cfg)
    requires c < |tr[n].calls| && tr[n].calls[c] == CIdle(Ret(0))
    ensures tr[n].g.submitted == AllCounted(tr[n].ws)
  {
    var s := tr[n];
    hide Next, Init;
    EverythingProcessed(tr, n, c);
    SubmittedCounts(tr, n);
    RunProcessed(tr, n);
    NobodyCounts(tr, n, c);
    hide Run, Pending, AllPublished, AllCounted, ProcessedOk, AllProcessed;
    StillCountsNobody(s.subs);
    SumsAgree(s.ws);
  }

  lemma NobodyCounts(tr: seq<Pool>, n: nat, c: nat)
    requires Run(tr) && n < |tr| && Plain(tr[n].cfg) && c < |tr[n].calls| && tr[n].calls[c] == CIdle(Ret(0))
    ensures forall t :: 0 <= t < |tr[n].subs| ==> !tr[n].subs[t].pc.SCount?
  {
    RunDrain(tr, n);
    AnswerFacts(tr[n], c);
    StoppedDone(tr[n]);
    hide Run, JoinInv, RetInv, LogInv, FateInv, EndsOk, KindOk, Resolved;
    assert AllStill(tr[n].subs);
  }
}
