/**
  What submitters write: who is counted in active_submits and api_refs, who owns which
  reserved position, and in which order one submitter's messages stand in a ring.
 */
module PoolLogs {
  import opened Pool
  import opened PoolEffects

  // ---- the two counters -------------------------------------------------------

  /** The call is inside the region that active_submits counts. */
  predicate Counted(pc: SPc)
  {
    match pc
    case SLife(k, _) => k.Submit?
    case SFlags(k, _) => k.Submit?
    case SClosed(k, _) => k.Submit?
    case SCas(k, _) => k.Submit?
    case SHeld(_, _) => true
    case SPublish(_, _, _) => true
    case SCount(_, _) => true
    case SLower(_, _) => true
    case SUndo => true
    case _ => false
  }

  ghost predicate ActiveOk(active: int, inActive: set<Tid>, subs: seq<Sub>)
  {
    active == |inActive| && forall t: Tid :: t in inActive <==> t < |subs| && Counted(subs[t].pc)
  }

  ghost predicate ApiOk(api: int, inApi: set<Tid>, subs: seq<Sub>)
  {
    api == |inApi| && forall t: Tid :: t in inApi <==> t < |subs| && !subs[t].pc.SIdle?
  }

  ghost predicate CountOk(g: Globals, subs: seq<Sub>)
  {
    ActiveOk(g.active, g.inActive, subs) && ApiOk(g.api, g.inApi, subs)
  }

  /** A call is counted from its Raise to its Lower, and referenced from Enter to Leave. */
  lemma SubCounts(s: Pool, t: nat, e: Effect, pc: SPc)
    requires t < |s.subs| && SubDoes(s, t, e, pc)
    ensures e == Raise(t) <==> !Counted(s.subs[t].pc) && Counted(pc)
    ensures e == Lower(t) <==> Counted(s.subs[t].pc) && !Counted(pc)
    ensures e == Enter(t) <==> s.subs[t].pc.SIdle? && !pc.SIdle?
    ensures e.Leave? <==> !s.subs[t].pc.SIdle? && pc.SIdle?
    ensures (e.Raise? || e.Lower? || e.Enter? || e.Leave?) ==> e.t == t
  {
  }

  lemma ActiveStep(active: int, inActive: set<Tid>, subs: seq<Sub>, t: nat, b: Sub)
    requires ActiveOk(active, inActive, subs) && t < |subs|
    ensures Counted(b.pc) == Counted(subs[t].pc) ==> ActiveOk(active, inActive, subs[t := b])
    ensures Counted(b.pc) && !Counted(subs[t].pc) ==> ActiveOk(active + 1, inActive + {t}, subs[t := b])
    ensures !Counted(b.pc) && Counted(subs[t].pc) ==> ActiveOk(active - 1, inActive - {t}, subs[t := b])
  {
    hide Counted;
  }

  lemma ApiStep(api: int, inApi: set<Tid>, subs: seq<Sub>, t: nat, b: Sub)
    requires ApiOk(api, inApi, subs) && t < |subs|
    ensures b.pc.SIdle? == subs[t].pc.SIdle? ==> ApiOk(api, inApi, subs[t := b])
    ensures !b.pc.SIdle? && subs[t].pc.SIdle? ==> ApiOk(api + 1, inApi + {t}, subs[t := b])
    ensures b.pc.SIdle? && !subs[t].pc.SIdle? ==> ApiOk(api - 1, inApi - {t}, subs[t := b])
  {
  }

  lemma CountStep(g: Globals, budget: nat, subs: seq<Sub>, t: nat, e: Effect, b: Sub)
    requires CountOk(g, subs) && t < |subs| && OfSubmitter(e)
    requires e == Raise(t) <==> !Counted(subs[t].pc) && Counted(b.pc)
    requires e == Lower(t) <==> Counted(subs[t].pc) && !Counted(b.pc)
    requires e == Enter(t) <==> subs[t].pc.SIdle? && !b.pc.SIdle?
    requires e.Leave? <==> !subs[t].pc.SIdle? && b.pc.SIdle?
    requires (e.Raise? || e.Lower? || e.Enter? || e.Leave?) ==> e.t == t
    ensures CountOk(GlobalsAfter(g, budget, e), subs[t := b])
  {
    hide Counted, ActiveOk, ApiOk;
    ActiveStep(g.active, g.inActive, subs, t, b);
    ApiStep(g.api, g.inApi, subs, t, b);
  }

  // ---- positions and their owners ---------------------------------------------

  /** The call has reserved a position. */
  predicate HasSlot(pc: SPc)
  {
    match pc
    case SRaise(_, _) => true
    case SHeld(_, _) => true
    case SPublish(_, _, _) => true
    case SCount(_, _) => true
    case SLower(_, _) => true
    case SLeave(a) => a.Accepted?
    case SIdle(a) => a.Accepted?
    case _ => false
  }

  /** The reserved position, and whether it has been published. */
  function SlotOf(pc: SPc): (Wid, nat, bool)
    requires HasSlot(pc)
  {
    match pc
    case SRaise(w, pos) => (w, pos, false)
    case SHeld(w, pos) => (w, pos, false)
    case SPublish(_, w, pos) => (w, pos, false)
    case SCount(w, pos) => (w, pos, true)
    case SLower(w, pos) => (w, pos, true)
    case SLeave(a) => (a.w, a.pos, true)
    case SIdle(a) => (a.w, a.pos, true)
  }

  predicate Stands(en: Entry, t: Tid, call: nat, ready: bool)
  {
    en.src == t && en.call == call && en.ready == ready
  }

  /** A submitter's latest call stands at the position it holds. */
  ghost predicate SubOk(ws: seq<Worker>, t: Tid, b: Sub)
  {
    HasSlot(b.pc) ==>
      var q := SlotOf(b.pc);
      q.0 < |ws| && q.1 < |ws[q.0].log| && Stands(ws[q.0].log[q.1], t, b.calls, q.2)
  }

  /** An entry belongs to an earlier, finished call or to the latest one, which knows its position. */
  ghost predicate EntryOk(subs: seq<Sub>, w: Wid, pos: nat, en: Entry)
  {
    && en.src < |subs| && en.call <= subs[en.src].calls
    && (en.call == subs[en.src].calls ==> HasSlot(subs[en.src].pc) && SlotOf(subs[en.src].pc) == (w, pos, en.ready))
    && (!en.ready ==> en.call == subs[en.src].calls)
  }

  ghost predicate SubsOk(ws: seq<Worker>, subs: seq<Sub>)
  {
    forall t: Tid :: t < |subs| ==> SubOk(ws, t, subs[t])
  }

  ghost predicate EntriesOk(ws: seq<Worker>, subs: seq<Sub>)
  {
    forall w: Wid, p: nat :: w < |ws| && p < |ws[w].log| ==> EntryOk(subs, w, p, ws[w].log[p])
  }

  predicate SameCall(a: Entry, b: Entry) { a.src == b.src && a.call == b.call }

  /** No call has two positions, in one ring or in two. */
  ghost predicate OncePosted(ws: seq<Worker>)
  {
    forall w: Wid, p: nat, v: Wid, q: nat ::
      w < |ws| && p < |ws[w].log| && v < |ws| && q < |ws[v].log| && SameCall(ws[w].log[p], ws[v].log[q]) ==>
        w == v && p == q
  }

  /** In one ring, one submitter's messages stand in the order of its calls. */
  ghost predicate InCallOrder(log: seq<Entry>)
  {
    forall p, q :: 0 <= p < q < |log| && log[p].src == log[q].src ==> log[p].call < log[q].call
  }

  ghost predicate OrdersOk(ws: seq<Worker>)
  {
    forall w: Wid :: w < |ws| ==> InCallOrder(ws[w].log)
  }

  ghost predicate AcceptedOk(ws: seq<Worker>, accepted: set<(Wid, nat)>)
  {
    forall a :: a in accepted ==> a.0 < |ws| && a.1 < |ws[a.0].log| && ws[a.0].log[a.1].ready
  }

  ghost predicate LogInv(s: Pool)
  {
    && CountOk(s.g, s.subs) && SubsOk(s.ws, s.subs) && EntriesOk(s.ws, s.subs)
    && OncePosted(s.ws) && OrdersOk(s.ws) && AcceptedOk(s.ws, s.g.accepted)
  }

  lemma InitLogs(s: Pool)
    requires Init(s)
    ensures LogInv(s)
  {
  }

  // ---- steps that write no log ------------------------------------------------

  ghost predicate SameLogs(ws: seq<Worker>, ws': seq<Worker>)
  {
    |ws'| == |ws| && forall w: Wid :: w < |ws| ==> ws'[w].log == ws[w].log
  }

  lemma EffectLogs(s: Pool, e: Effect)
    requires Applies(s, e) && !e.Reserve? && !e.Publish?
    ensures SameLogs(s.ws, WorkersAfter(s, e))
  {
  }

  lemma SameCounts(g: Globals, g': Globals, subs: seq<Sub>)
    requires CountOk(g, subs)
    requires g'.active == g.active && g'.inActive == g.inActive && g'.api == g.api && g'.inApi == g.inApi
    ensures CountOk(g', subs)
  {
    hide Counted;
  }

  lemma SameLogInv(s: Pool, s': Pool)
    requires LogInv(s) && SameLogs(s.ws, s'.ws) && s'.subs == s.subs && s'.g.accepted == s.g.accepted
    requires s'.g.active == s.g.active && s'.g.inActive == s.g.inActive
    requires s'.g.api == s.g.api && s'.g.inApi == s.g.inApi
    ensures LogInv(s')
  {
    SameCounts(s.g, s'.g, s.subs);
    hide CountOk, EntryOk, HasSlot, SlotOf, SameCall, InCallOrder;
  }

  // ---- submitters -------------------------------------------------------------

  /** A step of submitter t with its log untouched: it keeps its slot or had none. */
  ghost predicate KeepsSlot(b: Sub, b': Sub)
  {
    if b'.calls == b.calls then HasSlot(b'.pc) == HasSlot(b.pc) && (HasSlot(b.pc) ==> SlotOf(b'.pc) == SlotOf(b.pc))
    else b'.calls == b.calls + 1 && !HasSlot(b'.pc) && (HasSlot(b.pc) ==> SlotOf(b.pc).2)
  }

  lemma KeepsSlotOk(ws: seq<Worker>, subs: seq<Sub>, t: Tid, b: Sub)
    requires SubsOk(ws, subs) && EntriesOk(ws, subs) && t < |subs| && KeepsSlot(subs[t], b)
    ensures SubsOk(ws, subs[t := b]) && EntriesOk(ws, subs[t := b])
  {
    hide HasSlot, SlotOf;
    var subs' := subs[t := b];
    forall w: Wid, p: nat | w < |ws| && p < |ws[w].log|
      ensures EntryOk(subs', w, p, ws[w].log[p])
    {
      assert EntryOk(subs, w, p, ws[w].log[p]);
    }
    forall u: Tid | u < |subs|
      ensures SubOk(ws, u, subs'[u])
    {
      assert SubOk(ws, u, subs[u]);
    }
  }

  lemma SubKeeps(s: Pool, t: nat, e: Effect, pc: SPc)
    requires t < |s.subs| && SubDoes(s, t, e, pc) && !e.Reserve? && !e.Publish?
    ensures KeepsSlot(s.subs[t], SubAfter(s.subs[t], pc))
  {
  }

  /** The compare-exchange that reserves position |log| of ring w for submitter t. */
  lemma ReserveOk(ws: seq<Worker>, subs: seq<Sub>, t: Tid, w: Wid, k: Kind, b: Sub, ws': seq<Worker>)
    requires SubsOk(ws, subs) && EntriesOk(ws, subs) && OncePosted(ws) && OrdersOk(ws)
    requires t < |subs| && w < |ws| && !HasSlot(subs[t].pc) && b.calls == subs[t].calls
    requires HasSlot(b.pc) && SlotOf(b.pc) == (w, |ws[w].log|, false)
    requires ws' == ws[w := ws[w].(log := ws[w].log + [Entry(t, b.calls, k, false)])]
    ensures SubsOk(ws', subs[t := b]) && EntriesOk(ws', subs[t := b]) && OncePosted(ws') && OrdersOk(ws')
  {
    hide HasSlot, SlotOf;
    var subs' := subs[t := b];
    forall v: Wid, p: nat | v < |ws| && p < |ws[v].log|
      ensures
        && EntryOk(subs', v, p, ws[v].log[p]) && !SameCall(ws[v].log[p], Entry(t, b.calls, k, false))
        && (ws[v].log[p].src == t ==> ws[v].log[p].call < b.calls)
    {
      assert EntryOk(subs, v, p, ws[v].log[p]);
    }
    ReserveEntries(ws, subs', t, w, k, b, ws');
    forall u: Tid | u < |subs|
      ensures SubOk(ws', u, subs'[u])
    {
      assert SubOk(ws, u, subs[u]);
    }
  }

  lemma ReserveEntries(ws: seq<Worker>, subs': seq<Sub>, t: Tid, w: Wid, k: Kind, b: Sub, ws': seq<Worker>)
    requires OncePosted(ws) && OrdersOk(ws) && t < |subs'| && w < |ws| && subs'[t] == b
    requires HasSlot(b.pc) && SlotOf(b.pc) == (w, |ws[w].log|, false)
    requires ws' == ws[w := ws[w].(log := ws[w].log + [Entry(t, b.calls, k, false)])]
    requires forall v: Wid, p: nat :: v < |ws| && p < |ws[v].log| ==>
      && EntryOk(subs', v, p, ws[v].log[p]) && !SameCall(ws[v].log[p], Entry(t, b.calls, k, false))
      && (ws[v].log[p].src == t ==> ws[v].log[p].call < b.calls)
    ensures EntriesOk(ws', subs') && OncePosted(ws') && OrdersOk(ws')
  {
    hide HasSlot, SlotOf;
    forall v: Wid, p: nat | v < |ws'| && p < |ws'[v].log|
      ensures EntryOk(subs', v, p, ws'[v].log[p])
    {
      if p < |ws[v].log| {
        assert ws'[v].log[p] == ws[v].log[p];
      }
    }
    forall v: Wid, p: nat, u: Wid, q: nat |
      v < |ws'| && p < |ws'[v].log| && u < |ws'| && q < |ws'[u].log| && SameCall(ws'[v].log[p], ws'[u].log[q])
      ensures v == u && p == q
    {
      if p < |ws[v].log| { assert ws'[v].log[p] == ws[v].log[p]; }
      if q < |ws[u].log| { assert ws'[u].log[q] == ws[u].log[q]; }
    }
  }

  /** The release store that publishes the position submitter t holds. */
  lemma PublishOk(ws: seq<Worker>, subs: seq<Sub>, t: Tid, w: Wid, pos: nat, b: Sub, ws': seq<Worker>)
    requires SubsOk(ws, subs) && EntriesOk(ws, subs) && OncePosted(ws) && OrdersOk(ws)
    requires t < |subs| && HasSlot(subs[t].pc) && HasSlot(b.pc) && b.calls == subs[t].calls
    requires SlotOf(subs[t].pc) == (w, pos, false) && SlotOf(b.pc) == (w, pos, true)
    requires w < |ws| && pos < |ws[w].log|
    requires ws' == ws[w := ws[w].(log := ws[w].log[pos := ws[w].log[pos].(ready := true)])]
    ensures SubsOk(ws', subs[t := b]) && EntriesOk(ws', subs[t := b]) && OncePosted(ws') && OrdersOk(ws')
  {
    hide HasSlot, SlotOf;
    var subs' := subs[t := b];
    assert SubOk(ws, t, subs[t]);
    assert forall v: Wid, p: nat :: v < |ws| && p < |ws[v].log| ==>
      |ws'[v].log| == |ws[v].log| && SameCall(ws'[v].log[p], ws[v].log[p]);
    forall v: Wid, p: nat | v < |ws'| && p < |ws'[v].log|
      ensures EntryOk(subs', v, p, ws'[v].log[p])
    {
      assert EntryOk(subs, v, p, ws[v].log[p]);
    }
    forall u: Tid | u < |subs|
      ensures SubOk(ws', u, subs'[u])
    {
      assert SubOk(ws, u, subs[u]);
    }
    PublishKeepsOrder(ws, ws');
  }

  lemma PublishKeepsOrder(ws: seq<Worker>, ws': seq<Worker>)
    requires OncePosted(ws) && OrdersOk(ws) && |ws'| == |ws|
    requires forall v: Wid :: v < |ws| ==> |ws'[v].log| == |ws[v].log|
    requires forall v: Wid, p: nat :: v < |ws| && p < |ws[v].log| ==> SameCall(ws'[v].log[p], ws[v].log[p])
    ensures OncePosted(ws') && OrdersOk(ws')
  {
  }

  /** Positions never shrink and published entries stay published. */
  ghost predicate LogsGrow(ws: seq<Worker>, ws': seq<Worker>)
  {
    && |ws'| == |ws|
    && forall w: Wid :: w < |ws| ==> LogGrows(ws[w].log, ws'[w].log)
  }

  ghost predicate LogGrows(log: seq<Entry>, log': seq<Entry>)
  {
    && |log| <= |log'|
    && forall p :: 0 <= p < |log| ==> SameCall(log'[p], log[p]) && (log[p].ready ==> log'[p].ready)
  }

  lemma EffectGrows(s: Pool, e: Effect)
    requires Applies(s, e)
    ensures LogsGrow(s.ws, WorkersAfter(s, e))
  {
  }

  /** What Reserve and Publish are aimed at. */
  lemma SubWrites(s: Pool, t: nat, e: Effect, pc: SPc)
    requires t < |s.subs| && SubDoes(s, t, e, pc) && Applies(s, e)
    ensures SubAfter(s.subs[t], pc).calls == s.subs[t].calls || (!e.Reserve? && !e.Publish?)
    ensures (e.Reserve? || e.Publish?) ==> e.w < |s.ws| && (e.Publish? ==> e.pos < |s.ws[e.w].log|)
    ensures e.Reserve? ==> e.t == t && !HasSlot(s.subs[t].pc) && HasSlot(pc) && SlotOf(pc) == (e.w, |s.ws[e.w].log|, false)
    ensures e.Publish? ==>
      && HasSlot(s.subs[t].pc) && HasSlot(pc) && SlotOf(s.subs[t].pc) == (e.w, e.pos, false)
      && SlotOf(pc) == (e.w, e.pos, true)
    ensures e.Leave? ==> (e.ans.Accepted? ==> HasSlot(s.subs[t].pc) && SlotOf(s.subs[t].pc) == (e.ans.w, e.ans.pos, true))
  {
  }

  lemma SubLogs(s: Pool, t: nat, e: Effect, pc: SPc, s': Pool)
    requires LogInv(s) && t < |s.subs| && SubStep(s, t, e, pc, s')
    ensures LogInv(s')
  {
    hide SubsOk, EntriesOk, OncePosted, OrdersOk, AcceptedOk, CountOk, SubDoes, Do, Applies, KeepsSlot, HasSlot, SlotOf,
      OfSubmitter, Counted, SubAfter;
    var b := SubAfter(s.subs[t], pc);
    SubmitterEffect(s, t, e, pc);
    SubCounts(s, t, e, pc);
    AfterPc(s.subs[t], pc);
    CountStep(s.g, s.cfg.budget, s.subs, t, e, b);
    DoFacts(s, e);
    GlobalsDo(s, e);
    SubWrites(s, t, e, pc);
    if e.Reserve? {
      ReserveOk(s.ws, s.subs, t, e.w, e.k, b, s'.ws);
    } else if e.Publish? {
      PublishOk(s.ws, s.subs, t, e.w, e.pos, b, s'.ws);
    } else {
      SubKeeps(s, t, e, pc);
      KeepsSlotOk(s.ws, s.subs, t, b);
    }
    EffectGrows(s, e);
    SubAccepted(s, t, e, s'.ws);
  }

  lemma AfterPc(b: Sub, pc: SPc)
    ensures SubAfter(b, pc).pc == pc
  {
  }

  lemma GlobalsDo(s: Pool, e: Effect)
    requires Applies(s, e)
    ensures Do(s, e).g == GlobalsAfter(s.g, s.cfg.budget, e)
    ensures Do(s, e).g.accepted ==
      if e.Leave? && e.ans.Accepted? then s.g.accepted + {(e.ans.w, e.ans.pos)} else s.g.accepted
  {
  }

  lemma SubAccepted(s: Pool, t: nat, e: Effect, ws': seq<Worker>)
    requires t < |s.subs| && SubsOk(s.ws, s.subs) && AcceptedOk(s.ws, s.g.accepted) && LogsGrow(s.ws, ws')
    requires e.Leave? ==> (e.ans.Accepted? ==> HasSlot(s.subs[t].pc) && SlotOf(s.subs[t].pc) == (e.ans.w, e.ans.pos, true))
    ensures AcceptedOk(ws', if e.Leave? && e.ans.Accepted? then s.g.accepted + {(e.ans.w, e.ans.pos)} else s.g.accepted)
  {
    hide HasSlot, SlotOf;
    assert SubOk(s.ws, t, s.subs[t]);
  }

  // ---- all steps --------------------------------------------------------------

  lemma OwnerLogs(s: Pool, e: Effect, pc: OPc, s': Pool)
    requires LogInv(s) && OwnerStep(s, e, pc, s')
    ensures LogInv(s')
  {
    OwnerEffect(s, e, pc);
    hide LogInv, OwnerDoes, Do, OwnerKnows, SameLogs;
    DoFacts(s, e);
    DoCounts(s, e);
    EffectLogs(s, e);
    SameLogInv(s, s');
  }

  lemma SupLogs(s: Pool, e: Effect, pc: UPc, s': Pool)
    requires LogInv(s) && SupStep(s, e, pc, s')
    ensures LogInv(s')
  {
    SupervisorEffect(s, e, pc);
    hide LogInv, SupDoes, Do, SupKnows, SameLogs;
    DoFacts(s, e);
    DoCounts(s, e);
    EffectLogs(s, e);
    SameLogInv(s, s');
  }

  lemma DestroyLogs(s: Pool, e: Effect, pc: DPc, s': Pool)
    requires LogInv(s) && DestroyStep(s, e, pc, s')
    ensures LogInv(s')
  {
    DestroyEffect(s, e, pc);
    hide LogInv, DestroyDoes, Do, SameLogs;
    DoFacts(s, e);
    DoCounts(s, e);
    EffectLogs(s, e);
    SameLogInv(s, s');
  }

  lemma NextLogs(s: Pool, s': Pool)
    requires LogInv(s) && Next(s, s')
    ensures LogInv(s')
  {
    hide LogInv, WorkerStep, SubStep, CallStep, OwnerStep, SupStep, DestroyStep;
    if i :| 0 <= i < |s.ws| && WorkerStep(s, i, s') { WorkerMoves(s, i, s'); SameLogInv(s, s'); }
    else if t, e, pc :| 0 <= t < |s.subs| && SubStep(s, t, e, pc, s') { SubLogs(s, t, e, pc, s'); }
    else if c :| 0 <= c < |s.calls| && CallStep(s, c, s') { CallEffect(s, c, s'); SameLogInv(s, s'); }
    else if e, pc :| OwnerStep(s, e, pc, s') { OwnerLogs(s, e, pc, s'); }
    else if e, pc :| SupStep(s, e, pc, s') { SupLogs(s, e, pc, s'); }
    else if e, pc :| DestroyStep(s, e, pc, s') { DestroyLogs(s, e, pc, s'); }
    else { SameLogInv(s, s'); }
  }

  lemma {:induction false} RunLogs(tr: seq<Pool>, n: nat)
    requires Run(tr) && n < |tr|
    ensures LogInv(tr[n])
  {
    hide LogInv, Next, Init;
    if n == 0 {
      InitLogs(tr[0]);
    } else {
      RunLogs(tr, n - 1);
      assert NextAt(tr, n - 1);
      NextLogs(tr[n - 1], tr[n]);
    }
  }
}
