/** Where a key's messages stand: in the ring its key is routed to, and there in call order. */
module PoolRoutes {
  import opened Pool
  import opened PoolEffects
  import opened PoolJoins
  import opened PoolLogs
  import opened PoolFates
  import Shard

  /** The worker a call has picked is the one its kind is routed to. */
  predicate Routed(r: Shard.Routes, pc: SPc)
  {
    match pc
    case SLife(k, w) => w == Route(r, k)
    case SFlags(k, w) => w == Route(r, k)
    case SClosed(k, w) => w == Route(r, k)
    case SCas(k, w) => w == Route(r, k)
    case _ => true
  }

  ghost predicate SubsRouted(r: Shard.Routes, subs: seq<Sub>)
  {
    forall t: Tid :: t < |subs| ==> Routed(r, subs[t].pc)
  }

  ghost predicate LogsRouted(r: Shard.Routes, ws: seq<Worker>)
  {
    forall w: Wid, p: nat :: w < |ws| && p < |ws[w].log| ==> Route(r, ws[w].log[p].kind) == w
  }

  ghost predicate RouteInv(s: Pool)
  {
    |s.ws| == s.routes.workers && SubsRouted(s.routes, s.subs) && LogsRouted(s.routes, s.ws)
  }

  lemma InitRoutes(s: Pool)
    requires Init(s)
    ensures RouteInv(s)
  {
  }

  // ---- submitters -------------------------------------------------------------

  /** A call keeps the worker it picked, and reserves in that worker's ring. */
  lemma SubRouted(s: Pool, t: nat, e: Effect, pc: SPc)
    requires t < |s.subs| && Routed(s.routes, s.subs[t].pc) && SubDoes(s, t, e, pc)
    ensures Routed(s.routes, pc) && (e.Reserve? ==> e.w == Route(s.routes, e.k))
  {
    hide Route;
  }

  lemma ReserveRouted(r: Shard.Routes, ws: seq<Worker>, w: Wid, en: Entry)
    requires LogsRouted(r, ws) && w < |ws| && Route(r, en.kind) == w
    ensures LogsRouted(r, ws[w := ws[w].(log := ws[w].log + [en])])
  {
    hide Route;
  }

  lemma PublishRouted(r: Shard.Routes, ws: seq<Worker>, w: Wid, pos: nat)
    requires LogsRouted(r, ws) && w < |ws| && pos < |ws[w].log|
    ensures LogsRouted(r, ws[w := ws[w].(log := ws[w].log[pos := ws[w].log[pos].(ready := true)])])
  {
    hide Route;
  }

  lemma SubWritesRouted(s: Pool, e: Effect)
    requires LogsRouted(s.routes, s.ws) && OfSubmitter(e) && Applies(s, e)
    requires e.Reserve? ==> e.w == Route(s.routes, e.k)
    ensures LogsRouted(s.routes, WorkersAfter(s, e)) && |WorkersAfter(s, e)| == |s.ws|
  {
    hide LogsRouted, Route;
    if e.Reserve? {
      ReserveRouted(s.routes, s.ws, e.w, Entry(e.t, s.subs[e.t].calls, e.k, false));
    } else if e.Publish? {
      PublishRouted(s.routes, s.ws, e.w, e.pos);
    }
  }

  lemma SubRoutes(s: Pool, t: nat, e: Effect, pc: SPc, s': Pool)
    requires RouteInv(s) && t < |s.subs| && SubStep(s, t, e, pc, s')
    ensures RouteInv(s')
  {
    hide SubDoes, OfSubmitter, Applies, Do, WorkersAfter, LogsRouted, Routed, Route;
    SubmitterEffect(s, t, e, pc);
    SubRouted(s, t, e, pc);
    SubWritesRouted(s, e);
    DoFacts(s, e);
  }

  // ---- all steps --------------------------------------------------------------

  lemma SameRoutes(s: Pool, s': Pool)
    requires RouteInv(s) && s'.routes == s.routes && s'.subs == s.subs && SameLogs(s.ws, s'.ws)
    ensures RouteInv(s')
  {
    hide Route;
  }

  lemma EffectRoutes(s: Pool, e: Effect, s': Pool)
    requires RouteInv(s) && (OfOwner(e) || OfSupervisor(e) || OfDestroy(e)) && Applies(s, e)
    requires s' == Do(s, e).(own := s'.own, sup := s'.sup, des := s'.des)
    ensures RouteInv(s')
  {
    hide RouteInv, Do, Applies, OfOwner, OfSupervisor, OfDestroy, SameLogs;
    NotOfSubmitter(e);
    EffectLogs(s, e);
    DoFacts(s, e);
    SameRoutes(s, s');
  }

  lemma NextRoutes(s: Pool, s': Pool)
    requires RouteInv(s) && Next(s, s')
    ensures RouteInv(s')
  {
    hide RouteInv, WorkerStep, SubStep, CallStep, OwnerDoes, SupDoes, DestroyDoes, Do, Applies, OfOwner, OfSupervisor,
      OfDestroy, OwnerKnows, SupKnows;
    if i :| 0 <= i < |s.ws| && WorkerStep(s, i, s') { WorkerMoves(s, i, s'); SameRoutes(s, s'); }
    else if t, e, pc :| 0 <= t < |s.subs| && SubStep(s, t, e, pc, s') { SubRoutes(s, t, e, pc, s'); }
    else if c :| 0 <= c < |s.calls| && CallStep(s, c, s') { CallEffect(s, c, s'); SameRoutes(s, s'); }
    else if e, pc :| OwnerStep(s, e, pc, s') { OwnerEffect(s, e, pc); EffectRoutes(s, e, s'); }
    else if e, pc :| SupStep(s, e, pc, s') { SupervisorEffect(s, e, pc); EffectRoutes(s, e, s'); }
    else if e, pc :| DestroyStep(s, e, pc, s') { DestroyEffect(s, e, pc); EffectRoutes(s, e, s'); }
    else { SameRoutes(s, s'); }
  }

  lemma {:induction false} RunRoutes(tr: seq<Pool>, n: nat)
    requires Run(tr) && n < |tr|
    ensures RouteInv(tr[n])
  {
    hide RouteInv, Next, Init;
    if n == 0 {
      InitRoutes(tr[0]);
    } else {
      RunRoutes(tr, n - 1);
      assert NextAt(tr, n - 1);
      NextRoutes(tr[n - 1], tr[n]);
    }
  }

  // ---- the order of one key ---------------------------------------------------

  /** Every message stands in the ring its kind is routed to: one key's messages never split over workers. */
  lemma OneRing(tr: seq<Pool>, n: nat, w: nat, p: nat, v: nat, q: nat)
    requires Run(tr) && n < |tr| && w < |tr[n].ws| && p < |tr[n].ws[w].log| && v < |tr[n].ws| && q < |tr[n].ws[v].log|
    ensures Route(tr[n].routes, tr[n].ws[w].log[p].kind) == w
    ensures tr[n].ws[w].log[p].kind == tr[n].ws[v].log[q].kind ==> w == v
  {
    RunRoutes(tr, n);
    hide Run, Route;
  }

  /**
    One submitter's messages with one key (feed, symbol and flag, or one claimed shard), and
    more generally those to one worker, are processed in the order of its calls, across restarts:
    when the later call's message has been processed, so has the earlier one's, and before it.
   */
  lemma ProcessedInCallOrder(tr: seq<Pool>, n: nat, w: nat, p: nat, v: nat, q: nat)
    requires Run(tr) && n < |tr| && w < |tr[n].ws| && p < |tr[n].ws[w].log| && v < |tr[n].ws| && q < |tr[n].ws[v].log|
    requires tr[n].ws[w].log[p].kind == tr[n].ws[v].log[q].kind || w == v
    requires tr[n].ws[w].log[p].src == tr[n].ws[v].log[q].src && tr[n].ws[w].log[p].call < tr[n].ws[v].log[q].call
    requires q < |tr[n].ws[v].fate| && tr[n].ws[v].fate[q] == Processed
    ensures w == v && p < q && tr[n].ws[w].fate[p] == Processed
  {
    RunFates(tr, n);
    RunLogs(tr, n);
    OneRing(tr, n, w, p, v, q);
    hide JoinInv, Run, Route;
    assert FateOk(tr[n].ws[w]) && InCallOrder(tr[n].ws[w].log);
  }
}
