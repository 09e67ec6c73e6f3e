/**
  One absolute budget for the whole shutdown: all polling loops together sleep at most
  budget / nap times, rounded up, however many workers are stuck.
 */
module PoolBudget {
  import opened Pool
  import opened PoolEffects
  import opened PoolJoins
  import opened PoolReturns

  ghost predicate ClockOk(cfg: Config, k: Clock, o: OPc)
  {
    if k.running then
      && k.deadline == k.start + cfg.budget
      && k.start + k.naps * cfg.nap <= k.now
      && (k.naps > 0 ==> (k.naps - 1) * cfg.nap < cfg.budget)
      && (o == OSupPhase ==> k.naps * cfg.nap < cfg.budget)
    else k.naps == 0 && o != OSupPhase
  }

  ghost predicate BudgetInv(s: Pool)
  {
    s.cfg.nap > 0 && s.cfg.budget > 0 && ClockOk(s.cfg, s.g.clk, s.own)
  }

  lemma InitBudget(s: Pool)
    requires Init(s)
    ensures BudgetInv(s)
  {
  }

  /** A sleep taken after the clock still showed time left. */
  lemma SleepOk(cfg: Config, k: Clock, o: OPc, now: nat, pc: OPc)
    requires ClockOk(cfg, k, o) && k.running && (!TimeUp(k) || o == OSupPhase) && now >= k.now + cfg.nap
    requires pc != OSupPhase
    ensures ClockOk(cfg, k.(now := now, naps := k.naps + 1), pc)
  {
    assert k.naps * cfg.nap < cfg.budget;
    assert (k.naps + 1) * cfg.nap == k.naps * cfg.nap + cfg.nap;
  }

  /** A step that does not sleep at most starts the clock. */
  lemma AwakeOk(cfg: Config, k: Clock, o: OPc, e: Effect, pc: OPc)
    requires cfg.budget > 0 && ClockOk(cfg, k, o) && !e.Sleep? && (e.StartClock? ==> !k.running)
    requires pc == OSupPhase ==> e == Nop && k.running && !TimeUp(k)
    ensures ClockOk(cfg, ClockAfter(k, cfg.budget, e), pc)
  {
  }

  lemma OwnerClock(s: Pool)
    requires JoinInv(s)
    ensures s.own != ONone && s.own != OStart <==> s.g.clk.running
  {
    hide WorkersOk, SupOk, FocusOk;
  }

  /** The owner sleeps only with time left, or once more after a look at the supervisor, and starts the clock once. */
  lemma OwnerNaps(s: Pool, e: Effect, pc: OPc)
    requires OwnerSound(s, e, pc)
    ensures e.Sleep? ==>
      && s.own != ONone && s.own != OStart && pc != OSupPhase
      && e.now >= s.g.clk.now + s.cfg.nap && (!TimeUp(s.g.clk) || s.own == OSupPhase)
    ensures e.StartClock? ==> s.own == OStart
    ensures pc == OSupPhase ==> s.own == OSupClock && e == Nop && !TimeUp(s.g.clk)
  {
  }

  lemma OwnerBudget(s: Pool, e: Effect, pc: OPc, s': Pool)
    requires JoinInv(s) && BudgetInv(s) && OwnerStep(s, e, pc, s')
    ensures BudgetInv(s')
  {
    OwnerClock(s);
    hide JoinInv, OwnerDoes, Do, Applies, OwnerSound, ClockOk, TimeUp;
    OwnerEffect(s, e, pc);
    OwnerNaps(s, e, pc);
    DoFacts(s, e);
    if e.Sleep? {
      SleepOk(s.cfg, s.g.clk, s.own, e.now, pc);
    } else {
      AwakeOk(s.cfg, s.g.clk, s.own, e, pc);
    }
  }

  lemma NextBudget(s: Pool, s': Pool)
    requires JoinInv(s) && RetInv(s) && BudgetInv(s) && Next(s, s')
    ensures BudgetInv(s')
  {
    hide JoinInv, RetInv, ClockOk, WorkerStep, SubStep, CallStep, OwnerStep, SupStep, DestroyStep;
    if i :| 0 <= i < |s.ws| && WorkerStep(s, i, s') { WorkerMoves(s, i, s'); }
    else if t, e, pc :| 0 <= t < |s.subs| && SubStep(s, t, e, pc, s') { SubBudget(s, t, e, pc, s'); }
    else if c :| 0 <= c < |s.calls| && CallStep(s, c, s') { CallBudget(s, c, s'); }
    else if e, pc :| OwnerStep(s, e, pc, s') { OwnerBudget(s, e, pc, s'); }
    else if e, pc :| SupStep(s, e, pc, s') { SupBudget(s, e, pc, s'); }
    else if e, pc :| DestroyStep(s, e, pc, s') { DestroyBudget(s, e, pc, s'); }
    else { TickClock(s.cfg, s.g.clk, s.own, s'.g.clk.now); }
  }

  lemma CallBudget(s: Pool, c: nat, s': Pool)
    requires BudgetInv(s) && c < |s.calls| && CallStep(s, c, s')
    ensures BudgetInv(s')
  {
    CallEffect(s, c, s');
    hide CallStep, ClockOk;
    if s'.own != s.own { CallClock(s.cfg, s.g.clk, s.own, s'.own); }
  }

  lemma CallClock(cfg: Config, k: Clock, o: OPc, o': OPc)
    requires ClockOk(cfg, k, o) && o' != OSupPhase
    ensures ClockOk(cfg, k, o')
  {
  }

  lemma TickClock(cfg: Config, k: Clock, o: OPc, now: nat)
    requires ClockOk(cfg, k, o) && k.now <= now
    ensures ClockOk(cfg, k.(now := now), o)
  {
  }

  lemma SubBudget(s: Pool, t: nat, e: Effect, pc: SPc, s': Pool)
    requires BudgetInv(s) && t < |s.subs| && SubStep(s, t, e, pc, s')
    ensures BudgetInv(s')
  {
    SubmitterEffect(s, t, e, pc);
    DoFacts(s, e);
    hide SubDoes, Do, ClockOk;
  }

  lemma SupBudget(s: Pool, e: Effect, pc: UPc, s': Pool)
    requires BudgetInv(s) && SupStep(s, e, pc, s')
    ensures BudgetInv(s')
  {
    SupervisorEffect(s, e, pc);
    DoFacts(s, e);
    hide SupDoes, SupKnows, Do, ClockOk;
  }

  lemma DestroyBudget(s: Pool, e: Effect, pc: DPc, s': Pool)
    requires BudgetInv(s) && DestroyStep(s, e, pc, s')
    ensures BudgetInv(s')
  {
    DestroyEffect(s, e, pc);
    DoFacts(s, e);
    hide DestroyDoes, Do, ClockOk;
  }

  lemma {:induction false} RunBudget(tr: seq<Pool>, n: nat)
    requires Run(tr) && n < |tr|
    ensures BudgetInv(tr[n])
  {
    hide JoinInv, RetInv, BudgetInv, Next, Init;
    if n == 0 {
      InitBudget(tr[0]);
    } else {
      RunBudget(tr, n - 1);
      RunReturns(tr, n - 1);
      assert NextAt(tr, n - 1);
      NextBudget(tr[n - 1], tr[n]);
    }
  }

  // ---- theorems ---------------------------------------------------------------

  /** The smallest number of sleeps of length nap that covers the budget. */
  function CeilDiv(budget: nat, nap: nat): (r: nat)
    requires nap > 0
    ensures r * nap >= budget && (r > 0 ==> (r - 1) * nap < budget)
  {
    if budget == 0 then 0 else if budget <= nap then 1 else CeilDiv(budget - nap, nap) + 1
  }

  lemma {:induction false} MulMonotone(a: nat, b: nat, d: nat)
    requires a <= b
    ensures a * d <= b * d
  {
    if a < b {
      MulMonotone(a, b - 1, d);
      assert b * d == (b - 1) * d + d;
    }
  }

  /** The bound mentions neither the number of workers nor how many of them are stuck. */
  lemma SleepsBounded(tr: seq<Pool>, n: nat)
    requires Run(tr) && n < |tr|
    ensures tr[n].cfg.nap > 0 && tr[n].g.clk.naps <= CeilDiv(tr[n].cfg.budget, tr[n].cfg.nap)
  {
    RunBudget(tr, n);
    hide Run;
    var k, cfg := tr[n].g.clk, tr[n].cfg;
    var q := CeilDiv(cfg.budget, cfg.nap);
    if k.naps > q {
      MulMonotone(q, k.naps - 1, cfg.nap);
    }
  }
}
