/** Where the money is.  For any set of users, in every reachable state: their balances plus
    the cost of their generations that were not refunded equals the payments applied to them.
    One user gives the per-account statement, all users the global totals of the metrics. */
module Ledger {
  import opened Common
  import opened Tables
  import opened Transactions
  import opened JobSystem
  import opened JobInvariant
  import opened TableInvariant
  import opened Fencing

  function CashOf(balances: map<UserId, int>, us: set<UserId>): map<UserId, int> {
    map u | u in balances :: if u in us then balances[u] else 0
  }

  function Charge(row: Generation, us: set<UserId>): int {
    if row.user in us && row.refundedAt.None? then row.cost else 0
  }

  function ChargesOf(gens: map<GenerationId, Generation>, us: set<UserId>): map<GenerationId, int> {
    map g | g in gens :: Charge(gens[g], us)
  }

  function CreditsOf(payments: map<string, Payment>, us: set<UserId>): map<string, int> {
    map x | x in payments :: if payments[x].user in us then payments[x].amount else 0
  }

  /** Balances plus unrefunded charges equal applied payments, for the users `us`. */
  ghost predicate Conserved(db: Db, us: set<UserId>) {
    Total(CashOf(db.balances, us)) + Total(ChargesOf(db.generations, us)) == Total(CreditsOf(db.payments, us))
  }

  // ----- The four transactions that move money -------------------------------------------------

  lemma CashMoves(balances: map<UserId, int>, u: UserId, amount: int, us: set<UserId>)
    ensures Total(CashOf(balances[u := amount], us)) == Total(CashOf(balances, us))
              + (if u in us then amount - (if u in balances then balances[u] else 0) else 0)
  {
    TotalPut(CashOf(balances, us), u, if u in us then amount else 0);
    assert CashOf(balances[u := amount], us) == CashOf(balances, us)[u := if u in us then amount else 0];
  }

  lemma ChargeMoves(gens: map<GenerationId, Generation>, g: GenerationId, row: Generation, us: set<UserId>)
    ensures Total(ChargesOf(gens[g := row], us)) == Total(ChargesOf(gens, us))
              - (if g in gens then Charge(gens[g], us) else 0) + Charge(row, us)
  {
    TotalPut(ChargesOf(gens, us), g, Charge(row, us));
    assert ChargesOf(gens[g := row], us) == ChargesOf(gens, us)[g := Charge(row, us)];
  }

  lemma CreditConserves(db: Db, x: string, u: UserId, amount: int, us: set<UserId>)
    requires Conserved(db, us)
    ensures Conserved(ApplyCredit(db, x, u, amount).0, us)
  {
    if ApplyCredit(db, x, u, amount).1.Applied? {
      CashMoves(db.balances, u, db.balances[u] + amount, us);
      var credit := if u in us then amount else 0;
      TotalPut(CreditsOf(db.payments, us), x, credit);
      assert CreditsOf(db.payments[x := Payment(u, amount)], us) == CreditsOf(db.payments, us)[x := credit];
    }
  }

  lemma CreateConserves(db: Db, cmd: Command, cost: int, g: GenerationId, e: EventId, now: int, us: set<UserId>)
    requires Conserved(db, us) && g !in db.generations
    ensures Conserved(CreateAndCharge(db, cmd, cost, g, e, now).0, us)
  {
    if CreateAndCharge(db, cmd, cost, g, e, now).1.Opened? {
      CashMoves(db.balances, cmd.user, db.balances[cmd.user] - cost, us);
      ChargeMoves(db.generations, g, NewGeneration(cmd, cost, now), us);
    }
  }

  lemma RefundConserves(db: Db, g: GenerationId, code: string, now: int, us: set<UserId>)
    requires Conserved(db, us) && g in db.generations && db.generations[g].user in db.balances
    requires db.generations[g].refundedAt.None?
    ensures var row := db.generations[g];
            Total(CashOf(Refund(db, row.user, row.cost).balances, us))
              + Total(ChargesOf(db.generations[g := FailedRow(row, code, now)], us)) == Total(CreditsOf(db.payments, us))
  {
    var row := db.generations[g];
    CashMoves(db.balances, row.user, db.balances[row.user] + row.cost, us);
    ChargeMoves(db.generations, g, FailedRow(row, code, now), us);
  }

  lemma FailDbConserves(db: Db, g: GenerationId, t: Token, code: string, e: EventId, now: int, us: set<UserId>)
    requires Conserved(db, us) && (g in db.generations ==> db.generations[g].user in db.balances)
    ensures Conserved(FailAndRefund(db, g, t, code, e, now).0, us)
  {
    hide FailAndRefund, Refund, CashOf, ChargesOf, CreditsOf;
    RefundedRows(db, g, t, code, e, now);
    if FailAndRefund(db, g, t, code, e, now).1 == Wrote {
      RefundConserves(db, g, code, now, us);
    }
  }

  lemma FailConserves(cfg: Config, s: Sys, w: nat, e: EventId, us: set<UserId>)
    requires Inv(cfg, s) && Enabled(cfg, s, Fail(w, e)) && Conserved(s.db, us)
    ensures Conserved(Step(cfg, s, Fail(w, e)).db, us)
  {
    hide Step, Inv, Conserved, FailAndRefund;
    FailDb(cfg, s, w, e);
    var g, p := s.workers[w].generation, s.workers[w].phase;
    if g in s.db.generations { OwnerPays(cfg, s, g); }
    FailDbConserves(s.db, g, p.token, p.code, e, s.now, us);
  }

  lemma FailDb(cfg: Config, s: Sys, w: nat, e: EventId)
    requires Enabled(cfg, s, Fail(w, e))
    ensures var g, p := s.workers[w].generation, s.workers[w].phase;
            Step(cfg, s, Fail(w, e)).db == FailAndRefund(s.db, g, p.token, p.code, e, s.now).0
  {
    var g, p := s.workers[w].generation, s.workers[w].phase;
    RefundedRows(s.db, g, p.token, p.code, e, s.now);
    hide FailAndRefund;
  }

  lemma OwnerPays(cfg: Config, s: Sys, g: GenerationId)
    requires Inv(cfg, s) && g in s.db.generations
    ensures s.db.generations[g].user in s.db.balances
  {
    hide JobsInv, OutboxOk, CallbacksOk, KeysOk;
  }

  // ----- Everything else leaves the books alone -----------------------------------------------------

  predicate MovesMoney(a: Action) { a.Register? || a.Pay? || a.Create? || a.Fail? }

  ghost predicate SameBooks(db: Db, db': Db) {
    db'.balances == db.balances && db'.payments == db.payments && db'.generations.Keys == db.generations.Keys
  }

  /** No callback row changed; at most the row `e` of one generation is new. */
  ghost predicate MayAddCallback(s: Sys, s': Sys, e: EventId) {
    || s'.db.callbacks == s.db.callbacks
    || exists g :: s'.db.callbacks == s.db.callbacks[e := NewCallback(g, s.now)]
  }

  lemma ClaimBooks(cfg: Config, s: Sys, w: nat, t: Token)
    requires w in s.workers
    ensures SameBooks(s.db, DoClaim(cfg, s, w, t).db) && DoClaim(cfg, s, w, t).db.callbacks == s.db.callbacks
  {
    hide AfterClaim, Hist;
  }

  lemma SaveBooks(cfg: Config, s: Sys, w: nat, ackLost: bool)
    requires w in s.workers && s.workers[w].phase.Saving?
    ensures SameBooks(s.db, DoSave(cfg, s, w, ackLost).db) && DoSave(cfg, s, w, ackLost).db.callbacks == s.db.callbacks
  {
    hide AfterError, Hist;
  }

  lemma CompleteBooks(cfg: Config, s: Sys, w: nat, e: EventId, ackLost: bool)
    requires w in s.workers && s.workers[w].phase.Completing?
    ensures SameBooks(s.db, DoComplete(cfg, s, w, e, ackLost).db)
    ensures MayAddCallback(s, DoComplete(cfg, s, w, e, ackLost), e)
  {
    hide AfterError, Hist, Complete;
    var v := s.workers[w];
    CompletedRows(s.db, v.generation, v.phase.token, v.phase.result, v.phase.provider, e, s.now);
  }

  lemma YieldBooks(cfg: Config, s: Sys, w: nat)
    requires w in s.workers
    ensures s.workers[w].phase.Requeueing? ==>
      SameBooks(s.db, DoYield(s, w).db) && DoYield(s, w).db.callbacks == s.db.callbacks
    ensures s.workers[w].phase.FailoverRequeueing? ==>
      SameBooks(s.db, DoYieldToFallback(cfg, s, w).db) && DoYieldToFallback(cfg, s, w).db.callbacks == s.db.callbacks
  {
    hide Hist;
  }

  lemma TaskBooks(cfg: Config, s: Sys, a: Action)
    requires ByTask(a) && TaskEnabled(s, a) && !a.Fail?
    ensures SameBooks(s.db, TaskStep(cfg, s, a).db)
  {
    hide AfterError, DoClaim, DoSave, DoComplete, DoYield, DoYieldToFallback, DoFail;
    match a
    case Claim(w, t) => ClaimBooks(cfg, s, w, t);
    case Save(w, ackLost) => SaveBooks(cfg, s, w, ackLost);
    case Finishing(w, e, ackLost) => CompleteBooks(cfg, s, w, e, ackLost);
    case Yield(w) => YieldBooks(cfg, s, w);
    case YieldToFallback(w) => YieldBooks(cfg, s, w);
    case _ =>
  }

  /** Job steps never touch an existing callback row; a terminal write adds its own. */
  lemma CallbackRows(cfg: Config, s: Sys, a: Action)
    requires Enabled(cfg, s, a) && !a.Courier?
    ensures a.Finishing? || a.Fail? || Step(cfg, s, a).db.callbacks == s.db.callbacks
    ensures a.Finishing? || a.Fail? ==> a.e !in s.db.callbacks && MayAddCallback(s, Step(cfg, s, a), a.e)
  {
    hide TaskStep, TaskEnabled, DispatchStep, EnvironmentStep, ClientStep, DispatchEnabled, EnvironmentEnabled, ClientEnabled, MayAddCallback;
    if ByTask(a) {
      TaskCallbackRows(cfg, s, a);
    } else {
      OutsideCallbackRows(cfg, s, a);
    }
  }

  lemma PublishCallbackRows(s: Sys, disp: nat, outcome: DispatchOutcome)
    requires disp in s.dispatchers && s.dispatchers[disp] != []
    ensures DoDispatch(s, disp, outcome).db.callbacks == s.db.callbacks
  {
    hide Enqueued;
  }

  lemma DispatchCallbackRows(cfg: Config, s: Sys, a: Action)
    requires ByDispatch(a) && DispatchEnabled(cfg, s, a)
    ensures DispatchStep(cfg, s, a).db.callbacks == s.db.callbacks
  {
    hide IsBatch, DoDispatch;
    if a.DispatchNext? { PublishCallbackRows(s, a.disp, a.outcome); }
  }

  lemma ClientCallbackRows(s: Sys, a: Action)
    requires ByClient(a) && ClientEnabled(s, a)
    ensures ClientStep(s, a).db.callbacks == s.db.callbacks
  {
    hide CreateAndCharge, ApplyCredit;
    if a.Create? { CreateCallbacks(s.db, a.cmd, a.cost, a.g, a.e, s.now); }
    else if a.Pay? { PayCallbacks(s.db, a.externalId, a.user, a.amount); }
  }

  lemma OutsideCallbackRows(cfg: Config, s: Sys, a: Action)
    requires Enabled(cfg, s, a) && !a.Courier? && !ByTask(a)
    ensures Step(cfg, s, a).db.callbacks == s.db.callbacks
  {
    hide ClientStep, ClientEnabled, DispatchStep, DispatchEnabled, TaskStep, TaskEnabled;
    if ByClient(a) { ClientCallbackRows(s, a); }
    else if ByDispatch(a) { DispatchCallbackRows(cfg, s, a); }
  }

  lemma CreateCallbacks(db: Db, cmd: Command, cost: int, g: GenerationId, e: EventId, now: int)
    ensures CreateAndCharge(db, cmd, cost, g, e, now).0.callbacks == db.callbacks
  {
  }

  lemma PayCallbacks(db: Db, x: string, u: UserId, amount: int)
    ensures ApplyCredit(db, x, u, amount).0.callbacks == db.callbacks
  {
  }

  lemma TaskCallbackRows(cfg: Config, s: Sys, a: Action)
    requires ByTask(a) && TaskEnabled(s, a)
    ensures a.Finishing? || a.Fail? || TaskStep(cfg, s, a).db.callbacks == s.db.callbacks
    ensures a.Finishing? || a.Fail? ==> a.e !in s.db.callbacks && MayAddCallback(s, TaskStep(cfg, s, a), a.e)
  {
    hide AfterError, DoClaim, DoSave, DoComplete, DoYield, DoYieldToFallback, DoFail, MayAddCallback;
    match a
    case Claim(w, t) => ClaimBooks(cfg, s, w, t);
    case Save(w, ackLost) => SaveBooks(cfg, s, w, ackLost);
    case Finishing(w, e, ackLost) => CompleteBooks(cfg, s, w, e, ackLost);
    case Yield(w) => YieldBooks(cfg, s, w);
    case YieldToFallback(w) => YieldBooks(cfg, s, w);
    case Fail(w, e) => FailRows(s, w, e);
    case _ =>
  }

  lemma FailRows(s: Sys, w: nat, e: EventId)
    requires w in s.workers && s.workers[w].phase.Failing?
    ensures MayAddCallback(s, DoFail(s, w, e), e)
  {
    var v := s.workers[w];
    RefundedRows(s.db, v.generation, v.phase.token, v.phase.code, e, s.now);
    hide FailAndRefund, Hist;
  }

  lemma PublishBooks(s: Sys, disp: nat, outcome: DispatchOutcome)
    requires disp in s.dispatchers && s.dispatchers[disp] != []
    ensures SameBooks(s.db, DoDispatch(s, disp, outcome).db)
  {
    hide Enqueued;
  }

  lemma RecoverBooks(db: Db, ids: seq<GenerationId>, now: int)
    ensures SameBooks(db, RecoverRows(db, ids, now))
  {
  }

  lemma DispatchBooks(cfg: Config, s: Sys, a: Action)
    requires ByDispatch(a) && DispatchEnabled(cfg, s, a)
    ensures SameBooks(s.db, DispatchStep(cfg, s, a).db)
  {
    hide IsBatch, DoDispatch, RecoverRows;
    if a.DispatchNext? {
      PublishBooks(s, a.disp, a.outcome);
    } else if a.Recover? {
      RecoverBooks(s.db, a.stale, s.now);
    }
  }

  lemma EnvironmentBooks(s: Sys, a: Action)
    requires ByEnvironment(a) && EnvironmentEnabled(s, a)
    ensures SameBooks(s.db, EnvironmentStep(s, a).db)
  {
    hide SameCallbackRows;
  }

  lemma BooksUntouched(cfg: Config, s: Sys, a: Action)
    requires Enabled(cfg, s, a) && !MovesMoney(a)
    ensures SameBooks(s.db, Step(cfg, s, a).db)
  {
    hide TaskStep, TaskEnabled, DispatchStep, DispatchEnabled, EnvironmentStep, EnvironmentEnabled;
    if ByTask(a) {
      TaskBooks(cfg, s, a);
    } else if ByDispatch(a) {
      DispatchBooks(cfg, s, a);
    } else if ByEnvironment(a) {
      EnvironmentBooks(s, a);
    }
  }

  lemma ChargesUntouched(cfg: Config, s: Sys, a: Action, us: set<UserId>)
    requires Inv(cfg, s) && Enabled(cfg, s, a) && !MovesMoney(a)
    ensures ChargesOf(Step(cfg, s, a).db.generations, us) == ChargesOf(s.db.generations, us)
  {
    hide Inv, Step, Enabled;
    BooksUntouched(cfg, s, a);
    var s' := Step(cfg, s, a);
    forall g | g in s.db.generations ensures Charge(s'.db.generations[g], us) == Charge(s.db.generations[g], us) {
      EveryRowMove(cfg, s, a, g);
      MoveKeepsCharge(cfg, s, a, g, s.db.generations[g], s'.db.generations[g], us);
    }
  }

  lemma MoveKeepsCharge(cfg: Config, s: Sys, a: Action, g: GenerationId, row: Generation, row': Generation, us: set<UserId>)
    requires RowMoves(cfg, s, a, g, row, row') && !a.Fail?
    ensures Charge(row', us) == Charge(row, us)
  {
  }

  lemma ClientConserves(s: Sys, a: Action, us: set<UserId>)
    requires ByClient(a) && ClientEnabled(s, a) && Conserved(s.db, us)
    ensures Conserved(ClientStep(s, a).db, us)
  {
    hide ApplyCredit, CreateAndCharge;
    match a
    case Register(u) => CashMoves(s.db.balances, u, 0, us);
    case Pay(x, u, amount) => CreditConserves(s.db, x, u, amount, us);
    case Create(cmd, cost, g, e) => CreateConserves(s.db, cmd, cost, g, e, s.now, us);
  }

  lemma ConservedStep(cfg: Config, s: Sys, a: Action, us: set<UserId>)
    requires Inv(cfg, s) && Enabled(cfg, s, a) && Conserved(s.db, us)
    ensures Conserved(Step(cfg, s, a).db, us)
  {
    hide Inv, ClientStep, ClientEnabled, TaskStep, TaskEnabled, DispatchStep, DispatchEnabled, EnvironmentStep, EnvironmentEnabled;
    if ByClient(a) {
      hide Conserved;
      ClientConserves(s, a, us);
    } else if a.Fail? {
      hide Conserved, Step, Enabled;
      FailConserves(cfg, s, a.w, a.e, us);
    } else {
      hide Step, Enabled;
      BooksUntouched(cfg, s, a);
      ChargesUntouched(cfg, s, a, us);
    }
  }

  lemma {:induction false} RunConserves(cfg: Config, s: Sys, acts: seq<Action>, us: set<UserId>)
    requires Inv(cfg, s) && Valid(cfg, s, acts) && Conserved(s.db, us)
    ensures Conserved(Run(cfg, s, acts).db, us)
    decreases |acts|
  {
    hide Inv, Enabled, Step, Conserved;
    if acts != [] {
      ConservedStep(cfg, s, acts[0], us);
      InvStep(cfg, s, acts[0]);
      RunConserves(cfg, Step(cfg, s, acts[0]), acts[1..], us);
    }
  }

  // ----- The theorems -------------------------------------------------------------------------------------

  /** Over every run from empty tables the books of any set of users balance, and no balance
      is ever negative. */
  lemma MoneyIsConserved(cfg: Config, s: Sys, us: set<UserId>)
    requires Reachable(cfg, s)
    ensures Conserved(s.db, us)
    ensures forall u :: u in s.db.balances ==> s.db.balances[u] >= 0
  {
    var acts :| Valid(cfg, Init, acts) && Run(cfg, Init, acts) == s;
    InitInv(cfg);
    assert Conserved(EmptyDb, us);
    RunConserves(cfg, Init, acts, us);
    ReachableInv(cfg, s);
    hide JobsInv, OutboxOk, CallbacksOk, Valid, Run, Conserved;
  }

  lemma {:induction false} OnlyOne(m: map<UserId, int>, u: UserId)
    requires u in m && forall v :: v in m && v != u ==> m[v] == 0
    ensures Total(m) == m[u]
  {
    TotalRemove(m, u);
    AllZero(m - {u});
  }

  lemma {:induction false} AllZero(m: map<UserId, int>)
    requires forall v :: v in m ==> m[v] == 0
    ensures Total(m) == 0
    decreases |m|
  {
    if m != map[] {
      var k :| k in m;
      TotalRemove(m, k);
      AllZero(m - {k});
    }
  }

  /** One account: its balance is what was paid in, minus what its unrefunded generations cost. */
  lemma AccountBalances(cfg: Config, s: Sys, u: UserId)
    requires Reachable(cfg, s) && u in s.db.balances
    ensures s.db.balances[u] == Total(CreditsOf(s.db.payments, {u})) - Total(ChargesOf(s.db.generations, {u}))
  {
    MoneyIsConserved(cfg, s, {u});
    OnlyOne(CashOf(s.db.balances, {u}), u);
    hide Reachable;
  }

  function CostsOf(gens: map<GenerationId, Generation>): map<GenerationId, int> {
    map g | g in gens :: gens[g].cost
  }

  function RefundsOf(gens: map<GenerationId, Generation>): map<GenerationId, int> {
    map g | g in gens :: if gens[g].refundedAt.Some? then gens[g].cost else 0
  }

  lemma TotalsWithout(gens: map<GenerationId, Generation>, us: set<UserId>, g: GenerationId)
    requires g in gens
    ensures Total(ChargesOf(gens, us)) == Charge(gens[g], us) + Total(ChargesOf(gens - {g}, us))
    ensures Total(CostsOf(gens)) == CostsOf(gens)[g] + Total(CostsOf(gens - {g}))
    ensures Total(RefundsOf(gens)) == RefundsOf(gens)[g] + Total(RefundsOf(gens - {g}))
  {
    hide Charge;
    TotalRemove(ChargesOf(gens, us), g);
    TotalRemove(CostsOf(gens), g);
    TotalRemove(RefundsOf(gens), g);
    assert ChargesOf(gens, us) - {g} == ChargesOf(gens - {g}, us);
    assert CostsOf(gens) - {g} == CostsOf(gens - {g});
    assert RefundsOf(gens) - {g} == RefundsOf(gens - {g});
  }

  lemma {:induction false} ChargedMinusRefunded(gens: map<GenerationId, Generation>, us: set<UserId>)
    requires forall g :: g in gens ==> gens[g].user in us
    ensures Total(ChargesOf(gens, us)) == Total(CostsOf(gens)) - Total(RefundsOf(gens))
    decreases |gens|
  {
    if gens != map[] {
      var g :| g in gens;
      ChargedMinusRefunded(gens - {g}, us);
      hide Total;
      TotalsWithout(gens, us, g);
    } else {
      assert ChargesOf(gens, us) == map[] && CostsOf(gens) == map[] && RefundsOf(gens) == map[];
    }
  }

  /** The totals published as metrics: charged minus refunded equals payments minus balances. */
  lemma MetricsBalance(cfg: Config, s: Sys)
    requires Reachable(cfg, s)
    ensures Total(CostsOf(s.db.generations)) - Total(RefundsOf(s.db.generations))
         == Total(CreditsOf(s.db.payments, s.db.balances.Keys)) - Total(s.db.balances)
  {
    var us := s.db.balances.Keys;
    MoneyIsConserved(cfg, s, us);
    ReachableInv(cfg, s);
    hide Reachable, JobsInv, OutboxOk, CallbacksOk;
    assert CashOf(s.db.balances, us) == s.db.balances;
    ChargedMinusRefunded(s.db.generations, us);
  }
}
