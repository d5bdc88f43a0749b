/** The constraints between tables: one outbox row per generation, one callback row for
    exactly the terminal generations that asked for one, unique idempotency keys, and
    balances that never go negative.  With `JobInvariant` they hold in every reachable state. */
module TableInvariant {
  import opened Common
  import opened Tables
  import opened Transactions
  import opened JobSystem
  import opened JobInvariant

  ghost predicate HasOutbox(outbox: map<EventId, OutboxEvent>, g: GenerationId) {
    exists e :: e in outbox && outbox[e].generation == g
  }

  ghost predicate OutboxOk(gens: map<GenerationId, Generation>, outbox: map<EventId, OutboxEvent>) {
    && (forall e :: e in outbox ==> outbox[e].generation in gens)
    && (forall e, f :: e in outbox && f in outbox && e != f ==> outbox[e].generation != outbox[f].generation)
    && (forall g :: g in gens ==> HasOutbox(outbox, g))
    && (forall e :: e in outbox && gens[outbox[e].generation].status == Created ==> outbox[e].processedAt.None?)
  }

  ghost predicate CallbacksOk(gens: map<GenerationId, Generation>, callbacks: map<EventId, CallbackEvent>) {
    && (forall e :: e in callbacks ==>
          callbacks[e].generation in gens && gens[callbacks[e].generation].WantsCallback())
    && (forall e, f :: e in callbacks && f in callbacks && e != f ==> callbacks[e].generation != callbacks[f].generation)
    && (forall g :: g in gens && gens[g].WantsCallback() ==> HasCallback(callbacks, g))
  }

  ghost predicate UsersOk(balances: map<UserId, int>, payments: map<string, Payment>, gens: map<GenerationId, Generation>) {
    && (forall u :: u in balances ==> balances[u] >= 0)
    && (forall g :: g in gens ==> gens[g].user in balances && gens[g].cost > 0)
    && (forall x :: x in payments ==> payments[x].user in balances && payments[x].amount > 0)
  }

  ghost predicate KeysOk(gens: map<GenerationId, Generation>) {
    forall g, h :: g in gens && h in gens && g != h ==> gens[g].user != gens[h].user || gens[g].key != gens[h].key
  }

  ghost predicate TablesInv(db: Db) {
    && OutboxOk(db.generations, db.outbox)
    && CallbacksOk(db.generations, db.callbacks)
    && UsersOk(db.balances, db.payments, db.generations)
    && KeysOk(db.generations)
  }

  ghost predicate Inv(cfg: Config, s: Sys) { JobsInv(cfg, s) && TablesInv(s.db) }

  // ----- Writes to generation rows ---------------------------------------------------------

  /** The columns no transition ever touches, and the one-way status `created`. */
  ghost predicate SameIdentity(row: Generation, row': Generation) {
    && row'.user == row.user && row'.key == row.key && row'.request == row.request && row'.cost == row.cost
    && (row'.status == Created ==> row.status == Created)
  }

  /** Rewriting rows without making any of them terminal. */
  lemma RowsKeep(db: Db, gens: map<GenerationId, Generation>)
    requires TablesInv(db) && gens.Keys == db.generations.Keys
    requires forall g :: g in gens ==> SameIdentity(db.generations[g], gens[g]) && gens[g].Terminal() == db.generations[g].Terminal()
    ensures TablesInv(db.(generations := gens))
  {
    hide HasOutbox, HasCallback;
  }

  lemma AddCallbackKeeps(gens: map<GenerationId, Generation>, callbacks: map<EventId, CallbackEvent>, g: GenerationId, row: Generation, e: EventId, now: int)
    requires CallbacksOk(gens, callbacks) && g in gens && e !in callbacks
    requires !gens[g].Terminal() && row.WantsCallback()
    ensures CallbacksOk(gens[g := row], callbacks[e := NewCallback(g, now)])
  {
    var after := callbacks[e := NewCallback(g, now)];
    assert after[e].generation == g;
    forall x | x in gens && x != g && gens[x].WantsCallback() ensures HasCallback(after, x) {
      assert HasCallback(callbacks, x);
      var f :| f in callbacks && callbacks[f].generation == x;
      assert after[f].generation == x;
    }
  }

  lemma RowKeepsOutbox(gens: map<GenerationId, Generation>, outbox: map<EventId, OutboxEvent>, g: GenerationId, row: Generation)
    requires OutboxOk(gens, outbox) && g in gens && SameIdentity(gens[g], row)
    ensures OutboxOk(gens[g := row], outbox)
  {
    hide HasOutbox;
  }

  lemma NoCallbackYet(gens: map<GenerationId, Generation>, callbacks: map<EventId, CallbackEvent>, g: GenerationId, row: Generation)
    requires CallbacksOk(gens, callbacks) && g in gens && !gens[g].Terminal()
    ensures !HasCallback(callbacks, g)
    ensures !row.WantsCallback() ==> CallbacksOk(gens[g := row], callbacks)
  {
    assert forall e :: e in callbacks ==> callbacks[e].generation != g;
  }

  /** A non-terminal generation can always be finished: the unique constraint on the callback
      outbox never aborts a terminal transition. */
  lemma FinishKeeps(db: Db, g: GenerationId, row: Generation, e: EventId, now: int)
    requires TablesInv(db) && g in db.generations && !db.generations[g].Terminal() && row.Terminal()
    requires SameIdentity(db.generations[g], row) && e !in db.callbacks
    ensures Finish(db, g, row, e, now).1 == Wrote && TablesInv(Finish(db, g, row, e, now).0)
  {
    hide CallbacksOk, OutboxOk, HasCallback;
    NoCallbackYet(db.generations, db.callbacks, g, row);
    RowKeepsOutbox(db.generations, db.outbox, g, row);
    if row.request.callbackUrl.Some? {
      AddCallbackKeeps(db.generations, db.callbacks, g, row, e, now);
    }
  }

  // ----- Creation ----------------------------------------------------------------------------------

  lemma CreateKeepsOutbox(gens: map<GenerationId, Generation>, outbox: map<EventId, OutboxEvent>, g: GenerationId, row: Generation, e: EventId, event: OutboxEvent)
    requires OutboxOk(gens, outbox) && g !in gens && e !in outbox
    requires event.generation == g && event.processedAt.None?
    ensures OutboxOk(gens[g := row], outbox[e := event])
  {
    var after := outbox[e := event];
    assert after[e].generation == g;
    forall x | x in gens ensures HasOutbox(after, x) {
      assert HasOutbox(outbox, x);
      var f :| f in outbox && outbox[f].generation == x;
      assert after[f].generation == x;
    }
  }

  lemma NewKeepsKeys(db: Db, cmd: Command, cost: int, g: GenerationId, now: int)
    requires KeysOk(db.generations) && g !in db.generations && !KeyUsed(db, cmd.user, cmd.key)
    ensures KeysOk(db.generations[g := NewGeneration(cmd, cost, now)])
  {
    forall x | x in db.generations ensures db.generations[x].user != cmd.user || db.generations[x].key != cmd.key {
      assert !HoldsKey(db, x, cmd.user, cmd.key);
    }
  }

  lemma ChargeKeepsUsers(balances: map<UserId, int>, payments: map<string, Payment>, gens: map<GenerationId, Generation>,
                         u: UserId, cost: int, g: GenerationId, row: Generation)
    requires UsersOk(balances, payments, gens) && u in balances && 0 < cost <= balances[u]
    requires row.user == u && row.cost == cost
    ensures UsersOk(balances[u := balances[u] - cost], payments, gens[g := row])
  {
  }

  lemma CreateKeepsTables(db: Db, cmd: Command, cost: int, g: GenerationId, e: EventId, now: int)
    requires TablesInv(db) && g !in db.generations && e !in db.outbox
    ensures TablesInv(CreateAndCharge(db, cmd, cost, g, e, now).0)
  {
    if CreateAndCharge(db, cmd, cost, g, e, now).1.Opened? {
      hide OutboxOk, CallbacksOk, KeysOk, UsersOk, KeyUsed;
      var row := NewGeneration(cmd, cost, now);
      CreateKeepsOutbox(db.generations, db.outbox, g, row, e, OutboxEvent(g, 0, now, None));
      NewKeepsCallbacks(db.generations, db.callbacks, g, row);
      NewKeepsKeys(db, cmd, cost, g, now);
      ChargeKeepsUsers(db.balances, db.payments, db.generations, cmd.user, cost, g, row);
    }
  }

  lemma NewKeepsCallbacks(gens: map<GenerationId, Generation>, callbacks: map<EventId, CallbackEvent>, g: GenerationId, row: Generation)
    requires CallbacksOk(gens, callbacks) && g !in gens && !row.Terminal()
    ensures CallbacksOk(gens[g := row], callbacks)
  {
    hide HasCallback;
  }

  // ----- Dispatch, recovery, couriers ---------------------------------------------------------------

  lemma OutboxKeeps(gens: map<GenerationId, Generation>, outbox: map<EventId, OutboxEvent>, after: map<EventId, OutboxEvent>)
    requires OutboxOk(gens, outbox) && after.Keys == outbox.Keys
    requires forall e :: e in outbox ==> after[e].generation == outbox[e].generation
    requires forall e :: e in outbox && gens[outbox[e].generation].status == Created ==> after[e].processedAt.None?
    ensures OutboxOk(gens, after)
  {
    forall x | x in gens ensures HasOutbox(after, x) {
      assert HasOutbox(outbox, x);
      var f :| f in outbox && outbox[f].generation == x;
      assert after[f].generation == x;
    }
  }

  lemma CourierKeeps(db: Db, rows: map<EventId, CallbackEvent>)
    requires TablesInv(db) && SameCallbackRows(db.callbacks, rows)
    ensures TablesInv(db.(callbacks := rows))
  {
    forall x | x in db.generations && db.generations[x].WantsCallback() ensures HasCallback(rows, x) {
      var f :| f in db.callbacks && db.callbacks[f].generation == x;
      assert rows[f].generation == x;
    }
  }

  lemma ProcessedKeeps(gens: map<GenerationId, Generation>, outbox: map<EventId, OutboxEvent>, e: EventId, event: OutboxEvent)
    requires OutboxOk(gens, outbox) && e in outbox && event.generation == outbox[e].generation
    requires gens[event.generation].status == Created ==> event.processedAt.None?
    ensures OutboxOk(gens, outbox[e := event])
  {
    hide HasOutbox;
    OutboxKeeps(gens, outbox, outbox[e := event]);
  }

  lemma PublishKeeps(db: Db, e: EventId, now: int)
    requires TablesInv(db) && e in db.outbox
    ensures TablesInv(PublishEvent(db, e, now))
  {
    hide OutboxOk, CallbacksOk, UsersOk, KeysOk, Enqueued;
    var event := db.outbox[e];
    var g := event.generation;
    EventHasRow(db.generations, db.outbox, e);
    EnqueuedIdentity(db.generations[g], now);
    var row := Enqueued(db.generations[g], now);
    WriteKeeps(db, g, row);
    ProcessedKeeps(db.generations[g := row], db.outbox, e, event.(processedAt := Some(now), attempts := event.attempts + 1));
  }

  lemma EventHasRow(gens: map<GenerationId, Generation>, outbox: map<EventId, OutboxEvent>, e: EventId)
    requires OutboxOk(gens, outbox) && e in outbox
    ensures outbox[e].generation in gens
  {
  }

  lemma EnqueuedIdentity(row: Generation, now: int)
    ensures var row' := Enqueued(row, now);
            SameIdentity(row, row') && row'.Terminal() == row.Terminal() && row'.status != Created
  {
  }

  /** What recovery is for: every row taken waits in the queue, without a claim if it was an
      expired one, and its event is pending again; nothing else has changed. */
  ghost predicate Reopened(db: Db, ids: seq<GenerationId>, now: int, db': Db) {
    && db' == db.(generations := db'.generations, outbox := db'.outbox)
    && db'.generations.Keys == db.generations.Keys && db'.outbox.Keys == db.outbox.Keys
    && (forall g :: g in ids ==> g in db'.generations && db'.generations[g].status == Queued)
    && (forall g :: g in ids && db.generations[g].status == Processing ==>
          db'.generations[g].token.None? && db'.generations[g].lease.None? && db'.generations[g].updatedAt == now)
    && (forall g :: g in db.generations && (g !in ids || db.generations[g].status == Queued) ==> db'.generations[g] == db.generations[g])
    && (forall e :: e in db.outbox ==>
          db'.outbox[e] == if db.outbox[e].generation in ids then db.outbox[e].(processedAt := None) else db.outbox[e])
  }

  lemma RecoverReopens(db: Db, ids: seq<GenerationId>, limit: nat, now: int, queuedRecovery: int, locked: set<GenerationId>)
    requires IsBatch(StaleRows(db, now, queuedRecovery, locked), limit, ids)
    ensures Reopened(db, ids, now, RecoverRows(db, ids, now))
  {
    assert forall g :: g in ids ==> g in StaleRows(db, now, queuedRecovery, locked);
    hide IsBatch;
    var db' := RecoverRows(db, ids, now);
    assert db'.generations.Keys == db.generations.Keys && db'.outbox.Keys == db.outbox.Keys;
  }

  lemma RecoverKeepsTables(db: Db, ids: seq<GenerationId>, now: int)
    requires TablesInv(db)
    ensures TablesInv(RecoverRows(db, ids, now))
  {
    var db' := RecoverRows(db, ids, now);
    RecoveredRowsSame(db, ids, now);
    RowsKeep(db, db'.generations);
    OutboxKeeps(db'.generations, db.outbox, db'.outbox);
    hide OutboxOk, CallbacksOk;
  }

  lemma RecoveredRowsSame(db: Db, ids: seq<GenerationId>, now: int)
    ensures forall g :: g in db.generations ==>
      && SameIdentity(db.generations[g], RecoverRows(db, ids, now).generations[g])
      && RecoverRows(db, ids, now).generations[g].Terminal() == db.generations[g].Terminal()
  {
  }

  // ----- Every step --------------------------------------------------------------------------------------

  lemma WriteKeeps(db: Db, g: GenerationId, row: Generation)
    requires TablesInv(db) && g in db.generations
    requires SameIdentity(db.generations[g], row) && row.Terminal() == db.generations[g].Terminal()
    ensures TablesInv(PutRow(db, g, row))
  {
    RowsKeep(db, db.generations[g := row]);
  }

  lemma TaskKeepsTables(cfg: Config, s: Sys, a: Action)
    requires TablesInv(s.db) && ByTask(a) && TaskEnabled(s, a)
    ensures TablesInv(TaskStep(cfg, s, a).db)
  {
    hide TablesInv, DoClaim, DoSave, DoComplete, DoFail, Requeue, AfterError;
    match a
    case Claim(w, t) => ClaimTables(cfg, s, w, t);
    case Save(w, ackLost) => SaveTables(cfg, s, w, ackLost);
    case Finishing(w, e, ackLost) => CompleteTables(cfg, s, w, e, ackLost);
    case YieldToFallback(w) => RequeueTables(s.db, s.workers[w].generation, s.workers[w].phase.token, "provider_failover", s.now);
    case Yield(w) => RequeueTables(s.db, s.workers[w].generation, s.workers[w].phase.token, s.workers[w].phase.code, s.now);
    case Fail(w, e) => FailTables(cfg, s, w, e);
    case _ =>
  }

  lemma RequeueTables(db: Db, g: GenerationId, t: Token, code: string, now: int)
    requires TablesInv(db)
    ensures TablesInv(Requeue(db, g, t, code, now).0)
  {
    if Owner(db, g, t) { WriteKeeps(db, g, QueuedRow(db.generations[g], code, now)); }
  }

  lemma ClaimTables(cfg: Config, s: Sys, w: nat, t: Token)
    requires TablesInv(s.db) && Enabled(cfg, s, Claim(w, t))
    ensures TablesInv(DoClaim(cfg, s, w, t).db)
  {
    hide TablesInv;
    var g := s.workers[w].generation;
    if g in s.db.generations && Claimable(s.db.generations[g], s.now) {
      WriteKeeps(s.db, g, ClaimedRow(s.db.generations[g], t, s.now, cfg.leaseSeconds));
    }
  }

  lemma SaveTables(cfg: Config, s: Sys, w: nat, ackLost: bool)
    requires TablesInv(s.db) && Enabled(cfg, s, Save(w, ackLost))
    ensures TablesInv(DoSave(cfg, s, w, ackLost).db)
  {
    hide TablesInv;
    var g, p := s.workers[w].generation, s.workers[w].phase;
    if Owner(s.db, g, p.token) && s.db.generations[g].requestId.None? {
      WriteKeeps(s.db, g, SavedRow(s.db.generations[g], p.provider, p.requestId, s.now));
    }
  }

  lemma CompleteTables(cfg: Config, s: Sys, w: nat, e: EventId, ackLost: bool)
    requires TablesInv(s.db) && Enabled(cfg, s, Finishing(w, e, ackLost))
    ensures TablesInv(DoComplete(cfg, s, w, e, ackLost).db)
  {
    hide TablesInv;
    var g, p := s.workers[w].generation, s.workers[w].phase;
    if Owner(s.db, g, p.token) {
      FinishKeeps(s.db, g, CompletedRow(s.db.generations[g], p.result, p.provider, s.now), e, s.now);
    }
  }

  lemma FailTables(cfg: Config, s: Sys, w: nat, e: EventId)
    requires TablesInv(s.db) && Enabled(cfg, s, Fail(w, e))
    ensures TablesInv(DoFail(s, w, e).db)
  {
    hide TablesInv;
    var g, p := s.workers[w].generation, s.workers[w].phase;
    if g in s.db.generations && Refundable(s.db.generations[g], p.token) {
      var row := s.db.generations[g];
      FinishKeeps(s.db, g, FailedRow(row, p.code, s.now), e, s.now);
      RefundKeeps(Finish(s.db, g, FailedRow(row, p.code, s.now), e, s.now).0, g);
    }
  }

  lemma RefundKeeps(db: Db, g: GenerationId)
    requires TablesInv(db) && g in db.generations
    ensures TablesInv(Refund(db, db.generations[g].user, db.generations[g].cost))
  {
    hide OutboxOk, CallbacksOk;
  }

  lemma CreditKeeps(db: Db, x: string, u: UserId, amount: int)
    requires TablesInv(db)
    ensures TablesInv(ApplyCredit(db, x, u, amount).0)
  {
    hide OutboxOk, CallbacksOk, KeysOk;
  }

  lemma RegisterKeeps(db: Db, u: UserId)
    requires TablesInv(db)
    ensures TablesInv(Transactions.Register(db, u))
  {
    hide OutboxOk, CallbacksOk, KeysOk;
  }

  lemma ClientKeepsTables(s: Sys, a: Action)
    requires TablesInv(s.db) && ByClient(a) && ClientEnabled(s, a)
    ensures TablesInv(ClientStep(s, a).db)
  {
    hide TablesInv, CreateAndCharge, ApplyCredit;
    match a
    case Register(u) => RegisterKeeps(s.db, u);
    case Pay(x, u, amount) => CreditKeeps(s.db, x, u, amount);
    case Create(cmd, cost, g, e) => CreateKeepsTables(s.db, cmd, cost, g, e, s.now);
  }

  lemma DispatchKeepsTables(cfg: Config, s: Sys, a: Action)
    requires TablesInv(s.db) && ByDispatch(a) && DispatchEnabled(cfg, s, a)
    ensures TablesInv(DispatchStep(cfg, s, a).db)
  {
    hide TablesInv, IsBatch, DoDispatch, RecoverRows;
    if a.DispatchNext? { DispatchTables(s, a.disp, a.outcome); }
    else if a.Recover? { RecoverKeepsTables(s.db, a.stale, s.now); }
  }

  lemma TablesStep(cfg: Config, s: Sys, a: Action)
    requires TablesInv(s.db) && Enabled(cfg, s, a)
    ensures TablesInv(Step(cfg, s, a).db)
  {
    hide TablesInv, ClientStep, ClientEnabled, DispatchStep, DispatchEnabled, TaskStep, TaskEnabled;
    if ByClient(a) { ClientKeepsTables(s, a); }
    else if ByDispatch(a) { DispatchKeepsTables(cfg, s, a); }
    else if ByTask(a) { TaskKeepsTables(cfg, s, a); }
    else if a.Courier? { CourierKeeps(s.db, a.rows); }
  }

  lemma DispatchTables(s: Sys, disp: nat, outcome: DispatchOutcome)
    requires TablesInv(s.db) && disp in s.dispatchers && s.dispatchers[disp] != []
    ensures TablesInv(DoDispatch(s, disp, outcome).db)
  {
    hide TablesInv;
    var e := s.dispatchers[disp][0];
    if e in s.db.outbox && s.db.outbox[e].processedAt.None? {
      PublishKeeps(s.db, e, s.now);
      NoteKeeps(s.db, e);
    }
  }

  lemma NoteKeeps(db: Db, e: EventId)
    requires TablesInv(db)
    ensures TablesInv(NoteDispatchFailure(db, e))
  {
    if e in db.outbox {
      var event := db.outbox[e];
      assert event.generation in db.generations && (db.generations[event.generation].status == Created ==> event.processedAt.None?);
      hide OutboxOk, CallbacksOk, UsersOk, KeysOk;
      ProcessedKeeps(db.generations, db.outbox, e, event.(attempts := event.attempts + 1));
    }
  }

  // ----- Whole runs -----------------------------------------------------------------------------------------

  lemma InitInv(cfg: Config)
    ensures Inv(cfg, Init)
  {
  }

  lemma InvStep(cfg: Config, s: Sys, a: Action)
    requires Inv(cfg, s) && Enabled(cfg, s, a)
    ensures Inv(cfg, Step(cfg, s, a))
  {
    hide JobsInv, TablesInv;
    JobsStep(cfg, s, a);
    TablesStep(cfg, s, a);
  }

  lemma TablesPart(cfg: Config, s: Sys)
    requires Inv(cfg, s)
    ensures TablesInv(s.db)
  {
    hide JobsInv, TablesInv;
  }

  lemma {:induction false} RunKeeps(cfg: Config, s: Sys, acts: seq<Action>)
    requires Inv(cfg, s) && Valid(cfg, s, acts)
    ensures Inv(cfg, Run(cfg, s, acts))
    decreases |acts|
  {
    hide Inv;
    if acts != [] {
      InvStep(cfg, s, acts[0]);
      RunKeeps(cfg, Step(cfg, s, acts[0]), acts[1..]);
    }
  }

  /** Every reachable state satisfies the invariant. */
  lemma ReachableInv(cfg: Config, s: Sys)
    requires Reachable(cfg, s)
    ensures Inv(cfg, s)
  {
    var acts :| Valid(cfg, Init, acts) && Run(cfg, Init, acts) == s;
    InitInv(cfg);
    RunKeeps(cfg, Init, acts);
  }
}
