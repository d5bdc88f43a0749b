/** What each database transaction of the service does, as a function from the
    tables before to the tables after and the answer given to the caller.  One
    transaction is one atomic step; a rolled-back transaction returns the tables
    it was given.  `t`, `g` and `e` stand for the `uuid4` values drawn by the code. */
module Transactions {
  import opened Common
  import opened Tables

  // ----- Users and payments (payment_repository.py) --------------------------------

  datatype CreditReply = Applied(balance: int) | Duplicate(balance: int)
                       | UserNotFound | PaymentConflict | AmountRejected

  function Register(db: Db, user: UserId): Db {
    if user in db.balances then db else db.(balances := db.balances[user := 0])
  }

  function ApplyCredit(db: Db, externalId: string, user: UserId, amount: int): (Db, CreditReply) {
    if user !in db.balances then (db, UserNotFound)
    else if amount <= 0 then (db, AmountRejected)  // CHECK amount_positive
    else if externalId in db.payments then
      if db.payments[externalId] == Payment(user, amount)
      then (db, Duplicate(db.balances[user]))
      else (db, PaymentConflict)
    else
      var balance := db.balances[user] + amount;
      (db.(payments := db.payments[externalId := Payment(user, amount)],
           balances := db.balances[user := balance]),
       Applied(balance))
  }

  // ----- Generation lifecycle (generation_repository.py) -----------------------------

  datatype CreateReply = Opened(id: GenerationId) | Replayed(id: GenerationId)
                       | IdempotencyConflict | InsufficientBalance | RowRejected

  /** The row holding an idempotency key, if there is one. */
  ghost predicate HoldsKey(db: Db, g: GenerationId, user: UserId, key: string) {
    g in db.generations && db.generations[g].user == user && db.generations[g].key == key
  }

  ghost predicate KeyUsed(db: Db, user: UserId, key: string) {
    exists g :: HoldsKey(db, g, user, key)
  }

  function NewGeneration(cmd: Command, cost: int, now: int): Generation {
    Generation(cmd.user, cmd.key, cmd.request, cost, Created, None, None, None, None,
               None, None, None, 0, None, None, now, now)
  }

  /** Insert under the unique key (user, idempotency key), charge conditionally, add the
      outbox row: all or nothing. */
  ghost function CreateAndCharge(db: Db, cmd: Command, cost: int, g: GenerationId, e: EventId, now: int): (Db, CreateReply)
  {
    if cost <= 0 then (db, RowRejected)  // CHECK cost_positive
    else if KeyUsed(db, cmd.user, cmd.key) then
      var prior :| HoldsKey(db, prior, cmd.user, cmd.key);
      if db.generations[prior].request == cmd.request then (db, Replayed(prior)) else (db, IdempotencyConflict)
    else if cmd.user !in db.balances then (db, RowRejected)  // foreign key on users
    else if db.balances[cmd.user] < cost then (db, InsufficientBalance)
    else
      (db.(generations := db.generations[g := NewGeneration(cmd, cost, now)],
           balances := db.balances[cmd.user := db.balances[cmd.user] - cost],
           outbox := db.outbox[e := OutboxEvent(g, 0, now, None)]),
       Opened(g))
  }

  predicate Claimable(row: Generation, now: int) {
    || row.status == Created
    || row.status == Queued
    || (row.status == Processing && row.lease.Some? && row.lease.value < now)
  }

  /** The fencing guard `status = 'processing' AND processing_token = t`. */
  predicate Owns(row: Generation, t: Token) {
    row.status == Processing && row.token == Some(t)
  }

  predicate Owner(db: Db, g: GenerationId, t: Token) {
    g in db.generations && Owns(db.generations[g], t)
  }

  function ClaimedRow(row: Generation, t: Token, now: int, leaseSeconds: int): Generation {
    row.(status := Processing, token := Some(t), startedAt := Some(now),
         lease := Some(now + leaseSeconds), attempts := row.attempts + 1, updatedAt := now)
  }

  function SavedRow(row: Generation, provider: string, requestId: string, now: int): Generation {
    row.(provider := Some(provider), requestId := Some(requestId), updatedAt := now)
  }

  function QueuedRow(row: Generation, code: string, now: int): Generation {
    row.(status := Queued, errorCode := Some(code), token := None, lease := None, updatedAt := now)
  }

  function CompletedRow(row: Generation, result: string, provider: string, now: int): Generation {
    row.(status := Completed, result := Some(result), provider := Some(provider),
         token := None, lease := None, completedAt := Some(now), updatedAt := now)
  }

  function FailedRow(row: Generation, code: string, now: int): Generation {
    row.(status := Failed, errorCode := Some(code), token := None, lease := None,
         refundedAt := Some(now), completedAt := Some(now), updatedAt := now)
  }

  function PutRow(db: Db, g: GenerationId, row: Generation): Db {
    db.(generations := db.generations[g := row])
  }

  function StartProcessing(db: Db, g: GenerationId, t: Token, now: int, leaseSeconds: int): (Db, Option<Generation>) {
    if g in db.generations && Claimable(db.generations[g], now) then
      var row := ClaimedRow(db.generations[g], t, now, leaseSeconds);
      (PutRow(db, g, row), Some(row))
    else (db, None)
  }

  function SaveProviderRequest(db: Db, g: GenerationId, t: Token, provider: string, requestId: string, now: int): (Db, bool) {
    if Owner(db, g, t) && db.generations[g].requestId.None?
    then (PutRow(db, g, SavedRow(db.generations[g], provider, requestId, now)), true)
    else (db, false)
  }

  function Requeue(db: Db, g: GenerationId, t: Token, code: string, now: int): (Db, bool) {
    if Owner(db, g, t)
    then (PutRow(db, g, QueuedRow(db.generations[g], code, now)), true)
    else (db, false)
  }

  /** A terminal write either happens, or its guard misses, or the insert of the callback
      row hits UNIQUE(generation_id) and the whole transaction is undone by the exception. */
  datatype FinishReply = Wrote | Missed | Raised

  predicate HasCallback(callbacks: map<EventId, CallbackEvent>, g: GenerationId) {
    exists e | e in callbacks :: callbacks[e].generation == g
  }

  function NewCallback(g: GenerationId, now: int): CallbackEvent {
    CallbackEvent(g, 0, now, None, None, None, None)
  }

  function AddCallback(db: Db, g: GenerationId, e: EventId, now: int): Db {
    db.(callbacks := db.callbacks[e := NewCallback(g, now)])
  }

  function Finish(db: Db, g: GenerationId, row: Generation, e: EventId, now: int): (Db, FinishReply) {
    if row.request.callbackUrl.None? then (PutRow(db, g, row), Wrote)
    else if HasCallback(db.callbacks, g) then (db, Raised)
    else (AddCallback(PutRow(db, g, row), g, e, now), Wrote)
  }

  function Complete(db: Db, g: GenerationId, t: Token, result: string, provider: string, e: EventId, now: int): (Db, FinishReply) {
    if Owner(db, g, t)
    then Finish(db, g, CompletedRow(db.generations[g], result, provider, now), e, now)
    else (db, Missed)
  }

  function Refund(db: Db, user: UserId, cost: int): Db {
    if user in db.balances then db.(balances := db.balances[user := db.balances[user] + cost]) else db
  }

  /** The refund guard also admits `queued` rows and asks for `refunded_at IS NULL`. */
  predicate Refundable(row: Generation, t: Token) {
    row.status in {Queued, Processing} && row.token == Some(t) && row.refundedAt.None?
  }

  function FailAndRefund(db: Db, g: GenerationId, t: Token, code: string, e: EventId, now: int): (Db, FinishReply) {
    if g in db.generations && Refundable(db.generations[g], t) then
      var row := db.generations[g];
      var (after, reply) := Finish(db, g, FailedRow(row, code, now), e, now);
      if reply == Wrote then (Refund(after, row.user, row.cost), Wrote) else (db, reply)
    else (db, Missed)
  }

  // ----- Outbox dispatch and recovery (tasks.py) -----------------------------------------

  /** The unpublished events, ranked by `created_at`. */
  function PendingEvents(db: Db): map<EventId, int> {
    map e | e in db.outbox && db.outbox[e].processedAt.None? :: db.outbox[e].createdAt
  }

  function Enqueued(row: Generation, now: int): Generation {
    if row.status == Created then row.(status := Queued, updatedAt := now) else row
  }

  /** The committed transaction of one published event. */
  function PublishEvent(db: Db, e: EventId, now: int): Db
    requires e in db.outbox
  {
    var event := db.outbox[e];
    var g := event.generation;
    db.(generations := if g in db.generations then db.generations[g := Enqueued(db.generations[g], now)] else db.generations,
        outbox := db.outbox[e := event.(processedAt := Some(now), attempts := event.attempts + 1)])
  }

  /** The separate transaction that records a failed publication. */
  function NoteDispatchFailure(db: Db, e: EventId): Db {
    if e in db.outbox
    then db.(outbox := db.outbox[e := db.outbox[e].(attempts := db.outbox[e].attempts + 1)])
    else db
  }

  predicate Stale(row: Generation, now: int, queuedRecovery: int) {
    || (row.status == Processing && row.lease.Some? && row.lease.value < now)
    || (row.status == Queued && row.updatedAt < now - queuedRecovery)
  }

  /** The rows recovery may take, ranked by `updated_at`; rows locked by another
      transaction are skipped. */
  function StaleRows(db: Db, now: int, queuedRecovery: int, locked: set<GenerationId>): map<GenerationId, int> {
    map g | g in db.generations && g !in locked && Stale(db.generations[g], now, queuedRecovery)
      :: db.generations[g].updatedAt
  }

  /** The UPDATE looks at status and lease again. */
  function RecoveredRow(row: Generation, now: int): Generation {
    if row.status == Processing && row.lease.Some? && row.lease.value < now
    then QueuedRow(row, "worker_lease_expired", now) else row
  }

  function RecoverRows(db: Db, ids: seq<GenerationId>, now: int): Db {
    db.(generations := map g | g in db.generations ::
            if g in ids then RecoveredRow(db.generations[g], now) else db.generations[g],
        outbox := map e | e in db.outbox ::
            if db.outbox[e].generation in ids then db.outbox[e].(processedAt := None) else db.outbox[e])
  }
}
