/** The repositories as they are written: an object whose methods update the tables in place,
    one transaction each.  Every method is proved against the transaction of the same name
    and keeps the table constraints. */
module Store {
  import opened Common
  import opened Tables
  import T = Transactions
  import opened TableInvariant
  import opened Dispatch
  import opened RetryChain
  import C = CallbackDelivery
  import J = JobSystem

  class Database {
    var balances: map<UserId, int>
    var payments: map<string, Payment>
    var generations: map<GenerationId, Generation>
    var outbox: map<EventId, OutboxEvent>
    var callbacks: map<EventId, CallbackEvent>

    ghost function View(): Db
      reads this
    {
      Db(balances, payments, generations, outbox, callbacks)
    }

    /** The table constraints, and the refund marker set on failed rows only. */
    ghost predicate Valid()
      reads this
    {
      TablesInv(View()) && RefundMarks(generations)
    }

    constructor ()
      ensures Valid() && View() == EmptyDb
    {
      balances, payments, generations, outbox, callbacks := map[], map[], map[], map[], map[];
    }

    // ----- payment_repository.py ----------------------------------------------------------

    method Register(user: UserId)
      requires Valid()
      modifies this`balances
      ensures Valid() && View() == T.Register(old(View()), user)
    {
      RegisterKeeps(View(), user);
      hide TablesInv;
      if user !in balances {
        balances := balances[user := 0];
      }
    }

    method ApplyCredit(externalId: string, user: UserId, amount: int) returns (reply: T.CreditReply)
      requires Valid()
      modifies this`payments, this`balances
      ensures Valid() && (View(), reply) == T.ApplyCredit(old(View()), externalId, user, amount)
    {
      CreditKeeps(View(), externalId, user, amount);
      hide TablesInv;
      if user !in balances { return T.UserNotFound; }
      if amount <= 0 { return T.AmountRejected; }
      if externalId in payments {
        if payments[externalId].user != user || payments[externalId].amount != amount { return T.PaymentConflict; }
        return T.CreditReply.Duplicate(balances[user]);
      }
      payments := payments[externalId := Payment(user, amount)];
      balances := balances[user := balances[user] + amount];
      return T.Applied(balances[user]);
    }

    // ----- generation_repository.py -----------------------------------------------------------

    /** The row with an idempotency key, by scanning the table. */
    method FindByKey(user: UserId, key: string) returns (found: Option<GenerationId>)
      ensures found.Some? ==> T.HoldsKey(View(), found.value, user, key)
      ensures found.None? ==> !T.KeyUsed(View(), user, key)
    {
      var rest := generations.Keys;
      while rest != {}
        invariant rest <= generations.Keys
        invariant forall g :: g in generations && g !in rest ==> !T.HoldsKey(View(), g, user, key)
        decreases rest
      {
        var g :| g in rest;
        if generations[g].user == user && generations[g].key == key { return Some(g); }
        rest := rest - {g};
      }
      return None;
    }

    method CreateAndCharge(cmd: Command, cost: int, g: GenerationId, e: EventId, now: int) returns (reply: T.CreateReply)
      requires Valid() && g !in generations && e !in outbox
      modifies this`generations, this`balances, this`outbox
      ensures Valid() && (View(), reply) == T.CreateAndCharge(old(View()), cmd, cost, g, e, now)
    {
      hide TablesInv;
      CreateKeepsTables(View(), cmd, cost, g, e, now);
      if cost <= 0 { return T.RowRejected; }
      var prior := FindByKey(cmd.user, cmd.key);
      if prior.Some? {
        KeyReply(View(), cmd, cost, g, e, now, prior.value);
        if generations[prior.value].request != cmd.request { return T.IdempotencyConflict; }
        return T.Replayed(prior.value);
      }
      if cmd.user !in balances { return T.RowRejected; }
      if balances[cmd.user] < cost { return T.InsufficientBalance; }
      generations := generations[g := T.NewGeneration(cmd, cost, now)];
      balances := balances[cmd.user := balances[cmd.user] - cost];
      outbox := outbox[e := OutboxEvent(g, 0, now, None)];
      return T.Opened(g);
    }

    method StartProcessing(g: GenerationId, t: Token, now: int, leaseSeconds: int) returns (claimed: Option<Generation>)
      requires Valid()
      modifies this`generations
      ensures Valid() && (View(), claimed) == T.StartProcessing(old(View()), g, t, now, leaseSeconds)
    {
      hide TablesInv;
      if g !in generations || !T.Claimable(generations[g], now) { return None; }
      var row := generations[g];
      row := row.(status := Processing, token := Some(t), startedAt := Some(now));
      row := row.(lease := Some(now + leaseSeconds), attempts := row.attempts + 1, updatedAt := now);
      WriteKeeps(View(), g, row);
      generations := generations[g := row];
      return Some(row);
    }

    method SaveProviderRequest(g: GenerationId, t: Token, provider: string, requestId: string, now: int) returns (saved: bool)
      requires Valid()
      modifies this`generations
      ensures Valid() && (View(), saved) == T.SaveProviderRequest(old(View()), g, t, provider, requestId, now)
    {
      hide TablesInv;
      if g !in generations { return false; }
      var row := generations[g];
      if row.status != Processing || row.token != Some(t) || row.requestId.Some? { return false; }
      row := row.(provider := Some(provider), requestId := Some(requestId), updatedAt := now);
      WriteKeeps(View(), g, row);
      generations := generations[g := row];
      return true;
    }

    method Requeue(g: GenerationId, t: Token, code: string, now: int) returns (queued: bool)
      requires Valid()
      modifies this`generations
      ensures Valid() && (View(), queued) == T.Requeue(old(View()), g, t, code, now)
    {
      hide TablesInv;
      if g !in generations || generations[g].status != Processing || generations[g].token != Some(t) { return false; }
      var row := generations[g].(status := Queued, errorCode := Some(code), token := None, lease := None, updatedAt := now);
      WriteKeeps(View(), g, row);
      generations := generations[g := row];
      return true;
    }

    /** The terminal write never runs into the unique constraint of the callback outbox. */
    method Complete(g: GenerationId, t: Token, result: string, provider: string, e: EventId, now: int) returns (ok: bool)
      requires Valid() && e !in callbacks
      modifies this`generations, this`callbacks
      ensures Valid() && View() == T.Complete(old(View()), g, t, result, provider, e, now).0
      ensures T.Complete(old(View()), g, t, result, provider, e, now).1 == if ok then T.Wrote else T.Missed
      ensures ok <==> T.Owner(old(View()), g, t)
    {
      hide TablesInv, T.HasCallback;
      if g !in generations || generations[g].status != Processing || generations[g].token != Some(t) { return false; }
      var row := T.CompletedRow(generations[g], result, provider, now);
      FinishKeeps(View(), g, row, e, now);
      generations := generations[g := row];
      if row.request.callbackUrl.Some? {
        callbacks := callbacks[e := T.NewCallback(g, now)];
      }
      return true;
    }

    method FailAndRefund(g: GenerationId, t: Token, code: string, e: EventId, now: int) returns (ok: bool)
      requires Valid() && e !in callbacks
      modifies this`generations, this`callbacks, this`balances
      ensures Valid() && View() == T.FailAndRefund(old(View()), g, t, code, e, now).0
      ensures T.FailAndRefund(old(View()), g, t, code, e, now).1 == if ok then T.Wrote else T.Missed
      ensures ok <==> g in old(generations) && T.Refundable(old(generations)[g], t)
    {
      hide TablesInv, T.HasCallback;
      if g !in generations || !T.Refundable(generations[g], t) { return false; }
      var row := T.FailedRow(generations[g], code, now);
      FinishKeeps(View(), g, row, e, now);
      generations := generations[g := row];
      if row.request.callbackUrl.Some? {
        callbacks := callbacks[e := T.NewCallback(g, now)];
      }
      RefundKeeps(View(), g);
      if row.user in balances {
        balances := balances[row.user := balances[row.user] + row.cost];
      }
      return true;
    }

    // ----- tasks.py: outbox dispatch and recovery ------------------------------------------------

    /** One batch: select the oldest pending events, then handle each in its own transaction.
        `fate` is how each transaction goes; `sent` are the messages the broker accepted. */
    method DispatchOutboxBatch(limit: nat, fate: EventId -> J.LiveOutcome, now: int)
      returns (dispatched: nat, sent: seq<GenerationId>, ghost ids: seq<EventId>)
      requires Valid()
      modifies this`outbox, this`generations
      ensures Valid() && IsBatch(T.PendingEvents(old(View())), limit, ids)
      ensures (View(), sent) == DispatchEvents(old(View()), ids, fate, now)
      ensures BatchEffect(old(View()), ids, fate, now, View(), sent)
      ensures dispatched == |sent|
    {
      hide TablesInv, BatchEffect, IsBatch, DispatchEvents;
      ghost var before := View();
      NoDispatch(before, fate, now);
      var batch := TakeOldest(T.PendingEvents(Db(balances, payments, generations, outbox, callbacks)), limit);
      ids := batch;
      dispatched, sent := 0, [];
      for i := 0 to |batch|
        invariant (View(), sent) == DispatchEvents(before, batch[..i], fate, now) && dispatched == |sent|
        invariant RefundMarks(generations)
      {
        var e := batch[i];
        assert batch[..i + 1] == batch[..i] + [e];
        DispatchMore(before, batch[..i], e, fate, now);
        if e in outbox && outbox[e].processedAt.None? && fate(e) != J.SkippedLocked {
          var event := outbox[e];
          if J.Sends(fate(e)) {
            sent := sent + [event.generation];
            dispatched := dispatched + 1;
          }
          if fate(e) == J.Published {
            MarkQueued(event.generation, now);
            outbox := outbox[e := event.(processedAt := Some(now), attempts := event.attempts + 1)];
          } else {
            outbox := outbox[e := event.(attempts := event.attempts + 1)];
          }
        }
      }
      assert batch[..|batch|] == batch;
      SelectedBatch(before, ids, limit, fate, now);
    }

    /** `UPDATE generations SET status = 'queued' WHERE id = g AND status = 'created'`. */
    method MarkQueued(g: GenerationId, now: int)
      modifies this`generations
      ensures generations == if g in old(generations)
                             then old(generations)[g := T.Enqueued(old(generations)[g], now)] else old(generations)
    {
      if g in generations && generations[g].status == Created {
        generations := generations[g := generations[g].(status := Queued, updatedAt := now)];
      }
    }

    /** Expired claims go back to the queue and the outbox events of everything stale are
        opened again, in one transaction over the rows not locked by others. */
    method RecoverStale(limit: nat, queuedRecovery: int, locked: set<GenerationId>, now: int)
      returns (recovered: nat, ghost ids: seq<GenerationId>)
      requires Valid()
      modifies this`outbox, this`generations
      ensures Valid() && IsBatch(T.StaleRows(old(View()), now, queuedRecovery, locked), limit, ids)
      ensures View() == T.RecoverRows(old(View()), ids, now) && recovered == |ids|
      ensures Reopened(old(View()), ids, now, View())
    {
      hide TablesInv, IsBatch, Reopened;
      var db := Db(balances, payments, generations, outbox, callbacks);
      var stale := TakeOldest(T.StaleRows(db, now, queuedRecovery, locked), limit);
      ids := stale;
      RecoverKeepsTables(View(), stale, now);
      RecoverReopens(View(), stale, limit, now, queuedRecovery, locked);
      if stale == [] {
        assert View() == T.RecoverRows(View(), [], now);
        recovered := 0;
        return;
      }
      ghost var before := View();
      RequeueExpired(stale, now);
      ReopenEvents(stale, now);
      assert outbox == T.RecoverRows(before, stale, now).outbox;
      recovered := |stale|;
    }

    /** The claims among the selected rows whose leases have run out lose their tokens. */
    method RequeueExpired(stale: seq<GenerationId>, now: int)
      modifies this`generations
      ensures generations == T.RecoverRows(old(View()), stale, now).generations
    {
      var expired := set g | g in stale && g in generations && generations[g].status == Processing
                             && generations[g].lease.Some? && generations[g].lease.value < now;
      generations := map g | g in generations ::
        if g in expired then T.QueuedRow(generations[g], "worker_lease_expired", now) else generations[g];
    }

    method ReopenEvents(stale: seq<GenerationId>, ghost now: int)
      modifies this`outbox
      ensures outbox == T.RecoverRows(old(View()), stale, now).outbox
    {
      outbox := map e | e in outbox ::
        if outbox[e].generation in stale then outbox[e].(processedAt := None) else outbox[e];
    }

    // ----- tasks.py: callback outbox ------------------------------------------------------------------

    /** One batch of the callback dispatcher.  The clock is read once, at its start. */
    method DispatchCallbackBatch(limit: nat, fate: EventId -> C.LiveSending, now: int)
      returns (dispatched: nat, sent: seq<EventId>, ghost ids: seq<EventId>)
      requires Valid()
      modifies this`callbacks
      ensures Valid() && IsBatch(C.DueRows(old(callbacks), now), limit, ids)
      ensures (callbacks, sent) == C.ReserveEvents(old(callbacks), ids, fate, now)
      ensures C.ReserveEffect(old(callbacks), ids, fate, now, callbacks, sent)
      ensures dispatched == |sent|
    {
      hide TablesInv, C.Due, C.ReserveEvents, C.ReserveEffect;
      ghost var before := View();
      NoReservations(callbacks, fate, now);
      var batch := TakeOldest(C.DueRows(callbacks, now), limit);
      ids := batch;
      C.BatchReserves(callbacks, ids, fate, now);
      hide IsBatch;
      dispatched, sent := 0, [];
      for i := 0 to |batch|
        invariant (callbacks, sent) == C.ReserveEvents(before.callbacks, batch[..i], fate, now) && dispatched == |sent|
        invariant J.SameCallbackRows(before.callbacks, callbacks)
      {
        var e := batch[i];
        assert batch[..i + 1] == batch[..i] + [e];
        ReserveMore(before.callbacks, batch[..i], e, fate, now);
        if e in callbacks && C.Due(callbacks[e], now) && C.Passed(callbacks[e].reservedUntil, now) && fate(e) != C.Locked {
          if C.Accepts(fate(e)) {
            sent := sent + [e];
            dispatched := dispatched + 1;
          }
          callbacks := callbacks[e := callbacks[e].(reservedUntil := if fate(e) == C.Sent then Some(now + C.RESERVATION) else None)];
        }
      }
      assert batch[..|batch|] == batch;
      CourierKeeps(before, callbacks);
    }

    method ClaimCallbackDelivery(e: EventId, t: Token, now: int, leaseSeconds: int) returns (claimed: Option<GenerationId>)
      requires Valid()
      modifies this`callbacks
      ensures Valid() && (callbacks, claimed) == C.ClaimDelivery(old(callbacks), e, t, now, leaseSeconds)
    {
      hide TablesInv;
      if e !in callbacks || !C.Due(callbacks[e], now) { return None; }
      ghost var before := View();
      var row := callbacks[e];
      row := row.(attempts := row.attempts + 1, claimToken := Some(t));
      row := row.(inFlightUntil := Some(now + leaseSeconds), reservedUntil := None);
      callbacks := callbacks[e := row];
      CourierKeeps(before, callbacks);
      return Some(row.generation);
    }

    method FinishCallbackDelivery(e: EventId, t: Token, delivered: bool, now: int) returns (updated: bool)
      requires Valid()
      modifies this`callbacks
      ensures Valid() && (callbacks, updated) == C.FinishDelivery(old(callbacks), e, t, delivered, now)
    {
      hide TablesInv;
      if e !in callbacks || callbacks[e].claimToken != Some(t) { return false; }
      ghost var before := View();
      var row := callbacks[e].(claimToken := None, inFlightUntil := None, reservedUntil := None);
      if delivered {
        row := row.(deliveredAt := Some(now));
      } else {
        row := row.(nextAttemptAt := now + C.RETRY_DELAY);
      }
      callbacks := callbacks[e := row];
      CourierKeeps(before, callbacks);
      return true;
    }

    // ----- tasks.py: processing one generation -----------------------------------------------------------

    /** Fetch the result under the stored id and complete.  A claim lost meanwhile completes
        nothing, and only an error of the provider is raised. */
    method PollAndComplete(g: GenerationId, t: Token, name: string, poll: J.Reply, e: EventId, now: int) returns (once: Once)
      requires Valid() && e !in callbacks
      modifies this`generations, this`callbacks
      ensures Valid() && once == (if poll.Error? then Broken(poll.kind) else Finished)
      ensures poll.Answer? && T.Owner(old(View()), g, t) ==>
                View() == JobDone(old(View()), g, T.CompletedRow(old(generations)[g], poll.value, name, now), e, now)
      ensures poll.Error? || !T.Owner(old(View()), g, t) ==> View() == old(View())
    {
      hide TablesInv, T.HasCallback;
      match poll {
        case Error(kind) => once := Broken(kind);
        case Answer(result) =>
          if T.Owner(View(), g, t) { CompletesAs(View(), g, t, result, name, e, now); }
          var ok := Complete(g, t, result, name, e, now);
          once := Finished;
      }
    }

    /** Submit and save the id.  `None` means go on; an error of the provider is raised, and a
        claim lost meanwhile ends the attempt with nothing stored. */
    method SubmitAndSave(g: GenerationId, t: Token, name: string, submit: J.Reply, now: int) returns (stop: Option<Once>)
      requires Valid()
      modifies this`generations
      ensures Valid()
      ensures submit.Error? ==> stop == Some(Broken(submit.kind)) && View() == old(View())
      ensures submit.Answer? ==>
                var free := T.Owner(old(View()), g, t) && old(generations)[g].requestId.None?;
                && stop == (if free then None else Some(Finished))
                && View() == if free then T.PutRow(old(View()), g, T.SavedRow(old(generations)[g], name, submit.value, now))
                             else old(View())
    {
      hide TablesInv;
      if submit.Error? { return Some(Broken(submit.kind)); }
      var saved := SaveProviderRequest(g, t, name, submit.value, now);
      stop := if saved then None else Some(Finished);
    }

    /** `None` when the claim is refused; otherwise how the claim ended.  `answered` counts the
        submissions that returned an id. */
    method ProcessGenerationOnce(cfg: J.Config, g: GenerationId, t: Token, explicit: Option<string>,
                                 a: Attempt, e: EventId, now: int)
      returns (once: Option<Once>, answered: nat)
      requires Valid() && e !in callbacks
      modifies this`generations, this`callbacks
      ensures Valid()
      ensures !(g in old(generations) && T.Claimable(old(generations)[g], now)) ==>
                once.None? && answered == 0 && View() == old(View())
      ensures g in old(generations) && T.Claimable(old(generations)[g], now) ==>
                var (row, ending, n) := AfterOnce(cfg, old(generations)[g], t, explicit, a, now);
                once == Some(ending) && answered == n && View() == JobDone(old(View()), g, row, e, now)
    {
      hide TablesInv, T.HasCallback, T.Claimable, JobDone;
      ghost var before := View();
      answered := 0;
      var claimed := StartProcessing(g, t, now, cfg.leaseSeconds);
      if claimed.None? { return None, 0; }
      var row := claimed.value;
      ghost var done := AfterOnce(cfg, before.generations[g], t, explicit, a, now).0;
      NotDoneYet(before, g, row, e, now);
      DoneAfterPut(before, g, row, done, e, now);
      var name := NameFor(cfg, row, explicit);
      assert name == NameFor(cfg, before.generations[g], explicit);
      if explicit.None? && name !in cfg.constructible { return Some(Broken(J.Unexpected)), 0; }
      if row.requestId.None? {
        var stop := SubmitAndSave(g, t, name, a.submit, now);
        if stop.Some? { return stop, 0; }
        answered := 1;
        NotDoneYet(before, g, generations[g], e, now);
        DoneAfterPut(T.PutRow(before, g, row), g, generations[g], done, e, now);
        DoneAfterPut(before, g, row, generations[g], e, now);
      }
      var ending := PollAndComplete(g, t, name, a.poll, e, now);
      once := Some(ending);
    }

    /** Fail and refund under the token of a claim; nothing happens if the claim was lost. */
    method FailClaim(g: GenerationId, t: Token, code: string, e: EventId, now: int)
      requires Valid() && e !in callbacks
      modifies this`generations, this`callbacks, this`balances
      ensures Valid()
      ensures T.Owner(old(View()), g, t) ==> View() == JobDone(old(View()), g, T.FailedRow(old(generations)[g], code, now), e, now)
      ensures !(g in old(generations) && T.Refundable(old(generations)[g], t)) ==> View() == old(View())
    {
      hide TablesInv, T.HasCallback, T.Finish;
      if T.Owner(View(), g, t) { FailsAs(View(), g, t, code, e, now); }
      var ok := FailAndRefund(g, t, code, e, now);
    }

    /** Switch to the fallback provider: give the claim back, claim again, and fail the job if
        the fallback fails too.  `None` when there is nothing to switch to, an id is stored or
        the claim was lost.  An unconstructible fallback raises out of here. */
    method FailOver(cfg: J.Config, g: GenerationId, d: Delivery, e: EventId) returns (verdict: Option<Verdict>, answered: nat)
      requires Valid() && e !in callbacks
      modifies this`generations, this`callbacks, this`balances
      ensures Valid()
      ensures !MayFailOver(cfg, old(View()), g, d.first) ==> verdict.None? && answered == 0 && View() == old(View())
      ensures MayFailOver(cfg, old(View()), g, d.first) ==>
                var (row, v, n) := AfterFailover(cfg, old(generations)[g], d);
                verdict == Some(v) && answered == n && View() == JobDone(old(View()), g, row, e, d.now)
    {
      hide TablesInv, AfterOnce, JobDone;
      ghost var before := View();
      if !J.FailoverConfigured(cfg) { return None, 0; }
      if g in generations && generations[g].requestId.Some? { return None, 0; }
      var queued := Requeue(g, d.first, "provider_failover", d.now);
      if !queued { return None, 0; }
      ghost var row := generations[g];
      NotDoneYet(before, g, row, e, d.now);
      if cfg.fallback !in cfg.constructible { return Some(Propagated), 0; }
      var once;
      once, answered := ProcessGenerationOnce(cfg, g, d.second, Some(cfg.fallback), d.spare, e, d.now);
      AfterOnceFacts(cfg, row, d.second, Some(cfg.fallback), d.spare, d.now);
      ghost var last := AfterOnce(cfg, row, d.second, Some(cfg.fallback), d.spare, d.now).0;
      DoneAfterPut(before, g, row, last, e, d.now);
      verdict := Some(Ended);
      if once.value.Broken? {
        NotDoneYet(before, g, last, e, d.now);
        DoneAfterPut(before, g, last, T.FailedRow(last, "fallback_provider_error", d.now), e, d.now);
        FailClaim(g, d.second, "fallback_provider_error", e, d.now);
      }
    }

    /** One message: `process_generation` with its handlers.  A message for a generation that
        cannot be claimed is a no-op, without a verdict. */
    method ProcessGeneration(cfg: J.Config, g: GenerationId, retries: nat, d: Delivery, e: EventId)
      returns (verdict: Option<Verdict>, answered: nat)
      requires Valid() && e !in callbacks
      modifies this`generations, this`callbacks, this`balances
      ensures Valid()
      ensures !(g in old(generations) && T.Claimable(old(generations)[g], d.now)) ==>
                verdict.None? && answered == 0 && View() == old(View())
      ensures g in old(generations) && T.Claimable(old(generations)[g], d.now) ==>
                var (row, v, n) := AfterMessage(cfg, old(generations)[g], retries, d);
                verdict == Some(v) && answered == n && View() == JobDone(old(View()), g, row, e, d.now)
    {
      hide TablesInv, AfterOnce, AfterFailover, T.Claimable, JobDone;
      ghost var before := View();
      var once;
      once, answered := ProcessGenerationOnce(cfg, g, d.first, None, d.main, e, d.now);
      if once.None? { return None, 0; }
      AfterOnceFacts(cfg, before.generations[g], d.first, None, d.main, d.now);
      verdict := Some(Ended);
      if once.value.Finished? { return; }
      ghost var row := AfterOnce(cfg, before.generations[g], d.first, None, d.main, d.now).0;
      ghost var done := AfterMessage(cfg, before.generations[g], retries, d).0;
      NotDoneYet(before, g, row, e, d.now);
      DoneAfterPut(before, g, row, done, e, d.now);
      var kind := once.value.kind;
      if kind.Temporary? && retries >= J.MAX_RETRIES {
        var switched, more := FailOver(cfg, g, d, e);
        if switched.Some? { return switched, answered + more; }
      }
      if kind.Permanent? || retries >= J.MAX_RETRIES {
        FailClaim(g, d.first, CodeOf(kind), e, d.now);
      } else {
        var queued := Requeue(g, d.first, CodeOf(kind), d.now);
        verdict := Some(RetryLater);
        NotDoneYet(before, g, done, e, d.now);
      }
    }

    /** The message and the retries it publishes, delivered one after the other with nobody
        interfering: the generation ends as the chain says. */
    method RunRetryChain(cfg: J.Config, g: GenerationId, plan: nat -> Delivery, e: EventId)
      returns (verdict: Option<Verdict>, answered: nat)
      requires Valid() && e !in callbacks
      modifies this`generations, this`callbacks, this`balances
      ensures Valid()
      ensures !(g in old(generations) && T.Claimable(old(generations)[g], plan(0).now)) ==>
                verdict.None? && answered == 0 && View() == old(View())
      ensures g in old(generations) && T.Claimable(old(generations)[g], plan(0).now) ==>
                var (row, v, n) := AfterChain(cfg, old(generations)[g], 0, plan);
                verdict == Some(v) && answered == n && View() == JobDone(old(View()), g, row, e, EndOf(plan, row.completedAt))
    {
      hide TablesInv, AfterMessage, AfterChain, T.Claimable, ChainSoFar, JobDone;
      ghost var before := View();
      var r := 0;
      verdict, answered := ProcessGeneration(cfg, g, 0, plan(0), e);
      if verdict.None? { return; }
      FirstMessage(cfg, before, g, plan, e);
      while verdict == Some(RetryLater)
        invariant Valid() && r <= J.MAX_RETRIES && verdict.Some? && g in before.generations
        invariant before == old(View()) && T.Claimable(before.generations[g], plan(0).now)
        invariant ChainSoFar(cfg, before, View(), g, plan, r, verdict.value, answered, e)
        decreases J.MAX_RETRIES - r
      {
        NextMessage(cfg, before, View(), g, plan, r, answered, e);
        var next, more := ProcessGeneration(cfg, g, r + 1, plan(r + 1), e);
        verdict, answered, r := next, answered + more, r + 1;
      }
      ChainOver(cfg, before, View(), g, plan, r, verdict.value, answered, e);
    }

  }

  lemma NoDispatch(db: Db, fate: EventId -> J.LiveOutcome, now: int)
    ensures DispatchEvents(db, [], fate, now) == (db, [])
  {
  }

  lemma NoReservations(rows: map<EventId, CallbackEvent>, fate: EventId -> C.LiveSending, now: int)
    ensures C.ReserveEvents(rows, [], fate, now) == (rows, [])
  {
  }

  lemma ReserveMore(rows: map<EventId, CallbackEvent>, ids: seq<EventId>, e: EventId, fate: EventId -> C.LiveSending, now: int)
    ensures var (before, sent) := C.ReserveEvents(rows, ids, fate, now);
            C.ReserveEvents(rows, ids + [e], fate, now) ==
            if e in before && C.Due(before[e], now) && C.Passed(before[e].reservedUntil, now) && fate(e) != C.Locked
            then (before[e := if fate(e) == C.Sent then C.Reserved(before[e], now) else C.Unreserved(before[e])],
                  if C.Accepts(fate(e)) then sent + [e] else sent)
            else (before, sent)
  {
    hide C.Due, C.Passed;
    assert (ids + [e])[..|ids|] == ids;
  }

  /** The key is unique, so the row found is the row the transaction finds. */
  lemma KeyReply(db: Db, cmd: Command, cost: int, g: GenerationId, e: EventId, now: int, prior: GenerationId)
    requires TablesInv(db) && cost > 0 && T.HoldsKey(db, prior, cmd.user, cmd.key)
    ensures T.CreateAndCharge(db, cmd, cost, g, e, now) ==
            (db, if db.generations[prior].request == cmd.request then T.Replayed(prior) else T.IdempotencyConflict)
  {
    assert KeysOk(db.generations);
    assert forall x :: T.HoldsKey(db, x, cmd.user, cmd.key) ==> x == prior;
    assert T.KeyUsed(db, cmd.user, cmd.key);
  }

  ghost predicate RefundMarks(gens: map<GenerationId, Generation>) {
    forall g :: g in gens && gens[g].refundedAt.Some? ==> gens[g].status == Failed
  }

  /** The conditions under which the failover takes over the claim `t`. */
  predicate MayFailOver(cfg: J.Config, db: Db, g: GenerationId, t: Token) {
    cfg.fallback != "" && cfg.fallback != cfg.primary && T.Owner(db, g, t) && db.generations[g].requestId.None?
  }

  lemma FailsAs(db: Db, g: GenerationId, t: Token, code: string, e: EventId, now: int)
    requires TablesInv(db) && T.Owner(db, g, t) && db.generations[g].refundedAt.None? && e !in db.callbacks
    ensures var (after, reply) := T.FailAndRefund(db, g, t, code, e, now);
            var row := T.FailedRow(db.generations[g], code, now);
            && reply == T.Wrote && after.generations == db.generations[g := row]
            && after.balances == T.Refund(db, row.user, row.cost).balances && after.payments == db.payments && after.outbox == db.outbox
            && after.callbacks == if row.WantsCallback() then db.callbacks[e := T.NewCallback(g, now)] else db.callbacks
  {
    hide TablesInv, T.HasCallback;
    FinishKeeps(db, g, T.FailedRow(db.generations[g], code, now), e, now);
  }

  /** A broken claim is still held; a finished one completed the row. */
  lemma AfterOnceFacts(cfg: J.Config, row: Generation, t: Token, explicit: Option<string>, a: Attempt, now: int)
    ensures var (row', ending, n) := AfterOnce(cfg, row, t, explicit, a, now);
            && row'.refundedAt == row.refundedAt && row'.request == row.request
            && (ending.Broken? ==> T.Owns(row', t))
            && (ending.Finished? ==> row'.status == Completed)
  {
  }

  lemma CompletesAs(db: Db, g: GenerationId, t: Token, result: string, name: string, e: EventId, now: int)
    requires TablesInv(db) && T.Owner(db, g, t) && e !in db.callbacks
    ensures var (after, reply) := T.Complete(db, g, t, result, name, e, now);
            var row := T.CompletedRow(db.generations[g], result, name, now);
            && reply == T.Wrote && after.generations == db.generations[g := row]
            && after.balances == db.balances && after.payments == db.payments && after.outbox == db.outbox
            && after.callbacks == if row.WantsCallback() then db.callbacks[e := T.NewCallback(g, now)] else db.callbacks
  {
    hide TablesInv, T.HasCallback;
    FinishKeeps(db, g, T.CompletedRow(db.generations[g], result, name, now), e, now);
  }
}
