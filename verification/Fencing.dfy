/** Fencing tokens and leases over whole runs: finished generations never change, a token
    that stopped being current never becomes current again, a generation is settled once,
    claims exclude each other in time, and the provider request id has one origin. */
module Fencing {
  import opened Common
  import opened Tables
  import opened Transactions
  import opened JobSystem
  import opened JobInvariant
  import opened TableInvariant

  // ----- The only ways a generation row can change ---------------------------------------------

  /** The token under which the acting worker writes. */
  ghost predicate Acts(s: Sys, w: nat, g: GenerationId, row: Generation) {
    && w in s.workers && s.workers[w].generation == g
    && s.workers[w].phase.Held().Some? && Owns(row, s.workers[w].phase.Held().value)
  }

  ghost predicate RowMoves(cfg: Config, s: Sys, a: Action, g: GenerationId, row: Generation, row': Generation) {
    || row' == row
    || (a.Claim? && Claimable(row, s.now) && row' == ClaimedRow(row, a.t, s.now, cfg.leaseSeconds))
    || (a.Save? && Acts(s, a.w, g, row) && row.requestId.None? && s.workers[a.w].phase.Saving?
        && row' == SavedRow(row, s.workers[a.w].phase.provider, s.workers[a.w].phase.requestId, s.now))
    || (a.Yield? && Acts(s, a.w, g, row) && s.workers[a.w].phase.Requeueing?
        && row' == QueuedRow(row, s.workers[a.w].phase.code, s.now))
    || (a.YieldToFallback? && Acts(s, a.w, g, row) && row' == QueuedRow(row, "provider_failover", s.now))
    || (a.Finishing? && Acts(s, a.w, g, row) && s.workers[a.w].phase.Completing?
        && row' == CompletedRow(row, s.workers[a.w].phase.result, s.workers[a.w].phase.provider, s.now))
    || (a.Fail? && Acts(s, a.w, g, row) && s.workers[a.w].phase.Failing?
        && row' == FailedRow(row, s.workers[a.w].phase.code, s.now))
    || (a.DispatchNext? && row.status == Created && row' == Enqueued(row, s.now))
    || (a.Recover? && row.status == Processing && row.lease.Some? && row.lease.value < s.now && row' == RecoveredRow(row, s.now))
  }

  /** What the invariant says about one generation. */
  lemma JobFacts(cfg: Config, s: Sys, g: GenerationId)
    requires Inv(cfg, s) && g in s.db.generations
    ensures g in s.hist && JobOk(cfg, s.db.generations[g], s.hist[g], s.now)
  {
    hide TablesInv, JobOk, TaskOk, TokensIssued, DistinctTokens;
  }

  /** The columns of a reachable row move together: token and lease are set exactly while it is
      processing, the refund marker exactly when it has failed; one outbox row belongs to it,
      unpublished as long as the generation is `created`. */
  lemma CoupledRow(cfg: Config, s: Sys, g: GenerationId)
    requires Reachable(cfg, s) && g in s.db.generations
    ensures var row := s.db.generations[g];
            && (row.token.Some? <==> row.status == Processing) && (row.lease.Some? <==> row.status == Processing)
            && (row.refundedAt.Some? <==> row.status == Failed) && (row.completedAt.Some? <==> row.Terminal())
    ensures exists e :: OnlyOutboxRow(s.db, g, e)
  {
    hide Inv, Reachable, TablesInv;
    ReachableInv(cfg, s);
    JobFacts(cfg, s, g);
    TablesPart(cfg, s);
    OutboxRowExists(s.db, g);
  }

  /** `e` is the one outbox row of `g`. */
  ghost predicate OnlyOutboxRow(db: Db, g: GenerationId, e: EventId) {
    && e in db.outbox && db.outbox[e].generation == g
    && (forall f :: f in db.outbox && db.outbox[f].generation == g ==> f == e)
    && (g in db.generations && db.generations[g].status == Created ==> db.outbox[e].processedAt.None?)
  }

  lemma OutboxRowExists(db: Db, g: GenerationId)
    requires TablesInv(db) && g in db.generations
    ensures exists e :: OnlyOutboxRow(db, g, e)
  {
    hide CallbacksOk, UsersOk, KeysOk;
    assert HasOutbox(db.outbox, g);
    var e :| e in db.outbox && db.outbox[e].generation == g;
    assert OnlyOutboxRow(db, g, e);
  }

  lemma FailMoves(cfg: Config, s: Sys, a: Action, g: GenerationId)
    requires Enabled(cfg, s, a) && a.Fail? && g in s.db.generations
    requires g in s.hist && JobOk(cfg, s.db.generations[g], s.hist[g], s.now)
    ensures g in Step(cfg, s, a).db.generations
    ensures RowMoves(cfg, s, a, g, s.db.generations[g], Step(cfg, s, a).db.generations[g])
  {
    var v := s.workers[a.w];
    RefundGuardIsOwnership(cfg, s.db.generations[g], s.hist[g], s.now, v.phase.token);
    RefundedRows(s.db, v.generation, v.phase.token, v.phase.code, a.e, s.now);
    assert Step(cfg, s, a) == DoFail(s, a.w, a.e);
    hide JobOk, FailAndRefund, Refundable, Step, Enabled;
  }

  lemma RefundedRows(db: Db, g: GenerationId, t: Token, code: string, e: EventId, now: int)
    ensures var (after, reply) := FailAndRefund(db, g, t, code, e, now);
            && (reply == Wrote ==> g in db.generations && Refundable(db.generations[g], t))
            && (reply == Wrote ==> after.generations == db.generations[g := FailedRow(db.generations[g], code, now)])
            && (reply == Wrote ==> after.balances == Refund(db, db.generations[g].user, db.generations[g].cost).balances)
            && (reply == Wrote ==> after.payments == db.payments)
            && (after.callbacks == db.callbacks || after.callbacks == db.callbacks[e := NewCallback(g, now)])
            && (reply != Wrote ==> after == db)
  {
  }

  lemma ClaimedRowMoves(cfg: Config, s: Sys, w: nat, t: Token, g: GenerationId)
    requires w in s.workers && g in s.db.generations
    ensures var row, s' := s.db.generations[g], DoClaim(cfg, s, w, t);
            && g in s'.db.generations
            && (s'.db.generations[g] == row
                || (Claimable(row, s.now) && s'.db.generations[g] == ClaimedRow(row, t, s.now, cfg.leaseSeconds)))
  {
    hide AfterClaim, Claimable, ClaimedRow;
  }

  lemma ClaimMoves(cfg: Config, s: Sys, a: Action, g: GenerationId)
    requires Enabled(cfg, s, a) && a.Claim? && g in s.db.generations
    ensures g in Step(cfg, s, a).db.generations
    ensures RowMoves(cfg, s, a, g, s.db.generations[g], Step(cfg, s, a).db.generations[g])
  {
    assert Step(cfg, s, a) == DoClaim(cfg, s, a.w, a.t);
    hide Step, Enabled, DoClaim, Claimable, ClaimedRow;
    ClaimedRowMoves(cfg, s, a.w, a.t, g);
  }

  lemma SavedRowMoves(cfg: Config, s: Sys, w: nat, ackLost: bool, g: GenerationId)
    requires w in s.workers && s.workers[w].phase.Saving? && g in s.db.generations
    ensures var row, s' := s.db.generations[g], DoSave(cfg, s, w, ackLost);
            && g in s'.db.generations
            && (s'.db.generations[g] == row
                || (Acts(s, w, g, row) && row.requestId.None?
                    && s'.db.generations[g] == SavedRow(row, s.workers[w].phase.provider, s.workers[w].phase.requestId, s.now)))
  {
    hide AfterError;
  }

  lemma SaveMoves(cfg: Config, s: Sys, a: Action, g: GenerationId)
    requires Enabled(cfg, s, a) && a.Save? && g in s.db.generations
    ensures g in Step(cfg, s, a).db.generations
    ensures RowMoves(cfg, s, a, g, s.db.generations[g], Step(cfg, s, a).db.generations[g])
  {
    assert Step(cfg, s, a) == DoSave(cfg, s, a.w, a.ackLost);
    hide Step, Enabled, DoSave, Acts;
    SavedRowMoves(cfg, s, a.w, a.ackLost, g);
  }

  lemma CompletedRows(db: Db, g: GenerationId, t: Token, result: string, provider: string, e: EventId, now: int)
    ensures var (after, reply) := Complete(db, g, t, result, provider, e, now);
            && (reply == Wrote ==> Owner(db, g, t))
            && (reply == Wrote ==> after.generations == db.generations[g := CompletedRow(db.generations[g], result, provider, now)])
            && after.balances == db.balances && after.payments == db.payments
            && (after.callbacks == db.callbacks || after.callbacks == db.callbacks[e := NewCallback(g, now)])
            && (reply != Wrote ==> after == db)
  {
  }

  lemma CompleteMoves(cfg: Config, s: Sys, a: Action, g: GenerationId)
    requires Enabled(cfg, s, a) && a.Finishing? && g in s.db.generations
    ensures g in Step(cfg, s, a).db.generations
    ensures RowMoves(cfg, s, a, g, s.db.generations[g], Step(cfg, s, a).db.generations[g])
  {
    var v := s.workers[a.w];
    CompletedRows(s.db, v.generation, v.phase.token, v.phase.result, v.phase.provider, a.e, s.now);
    assert Step(cfg, s, a) == DoComplete(cfg, s, a.w, a.e, a.ackLost);
    hide AfterError, Complete, Step, Enabled;
  }

  lemma QueuedRowMoves(s: Sys, w: nat, code: string, g: GenerationId)
    requires w in s.workers && s.workers[w].phase.Held().Some? && g in s.db.generations
    ensures var row, v := s.db.generations[g], s.workers[w];
            var rows := Requeue(s.db, v.generation, v.phase.token, code, s.now).0.generations;
            && g in rows
            && (rows[g] == row || (Acts(s, w, g, row) && rows[g] == QueuedRow(row, code, s.now)))
  {
  }

  lemma YieldMoves(cfg: Config, s: Sys, a: Action, g: GenerationId)
    requires Enabled(cfg, s, a) && a.Yield? && g in s.db.generations
    ensures g in Step(cfg, s, a).db.generations
    ensures RowMoves(cfg, s, a, g, s.db.generations[g], Step(cfg, s, a).db.generations[g])
  {
    assert Step(cfg, s, a) == DoYield(s, a.w);
    hide Step, Enabled, Acts, Requeue;
    QueuedRowMoves(s, a.w, s.workers[a.w].phase.code, g);
  }

  lemma YieldToFallbackMoves(cfg: Config, s: Sys, a: Action, g: GenerationId)
    requires Enabled(cfg, s, a) && a.YieldToFallback? && g in s.db.generations
    ensures g in Step(cfg, s, a).db.generations
    ensures RowMoves(cfg, s, a, g, s.db.generations[g], Step(cfg, s, a).db.generations[g])
  {
    assert Step(cfg, s, a) == DoYieldToFallback(cfg, s, a.w);
    hide Step, Enabled, Acts, Requeue;
    QueuedRowMoves(s, a.w, "provider_failover", g);
  }

  lemma DispatchMoves(cfg: Config, s: Sys, a: Action, g: GenerationId)
    requires Enabled(cfg, s, a) && a.DispatchNext? && g in s.db.generations
    ensures g in Step(cfg, s, a).db.generations
    ensures RowMoves(cfg, s, a, g, s.db.generations[g], Step(cfg, s, a).db.generations[g])
  {
    assert Step(cfg, s, a) == DoDispatch(s, a.disp, a.outcome);
    hide Step, Enabled;
  }

  lemma CreateMoves(cfg: Config, s: Sys, a: Action, g: GenerationId)
    requires Enabled(cfg, s, a) && a.Create? && g in s.db.generations
    ensures g in Step(cfg, s, a).db.generations
    ensures RowMoves(cfg, s, a, g, s.db.generations[g], Step(cfg, s, a).db.generations[g])
  {
    assert g != a.g;
  }

  lemma RecoverMoves(cfg: Config, s: Sys, a: Action, g: GenerationId)
    requires Enabled(cfg, s, a) && a.Recover? && g in s.db.generations
    ensures g in Step(cfg, s, a).db.generations
    ensures RowMoves(cfg, s, a, g, s.db.generations[g], Step(cfg, s, a).db.generations[g])
  {
    if g in a.stale { assert g in StaleRows(s.db, s.now, cfg.queuedRecovery, a.locked); }
  }

  lemma OtherTasks(cfg: Config, s: Sys, a: Action)
    requires ByTask(a) && TaskEnabled(s, a)
    requires !(a.Claim? || a.Save? || a.Finishing? || a.Yield? || a.YieldToFallback? || a.Fail?)
    ensures TaskStep(cfg, s, a).db.generations == s.db.generations
  {
    hide DoClaim, DoSave, DoComplete, DoYield, DoYieldToFallback, DoFail, AfterError;
  }

  lemma OtherMoves(cfg: Config, s: Sys, a: Action, g: GenerationId)
    requires Enabled(cfg, s, a) && !(a.Claim? || a.Save? || a.Finishing? || a.Yield? || a.YieldToFallback? || a.Fail? || a.DispatchNext? || a.Create? || a.Recover?) && g in s.db.generations
    ensures g in Step(cfg, s, a).db.generations
    ensures RowMoves(cfg, s, a, g, s.db.generations[g], Step(cfg, s, a).db.generations[g])
  {
    hide TaskStep, TaskEnabled, DoDispatch, DoCreate, SameCallbackRows, IsBatch, RowMoves;
    if ByTask(a) { OtherTasks(cfg, s, a); }
    assert Step(cfg, s, a).db.generations == s.db.generations;
    SameMoves(cfg, s, a, g, s.db.generations[g]);
  }

  lemma SameMoves(cfg: Config, s: Sys, a: Action, g: GenerationId, row: Generation)
    ensures RowMoves(cfg, s, a, g, row, row)
  {
  }

  lemma EveryRowMove(cfg: Config, s: Sys, a: Action, g: GenerationId)
    requires Inv(cfg, s) && Enabled(cfg, s, a) && g in s.db.generations
    ensures g in Step(cfg, s, a).db.generations
    ensures RowMoves(cfg, s, a, g, s.db.generations[g], Step(cfg, s, a).db.generations[g])
  {
    hide *;
    JobFacts(cfg, s, g);
    match a
    case Fail(_, _) => FailMoves(cfg, s, a, g);
    case Claim(_, _) => ClaimMoves(cfg, s, a, g);
    case Save(_, _) => SaveMoves(cfg, s, a, g);
    case Finishing(_, _, _) => CompleteMoves(cfg, s, a, g);
    case Yield(_) => YieldMoves(cfg, s, a, g);
    case YieldToFallback(_) => YieldToFallbackMoves(cfg, s, a, g);
    case DispatchNext(_, _) => DispatchMoves(cfg, s, a, g);
    case Create(_, _, _, _) => CreateMoves(cfg, s, a, g);
    case Recover(_, _) => RecoverMoves(cfg, s, a, g);
    case _ => OtherMoves(cfg, s, a, g);
  }

  // ----- Terminal generations absorb -----------------------------------------------------------------

  lemma TerminalStep(cfg: Config, s: Sys, a: Action, g: GenerationId)
    requires Inv(cfg, s) && Enabled(cfg, s, a) && g in s.db.generations && s.db.generations[g].Terminal()
    ensures g in Step(cfg, s, a).db.generations && Step(cfg, s, a).db.generations[g] == s.db.generations[g]
  {
    hide Inv, Enabled, Step;
    EveryRowMove(cfg, s, a, g);
  }

  /** Once a generation is completed or failed, no continuation of the run changes its row. */
  lemma {:induction false} TerminalForever(cfg: Config, s: Sys, acts: seq<Action>, g: GenerationId)
    requires Inv(cfg, s) && Valid(cfg, s, acts) && g in s.db.generations && s.db.generations[g].Terminal()
    ensures g in Run(cfg, s, acts).db.generations
    ensures Run(cfg, s, acts).db.generations[g] == s.db.generations[g]
    decreases |acts|
  {
    hide Inv, Enabled, Step;
    if acts != [] {
      InvStep(cfg, s, acts[0]);
      TerminalStep(cfg, s, acts[0], g);
      TerminalForever(cfg, Step(cfg, s, acts[0]), acts[1..], g);
    }
  }

  // ----- Stale tokens ---------------------------------------------------------------------------------

  ghost predicate StaleToken(s: Sys, g: GenerationId, t: Token) {
    t in s.issued && g in s.db.generations && s.db.generations[g].token != Some(t)
  }

  lemma IssuedGrows(cfg: Config, s: Sys, a: Action)
    requires Enabled(cfg, s, a)
    ensures s.issued <= Step(cfg, s, a).issued
  {
    hide Inv, IsBatch, SameCallbackRows, StartProcessing, SaveProviderRequest, Complete, FailAndRefund, Requeue, AfterError, AfterClaim;
  }

  lemma StaleStep(cfg: Config, s: Sys, a: Action, g: GenerationId, t: Token)
    requires Inv(cfg, s) && Enabled(cfg, s, a) && StaleToken(s, g, t)
    ensures StaleToken(Step(cfg, s, a), g, t)
  {
    hide Inv, Enabled, Step;
    IssuedGrows(cfg, s, a);
    EveryRowMove(cfg, s, a, g);
    FreshClaim(cfg, s, a);
  }

  lemma FreshClaim(cfg: Config, s: Sys, a: Action)
    requires Enabled(cfg, s, a)
    ensures a.Claim? ==> a.t !in s.issued
  {
    hide IsBatch;
  }

  /** A token that is not current, although it was issued, never becomes current again. */
  lemma {:induction false} StaleForever(cfg: Config, s: Sys, acts: seq<Action>, g: GenerationId, t: Token)
    requires Inv(cfg, s) && Valid(cfg, s, acts) && StaleToken(s, g, t)
    ensures StaleToken(Run(cfg, s, acts), g, t)
    decreases |acts|
  {
    hide Inv, Enabled, Step, StaleToken;
    if acts != [] {
      InvStep(cfg, s, acts[0]);
      StaleStep(cfg, s, acts[0], g, t);
      StaleForever(cfg, Step(cfg, s, acts[0]), acts[1..], g, t);
    }
  }

  /** Every guarded write under a stale token changes no table at all, and says so. */
  lemma StaleWriteIsStutter(cfg: Config, s: Sys, g: GenerationId, t: Token, now: int,
                            provider: string, value: string, e: EventId)
    requires Inv(cfg, s) && StaleToken(s, g, t)
    ensures SaveProviderRequest(s.db, g, t, provider, value, now) == (s.db, false)
    ensures Requeue(s.db, g, t, value, now) == (s.db, false)
    ensures Complete(s.db, g, t, value, provider, e, now) == (s.db, Missed)
    ensures FailAndRefund(s.db, g, t, value, e, now) == (s.db, Missed)
  {
    hide Inv, Finish;
  }

  // ----- Leases exclude each other in time ------------------------------------------------------------

  /** For any two successive claims of a generation, either the earlier owner gave its claim
      back itself, or the later claim came strictly after the earlier lease had expired. */
  lemma SuccessiveClaims(cfg: Config, s: Sys, g: GenerationId, i: nat)
    requires Inv(cfg, s) && g in s.db.generations && g in s.hist && i + 1 < |s.hist[g].grants|
    ensures var c, d := s.hist[g].grants[i], s.hist[g].grants[i + 1];
            && c.at <= d.at && c.until == c.at + cfg.leaseSeconds
            && (c.token in s.hist[g].yielded || c.until < d.at)
  {
    hide Inv;
    JobFacts(cfg, s, g);
    var h := s.hist[g];
    assert GrantsOk(cfg, s.db.generations[g], h, s.now);
    assert Over(h, h.grants[(i + 1) - 1], h.grants[i + 1].at);
  }

  /** Recovery never touches a processing row whose lease has not expired. */
  lemma RecoverySparesLiveLeases(cfg: Config, s: Sys, locked: set<GenerationId>, ids: seq<GenerationId>, g: GenerationId)
    requires Enabled(cfg, s, Recover(locked, ids)) && g in s.db.generations
    requires s.db.generations[g].status == Processing && s.db.generations[g].lease.Some? && s.now <= s.db.generations[g].lease.value
    ensures g !in ids && Step(cfg, s, Recover(locked, ids)).db.generations[g] == s.db.generations[g]
  {
    assert g !in StaleRows(s.db, s.now, cfg.queuedRecovery, locked);
  }

  /** The holder of `t` does one of the four things that end its own claim. */
  ghost predicate EndsClaim(s: Sys, a: Action, t: Token) {
    && (a.Finishing? || a.Fail? || a.Yield? || a.YieldToFallback?)
    && a.w in s.workers && s.workers[a.w].phase.Held() == Some(t)
  }

  ghost predicate HolderKeepsClaim(cfg: Config, s: Sys, acts: seq<Action>, t: Token)
    requires Valid(cfg, s, acts)
    decreases |acts|
  {
    acts == [] || (!EndsClaim(s, acts[0], t) && HolderKeepsClaim(cfg, Step(cfg, s, acts[0]), acts[1..], t))
  }

  ghost predicate Holds(s: Sys, g: GenerationId, t: Token, until: int) {
    Owner(s.db, g, t) && s.db.generations[g].lease == Some(until)
  }

  lemma TasksTakeNoTime(cfg: Config, s: Sys, a: Action)
    requires ByTask(a) && TaskEnabled(s, a)
    ensures TaskStep(cfg, s, a).now == s.now
  {
    hide StartProcessing, SaveProviderRequest, Complete, FailAndRefund, Requeue, AfterError, AfterClaim, Hist;
  }

  lemma ClockAdvances(cfg: Config, s: Sys, a: Action)
    requires Enabled(cfg, s, a)
    ensures s.now <= Step(cfg, s, a).now
  {
    hide IsBatch, SameCallbackRows, TaskStep, TaskEnabled, CreateAndCharge, ApplyCredit, PublishEvent, RecoverRows;
    if ByTask(a) { TasksTakeNoTime(cfg, s, a); }
  }

  lemma {:induction false} RunAdvances(cfg: Config, s: Sys, acts: seq<Action>)
    requires Valid(cfg, s, acts)
    ensures s.now <= Run(cfg, s, acts).now
    decreases |acts|
  {
    hide Enabled, Step;
    if acts != [] {
      ClockAdvances(cfg, s, acts[0]);
      RunAdvances(cfg, Step(cfg, s, acts[0]), acts[1..]);
    }
  }

  lemma HoldStep(cfg: Config, s: Sys, a: Action, g: GenerationId, t: Token, until: int)
    requires Inv(cfg, s) && Enabled(cfg, s, a) && Holds(s, g, t, until) && s.now <= until && !EndsClaim(s, a, t)
    ensures Holds(Step(cfg, s, a), g, t, until)
  {
    hide Inv, Enabled, Step;
    EveryRowMove(cfg, s, a, g);
  }

  /** A live worker is never fenced: as long as the lease has not expired and the holder does
      not end its claim itself, its token stays current, whatever anybody else does. */
  lemma {:induction false} LiveClaimIsNeverFenced(cfg: Config, s: Sys, acts: seq<Action>, g: GenerationId, t: Token, until: int)
    requires Inv(cfg, s) && Valid(cfg, s, acts) && Holds(s, g, t, until)
    requires HolderKeepsClaim(cfg, s, acts, t) && Run(cfg, s, acts).now <= until
    ensures Holds(Run(cfg, s, acts), g, t, until)
    decreases |acts|
  {
    hide Inv, Enabled, Step, EndsClaim, Holds;
    if acts != [] {
      RunAdvances(cfg, s, acts);
      InvStep(cfg, s, acts[0]);
      HoldStep(cfg, s, acts[0], g, t, until);
      LiveClaimIsNeverFenced(cfg, Step(cfg, s, acts[0]), acts[1..], g, t, until);
    }
  }

  // ----- One settlement per generation --------------------------------------------------------------------

  /** At most one terminal write per generation ever succeeds; it succeeded exactly when the
      row is terminal, it was made under the last token ever issued for the generation, and
      the refund marker is set exactly when that write was the failure. */
  lemma SettledOnce(cfg: Config, s: Sys, g: GenerationId)
    requires Inv(cfg, s) && g in s.db.generations
    ensures var row, h := s.db.generations[g], s.hist[g];
            && |h.settled| == (if row.Terminal() then 1 else 0)
            && (row.Terminal() ==> h.grants != [] && h.settled[0].token == h.grants[|h.grants| - 1].token)
            && (row.refundedAt.Some? <==> row.Terminal() && !h.settled[0].completed)
  {
    hide Inv;
    JobFacts(cfg, s, g);
  }

  // ----- The provider request id ------------------------------------------------------------------------------

  lemma WriteOnceStep(cfg: Config, s: Sys, a: Action, g: GenerationId)
    requires Inv(cfg, s) && Enabled(cfg, s, a) && g in s.db.generations && s.db.generations[g].requestId.Some?
    ensures g in Step(cfg, s, a).db.generations
    ensures Step(cfg, s, a).db.generations[g].requestId == s.db.generations[g].requestId
  {
    hide Inv, Enabled, Step;
    EveryRowMove(cfg, s, a, g);
  }

  /** `provider_request_id` is written at most once. */
  lemma {:induction false} RequestIdWriteOnce(cfg: Config, s: Sys, acts: seq<Action>, g: GenerationId)
    requires Inv(cfg, s) && Valid(cfg, s, acts) && g in s.db.generations && s.db.generations[g].requestId.Some?
    ensures g in Run(cfg, s, acts).db.generations
    ensures Run(cfg, s, acts).db.generations[g].requestId == s.db.generations[g].requestId
    decreases |acts|
  {
    hide Inv, Enabled, Step;
    if acts != [] {
      InvStep(cfg, s, acts[0]);
      WriteOnceStep(cfg, s, acts[0], g);
      RequestIdWriteOnce(cfg, Step(cfg, s, acts[0]), acts[1..], g);
    }
  }

  /** Where request ids come from and where they go: every poll ever made used the stored id;
      the stored id was saved by one holder of a claim; no claim that found an id stored ever
      submitted; no claim submitted twice, so submissions never outnumber claims; a completed
      generation has an id. */
  lemma RequestIdProvenance(cfg: Config, s: Sys, g: GenerationId)
    requires Inv(cfg, s) && g in s.db.generations
    ensures var row, h := s.db.generations[g], s.hist[g];
            && (forall i :: 0 <= i < |h.polls| ==> row.requestId == Some(h.polls[i].requestId))
            && |h.saved| == (if row.requestId.Some? then 1 else 0)
            && (row.requestId.Some? ==> h.saved[0].requestId == row.requestId.value && Granted(h, h.saved[0].token))
            && (forall i :: 0 <= i < |h.grants| && h.grants[i].hadId ==> h.grants[i].token !in h.submits)
            && |h.submits| <= row.attempts
            && (row.status == Completed ==> row.requestId.Some?)
  {
    hide Inv;
    JobFacts(cfg, s, g);
    SubmitsBounded(cfg, s.db.generations[g], s.hist[g], s.now);
  }

  lemma SubmitsBounded(cfg: Config, row: Generation, h: History, now: int)
    requires GrantsOk(cfg, row, h, now) && SubmitsOk(h)
    ensures |h.submits| <= row.attempts
  {
    var tokens := seq(|h.grants|, i requires 0 <= i < |h.grants| => h.grants[i].token);
    var distinct := set x | x in tokens;
    forall t | t in h.submits ensures t in distinct {
      var i :| 0 <= i < |h.grants| && h.grants[i].token == t;
      assert tokens[i] == t;
    }
    NoDupCount(h.submits, distinct);
    ElementsCount(tokens, distinct);
  }

  lemma TaskFacts(cfg: Config, s: Sys, w: nat)
    requires Inv(cfg, s) && w in s.workers && s.workers[w].phase.Held().Some?
    ensures var v := s.workers[w];
            && v.generation in s.db.generations && v.generation in s.hist
            && WorkerOk(cfg, v.phase, s.db.generations[v.generation], s.hist[v.generation])
            && JobOk(cfg, s.db.generations[v.generation], s.hist[v.generation], s.now)
  {
    hide JobOk, WorkerOk, TablesInv, TokensIssued, DistinctTokens;
    assert TaskOk(cfg, s.workers[w], s.db.generations, s.hist);
  }

  /** A worker that polls, polls the id stored in its generation's row. */
  lemma PollsTheStoredId(cfg: Config, s: Sys, w: nat)
    requires Inv(cfg, s) && w in s.workers && s.workers[w].phase.Polling?
    ensures s.workers[w].generation in s.db.generations
    ensures s.db.generations[s.workers[w].generation].requestId == Some(s.workers[w].phase.requestId)
  {
    hide Inv, JobOk;
    TaskFacts(cfg, s, w);
  }

  // ----- Failover ----------------------------------------------------------------------------------------------

  /** The failover reads the stored request id and requeues in two separate steps, and only the
      requeue is fenced.  Still, whenever that requeue succeeds, no request id is stored at
      that very commit: the token being current shows that nobody else saved one in between. */
  lemma FailoverCommitPoint(cfg: Config, s: Sys, w: nat)
    requires Inv(cfg, s) && Enabled(cfg, s, YieldToFallback(w))
    ensures var g, t := s.workers[w].generation, s.workers[w].phase.token;
            Requeue(s.db, g, t, "provider_failover", s.now).1 ==>
              s.db.generations[g].requestId.None? && s.hist[g].saved == [] && s.hist[g].polls == []
  {
    hide Inv, GrantsOk, SubmitsOk;
    TaskFacts(cfg, s, w);
    var h := s.hist[s.workers[w].generation];
    assert h.polls != [] ==> s.db.generations[s.workers[w].generation].requestId == Some(h.polls[0].requestId);
  }

  /** A worker about to save the id it was given succeeds exactly when its token is current. */
  lemma OwnerSaveSucceeds(cfg: Config, s: Sys, w: nat)
    requires Inv(cfg, s) && w in s.workers && s.workers[w].phase.Saving?
    ensures var v := s.workers[w];
            var reply := SaveProviderRequest(s.db, v.generation, v.phase.token, v.phase.provider, v.phase.requestId, s.now).1;
            reply == Owner(s.db, v.generation, v.phase.token)
  {
    hide Inv, JobOk;
    TaskFacts(cfg, s, w);
  }
}
