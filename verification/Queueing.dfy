/** Who is taken first, and when: the periodic tasks serve the oldest rows first, and recovery
    leaves a row alone until its claim or its place in the queue has lasted too long. */
module Queueing {
  import opened Common
  import opened Tables
  import opened Transactions
  import opened JobSystem
  import opened JobInvariant
  import opened TableInvariant
  import opened Fencing

  // ----- Stamps --------------------------------------------------------------------------------------

  /** Every change of a row is stamped with its time, and no change touches the time of creation. */
  lemma ChangesAreStamped(cfg: Config, s: Sys, a: Action, g: GenerationId)
    requires Inv(cfg, s) && Enabled(cfg, s, a) && g in s.db.generations
    ensures var row, s' := s.db.generations[g], Step(cfg, s, a);
            && g in s'.db.generations && s'.db.generations[g].createdAt == row.createdAt
            && (s'.db.generations[g] != row ==> s'.db.generations[g].updatedAt == s.now)
  {
    hide Inv, Enabled, Step, Claimable;
    EveryRowMove(cfg, s, a, g);
  }

  // ----- Recovery waits --------------------------------------------------------------------------------

  /** The step `a` was the last to change `g` before the state `s'`. */
  ghost predicate LastChange(cfg: Config, s: Sys, a: Action, g: GenerationId, s': Sys) {
    && Enabled(cfg, s, a) && g in s.db.generations && g in Step(cfg, s, a).db.generations && g in s'.db.generations
    && Step(cfg, s, a).db.generations[g] != s.db.generations[g]
    && s'.db.generations[g] == Step(cfg, s, a).db.generations[g]
  }

  /** Recovery takes a queued row only when it has been left alone for longer than the setting, and a
      claimed one only when its lease has run out; and then it may take it, unless it is locked. */
  lemma RecoveryWaits(cfg: Config, s: Sys, a: Action, acts: seq<Action>, g: GenerationId, locked: set<GenerationId>)
    requires Reachable(cfg, s) && Enabled(cfg, s, a) && Valid(cfg, Step(cfg, s, a), acts)
    requires LastChange(cfg, s, a, g, Run(cfg, Step(cfg, s, a), acts))
    ensures var s' := Run(cfg, Step(cfg, s, a), acts);
            var row := s'.db.generations[g];
            g in StaleRows(s'.db, s'.now, cfg.queuedRecovery, locked) <==>
              && g !in locked
              && ((row.status == Queued && s'.now > s.now + cfg.queuedRecovery)
                  || (row.status == Processing && row.lease.Some? && s'.now > row.lease.value))
  {
    hide Reachable, Inv, Enabled, Step, Valid, Run;
    ReachableInv(cfg, s);
    ChangesAreStamped(cfg, s, a, g);
  }

  // ----- Oldest first -----------------------------------------------------------------------------------------

  /** The event of a generation is as old as the generation. */
  ghost predicate SameAge(db: Db) {
    forall e :: e in db.outbox ==>
      db.outbox[e].generation in db.generations && db.outbox[e].createdAt == db.generations[db.outbox[e].generation].createdAt
  }

  /** Neither age nor generation of an event ever change. */
  ghost predicate EventsStay(db: Db, db': Db) {
    && db'.outbox.Keys == db.outbox.Keys
    && forall e :: e in db.outbox ==> db'.outbox[e].generation == db.outbox[e].generation && db'.outbox[e].createdAt == db.outbox[e].createdAt
  }

  lemma DispatcherEvents(s: Sys, disp: nat, outcome: DispatchOutcome)
    requires disp in s.dispatchers && s.dispatchers[disp] != []
    ensures EventsStay(s.db, DoDispatch(s, disp, outcome).db)
  {
    hide Enqueued;
  }

  lemma OutsideEvents(cfg: Config, s: Sys, a: Action)
    requires Enabled(cfg, s, a) && !ByTask(a) && !a.Create?
    ensures EventsStay(s.db, Step(cfg, s, a).db)
  {
    hide TaskStep, TaskEnabled, IsBatch, SameCallbackRows, DoDispatch, PendingEvents, StaleRows, RecoveredRow;
    if a.DispatchNext? { DispatcherEvents(s, a.disp, a.outcome); }
  }

  lemma ClaimEvents(cfg: Config, s: Sys, w: nat, t: Token)
    requires w in s.workers
    ensures DoClaim(cfg, s, w, t).db.outbox == s.db.outbox
  {
    hide AfterClaim, Hist, Claimable, ClaimedRow;
  }

  lemma SaveEvents(cfg: Config, s: Sys, w: nat, ackLost: bool)
    requires w in s.workers && s.workers[w].phase.Saving?
    ensures DoSave(cfg, s, w, ackLost).db.outbox == s.db.outbox
  {
    hide AfterError, Hist, SavedRow;
  }

  lemma YieldEvents(cfg: Config, s: Sys, w: nat)
    requires w in s.workers
    ensures s.workers[w].phase.Requeueing? ==> DoYield(s, w).db.outbox == s.db.outbox
    ensures s.workers[w].phase.FailoverRequeueing? ==> DoYieldToFallback(cfg, s, w).db.outbox == s.db.outbox
  {
    hide Hist;
  }

  lemma CompleteEvents(cfg: Config, s: Sys, w: nat, e: EventId, ackLost: bool)
    requires w in s.workers && s.workers[w].phase.Completing?
    ensures DoComplete(cfg, s, w, e, ackLost).db.outbox == s.db.outbox
  {
    hide AfterError, Hist, CompletedRow, HasCallback;
  }

  lemma FailEvents(s: Sys, w: nat, e: EventId)
    requires w in s.workers && s.workers[w].phase.Failing?
    ensures DoFail(s, w, e).db.outbox == s.db.outbox
  {
    hide Hist, FailedRow, HasCallback, Refundable;
  }

  lemma TaskEvents(cfg: Config, s: Sys, a: Action)
    requires ByTask(a) && TaskEnabled(s, a)
    ensures TaskStep(cfg, s, a).db.outbox == s.db.outbox
  {
    hide AfterError, Hist, DoClaim, DoSave, DoYield, DoYieldToFallback, DoComplete, DoFail;
    if a.Claim? { ClaimEvents(cfg, s, a.w, a.t); }
    else if a.Save? { SaveEvents(cfg, s, a.w, a.ackLost); }
    else if a.Yield? || a.YieldToFallback? { YieldEvents(cfg, s, a.w); }
    else if a.Finishing? { CompleteEvents(cfg, s, a.w, a.e, a.ackLost); }
    else if a.Fail? { FailEvents(s, a.w, a.e); }
  }

  lemma EveryEventStays(cfg: Config, s: Sys, a: Action)
    requires Enabled(cfg, s, a) && !a.Create?
    ensures EventsStay(s.db, Step(cfg, s, a).db)
  {
    if ByTask(a) {
      TaskEvents(cfg, s, a);
      hide TaskStep, TaskEnabled;
    } else {
      hide Step, Enabled;
      OutsideEvents(cfg, s, a);
    }
  }

  lemma CreateKeepsAge(db: Db, cmd: Command, cost: int, g: GenerationId, e: EventId, now: int)
    requires SameAge(db) && g !in db.generations && e !in db.outbox
    ensures SameAge(CreateAndCharge(db, cmd, cost, g, e, now).0)
  {
    hide KeyUsed;
  }

  lemma AgeStep(cfg: Config, s: Sys, a: Action)
    requires Inv(cfg, s) && SameAge(s.db) && Enabled(cfg, s, a)
    ensures SameAge(Step(cfg, s, a).db)
  {
    if a.Create? {
      hide Inv, CreateAndCharge, SameAge;
      CreateKeepsAge(s.db, a.cmd, a.cost, a.g, a.e, s.now);
      CreateDb(cfg, s, a);
    } else {
      hide Inv, Step, Enabled;
      EveryEventStays(cfg, s, a);
      forall e | e in s.db.outbox ensures s.db.outbox[e].generation in Step(cfg, s, a).db.generations
        && Step(cfg, s, a).db.generations[s.db.outbox[e].generation].createdAt == s.db.outbox[e].createdAt {
        ChangesAreStamped(cfg, s, a, s.db.outbox[e].generation);
      }
    }
  }

  lemma CreateDb(cfg: Config, s: Sys, a: Action)
    requires Enabled(cfg, s, a) && a.Create?
    ensures a.g !in s.db.generations && a.e !in s.db.outbox
    ensures Step(cfg, s, a).db == s.db || Step(cfg, s, a).db == CreateAndCharge(s.db, a.cmd, a.cost, a.g, a.e, s.now).0
  {
    hide CreateAndCharge;
  }

  lemma {:induction false} AgeRun(cfg: Config, s: Sys, acts: seq<Action>)
    requires Inv(cfg, s) && SameAge(s.db) && Valid(cfg, s, acts)
    ensures SameAge(Run(cfg, s, acts).db)
    decreases |acts|
  {
    hide Inv, SameAge, Step, Enabled;
    if acts != [] {
      InvStep(cfg, s, acts[0]);
      AgeStep(cfg, s, acts[0]);
      AgeRun(cfg, Step(cfg, s, acts[0]), acts[1..]);
    }
  }

  lemma ReachableAge(cfg: Config, s: Sys)
    requires Reachable(cfg, s)
    ensures SameAge(s.db)
  {
    hide Inv, Step, Enabled;
    InitInv(cfg);
    var acts :| Valid(cfg, Init, acts) && Run(cfg, Init, acts) == s;
    AgeRun(cfg, Init, acts);
  }

  /** A dispatcher takes waiting generations in the order they were created: of two with a pending
      event, an older one is never passed over for a younger one, nor taken after it; and if there
      is room in the batch, none is passed over. */
  lemma OldestGenerationsFirst(cfg: Config, s: Sys, disp: nat, ids: seq<EventId>)
    requires Reachable(cfg, s) && Enabled(cfg, s, SelectPending(disp, ids))
    ensures forall e :: e in s.db.outbox ==> s.db.outbox[e].generation in s.db.generations
    ensures forall e :: e in ids ==> e in s.db.outbox && s.db.outbox[e].processedAt.None?
    ensures forall e, f :: e in s.db.outbox && s.db.outbox[e].processedAt.None? && e !in ids && f in ids ==>
              s.db.generations[s.db.outbox[f].generation].createdAt <= s.db.generations[s.db.outbox[e].generation].createdAt
    ensures forall i, j :: 0 <= i < j < |ids| ==>
              s.db.generations[s.db.outbox[ids[i]].generation].createdAt <= s.db.generations[s.db.outbox[ids[j]].generation].createdAt
    ensures |ids| < cfg.batchLimit ==> forall e :: e in s.db.outbox && s.db.outbox[e].processedAt.None? ==> e in ids
  {
    ReachableAge(cfg, s);
    hide Reachable, NoDup;
    assert IsBatch(PendingEvents(s.db), cfg.batchLimit, ids);
    if |ids| < cfg.batchLimit { AllTaken(PendingEvents(s.db), cfg.batchLimit, ids); }
    assert forall e :: e in ids ==> e in PendingEvents(s.db);
  }

  lemma AllTaken<K(!new)>(rank: map<K, int>, limit: nat, ids: seq<K>)
    requires IsBatch(rank, limit, ids) && |ids| < limit
    ensures forall k :: k in rank ==> k in ids
  {
    NoDupCount(ids, rank.Keys);
  }

  /** Recovery takes the rows left alone the longest. */
  lemma LongestLeftFirst(cfg: Config, s: Sys, locked: set<GenerationId>, ids: seq<GenerationId>)
    requires Enabled(cfg, s, Recover(locked, ids))
    ensures forall g, x :: g in ids && x in StaleRows(s.db, s.now, cfg.queuedRecovery, locked) && x !in ids ==>
              g in s.db.generations && x in s.db.generations && s.db.generations[g].updatedAt <= s.db.generations[x].updatedAt
    ensures |ids| < cfg.batchLimit ==> forall x :: x in StaleRows(s.db, s.now, cfg.queuedRecovery, locked) ==> x in ids
  {
    var rank := StaleRows(s.db, s.now, cfg.queuedRecovery, locked);
    hide NoDup, Stale;
    assert IsBatch(rank, cfg.batchLimit, ids);
    if |ids| < cfg.batchLimit { AllTaken(rank, cfg.batchLimit, ids); }
    forall g | g in ids ensures g in rank {}
  }
}
