/** What the service guarantees about every job, over the states that runs from empty tables
    reach: tokens, leases, settlements and provider requests.  No invariant is mentioned here. */
module JobGuarantees {
  import opened Common
  import opened Tables
  import opened Transactions
  import opened JobSystem
  import opened JobInvariant
  import opened TableInvariant
  import opened Fencing
  import OneOwner

  /** Terminal states absorb: no continuation changes a completed or failed row. */
  lemma TerminalAbsorbs(cfg: Config, s: Sys, acts: seq<Action>, g: GenerationId)
    requires Reachable(cfg, s) && Valid(cfg, s, acts) && g in s.db.generations && s.db.generations[g].Terminal()
    ensures g in Run(cfg, s, acts).db.generations && Run(cfg, s, acts).db.generations[g] == s.db.generations[g]
  {
    hide Reachable, Inv, Valid, Run;
    ReachableInv(cfg, s);
    TerminalForever(cfg, s, acts, g);
  }

  /** Every guarded write under `t` leaves the tables alone and says so. */
  ghost predicate Fenced(db: Db, g: GenerationId, t: Token) {
    && (forall provider, id, now :: SaveProviderRequest(db, g, t, provider, id, now) == (db, false))
    && (forall code, now :: Requeue(db, g, t, code, now) == (db, false))
    && (forall result, provider, e, now :: Complete(db, g, t, result, provider, e, now) == (db, Missed))
    && (forall code, e, now :: FailAndRefund(db, g, t, code, e, now) == (db, Missed))
  }

  lemma StaleIsFenced(cfg: Config, s: Sys, g: GenerationId, t: Token)
    requires Inv(cfg, s) && StaleToken(s, g, t)
    ensures Fenced(s.db, g, t)
  {
    hide Inv, StaleToken, SaveProviderRequest, Requeue, Complete, FailAndRefund;
    forall provider, id, now ensures SaveProviderRequest(s.db, g, t, provider, id, now) == (s.db, false) {
      StaleWriteIsStutter(cfg, s, g, t, now, provider, id, 0);
    }
    forall code, now ensures Requeue(s.db, g, t, code, now) == (s.db, false) {
      StaleWriteIsStutter(cfg, s, g, t, now, "", code, 0);
    }
    forall result, provider, e, now ensures Complete(s.db, g, t, result, provider, e, now) == (s.db, Missed) {
      StaleWriteIsStutter(cfg, s, g, t, now, provider, result, e);
    }
    forall code, e, now ensures FailAndRefund(s.db, g, t, code, e, now) == (s.db, Missed) {
      StaleWriteIsStutter(cfg, s, g, t, now, "", code, e);
    }
  }

  /** A token that was drawn and is not current never becomes current again, and fences off
      every write under it for good. */
  lemma ReplacedTokenIsFenced(cfg: Config, s: Sys, acts: seq<Action>, g: GenerationId, t: Token)
    requires Reachable(cfg, s) && Valid(cfg, s, acts) && StaleToken(s, g, t)
    ensures StaleToken(Run(cfg, s, acts), g, t) && Fenced(Run(cfg, s, acts).db, g, t)
  {
    hide Reachable, Inv, Valid, Run, StaleToken, Fenced;
    ReachableInv(cfg, s);
    StaleForever(cfg, s, acts, g, t);
    RunKeeps(cfg, s, acts);
    StaleIsFenced(cfg, Run(cfg, s, acts), g, t);
  }

  /** Of two successive claims, either the earlier owner gave its claim back, or the later one
      came strictly after the earlier lease had expired. */
  lemma ClaimsExclude(cfg: Config, s: Sys, g: GenerationId, i: nat)
    requires Reachable(cfg, s) && g in s.hist && i + 1 < |s.hist[g].grants|
    ensures var c, d := s.hist[g].grants[i], s.hist[g].grants[i + 1];
            && c.at <= d.at && c.until == c.at + cfg.leaseSeconds
            && (c.token in s.hist[g].yielded || c.until < d.at)
  {
    hide Reachable, Inv;
    ReachableInv(cfg, s);
    HistoryHasRow(cfg, s, g);
    SuccessiveClaims(cfg, s, g, i);
  }

  lemma HistoryHasRow(cfg: Config, s: Sys, g: GenerationId)
    requires Inv(cfg, s) && g in s.hist
    ensures g in s.db.generations
  {
    hide TablesInv, JobOk, TaskOk, TokensIssued, DistinctTokens;
  }

  /** Within its lease a holder that does not end its claim itself keeps it, whatever the
      others, the clock, the broker and the recovery task do. */
  lemma HolderStaysCurrent(cfg: Config, s: Sys, acts: seq<Action>, g: GenerationId, t: Token, until: int)
    requires Reachable(cfg, s) && Valid(cfg, s, acts) && Holds(s, g, t, until)
    requires HolderKeepsClaim(cfg, s, acts, t) && Run(cfg, s, acts).now <= until
    ensures Holds(Run(cfg, s, acts), g, t, until)
  {
    hide Reachable, Inv, Valid, Run, Holds, HolderKeepsClaim;
    ReachableInv(cfg, s);
    LiveClaimIsNeverFenced(cfg, s, acts, g, t, until);
  }

  /** At most one terminal write per generation ever succeeds; it succeeded exactly when the row
      is terminal, it was made under the last token issued for the generation, and the refund
      marker is set exactly when that write was the failure. */
  lemma OneSettlement(cfg: Config, s: Sys, g: GenerationId)
    requires Reachable(cfg, s) && g in s.db.generations
    ensures g in s.hist && var row, h := s.db.generations[g], s.hist[g];
            && |h.settled| == (if row.Terminal() then 1 else 0)
            && (row.Terminal() ==> h.grants != [] && h.settled[0].token == h.grants[|h.grants| - 1].token)
            && (row.refundedAt.Some? <==> row.Terminal() && !h.settled[0].completed)
  {
    hide Reachable, Inv, JobOk;
    ReachableInv(cfg, s);
    JobFacts(cfg, s, g);
    SettledOnce(cfg, s, g);
  }

  /** The refund guard fires exactly for the owner of a processing row: its `queued` alternative
      never does. */
  lemma RefundNeedsOwnership(cfg: Config, s: Sys, g: GenerationId, t: Token)
    requires Reachable(cfg, s) && g in s.db.generations
    ensures Refundable(s.db.generations[g], t) <==> Owns(s.db.generations[g], t)
  {
    hide Reachable, Inv, JobOk;
    ReachableInv(cfg, s);
    JobFacts(cfg, s, g);
    RefundGuardIsOwnership(cfg, s.db.generations[g], s.hist[g], s.now, t);
  }

  /** The unique constraint on the callback outbox never aborts a terminal write: the owner's
      completion and the owner's failure always go through. */
  lemma OwnersWriteGoesThrough(cfg: Config, s: Sys, g: GenerationId, t: Token, result: string, provider: string, code: string, e: EventId)
    requires Reachable(cfg, s) && Owner(s.db, g, t) && e !in s.db.callbacks
    ensures Complete(s.db, g, t, result, provider, e, s.now).1 == Wrote
    ensures FailAndRefund(s.db, g, t, code, e, s.now).1 == Wrote
  {
    hide Reachable, Inv, JobOk, Complete, FailAndRefund, Finish, Refundable;
    ReachableInv(cfg, s);
    JobFacts(cfg, s, g);
    RefundGuardIsOwnership(cfg, s.db.generations[g], s.hist[g], s.now, t);
    OneOwner.OwnerCompletes(cfg, s, g, t, result, provider, e);
    OneOwner.NeverRaised(cfg, s, g, FailedRow(s.db.generations[g], code, s.now), e);
    OneOwner.FailedRows(s.db, g, t, code, e, s.now);
  }

  /** A stored request id never changes. */
  lemma RequestIdIsFinal(cfg: Config, s: Sys, acts: seq<Action>, g: GenerationId)
    requires Reachable(cfg, s) && Valid(cfg, s, acts) && g in s.db.generations && s.db.generations[g].requestId.Some?
    ensures g in Run(cfg, s, acts).db.generations
    ensures Run(cfg, s, acts).db.generations[g].requestId == s.db.generations[g].requestId
  {
    hide Reachable, Inv, Valid, Run;
    ReachableInv(cfg, s);
    RequestIdWriteOnce(cfg, s, acts, g);
  }

  /** Where request ids come from and go: every poll ever made used the stored id; it was saved
      once, by one holder of a claim; no claim that found an id ever submitted; submissions
      never outnumber claims; a completed generation has an id. */
  lemma RequestIdOrigin(cfg: Config, s: Sys, g: GenerationId)
    requires Reachable(cfg, s) && g in s.db.generations
    ensures g in s.hist && var row, h := s.db.generations[g], s.hist[g];
            && (forall i :: 0 <= i < |h.polls| ==> row.requestId == Some(h.polls[i].requestId))
            && |h.saved| == (if row.requestId.Some? then 1 else 0)
            && (row.requestId.Some? ==> h.saved[0].requestId == row.requestId.value && Granted(h, h.saved[0].token))
            && (forall i :: 0 <= i < |h.grants| && h.grants[i].hadId ==> h.grants[i].token !in h.submits)
            && |h.submits| <= row.attempts
            && (row.status == Completed ==> row.requestId.Some?)
  {
    hide Reachable, Inv, JobOk;
    ReachableInv(cfg, s);
    JobFacts(cfg, s, g);
    RequestIdProvenance(cfg, s, g);
  }

  /** A worker that polls, however late, polls the id in the row. */
  lemma PollerHasStoredId(cfg: Config, s: Sys, w: nat)
    requires Reachable(cfg, s) && w in s.workers && s.workers[w].phase.Polling?
    ensures s.workers[w].generation in s.db.generations
    ensures s.db.generations[s.workers[w].generation].requestId == Some(s.workers[w].phase.requestId)
  {
    hide Reachable, Inv;
    ReachableInv(cfg, s);
    PollsTheStoredId(cfg, s, w);
  }

  /** The poll number `i` was made by the last claim, under the stored id, and its answer is the
      result in the row. */
  ghost predicate BroughtResult(row: Generation, h: History, i: nat) {
    && i < |h.polls| && h.grants != [] && h.polls[i].token == h.grants[|h.grants| - 1].token
    && row.requestId == Some(h.polls[i].requestId)
    && row.result.Some? && h.polls[i].reply == Answer(row.result.value)
  }

  /** The result of a completed generation is what the provider answered the claim that completed
      it, under the stored request id, and no continuation ever replaces it. */
  lemma ResultIsProvidersAnswer(cfg: Config, s: Sys, acts: seq<Action>, g: GenerationId)
    requires Reachable(cfg, s) && Valid(cfg, s, acts) && g in s.db.generations && s.db.generations[g].status == Completed
    ensures g in s.hist && exists i: nat :: BroughtResult(s.db.generations[g], s.hist[g], i)
    ensures g in Run(cfg, s, acts).db.generations && Run(cfg, s, acts).db.generations[g].result == s.db.generations[g].result
  {
    hide Reachable, Inv, Valid, Run, JobOk;
    ReachableInv(cfg, s);
    JobFacts(cfg, s, g);
    WinnerWasAnswered(cfg, s.db.generations[g], s.hist[g], s.now);
    TerminalForever(cfg, s, acts, g);
  }

  lemma WinnerWasAnswered(cfg: Config, row: Generation, h: History, now: int)
    requires JobOk(cfg, row, h, now) && row.status == Completed
    ensures exists i: nat :: BroughtResult(row, h, i)
  {
    hide GrantsOk, SubmitsOk;
    assert Answered(h.polls, h.settled[0].token, row.result.value);
    var i: nat :| i < |h.polls| && h.polls[i].token == h.settled[0].token && h.polls[i].reply == Answer(row.result.value);
    assert BroughtResult(row, h, i);
  }

  /** The failover reads the request id without a fence and requeues in a second step.  Still,
      whenever that requeue succeeds, no id is stored at that very commit, and none was ever
      saved or polled. */
  lemma FailoverFindsNoId(cfg: Config, s: Sys, w: nat)
    requires Reachable(cfg, s) && w in s.workers && s.workers[w].phase.FailoverRequeueing?
    ensures var g, t := s.workers[w].generation, s.workers[w].phase.token;
            g in s.hist && (Requeue(s.db, g, t, "provider_failover", s.now).1 ==>
              s.db.generations[g].requestId.None? && s.hist[g].saved == [] && s.hist[g].polls == [])
  {
    hide Reachable, Inv, JobOk;
    ReachableInv(cfg, s);
    TaskFacts(cfg, s, w);
    FailoverCommitPoint(cfg, s, w);
  }
}

/** What clients are promised about their webhooks, over the states that runs of both
    protocols together reach. */
module WebhookGuarantees {
  import opened Common
  import opened Tables
  import opened Transactions
  import J = JobSystem
  import opened CallbackDelivery
  import opened CallbackInvariant

  /** A callback row exists exactly for terminal generations with a callback URL, and only one. */
  lemma RowsAreExact(cfg: J.Config, lease: int, w: World, g: GenerationId)
    requires Reachable(cfg, lease, w) && g in w.job.db.generations
    ensures HasCallback(w.job.db.callbacks, g) <==> w.job.db.generations[g].WantsCallback()
    ensures forall e, f :: e in w.job.db.callbacks && f in w.job.db.callbacks && e != f ==>
              w.job.db.callbacks[e].generation != w.job.db.callbacks[f].generation
  {
    hide Reachable, WorldInv, HasCallback;
    WorldReachable(cfg, lease, w);
    CallbacksAreExact(cfg, lease, w, g);
  }

  /** A delivery task that has claimed an event always finds something to send: the early
      `return False` is unreachable. */
  lemma AlwaysSomethingToSend(cfg: J.Config, lease: int, w: World, c: nat)
    requires Reachable(cfg, lease, w) && c in w.couriers && w.couriers[c].errand.Reading?
    ensures Known(w, w.couriers[c].event)
    ensures DoRead(w, c).couriers[c].errand == Posting(w.couriers[c].errand.token, PayloadFor(w, w.couriers[c].event))
  {
    hide Reachable, WorldInv, DoRead;
    WorldReachable(cfg, lease, w);
    ReadFindsPayload(cfg, lease, w, c);
  }

  /** At most five attempts per event, at most one POST per attempt. */
  lemma FivePosts(cfg: J.Config, lease: int, w: World, e: EventId)
    requires Reachable(cfg, lease, w) && e in w.job.db.callbacks
    ensures |LogOf(w, e).posts| <= |LogOf(w, e).grants| == w.job.db.callbacks[e].attempts <= MAX_ATTEMPTS
  {
    hide Reachable, WorldInv;
    WorldReachable(cfg, lease, w);
    AtMostFivePosts(cfg, lease, w, e);
  }

  /** Attempt k after the first comes at least k times min(retry delay, lease) later; between two
      attempts lies the whole lease, or a recorded failure and then the retry delay. */
  lemma AttemptSpacing(cfg: J.Config, lease: int, w: World, e: EventId, k: nat)
    requires Reachable(cfg, lease, w) && e in w.job.db.callbacks && k < |LogOf(w, e).grants|
    ensures LogOf(w, e).grants[k].at >= LogOf(w, e).grants[0].at + k * Min(RETRY_DELAY, lease)
    ensures k > 0 ==>
              var log := LogOf(w, e);
              var c, d := log.grants[k - 1], log.grants[k];
              c.at + lease < d.at || (c.token in log.failures && log.failures[c.token] + RETRY_DELAY <= d.at)
  {
    hide Reachable, WorldInv;
    WorldReachable(cfg, lease, w);
    AttemptsAreSpaced(cfg, lease, w, e, k);
    if k > 0 { NextAttemptWaits(cfg, lease, w, e, k - 1); }
  }

  /** If a POST goes out within `d` of its claim, the POSTs of later claims follow at least
      min(retry delay, lease - d) after it. */
  lemma PostSpacing(cfg: J.Config, lease: int, w: World, e: EventId, d: nat, i: nat, j: nat, a: nat, b: nat)
    requires Reachable(cfg, lease, w) && e in w.job.db.callbacks && d <= lease
    requires var log := LogOf(w, e);
             && i < |log.posts| && j < |log.posts| && a < b < |log.grants|
             && log.posts[i].token == log.grants[a].token && log.posts[j].token == log.grants[b].token
             && log.posts[i].at <= log.grants[a].at + d
    ensures LogOf(w, e).posts[i].at + Min(RETRY_DELAY, lease - d) <= LogOf(w, e).posts[j].at
  {
    hide Reachable, WorldInv;
    WorldReachable(cfg, lease, w);
    PostsAreSpaced(cfg, lease, w, e, d, i, j, a, b);
  }

  /** Every POST of an event carries the same payload, that of its generation as it ended. */
  lemma SamePayload(cfg: J.Config, lease: int, w: World, e: EventId, i: nat, j: nat)
    requires Reachable(cfg, lease, w) && e in w.job.db.callbacks && i < |LogOf(w, e).posts| && j < |LogOf(w, e).posts|
    ensures LogOf(w, e).posts[i].payload == LogOf(w, e).posts[j].payload
    ensures Known(w, e) && LogOf(w, e).posts[i].payload == PayloadFor(w, e)
  {
    hide Reachable, WorldInv;
    WorldReachable(cfg, lease, w);
    OnePayload(cfg, lease, w, e, i);
    OnePayload(cfg, lease, w, e, j);
  }

  /** A recorded delivery is final: no continuation claims the event again. */
  lemma DeliveryIsFinal(cfg: J.Config, lease: int, w: World, acts: seq<Act>, e: EventId)
    requires Reachable(cfg, lease, w) && Valid(cfg, lease, w, acts)
    requires e in w.job.db.callbacks && w.job.db.callbacks[e].deliveredAt.Some?
    ensures Delivered(Run(cfg, lease, w, acts), e, w.job.db.callbacks[e].attempts)
  {
    hide Reachable, WorldInv, Valid, Run;
    WorldReachable(cfg, lease, w);
    DeliveredFree(cfg, lease, w, e);
    DeliveredForever(cfg, lease, w, acts, e, w.job.db.callbacks[e].attempts);
  }

  lemma DeliveredFree(cfg: J.Config, lease: int, w: World, e: EventId)
    requires WorldInv(cfg, lease, w) && e in w.job.db.callbacks && w.job.db.callbacks[e].deliveredAt.Some?
    ensures w.job.db.callbacks[e].claimToken.None?
  {
    hide WorldInv, PostsOk;
    EventFacts(cfg, lease, w, e);
  }

  /** A delivery token that is no longer current never becomes current again, and reporting
      under it changes nothing. */
  lemma StaleReportIsStutter(cfg: J.Config, lease: int, w: World, acts: seq<Act>, e: EventId, t: Token, delivered: bool, now: int)
    requires Reachable(cfg, lease, w) && Valid(cfg, lease, w, acts) && StaleClaim(w, e, t)
    ensures StaleClaim(Run(cfg, lease, w, acts), e, t)
    ensures var rows := Run(cfg, lease, w, acts).job.db.callbacks;
            FinishDelivery(rows, e, t, delivered, now) == (rows, false)
  {
    hide Reachable, WorldInv, Valid, Run, StaleClaim, FinishDelivery;
    WorldReachable(cfg, lease, w);
    StaleClaimForever(cfg, lease, w, acts, e, t);
  }
}
