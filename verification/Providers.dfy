/** Who is asked, and what the rows say about it: where request ids come from, which provider they
    are polled at, when the fallback provider comes in, and what a finished row records. */
module Providers {
  import opened Common
  import opened Tables
  import opened Transactions
  import opened JobSystem
  import opened JobInvariant
  import opened TableInvariant
  import opened Fencing
  import opened RetryChain
  import opened Outcomes
  import C = ChainRuns
  import L = Ledger
  import R = Recovery

  // ----- The invariant -----------------------------------------------------------------------------

  const FINAL_CODES := {"permanent_provider_error", "temporary_provider_error", "internal_processing_error", "fallback_provider_error"}

  /** The claim `t` found a request id in the row. */
  ghost predicate FoundId(h: History, t: Token) {
    exists i :: 0 <= i < |h.grants| && h.grants[i].token == t && h.grants[i].hadId
  }

  /** `p` issued the stored id, or it is the fallback and was asked by a claim that found the id. */
  ghost predicate Asks(cfg: Config, h: History, p: string, t: Token) {
    h.saved != [] && (p == h.saved[0].provider || (HasFallback(cfg) && p == cfg.fallback && FoundId(h, t)))
  }

  ghost predicate RowLaw(cfg: Config, row: Generation, h: History) {
    && (row.provider.Some? <==> row.requestId.Some?)
    && (row.requestId.Some? && !row.Terminal() ==> h.saved != [] && row.provider == Some(h.saved[0].provider))
    && (h.saved != [] ==> h.saved[0].provider == cfg.primary || (HasFallback(cfg) && h.saved[0].provider == cfg.fallback))
    && (forall i :: 0 <= i < |h.polls| ==> Asks(cfg, h, h.polls[i].provider, h.polls[i].token))
    && (row.result.Some? <==> row.status == Completed)
    && (row.status == Failed ==> row.errorCode.Some? && row.errorCode.value in FINAL_CODES)
  }

  ghost predicate TaskLaw(cfg: Config, v: Worker, h: History) {
    && (v.failover ==> HasFallback(cfg) && v.retries >= 3)
    && (v.phase.FailoverReading? || v.phase.FailoverRequeueing? ==> cfg.fallback != "" && cfg.fallback != cfg.primary && v.retries >= 3)
    && (v.phase.Submitting? || v.phase.Saving? ==> v.phase.provider == if v.failover then cfg.fallback else cfg.primary)
    && (v.phase.Polling? || v.phase.Completing? ==>
          && Asks(cfg, h, v.phase.provider, v.phase.token)
          && (v.phase.provider != h.saved[0].provider ==> v.failover))
    && (v.phase.Failing? ==> v.phase.code in FINAL_CODES)
  }

  ghost predicate Laws(cfg: Config, s: Sys) {
    && (forall g :: g in s.db.generations ==> RowLaw(cfg, s.db.generations[g], Hist(s, g)))
    && (forall w :: w in s.workers ==> TaskLaw(cfg, s.workers[w], Hist(s, s.workers[w].generation)))
  }

  // ----- What a step does to histories ---------------------------------------------------------------

  ghost predicate HistoryMoves(cfg: Config, s: Sys, a: Action, g: GenerationId, h: History, h': History) {
    && h.grants <= h'.grants
    && (h'.saved == h.saved
        || (a.Save? && a.w in s.workers && s.workers[a.w].generation == g && s.workers[a.w].phase.Saving?
            && var p := s.workers[a.w].phase; h'.saved == h.saved + [Saved(p.token, p.requestId, p.provider)]))
    && (h'.polls == h.polls
        || (a.Poll? && a.w in s.workers && s.workers[a.w].generation == g && s.workers[a.w].phase.Polling?
            && var p := s.workers[a.w].phase; h'.polls == h.polls + [Asked(p.token, p.requestId, a.reply, p.provider)]))
  }

  lemma ClaimHistory(cfg: Config, s: Sys, w: nat, t: Token, g: GenerationId)
    requires w in s.workers
    ensures var h, h' := Hist(s, g), Hist(DoClaim(cfg, s, w, t), g); h.grants <= h'.grants && h'.saved == h.saved && h'.polls == h.polls
  {
    hide StartProcessing, AfterClaim;
  }

  lemma SaveHistory(cfg: Config, s: Sys, w: nat, ackLost: bool, g: GenerationId)
    requires w in s.workers && s.workers[w].phase.Saving?
    ensures HistoryMoves(cfg, s, Save(w, ackLost), g, Hist(s, g), Hist(DoSave(cfg, s, w, ackLost), g))
  {
    hide SaveProviderRequest, AfterError;
  }

  lemma PollHistory(cfg: Config, s: Sys, w: nat, reply: Reply, g: GenerationId)
    requires w in s.workers && s.workers[w].phase.Polling?
    ensures HistoryMoves(cfg, s, Poll(w, reply), g, Hist(s, g), Hist(DoPoll(cfg, s, w, reply), g))
  {
    hide AfterError;
  }

  ghost predicate SameRecords(h: History, h': History) {
    h'.grants == h.grants && h'.saved == h.saved && h'.polls == h.polls
  }

  lemma EndHistory(cfg: Config, s: Sys, w: nat, e: EventId, ackLost: bool, g: GenerationId)
    requires w in s.workers
    ensures s.workers[w].phase.Completing? ==> SameRecords(Hist(s, g), Hist(DoComplete(cfg, s, w, e, ackLost), g))
    ensures s.workers[w].phase.Failing? ==> SameRecords(Hist(s, g), Hist(DoFail(s, w, e), g))
  {
    hide Complete, FailAndRefund, AfterError;
  }

  lemma YieldHistory(cfg: Config, s: Sys, w: nat, g: GenerationId)
    requires w in s.workers
    ensures s.workers[w].phase.Requeueing? ==> SameRecords(Hist(s, g), Hist(DoYield(s, w), g))
    ensures s.workers[w].phase.FailoverRequeueing? ==> SameRecords(Hist(s, g), Hist(DoYieldToFallback(cfg, s, w), g))
  {
    hide Requeue;
  }

  lemma TaskHistory(cfg: Config, s: Sys, a: Action, g: GenerationId)
    requires ByTask(a) && TaskEnabled(s, a)
    ensures HistoryMoves(cfg, s, a, g, Hist(s, g), Hist(TaskStep(cfg, s, a), g))
  {
    hide DoClaim, DoSave, DoPoll, DoComplete, DoFail, DoYield, DoYieldToFallback, AfterError;
    match a {
      case Claim(w, t) => ClaimHistory(cfg, s, w, t, g);
      case Save(w, ackLost) => SaveHistory(cfg, s, w, ackLost, g);
      case Poll(w, reply) => PollHistory(cfg, s, w, reply, g);
      case Finishing(w, e, ackLost) => EndHistory(cfg, s, w, e, ackLost, g);
      case Fail(w, e) => EndHistory(cfg, s, w, e, false, g);
      case Yield(w) => YieldHistory(cfg, s, w, g);
      case YieldToFallback(w) => YieldHistory(cfg, s, w, g);
      case _ =>
    }
  }

  lemma OutsideTasks(cfg: Config, s: Sys, a: Action)
    requires Enabled(cfg, s, a) && !ByTask(a)
    ensures Step(cfg, s, a).workers == s.workers
    ensures !a.Create? ==> Step(cfg, s, a).hist == s.hist
  {
    hide TaskStep, TaskEnabled, IsBatch, SameCallbackRows, ApplyCredit, CreateAndCharge, DoDispatch, RecoverRows, PendingEvents, StaleRows;
    if a.DispatchNext? { DispatchHistory(s, a.disp, a.outcome); }
  }

  lemma CreateHistory(cfg: Config, s: Sys, a: Action, g: GenerationId)
    requires Enabled(cfg, s, a) && a.Create? && g in s.db.generations
    ensures Hist(Step(cfg, s, a), g) == Hist(s, g)
  {
    CreatedId(s.db, a.cmd, a.cost, a.g, a.e, s.now);
    hide CreateAndCharge, TaskStep, TaskEnabled, DispatchStep, DispatchEnabled, EnvironmentStep, EnvironmentEnabled;
  }

  lemma OutsideHistory(cfg: Config, s: Sys, a: Action, g: GenerationId)
    requires Enabled(cfg, s, a) && !ByTask(a) && g in s.db.generations
    ensures Hist(Step(cfg, s, a), g) == Hist(s, g)
  {
    OutsideTasks(cfg, s, a);
    if a.Create? { CreateHistory(cfg, s, a, g); }
    hide Step, Enabled;
  }

  lemma DispatchHistory(s: Sys, disp: nat, outcome: DispatchOutcome)
    requires disp in s.dispatchers && s.dispatchers[disp] != []
    ensures DoDispatch(s, disp, outcome).hist == s.hist && DoDispatch(s, disp, outcome).workers == s.workers
  {
    hide PublishEvent, NoteDispatchFailure;
  }

  lemma EveryHistoryMove(cfg: Config, s: Sys, a: Action, g: GenerationId)
    requires Enabled(cfg, s, a) && g in s.db.generations
    ensures HistoryMoves(cfg, s, a, g, Hist(s, g), Hist(Step(cfg, s, a), g))
  {
    if ByTask(a) {
      hide TaskStep, TaskEnabled, HistoryMoves, Hist;
      TaskHistory(cfg, s, a, g);
    } else {
      OutsideHistory(cfg, s, a, g);
      hide Step, Enabled, Hist;
    }
  }

  lemma CreatedId(db: Db, cmd: Command, cost: int, g: GenerationId, e: EventId, now: int)
    ensures var reply := CreateAndCharge(db, cmd, cost, g, e, now).1; reply.Opened? ==> reply.id == g
  {
  }

  // ----- Laws that stay ----------------------------------------------------------------------------------

  lemma FoundStays(h: History, h': History, t: Token)
    requires h.grants <= h'.grants && FoundId(h, t)
    ensures FoundId(h', t)
  {
    var i :| 0 <= i < |h.grants| && h.grants[i].token == t && h.grants[i].hadId;
    assert h'.grants[i] == h.grants[i];
  }

  lemma AsksStays(cfg: Config, h: History, h': History, p: string, t: Token)
    requires Asks(cfg, h, p, t) && h.grants <= h'.grants && h.saved <= h'.saved
    ensures Asks(cfg, h', p, t) && h'.saved[0] == h.saved[0]
  {
    hide FoundId;
    if FoundId(h, t) { FoundStays(h, h', t); }
  }

  lemma TaskLawStays(cfg: Config, v: Worker, h: History, h': History)
    requires TaskLaw(cfg, v, h) && h.grants <= h'.grants && h.saved <= h'.saved
    ensures TaskLaw(cfg, v, h')
  {
    hide Asks;
    if v.phase.Polling? || v.phase.Completing? { AsksStays(cfg, h, h', v.phase.provider, v.phase.token); }
  }

  // ----- Rows ----------------------------------------------------------------------------------------------

  lemma PollsStay(cfg: Config, h: History, h': History)
    requires h.grants <= h'.grants && h.saved <= h'.saved
    requires forall i :: 0 <= i < |h.polls| ==> Asks(cfg, h, h.polls[i].provider, h.polls[i].token)
    ensures forall i :: 0 <= i < |h.polls| ==> Asks(cfg, h', h.polls[i].provider, h.polls[i].token)
  {
    hide Asks;
    forall i | 0 <= i < |h.polls| ensures Asks(cfg, h', h.polls[i].provider, h.polls[i].token) {
      AsksStays(cfg, h, h', h.polls[i].provider, h.polls[i].token);
    }
  }

  lemma RowMoved(cfg: Config, s: Sys, a: Action, g: GenerationId, row: Generation, h: History, row': Generation, h': History)
    requires RowMoves(cfg, s, a, g, row, row') && HistoryMoves(cfg, s, a, g, h, h')
    requires RowLaw(cfg, row, h) && SavedOk(row, h) && SavedOk(row', h')
    requires row'.status == Completed ==> row'.requestId.Some?
    requires a.Save? || a.Poll? || a.Fail? ==> a.w in s.workers && (s.workers[a.w].generation == g ==> TaskLaw(cfg, s.workers[a.w], h))
    ensures RowLaw(cfg, row', h')
  {
    hide Asks, Granted;
    PollsStay(cfg, h, h');
    if h'.polls != h.polls {
      AsksStays(cfg, h, h', s.workers[a.w].phase.provider, s.workers[a.w].phase.token);
    }
  }

  lemma RowFacts(cfg: Config, s: Sys, g: GenerationId)
    requires Inv(cfg, s) && g in s.db.generations
    ensures SavedOk(s.db.generations[g], Hist(s, g))
    ensures s.db.generations[g].status == Completed ==> s.db.generations[g].requestId.Some?
  {
    hide Inv;
    JobFacts(cfg, s, g);
    hide GrantsOk, SubmitsOk, SettledOk, ResultOk;
  }

  lemma RowLawStep(cfg: Config, s: Sys, a: Action, g: GenerationId)
    requires Inv(cfg, s) && Laws(cfg, s) && Enabled(cfg, s, a) && g in s.db.generations
    ensures var s' := Step(cfg, s, a); g in s'.db.generations && RowLaw(cfg, s'.db.generations[g], Hist(s', g))
  {
    hide Inv, Enabled, Step, Hist, RowLaw, TaskLaw, SavedOk, RowMoves, HistoryMoves;
    var s' := Step(cfg, s, a);
    EveryRowMove(cfg, s, a, g);
    EveryHistoryMove(cfg, s, a, g);
    InvStep(cfg, s, a);
    RowFacts(cfg, s, g);
    RowFacts(cfg, s', g);
    ActorExists(cfg, s, a);
    RowMoved(cfg, s, a, g, s.db.generations[g], Hist(s, g), s'.db.generations[g], Hist(s', g));
  }

  lemma ActorExists(cfg: Config, s: Sys, a: Action)
    requires Enabled(cfg, s, a)
    ensures a.Save? || a.Poll? || a.Fail? ==> a.w in s.workers
  {
  }

  // ----- Tasks ------------------------------------------------------------------------------------------------

  ghost predicate StandsLawfully(cfg: Config, s: Sys, w: nat) {
    w in s.workers ==> TaskLaw(cfg, s.workers[w], Hist(s, s.workers[w].generation))
  }

  lemma ErrorLaw(cfg: Config, v: Worker, t: Token, kind: ErrorKind, h: History, h': History)
    requires TaskLaw(cfg, v, h)
    ensures TaskLaw(cfg, AfterError(cfg, v, t, kind), h')
  {
  }

  lemma ClaimLaw(cfg: Config, v: Worker, t: Token, row: Generation, h: History, grant: Grant)
    requires TaskLaw(cfg, v, h) && RowLaw(cfg, row, h) && !row.Terminal()
    requires grant.token == t && grant.hadId == row.requestId.Some?
    ensures TaskLaw(cfg, AfterClaim(cfg, v, t, row), h.(grants := h.grants + [grant]))
  {
    var h' := h.(grants := h.grants + [grant]);
    ErrorLaw(cfg, v, t, Unexpected, h, h');
    hide AfterError;
    if row.requestId.Some? { assert h'.grants[|h.grants|] == grant; }
  }

  lemma ClaimLawStep(cfg: Config, s: Sys, w: nat, t: Token)
    requires Laws(cfg, s) && w in s.workers
    ensures StandsLawfully(cfg, DoClaim(cfg, s, w, t), w)
  {
    hide TaskLaw, RowLaw, AfterClaim;
    var v := s.workers[w];
    var g := v.generation;
    if g in s.db.generations && Claimable(s.db.generations[g], s.now) {
      var row := ClaimedRow(s.db.generations[g], t, s.now, cfg.leaseSeconds);
      var h := Hist(s, g);
      ClaimedLaw(cfg, s.db.generations[g], h, t, s.now);
      ClaimLaw(cfg, v, t, row, h, Grant(t, s.now, s.now + cfg.leaseSeconds, row.requestId.Some?));
      SameWorkFor(cfg, v, t, row);
    }
  }

  lemma SameWorkFor(cfg: Config, v: Worker, t: Token, row: Generation)
    ensures AfterClaim(cfg, v, t, row).generation == v.generation
  {
  }

  lemma ClaimedLaw(cfg: Config, row: Generation, h: History, t: Token, now: int)
    requires RowLaw(cfg, row, h) && !row.Terminal()
    ensures RowLaw(cfg, ClaimedRow(row, t, now, cfg.leaseSeconds), h)
  {
    hide Asks;
  }

  lemma SubmitLawStep(cfg: Config, s: Sys, w: nat, reply: Reply)
    requires Laws(cfg, s) && w in s.workers && s.workers[w].phase.Submitting?
    ensures StandsLawfully(cfg, DoSubmit(cfg, s, w, reply), w)
  {
    hide RowLaw, AfterError;
    var v := s.workers[w];
    assert TaskLaw(cfg, v, Hist(s, v.generation));
    if reply.Error? { ErrorLaw(cfg, v, v.phase.token, reply.kind, Hist(s, v.generation), Hist(DoSubmit(cfg, s, w, reply), v.generation)); ErrorFor(cfg, v, v.phase.token, reply.kind); }
  }

  lemma ErrorFor(cfg: Config, v: Worker, t: Token, kind: ErrorKind)
    ensures AfterError(cfg, v, t, kind).generation == v.generation
  {
  }

  lemma SaveLawStep(cfg: Config, s: Sys, w: nat, ackLost: bool)
    requires Laws(cfg, s) && w in s.workers && s.workers[w].phase.Saving?
    requires var g := s.workers[w].generation; g in s.db.generations && SavedOk(s.db.generations[g], Hist(s, g))
    ensures StandsLawfully(cfg, DoSave(cfg, s, w, ackLost), w)
  {
    hide RowLaw, AfterError, Granted;
    var v, s' := s.workers[w], DoSave(cfg, s, w, ackLost);
    assert TaskLaw(cfg, v, Hist(s, v.generation));
    if ackLost {
      ErrorLaw(cfg, v, v.phase.token, Unexpected, Hist(s, v.generation), Hist(s', v.generation));
      ErrorFor(cfg, v, v.phase.token, Unexpected);
    }
  }

  lemma PollLawStep(cfg: Config, s: Sys, w: nat, reply: Reply)
    requires Laws(cfg, s) && w in s.workers && s.workers[w].phase.Polling?
    ensures StandsLawfully(cfg, DoPoll(cfg, s, w, reply), w)
  {
    hide RowLaw, AfterError, Asks;
    var v, s' := s.workers[w], DoPoll(cfg, s, w, reply);
    var h, h' := Hist(s, v.generation), Hist(s', v.generation);
    assert TaskLaw(cfg, v, h);
    AsksStays(cfg, h, h', v.phase.provider, v.phase.token);
    if reply.Error? {
      ErrorLaw(cfg, v, v.phase.token, reply.kind, h, h');
      ErrorFor(cfg, v, v.phase.token, reply.kind);
    }
  }

  lemma CompleteLawStep(cfg: Config, s: Sys, w: nat, e: EventId, ackLost: bool)
    requires Laws(cfg, s) && w in s.workers && s.workers[w].phase.Completing?
    ensures StandsLawfully(cfg, DoComplete(cfg, s, w, e, ackLost), w)
  {
    hide RowLaw, AfterError, TaskLaw, Complete;
    var v, s' := s.workers[w], DoComplete(cfg, s, w, e, ackLost);
    assert TaskLaw(cfg, v, Hist(s, v.generation));
    ErrorLaw(cfg, v, v.phase.token, Unexpected, Hist(s, v.generation), Hist(s', v.generation));
    ErrorFor(cfg, v, v.phase.token, Unexpected);
  }

  lemma BreakLawStep(cfg: Config, s: Sys, w: nat)
    requires Laws(cfg, s) && w in s.workers && s.workers[w].phase.Held().Some?
    ensures StandsLawfully(cfg, SetWorker(s, w, AfterError(cfg, s.workers[w], s.workers[w].phase.token, Unexpected)), w)
  {
    hide RowLaw, AfterError, TaskLaw;
    var v := s.workers[w];
    assert TaskLaw(cfg, v, Hist(s, v.generation));
    ErrorLaw(cfg, v, v.phase.token, Unexpected, Hist(s, v.generation), Hist(s, v.generation));
    ErrorFor(cfg, v, v.phase.token, Unexpected);
  }

  lemma HandlerLawStep(cfg: Config, s: Sys, w: nat)
    requires Laws(cfg, s) && w in s.workers
    ensures s.workers[w].phase.FailoverReading? ==> StandsLawfully(cfg, DoReadForFailover(s, w), w)
    ensures s.workers[w].phase.Requeueing? ==> StandsLawfully(cfg, DoYield(s, w), w)
  {
    hide RowLaw, Requeue;
    assert TaskLaw(cfg, s.workers[w], Hist(s, s.workers[w].generation));
  }

  lemma SwitchLawStep(cfg: Config, s: Sys, w: nat)
    requires Laws(cfg, s) && w in s.workers && s.workers[w].phase.FailoverRequeueing?
    ensures StandsLawfully(cfg, DoYieldToFallback(cfg, s, w), w)
  {
    hide RowLaw, Requeue;
    assert TaskLaw(cfg, s.workers[w], Hist(s, s.workers[w].generation));
  }

  predicate Questions(a: Action) { a.Claim? || a.Submit? || a.Save? || a.Poll? || a.Finishing? }

  lemma AskerLaw(cfg: Config, s: Sys, a: Action)
    requires Inv(cfg, s) && Laws(cfg, s) && Questions(a) && TaskEnabled(s, a)
    ensures StandsLawfully(cfg, TaskStep(cfg, s, a), a.w)
  {
    if a.Save? { SaverFacts(cfg, s, a.w); }
    hide Inv, Laws, StandsLawfully, SavedOk, DoClaim, DoSubmit, DoSave, DoPoll, DoComplete;
    if a.Claim? { ClaimLawStep(cfg, s, a.w, a.t); }
    else if a.Submit? { SubmitLawStep(cfg, s, a.w, a.reply); }
    else if a.Save? { SaveLawStep(cfg, s, a.w, a.ackLost); }
    else if a.Poll? { PollLawStep(cfg, s, a.w, a.reply); }
    else { CompleteLawStep(cfg, s, a.w, a.e, a.ackLost); }
  }

  lemma HandlerLaw(cfg: Config, s: Sys, a: Action)
    requires Laws(cfg, s) && ByTask(a) && !Questions(a) && TaskEnabled(s, a)
    ensures StandsLawfully(cfg, TaskStep(cfg, s, a), a.w)
  {
    hide Laws, StandsLawfully, SetWorker, DropWorker, AfterError, DoFail, DoYield, DoYieldToFallback, DoReadForFailover, DoRetry;
    if a.Deliver? { FreshTaskLaw(cfg, s, a.w, Worker(a.m.generation, a.m.retries, false, Claiming)); }
    else if a.Break? { BreakLawStep(cfg, s, a.w); }
    else if a.YieldToFallback? { SwitchLawStep(cfg, s, a.w); }
    else if a.Fail? { GoneAfterFail(cfg, s, a.w, a.e); }
    else if a.Retry? || a.Crash? { GoneIsLawful(cfg, s, a.w); }
    else { HandlerLawStep(cfg, s, a.w); }
  }

  lemma GoneIsLawful(cfg: Config, s: Sys, w: nat)
    requires w in s.workers
    ensures StandsLawfully(cfg, DropWorker(s, w), w) && StandsLawfully(cfg, DoRetry(s, w), w)
  {
  }

  lemma SaverFacts(cfg: Config, s: Sys, w: nat)
    requires Inv(cfg, s) && w in s.workers && s.workers[w].phase.Saving?
    ensures var g := s.workers[w].generation; g in s.db.generations && SavedOk(s.db.generations[g], Hist(s, g))
  {
    hide Inv, SavedOk;
    TaskFacts(cfg, s, w);
    RowFacts(cfg, s, s.workers[w].generation);
  }

  lemma FreshTaskLaw(cfg: Config, s: Sys, w: nat, v: Worker)
    requires v.phase.Claiming? && !v.failover
    ensures StandsLawfully(cfg, SetWorker(s, w, v), w)
  {
  }

  lemma GoneAfterFail(cfg: Config, s: Sys, w: nat, e: EventId)
    requires w in s.workers && s.workers[w].phase.Failing?
    ensures StandsLawfully(cfg, DoFail(s, w, e), w)
  {
    hide FailAndRefund, TaskLaw;
  }

  /** The other tasks stand where they stood. */
  ghost predicate OthersStand(s: Sys, s': Sys, w: nat) {
    forall v :: v != w ==> (v in s'.workers <==> v in s.workers) && (v in s.workers ==> s'.workers[v] == s.workers[v])
  }

  lemma ClaimerAlone(cfg: Config, s: Sys, w: nat, t: Token)
    requires w in s.workers
    ensures OthersStand(s, DoClaim(cfg, s, w, t), w)
  {
    hide StartProcessing, AfterClaim, Hist;
  }

  lemma SaverAlone(cfg: Config, s: Sys, w: nat, ackLost: bool)
    requires w in s.workers && s.workers[w].phase.Saving?
    ensures OthersStand(s, DoSave(cfg, s, w, ackLost), w)
  {
    hide SaveProviderRequest, AfterError, Hist;
  }

  lemma AskersAlone(cfg: Config, s: Sys, w: nat, reply: Reply)
    requires w in s.workers
    ensures s.workers[w].phase.Submitting? ==> OthersStand(s, DoSubmit(cfg, s, w, reply), w)
    ensures s.workers[w].phase.Polling? ==> OthersStand(s, DoPoll(cfg, s, w, reply), w)
  {
    hide AfterError, Hist;
  }

  lemma EndersAlone(cfg: Config, s: Sys, w: nat, e: EventId, ackLost: bool)
    requires w in s.workers
    ensures s.workers[w].phase.Completing? ==> OthersStand(s, DoComplete(cfg, s, w, e, ackLost), w)
    ensures s.workers[w].phase.Failing? ==> OthersStand(s, DoFail(s, w, e), w)
  {
    hide Complete, FailAndRefund, AfterError, Hist;
  }

  lemma HandlersAlone(cfg: Config, s: Sys, w: nat)
    requires w in s.workers
    ensures s.workers[w].phase.FailoverReading? ==> OthersStand(s, DoReadForFailover(s, w), w)
    ensures s.workers[w].phase.FailoverRequeueing? ==> OthersStand(s, DoYieldToFallback(cfg, s, w), w)
    ensures s.workers[w].phase.Requeueing? ==> OthersStand(s, DoYield(s, w), w)
  {
    hide Requeue, Hist;
  }

  lemma TasksAlone(cfg: Config, s: Sys, a: Action)
    requires ByTask(a) && TaskEnabled(s, a)
    ensures OthersStand(s, TaskStep(cfg, s, a), a.w)
  {
    hide DoClaim, DoSubmit, DoSave, DoPoll, DoComplete, DoFail, DoYield, DoYieldToFallback, DoReadForFailover, AfterError;
    match a {
      case Deliver(w, m) =>
      case Claim(w, t) => ClaimerAlone(cfg, s, w, t);
      case Submit(w, reply) => AskersAlone(cfg, s, w, reply);
      case Save(w, ackLost) => SaverAlone(cfg, s, w, ackLost);
      case Poll(w, reply) => AskersAlone(cfg, s, w, reply);
      case Finishing(w, e, ackLost) => EndersAlone(cfg, s, w, e, ackLost);
      case Fail(w, e) => EndersAlone(cfg, s, w, e, false);
      case Break(w) =>
      case Retry(w) =>
      case Crash(w) =>
      case ReadForFailover(w) => HandlersAlone(cfg, s, w);
      case YieldToFallback(w) => HandlersAlone(cfg, s, w);
      case Yield(w) => HandlersAlone(cfg, s, w);
    }
  }

  // ----- Every step, every run ------------------------------------------------------------------------------------

  lemma IdleLaw(cfg: Config, v: Worker, h: History, h': History)
    requires TaskLaw(cfg, v, h) && !v.phase.Polling? && !v.phase.Completing?
    ensures TaskLaw(cfg, v, h')
  {
  }

  lemma PollerHasRow(cfg: Config, s: Sys, w: nat)
    requires Inv(cfg, s) && w in s.workers && s.workers[w].phase.Held().Some?
    ensures s.workers[w].generation in s.db.generations
  {
    hide Inv, WorkerOk, JobOk;
    TaskFacts(cfg, s, w);
  }

  lemma SameTask(cfg: Config, s: Sys, a: Action, w: nat)
    requires Enabled(cfg, s, a) && (ByTask(a) ==> w != a.w)
    ensures w in Step(cfg, s, a).workers ==> w in s.workers && Step(cfg, s, a).workers[w] == s.workers[w]
  {
    if ByTask(a) {
      TasksAlone(cfg, s, a);
      hide TaskStep, TaskEnabled;
    } else {
      OutsideTasks(cfg, s, a);
      hide Step, Enabled;
    }
  }

  lemma TaskLawStep(cfg: Config, s: Sys, a: Action, w: nat)
    requires Inv(cfg, s) && Laws(cfg, s) && Enabled(cfg, s, a)
    ensures StandsLawfully(cfg, Step(cfg, s, a), w)
  {
    hide Inv, Step, Enabled, Hist, RowLaw, TaskLaw;
    var s' := Step(cfg, s, a);
    if ByTask(a) && w == a.w {
      ActorStep(cfg, s, a);
    } else if w in s'.workers {
      SameTask(cfg, s, a, w);
      var v := s.workers[w];
      if v.phase.Polling? || v.phase.Completing? {
        PollerHasRow(cfg, s, w);
        EveryHistoryMove(cfg, s, a, v.generation);
        TaskLawStays(cfg, v, Hist(s, v.generation), Hist(s', v.generation));
      } else {
        IdleLaw(cfg, v, Hist(s, v.generation), Hist(s', v.generation));
      }
    }
  }

  lemma ActorStep(cfg: Config, s: Sys, a: Action)
    requires Inv(cfg, s) && Laws(cfg, s) && Enabled(cfg, s, a) && ByTask(a)
    ensures StandsLawfully(cfg, Step(cfg, s, a), a.w)
  {
    hide Inv, Laws, StandsLawfully, TaskStep, TaskEnabled;
    if Questions(a) { AskerLaw(cfg, s, a); } else { HandlerLaw(cfg, s, a); }
  }

  lemma OnlyCreateAdds(cfg: Config, s: Sys, a: Action)
    requires Enabled(cfg, s, a) && !a.Create?
    ensures Step(cfg, s, a).db.generations.Keys == s.db.generations.Keys
  {
    if a.Fail? { R.FailKeysStay(cfg, s, a); }
    else if !a.Register? && !a.Pay? { L.BooksUntouched(cfg, s, a); }
    hide TaskStep, TaskEnabled, DispatchStep, DispatchEnabled, EnvironmentStep, EnvironmentEnabled;
  }

  lemma NewRowLaw(cfg: Config, s: Sys, a: Action, g: GenerationId)
    requires Enabled(cfg, s, a) && a.Create? && g in Step(cfg, s, a).db.generations && g !in s.db.generations
    ensures RowLaw(cfg, Step(cfg, s, a).db.generations[g], Hist(Step(cfg, s, a), g))
  {
    hide TaskStep, TaskEnabled, DispatchStep, DispatchEnabled, EnvironmentStep, EnvironmentEnabled, KeyUsed;
  }

  lemma LawsStep(cfg: Config, s: Sys, a: Action)
    requires Inv(cfg, s) && Laws(cfg, s) && Enabled(cfg, s, a)
    ensures Laws(cfg, Step(cfg, s, a))
  {
    hide Inv, Enabled, Step, RowLaw, TaskLaw, Hist;
    var s' := Step(cfg, s, a);
    forall g | g in s'.db.generations ensures RowLaw(cfg, s'.db.generations[g], Hist(s', g)) {
      if g in s.db.generations {
        RowLawStep(cfg, s, a, g);
      } else {
        if !a.Create? { OnlyCreateAdds(cfg, s, a); }
        NewRowLaw(cfg, s, a, g);
      }
    }
    forall w | w in s'.workers ensures TaskLaw(cfg, s'.workers[w], Hist(s', s'.workers[w].generation)) {
      TaskLawStep(cfg, s, a, w);
    }
  }

  lemma {:induction false} LawsRun(cfg: Config, s: Sys, acts: seq<Action>)
    requires Inv(cfg, s) && Laws(cfg, s) && Valid(cfg, s, acts)
    ensures Laws(cfg, Run(cfg, s, acts))
    decreases |acts|
  {
    hide Inv, Laws, Step, Enabled;
    if acts != [] {
      InvStep(cfg, s, acts[0]);
      LawsStep(cfg, s, acts[0]);
      LawsRun(cfg, Step(cfg, s, acts[0]), acts[1..]);
    }
  }

  lemma ReachableLaws(cfg: Config, s: Sys)
    requires Reachable(cfg, s)
    ensures Laws(cfg, s)
  {
    hide Inv, Step, Enabled;
    InitInv(cfg);
    var acts :| Valid(cfg, Init, acts) && Run(cfg, Init, acts) == s;
    LawsRun(cfg, Init, acts);
  }

  // ----- What follows for every reachable state ----------------------------------------------------------------------

  lemma LawsOf(cfg: Config, s: Sys, g: GenerationId)
    requires Reachable(cfg, s) && g in s.db.generations
    ensures g in s.hist && Hist(s, g) == s.hist[g]
    ensures RowLaw(cfg, s.db.generations[g], s.hist[g]) && JobOk(cfg, s.db.generations[g], s.hist[g], s.now)
  {
    hide Reachable, Inv, JobOk, RowLaw, TaskLaw;
    ReachableLaws(cfg, s);
    ReachableInv(cfg, s);
    JobFacts(cfg, s, g);
  }

  /** Every request id was issued by the primary provider or by the fallback, and as long as the
      generation is open its row names the issuer.  Every poll asked the issuer, unless it asked the
      fallback under a claim that found the id in the row. */
  lemma PolledWhereIssued(cfg: Config, s: Sys, g: GenerationId)
    requires Reachable(cfg, s) && g in s.db.generations
    ensures g in s.hist
    ensures var row, h := s.db.generations[g], s.hist[g];
            && (row.requestId.None? ==> row.provider.None? && h.saved == [] && h.polls == [])
            && (row.requestId.Some? ==>
                  && |h.saved| == 1 && h.saved[0].requestId == row.requestId.value
                  && (h.saved[0].provider == cfg.primary || (HasFallback(cfg) && h.saved[0].provider == cfg.fallback))
                  && (!row.Terminal() ==> row.provider == Some(h.saved[0].provider))
                  && forall i :: 0 <= i < |h.polls| ==>
                       h.polls[i].requestId == row.requestId.value
                       && (h.polls[i].provider == h.saved[0].provider
                           || (HasFallback(cfg) && h.polls[i].provider == cfg.fallback && FoundId(h, h.polls[i].token))))
  {
    hide Reachable, GrantsOk, SubmitsOk, SettledOk, ResultOk;
    LawsOf(cfg, s, g);
    var h := s.hist[g];
    hide FoundId;
    assert h.polls != [] ==> Asks(cfg, h, h.polls[0].provider, h.polls[0].token);
    assert forall i :: 0 <= i < |h.polls| ==> Asks(cfg, h, h.polls[i].provider, h.polls[i].token);
  }

  /** The fallback is asked on the fourth delivery at the earliest, and only when the settings name
      a second provider that works. */
  lemma FallbackComesLast(cfg: Config, s: Sys, w: nat)
    requires Reachable(cfg, s) && w in s.workers
    ensures s.workers[w].failover ==> HasFallback(cfg) && s.workers[w].retries >= 3
  {
    hide Reachable, RowLaw, Asks;
    ReachableLaws(cfg, s);
    assert TaskLaw(cfg, s.workers[w], Hist(s, s.workers[w].generation));
  }

  /** What a row records: a result exactly if it is completed; one of four codes, and the refund, if
      it has failed; and a completed one has the id it was polled under. */
  lemma EndsAreRecorded(cfg: Config, s: Sys, g: GenerationId)
    requires Reachable(cfg, s) && g in s.db.generations
    ensures var row := s.db.generations[g];
            && (row.result.Some? <==> row.status == Completed)
            && (row.status == Completed ==> row.requestId.Some? && row.provider.Some? && row.refundedAt.None?)
            && (row.status == Failed ==> row.errorCode.Some? && row.errorCode.value in FINAL_CODES && row.refundedAt.Some?)
  {
    hide Reachable, GrantsOk, SubmitsOk, SettledOk, ResultOk, SavedOk, Asks;
    LawsOf(cfg, s, g);
  }

  /** A claim is granted exactly if the generation is open and nobody holds an unexpired lease on
      it; it makes the claimer the owner for the lease, and counts. */
  lemma ClaimedExactlyWhen(cfg: Config, s: Sys, g: GenerationId, t: Token)
    requires Reachable(cfg, s)
    ensures var (db', claimed) := StartProcessing(s.db, g, t, s.now, cfg.leaseSeconds);
            && (claimed.Some? <==> g in s.db.generations && !s.db.generations[g].Terminal()
                                   && (s.db.generations[g].lease.Some? ==> s.db.generations[g].lease.value < s.now))
            && (claimed.None? ==> db' == s.db)
            && (claimed.Some? ==>
                  && Owner(db', g, t) && db' == s.db.(generations := s.db.generations[g := claimed.value])
                  && var row, row' := s.db.generations[g], claimed.value;
                     && row'.lease == Some(s.now + cfg.leaseSeconds) && row'.startedAt == Some(s.now) && row'.attempts == row.attempts + 1
                     && row'.requestId == row.requestId && row'.provider == row.provider && row'.request == row.request)
  {
    hide Reachable, GrantsOk, SubmitsOk, SettledOk, ResultOk, SavedOk, RowLaw;
    if g in s.db.generations { LawsOf(cfg, s, g); }
  }

  /** A claim of a row that holds an id polls: the issuer, or, if it is the fallback's claim, the
      fallback.  So an id is polled where it was not issued exactly if the fallback's claim finds an
      id that the primary provider has issued since the failover gave the row back. */
  lemma AsksElsewhereExactlyWhen(cfg: Config, s: Sys, w: nat, t: Token)
    requires Reachable(cfg, s) && Enabled(cfg, s, Claim(w, t))
    requires var g := s.workers[w].generation;
             g in s.db.generations && Claimable(s.db.generations[g], s.now) && s.db.generations[g].requestId.Some?
    ensures var g, s' := s.workers[w].generation, Step(cfg, s, Claim(w, t));
            && g in s.hist && s.hist[g].saved != [] && w in s'.workers && s'.workers[w].phase.Polling?
            && var issuer := s.hist[g].saved[0].provider;
               && s'.workers[w].phase.provider == (if s.workers[w].failover then cfg.fallback else issuer)
               && (s'.workers[w].phase.provider != issuer <==> s.workers[w].failover && issuer == cfg.primary)
  {
    var g := s.workers[w].generation;
    LawsOf(cfg, s, g);
    FallbackComesLast(cfg, s, w);
    hide Reachable, GrantsOk, SubmitsOk, SettledOk, ResultOk, Asks, AfterError;
  }

  // ----- The fallback can be asked for an id of the primary provider ---------------------------------------------------

  /** `g` waits in the queue for its first id, a message for it in the broker. */
  ghost predicate Queuing(s: Sys, g: GenerationId, e: EventId) {
    && g in s.db.generations && Process(g, 0) in s.broker && e !in s.db.callbacks && !HasCallback(s.db.callbacks, g)
    && var row := s.db.generations[g];
       row.status == Queued && row.requestId.None? && row.provider.None? && row.refundedAt.None?
  }

  /** The primary provider is unavailable, or answers the submission and then fails for a while. */
  function Unavailable(t: Token, spare: Token, now: int): Delivery {
    Delivery(t, spare, Attempt(Error(Temporary), Error(Temporary)), Attempt(Error(Temporary), Error(Temporary)), now)
  }

  function Halfway(t: Token, spare: Token, now: int): Delivery {
    Delivery(t, spare, Attempt(Answer("id"), Error(Temporary)), Attempt(Error(Temporary), Error(Temporary)), now)
  }

  lemma UnavailableRow(cfg: Config, row: Generation, r: nat, t: Token, spare: Token, now: int)
    requires row.requestId.None? && row.provider.None? && cfg.primary in cfg.constructible
    ensures var (row', verdict, n) := AfterMessage(cfg, row, r, Unavailable(t, spare, now));
            r < 3 ==> verdict.RetryLater? && row'.status == Queued && row'.requestId.None? && row'.provider.None? && row'.refundedAt == row.refundedAt
  {
  }

  /** Message `r` meets an unavailable provider: the next message is in the broker. */
  lemma UnavailableRun(cfg: Config, s: Sys, w: nat, g: GenerationId, r: nat, e: EventId) returns (acts: seq<Action>, s': Sys)
    requires Queuing(s, g, e) && Process(g, r) in s.broker && w !in s.workers && r < 3 && cfg.primary in cfg.constructible
    ensures C.Goes(cfg, s, acts, s') && Queuing(s', g, e) && Process(g, r + 1) in s'.broker && s'.workers == s.workers
  {
    hide Step, Enabled, C.Goes, AfterMessage, HasCallback, JobDone;
    var t := UpperBound(s.issued);
    var row, d := s.db.generations[g], Unavailable(t, t + 1, s.now);
    var used;
    UnavailableRow(cfg, row, r, t, t + 1, s.now);
    s', used := C.MessageIsRun(cfg, s, w, g, r, d, e);
    acts := C.MessageActs(cfg, g, row, r, d, w, e);
    C.FreeAfterRetry(s, s', w, g, r, AfterMessage(cfg, row, r, d).0, used, e);
  }

  /** Three messages in a row. */
  lemma {:induction false} UnavailableThrice(cfg: Config, s: Sys, w: nat, g: GenerationId, r: nat, e: EventId) returns (acts: seq<Action>, s': Sys)
    requires Queuing(s, g, e) && Process(g, r) in s.broker && w !in s.workers && r <= 3 && cfg.primary in cfg.constructible
    ensures C.Goes(cfg, s, acts, s') && Queuing(s', g, e) && Process(g, 3) in s'.broker && s'.workers == s.workers
    decreases 3 - r
  {
    hide C.Goes, Queuing;
    if r == 3 {
      C.GoesNowhere(cfg, s);
      acts, s' := [], s;
    } else {
      var first, s1 := UnavailableRun(cfg, s, w, g, r, e);
      var rest;
      rest, s' := UnavailableThrice(cfg, s1, w, g, r + 1, e);
      C.GoesOn(cfg, s, first, s1, rest, s');
      acts := first + rest;
    }
  }

  lemma Extend(cfg: Config, s: Sys, acts: seq<Action>, mid: Sys, a: Action) returns (acts': seq<Action>, s': Sys)
    requires C.Goes(cfg, s, acts, mid) && Enabled(cfg, mid, a)
    ensures s' == Step(cfg, mid, a) && C.Goes(cfg, s, acts', s')
  {
    hide Step, Enabled, C.Goes;
    s' := Step(cfg, mid, a);
    C.GoesOne(cfg, mid, a);
    C.GoesOn(cfg, s, acts, mid, [a], s');
    acts' := acts + [a];
  }

  /** The fourth message fails over: its worker has given the row back and will ask the fallback. */
  lemma SwitchRun(cfg: Config, s: Sys, w: nat, g: GenerationId, e: EventId) returns (acts: seq<Action>, s': Sys)
    requires Queuing(s, g, e) && Process(g, 3) in s.broker && w !in s.workers && HasFallback(cfg) && cfg.primary in cfg.constructible
    ensures C.Goes(cfg, s, acts, s') && Queuing(s', g, e)
    ensures s'.workers == s.workers[w := Worker(g, 3, true, Claiming)]
  {
    hide Step, Enabled, C.Goes, HasCallback, Claimable, ClaimedRow, QueuedRow, C.Claimed;
    var t := UpperBound(s.issued);
    var row := s.db.generations[g];
    C.Delivered(cfg, s, w, g, 3);
    C.GoesNowhere(cfg, s);
    var v := Worker(g, 3, false, Claiming);
    var a1, s1 := Extend(cfg, s, [], s, Deliver(w, Process(g, 3)));
    C.Waiting(row, s.now);
    C.ClaimStands(cfg, s, s1, w, v, row, {}, t);
    var a2, s2 := Extend(cfg, s, a1, s1, Claim(w, t));
    var row2 := ClaimedRow(row, t, s.now, cfg.leaseSeconds);
    ClaimedFirst(cfg, v, row, t, s.now);
    C.SubmitStands(cfg, s, s2, w, C.Claimed(cfg, v, row, t, s.now), row2, {} + {t}, Error(Temporary));
    var a3, s3 := Extend(cfg, s, a2, s2, Submit(w, Error(Temporary)));
    var v3 := v.(phase := FailoverReading(t));
    C.ReadStands(cfg, s, s3, w, v3, row2, {} + {t});
    var a4, s4 := Extend(cfg, s, a3, s3, ReadForFailover(w));
    C.SwitchGoes(cfg, s, s4, w, v.(phase := FailoverRequeueing(t)), row2, {} + {t});
    acts, s' := Extend(cfg, s, a4, s4, YieldToFallback(w));
    QueuedFirst(row2, s.now);
  }

  lemma ClaimedFirst(cfg: Config, v: Worker, row: Generation, t: Token, now: int)
    requires v == Worker(v.generation, 3, false, Claiming) && row.requestId.None? && row.provider.None? && cfg.primary in cfg.constructible
    requires cfg.fallback != "" && cfg.fallback != cfg.primary
    ensures var row', v' := ClaimedRow(row, t, now, cfg.leaseSeconds), C.Claimed(cfg, v, row, t, now);
            && v' == v.(phase := Submitting(t, cfg.primary)) && AfterError(cfg, v', t, Temporary) == v.(phase := FailoverReading(t))
            && Owns(row', t) && row'.requestId.None? && row'.provider.None? && row'.refundedAt == row.refundedAt
  {
  }

  lemma QueuedFirst(row: Generation, now: int)
    ensures var row' := QueuedRow(row, "provider_failover", now);
            row'.status == Queued && row'.requestId == row.requestId && row'.provider == row.provider && row'.refundedAt == row.refundedAt
  {
  }

  lemma HalfwayRow(cfg: Config, row: Generation, t: Token, spare: Token, now: int)
    requires row.requestId.None? && row.provider.None? && cfg.primary in cfg.constructible
    ensures var (row', verdict, n) := AfterMessage(cfg, row, 0, Halfway(t, spare, now));
            verdict.RetryLater? && row'.status == Queued && row'.requestId == Some("id") && row'.provider == Some(cfg.primary)
  {
  }

  /** Meanwhile another worker gets an id from the primary provider, and gives up polling. */
  lemma HalfwayRun(cfg: Config, s: Sys, w: nat, g: GenerationId, e: EventId) returns (acts: seq<Action>, s': Sys)
    requires Queuing(s, g, e) && w !in s.workers && cfg.primary in cfg.constructible
    ensures C.Goes(cfg, s, acts, s') && s'.workers == s.workers
    ensures g in s'.db.generations && var row := s'.db.generations[g];
            row.status == Queued && row.requestId.Some? && row.provider == Some(cfg.primary)
  {
    hide Step, Enabled, C.Goes, AfterMessage, HasCallback, JobDone;
    var t := UpperBound(s.issued);
    var row, d := s.db.generations[g], Halfway(t, t + 1, s.now);
    var used;
    HalfwayRow(cfg, row, t, t + 1, s.now);
    C.Waiting(row, s.now);
    s', used := C.MessageIsRun(cfg, s, w, g, 0, d, e);
    acts := C.MessageActs(cfg, g, row, 0, d, w, e);
    C.FreeAfterRetry(s, s', w, g, 0, AfterMessage(cfg, row, 0, d).0, used, e);
  }

  /** The last poll asked the fallback for an id that the primary provider has issued. */
  ghost predicate StrayPoll(cfg: Config, s: Sys, g: GenerationId) {
    && g in s.hist && s.hist[g].saved != [] && s.hist[g].polls != []
    && s.hist[g].saved[0].provider == cfg.primary != cfg.fallback
    && s.hist[g].polls[|s.hist[g].polls| - 1].provider == cfg.fallback
  }

  lemma PollRecorded(cfg: Config, s: Sys, w: nat, reply: Reply)
    requires w in s.workers && s.workers[w].phase.Polling?
    ensures Enabled(cfg, s, Poll(w, reply))
    ensures var g, s' := s.workers[w].generation, Step(cfg, s, Poll(w, reply));
            && g in s'.hist && s'.hist[g].saved == Hist(s, g).saved
            && s'.hist[g].polls == Hist(s, g).polls + [Asked(s.workers[w].phase.token, s.workers[w].phase.requestId, reply, s.workers[w].phase.provider)]
  {
    hide AfterError;
  }

  lemma ReachableFrom(cfg: Config, s: Sys, acts: seq<Action>, s': Sys)
    requires Reachable(cfg, s) && C.Goes(cfg, s, acts, s')
    ensures Reachable(cfg, s')
  {
    hide Step, Enabled;
    var before :| Valid(cfg, Init, before) && Run(cfg, Init, before) == s;
    RunAppend(cfg, Init, before, acts);
  }

  lemma StrayClaim(cfg: Config, s: Sys, w: nat, g: GenerationId) returns (acts: seq<Action>, s': Sys)
    requires Reachable(cfg, s) && w in s.workers && s.workers[w] == Worker(g, 3, true, Claiming) && g in s.db.generations
    requires var row := s.db.generations[g]; row.status == Queued && row.requestId.Some? && row.provider == Some(cfg.primary)
    ensures C.Goes(cfg, s, acts, s') && StrayPoll(cfg, s', g)
  {
    hide Reachable, Step, Enabled, C.Goes, Claimable, FoundId;
    var t := UpperBound(s.issued);
    C.Waiting(s.db.generations[g], s.now);
    PolledWhereIssued(cfg, s, g);
    FallbackComesLast(cfg, s, w);
    ClaimIsEnabled(cfg, s, w, t);
    AsksElsewhereExactlyWhen(cfg, s, w, t);
    C.GoesNowhere(cfg, s);
    var a1, s1 := Extend(cfg, s, [], s, Claim(w, t));
    EveryHistoryMove(cfg, s, Claim(w, t), g);
    ClaimKeepsTask(cfg, s, w, t);
    PollRecorded(cfg, s1, w, Error(Temporary));
    acts, s' := Extend(cfg, s, a1, s1, Poll(w, Error(Temporary)));
  }

  lemma ClaimIsEnabled(cfg: Config, s: Sys, w: nat, t: Token)
    requires w in s.workers && s.workers[w].phase.Claiming? && t !in s.issued
    ensures Enabled(cfg, s, Claim(w, t))
  {
  }

  lemma ClaimKeepsTask(cfg: Config, s: Sys, w: nat, t: Token)
    requires Enabled(cfg, s, Claim(w, t)) && w in Step(cfg, s, Claim(w, t)).workers
    ensures w in s.workers && Step(cfg, s, Claim(w, t)).workers[w].generation == s.workers[w].generation
  {
    var row := StartProcessing(s.db, s.workers[w].generation, t, s.now, cfg.leaseSeconds).1;
    assert Step(cfg, s, Claim(w, t)) == DoClaim(cfg, s, w, t);
    if row.Some? { SameWorkFor(cfg, s.workers[w], t, row.value); }
    hide Step, AfterClaim, StartProcessing;
  }

  /** That an id is only polled where it was issued is false under every setting with a working
      fallback: from each reachable state in which a generation waits for its first id with its
      message in the broker, some run asks the fallback for an id of the primary provider. */
  lemma FallbackMayPollPrimarysId(cfg: Config, s: Sys, g: GenerationId)
    requires Reachable(cfg, s) && HasFallback(cfg) && cfg.primary in cfg.constructible
    requires g in s.db.generations && Process(g, 0) in s.broker
    requires s.db.generations[g].status == Queued && s.db.generations[g].requestId.None?
    ensures exists acts :: Valid(cfg, s, acts) && StrayPoll(cfg, Run(cfg, s, acts), g)
  {
    hide Reachable, Step, Enabled, StrayPoll, FoundId;
    var e := UpperBound(s.db.callbacks.Keys);
    var w := UpperBound(s.workers.Keys);
    IsQueuing(cfg, s, g, e);
    hide Queuing;
    var a1, s1 := UnavailableThrice(cfg, s, w, g, 0, e);
    var a2, s2 := SwitchRun(cfg, s1, w, g, e);
    var a3, s3 := HalfwayRun(cfg, s2, w + 1, g, e);
    C.GoesOn(cfg, s, a1, s1, a2, s2);
    C.GoesOn(cfg, s, a1 + a2, s2, a3, s3);
    ReachableFrom(cfg, s, a1 + a2 + a3, s3);
    var a4, s4 := StrayClaim(cfg, s3, w, g);
    C.GoesOn(cfg, s, a1 + a2 + a3, s3, a4, s4);
  }

  lemma IsQueuing(cfg: Config, s: Sys, g: GenerationId, e: EventId)
    requires Reachable(cfg, s) && g in s.db.generations && Process(g, 0) in s.broker && e !in s.db.callbacks
    requires s.db.generations[g].status == Queued && s.db.generations[g].requestId.None?
    ensures Queuing(s, g, e)
  {
    hide Reachable, Inv, JobOk, RowLaw, HasCallback, TablesInv;
    LawsOf(cfg, s, g);
    QueuedRowFacts(cfg, s.db.generations[g], s.hist[g], s.now);
    ReachableInv(cfg, s);
    TablesPart(cfg, s);
    NoCallbackRow(s.db, g);
  }

  lemma QueuedRowFacts(cfg: Config, row: Generation, h: History, now: int)
    requires RowLaw(cfg, row, h) && JobOk(cfg, row, h, now) && row.status == Queued && row.requestId.None?
    ensures row.provider.None? && row.refundedAt.None?
  {
    hide HistoryOk, Asks;
  }

  lemma NoCallbackRow(db: Db, g: GenerationId)
    requires TablesInv(db) && g in db.generations && !db.generations[g].Terminal()
    ensures !HasCallback(db.callbacks, g)
  {
    hide OutboxOk, UsersOk, KeysOk;
    NoCallbackYet(db.generations, db.callbacks, g, db.generations[g]);
  }
}
