/** No work is ever stuck.  From every reachable state, even with the broker emptied and every
    worker gone, recovery, dispatch and fresh workers can bring every generation to an end.
    The runs are constructed; batch limits and oldest-first selection are respected. */
module Recovery {
  import opened Common
  import opened Tables
  import opened Transactions
  import opened JobSystem
  import opened JobInvariant
  import opened TableInvariant
  import opened Fencing
  import opened Ledger
  import opened OneOwner

  /** The steps a rescue may use: time passes, the periodic tasks run, workers get through. */
  predicate Constructive(a: Action) {
    || a.Tick? || a.SelectPending? || (a.DispatchNext? && a.outcome == Published) || (a.Recover? && a.locked == {})
    || a.Deliver? || a.Claim? || (a.Submit? && a.reply.Answer?) || (a.Save? && !a.ackLost)
    || (a.Poll? && a.reply.Answer?) || (a.Finishing? && !a.ackLost) || a.Yield? || a.Retry? || a.Fail?
  }

  /** `acts` leads from `s` to `s'`, by constructive steps, without failing anything if `kind`. */
  ghost predicate Leads(cfg: Config, s: Sys, acts: seq<Action>, s': Sys, kind: bool) {
    && Valid(cfg, s, acts) && Run(cfg, s, acts) == s'
    && (forall i :: 0 <= i < |acts| ==> Constructive(acts[i]) && (kind ==> !acts[i].Fail?))
  }

  lemma Stay(cfg: Config, s: Sys, kind: bool)
    ensures Leads(cfg, s, [], s, kind)
  {
  }

  lemma OneStep(cfg: Config, s: Sys, a: Action, kind: bool)
    requires Enabled(cfg, s, a) && Constructive(a) && (kind ==> !a.Fail?)
    ensures Leads(cfg, s, [a], Step(cfg, s, a), kind)
  {
    hide Enabled, Step, Constructive;
    var s' := Step(cfg, s, a);
    assert [a][1..] == [];
    assert Valid(cfg, s', []) && Run(cfg, s', []) == s';
    assert Valid(cfg, s, [a]);
  }

  lemma Chain(cfg: Config, s: Sys, a: seq<Action>, mid: Sys, b: seq<Action>, s': Sys, kind: bool)
    requires Leads(cfg, s, a, mid, kind) && Leads(cfg, mid, b, s', kind)
    ensures Leads(cfg, s, a + b, s', kind)
  {
    hide Constructive;
    RunAppend(cfg, s, a, b);
  }

  lemma StepThen(cfg: Config, s: Sys, a: Action, b: seq<Action>, s': Sys, kind: bool)
    requires Enabled(cfg, s, a) && Constructive(a) && (kind ==> !a.Fail?)
    requires Leads(cfg, Step(cfg, s, a), b, s', kind)
    ensures Leads(cfg, s, [a] + b, s', kind)
  {
    hide Constructive, Enabled, Step;
    OneStep(cfg, s, a, kind);
    Chain(cfg, s, [a], Step(cfg, s, a), b, s', kind);
  }

  ghost function Open(s: Sys): set<GenerationId> {
    set g | g in s.db.generations && !s.db.generations[g].Terminal()
  }

  // ----- Rescues make no new work ------------------------------------------------------------------

  lemma KeysStay(cfg: Config, s: Sys, a: Action)
    requires Enabled(cfg, s, a) && Constructive(a)
    ensures Step(cfg, s, a).db.generations.Keys == s.db.generations.Keys
  {
    hide Step, Enabled;
    if a.Fail? {
      FailDb(cfg, s, a.w, a.e);
      FailKeysStay(cfg, s, a);
    } else {
      BooksUntouched(cfg, s, a);
    }
  }

  lemma FailKeysStay(cfg: Config, s: Sys, a: Action)
    requires Enabled(cfg, s, a) && a.Fail?
    ensures Step(cfg, s, a).db.generations.Keys == s.db.generations.Keys
  {
    FailDb(cfg, s, a.w, a.e);
    var v := s.workers[a.w];
    RefundedRows(s.db, v.generation, v.phase.token, v.phase.code, a.e, s.now);
    hide Step, FailAndRefund;
  }

  lemma NoNewWork(cfg: Config, s: Sys, a: Action)
    requires Inv(cfg, s) && Enabled(cfg, s, a) && Constructive(a)
    ensures Open(Step(cfg, s, a)) <= Open(s)
  {
    hide Inv, Step, Enabled, Constructive;
    KeysStay(cfg, s, a);
    forall g | g in Open(Step(cfg, s, a)) ensures g in Open(s) {
      if s.db.generations[g].Terminal() { TerminalStep(cfg, s, a, g); }
    }
  }

  lemma {:induction false} RescueMakesNoNewWork(cfg: Config, s: Sys, acts: seq<Action>, s': Sys, kind: bool)
    requires Inv(cfg, s) && Leads(cfg, s, acts, s', kind)
    ensures Open(s') <= Open(s) && Inv(cfg, s') && s'.db.generations.Keys == s.db.generations.Keys
    decreases |acts|
  {
    hide Inv, Step, Enabled, Constructive, Open;
    if acts != [] {
      var mid := Step(cfg, s, acts[0]);
      InvStep(cfg, s, acts[0]);
      NoNewWork(cfg, s, acts[0]);
      KeysStay(cfg, s, acts[0]);
      assert forall i :: 0 <= i < |acts[1..]| ==> acts[1..][i] == acts[i + 1];
      RescueMakesNoNewWork(cfg, mid, acts[1..], s', kind);
    }
  }

  lemma KindStep(cfg: Config, s: Sys, a: Action, g: GenerationId)
    requires Inv(cfg, s) && Enabled(cfg, s, a) && !a.Fail? && g in s.db.generations && s.db.generations[g].status != Failed
    ensures g in Step(cfg, s, a).db.generations && Step(cfg, s, a).db.generations[g].status != Failed
  {
    hide Inv, Step, Enabled;
    EveryRowMove(cfg, s, a, g);
  }

  /** A rescue without a failing step fails nobody. */
  lemma {:induction false} KindRescue(cfg: Config, s: Sys, acts: seq<Action>, s': Sys, g: GenerationId)
    requires Inv(cfg, s) && Leads(cfg, s, acts, s', true) && g in s.db.generations && s.db.generations[g].status != Failed
    ensures g in s'.db.generations && s'.db.generations[g].status != Failed
    decreases |acts|
  {
    hide Inv, Step, Enabled, Constructive;
    if acts != [] {
      InvStep(cfg, s, acts[0]);
      KindStep(cfg, s, acts[0], g);
      assert forall i :: 0 <= i < |acts[1..]| ==> acts[1..][i] == acts[i + 1];
      KindRescue(cfg, Step(cfg, s, acts[0]), acts[1..], s', g);
    }
  }

  // ----- One worker gets through ---------------------------------------------------------------------

  /** The worker `w` stands at `p` and holds the current claim `t` of `g`. */
  ghost predicate Working(s: Sys, w: nat, g: GenerationId, r: nat, t: Token, p: Phase) {
    w in s.workers && s.workers[w] == Worker(g, r, false, p) && p.Held() == Some(t) && Owner(s.db, g, t)
  }

  lemma ClaimWorks(cfg: Config, s: Sys, w: nat, g: GenerationId, r: nat, t: Token)
    requires w in s.workers && s.workers[w] == Worker(g, r, false, Claiming) && t !in s.issued
    requires g in s.db.generations && Claimable(s.db.generations[g], s.now)
    ensures Enabled(cfg, s, Claim(w, t))
    ensures var s' := Step(cfg, s, Claim(w, t));
            && Working(s', w, g, r, t, AfterClaim(cfg, s.workers[w], t, s'.db.generations[g]).phase)
            && s'.db.generations[g] == ClaimedRow(s.db.generations[g], t, s.now, cfg.leaseSeconds)
  {
  }

  lemma SubmitWorks(cfg: Config, s: Sys, w: nat, g: GenerationId, r: nat, t: Token, name: string, id: string)
    requires Working(s, w, g, r, t, Submitting(t, name))
    ensures Enabled(cfg, s, Submit(w, Answer(id)))
    ensures Working(Step(cfg, s, Submit(w, Answer(id))), w, g, r, t, Saving(t, name, id))
  {
  }

  lemma SaveWorks(cfg: Config, s: Sys, w: nat, g: GenerationId, r: nat, t: Token, name: string, id: string)
    requires Inv(cfg, s) && Working(s, w, g, r, t, Saving(t, name, id))
    ensures Enabled(cfg, s, Save(w, false))
    ensures Working(Step(cfg, s, Save(w, false)), w, g, r, t, Polling(t, name, id))
  {
    hide Inv, AfterError, Hist;
    OwnerSaveSucceeds(cfg, s, w);
  }

  lemma PollWorks(cfg: Config, s: Sys, w: nat, g: GenerationId, r: nat, t: Token, name: string, id: string, result: string)
    requires Working(s, w, g, r, t, Polling(t, name, id))
    ensures Enabled(cfg, s, Poll(w, Answer(result)))
    ensures Working(Step(cfg, s, Poll(w, Answer(result))), w, g, r, t, Completing(t, name, id, result))
  {
  }

  lemma FinishWorks(cfg: Config, s: Sys, w: nat, g: GenerationId, r: nat, t: Token, name: string, id: string, result: string, e: EventId)
    requires Inv(cfg, s) && Working(s, w, g, r, t, Completing(t, name, id, result)) && e !in s.db.callbacks
    ensures Enabled(cfg, s, Finishing(w, e, false))
    ensures var s' := Step(cfg, s, Finishing(w, e, false));
            g in s'.db.generations && s'.db.generations[g].status == Completed
  {
    hide Inv, Finish;
    NeverRaised(cfg, s, g, CompletedRow(s.db.generations[g], result, name, s.now), e);
    FinishedRow(s.db, g, CompletedRow(s.db.generations[g], result, name, s.now), e, s.now);
  }

  lemma FinishedRow(db: Db, g: GenerationId, row: Generation, e: EventId, now: int)
    requires Finish(db, g, row, e, now).1 == Wrote
    ensures Finish(db, g, row, e, now).0.generations == db.generations[g := row]
  {
  }

  lemma OwnedRefundable(cfg: Config, s: Sys, g: GenerationId, t: Token, code: string, e: EventId)
    requires Inv(cfg, s) && Owner(s.db, g, t) && e !in s.db.callbacks
    ensures Refundable(s.db.generations[g], t)
    ensures Finish(s.db, g, FailedRow(s.db.generations[g], code, s.now), e, s.now).1 == Wrote
  {
    hide Inv, Finish, Refundable, JobOk;
    JobFacts(cfg, s, g);
    RefundGuardIsOwnership(cfg, s.db.generations[g], s.hist[g], s.now, t);
    NeverRaised(cfg, s, g, FailedRow(s.db.generations[g], code, s.now), e);
  }

  lemma FailWorks(cfg: Config, s: Sys, w: nat, g: GenerationId, r: nat, t: Token, code: string, e: EventId)
    requires Inv(cfg, s) && Working(s, w, g, r, t, Failing(t, code)) && e !in s.db.callbacks
    ensures Enabled(cfg, s, Fail(w, e))
    ensures var s' := Step(cfg, s, Fail(w, e));
            g in s'.db.generations && s'.db.generations[g].Terminal()
  {
    hide Inv, Step, Finish, Refundable;
    FailDb(cfg, s, w, e);
    OwnedRefundable(cfg, s, g, t, code, e);
    FinishedRow(s.db, g, FailedRow(s.db.generations[g], code, s.now), e, s.now);
  }

  lemma RequeueWorks(cfg: Config, s: Sys, w: nat, g: GenerationId, r: nat, t: Token, code: string)
    requires Working(s, w, g, r, t, Requeueing(t, code))
    ensures Enabled(cfg, s, Yield(w)) && var s' := Step(cfg, s, Yield(w));
            && w in s'.workers && s'.workers[w] == Worker(g, r, false, Retrying)
            && g in s'.db.generations && s'.db.generations[g] == QueuedRow(s.db.generations[g], code, s.now)
  {
  }

  lemma RetryWorks(cfg: Config, s: Sys, w: nat, g: GenerationId, r: nat)
    requires w in s.workers && s.workers[w] == Worker(g, r, false, Retrying)
    ensures Enabled(cfg, s, Retry(w))
    ensures Process(g, r + 1) in Step(cfg, s, Retry(w)).broker && Step(cfg, s, Retry(w)).db == s.db
  {
  }

  lemma YieldWorks(cfg: Config, s: Sys, w: nat, g: GenerationId, r: nat, t: Token, code: string)
    requires Working(s, w, g, r, t, Requeueing(t, code))
    ensures Enabled(cfg, s, Yield(w)) && var s' := Step(cfg, s, Yield(w));
            && g in s'.db.generations && s'.db.generations[g] == QueuedRow(s.db.generations[g], code, s.now)
            && Enabled(cfg, s', Retry(w))
            && Process(g, r + 1) in Step(cfg, s', Retry(w)).broker && Step(cfg, s', Retry(w)).db == s'.db
  {
    hide Step, Enabled, Working;
    RequeueWorks(cfg, s, w, g, r, t, code);
    RetryWorks(cfg, Step(cfg, s, Yield(w)), w, g, r);
  }

  /** From a worker about to submit, or about to poll, to a completed generation. */
  lemma PollToEnd(cfg: Config, s: Sys, w: nat, g: GenerationId, r: nat, t: Token, name: string, id: string)
    returns (acts: seq<Action>, s': Sys)
    requires Inv(cfg, s) && Working(s, w, g, r, t, Polling(t, name, id))
    ensures Leads(cfg, s, acts, s', true) && g in s'.db.generations && s'.db.generations[g].Terminal()
  {
    hide Inv, Enabled, Step, Leads, Working;
    var e := UpperBound(s.db.callbacks.Keys);
    PollWorks(cfg, s, w, g, r, t, name, id, "result");
    var s1 := Step(cfg, s, Poll(w, Answer("result")));
    InvStep(cfg, s, Poll(w, Answer("result")));
    PollDb(cfg, s, w, Answer("result"));
    FinishWorks(cfg, s1, w, g, r, t, name, id, "result", e);
    s' := Step(cfg, s1, Finishing(w, e, false));
    OneStep(cfg, s1, Finishing(w, e, false), true);
    StepThen(cfg, s, Poll(w, Answer("result")), [Finishing(w, e, false)], s', true);
    acts := [Poll(w, Answer("result"))] + [Finishing(w, e, false)];
  }

  lemma PollDb(cfg: Config, s: Sys, w: nat, reply: Reply)
    requires Enabled(cfg, s, Poll(w, reply))
    ensures Step(cfg, s, Poll(w, reply)).db == s.db
  {
  }

  lemma SubmitToEnd(cfg: Config, s: Sys, w: nat, g: GenerationId, r: nat, t: Token, name: string)
    returns (acts: seq<Action>, s': Sys)
    requires Inv(cfg, s) && Working(s, w, g, r, t, Submitting(t, name))
    ensures Leads(cfg, s, acts, s', true) && g in s'.db.generations && s'.db.generations[g].Terminal()
  {
    hide Inv, Enabled, Step, Leads, Working;
    SubmitWorks(cfg, s, w, g, r, t, name, "id");
    var s1 := Step(cfg, s, Submit(w, Answer("id")));
    InvStep(cfg, s, Submit(w, Answer("id")));
    SaveWorks(cfg, s1, w, g, r, t, name, "id");
    var s2 := Step(cfg, s1, Save(w, false));
    InvStep(cfg, s1, Save(w, false));
    acts, s' := PollToEnd(cfg, s2, w, g, r, t, name, "id");
    StepThen(cfg, s1, Save(w, false), acts, s', true);
    acts := [Save(w, false)] + acts;
    StepThen(cfg, s, Submit(w, Answer("id")), acts, s', true);
    acts := [Submit(w, Answer("id"))] + acts;
  }

  /** A message of `g` reaches a fresh worker, which brings `g` to an end: completed when the
      provider can be constructed, and otherwise failed and refunded after the retries. */
  lemma {:induction false} MessageToEnd(cfg: Config, s: Sys, g: GenerationId, r: nat)
    returns (acts: seq<Action>, s': Sys)
    requires Inv(cfg, s) && Process(g, r) in s.broker
    requires g in s.db.generations && Claimable(s.db.generations[g], s.now)
    ensures Leads(cfg, s, acts, s', cfg.primary in cfg.constructible)
    ensures g in s'.db.generations && s'.db.generations[g].Terminal()
    decreases MAX_RETRIES - r
  {
    hide Inv, Enabled, Step, Leads;
    var kind := cfg.primary in cfg.constructible;
    var w := UpperBound(s.workers.Keys);
    var t := UpperBound(s.issued);
    var s1 := DeliverWorks(cfg, s, w, g, r);
    ClaimWorks(cfg, s1, w, g, r, t);
    var s2 := Step(cfg, s1, Claim(w, t));
    InvStep(cfg, s1, Claim(w, t));
    NameConstructible(cfg, s, g);
    var p := s2.workers[w].phase;
    if p.Polling? {
      acts, s' := PollToEnd(cfg, s2, w, g, r, t, p.provider, p.requestId);
      Kinder(cfg, s2, acts, s', kind);
    } else if p.Submitting? {
      acts, s' := SubmitToEnd(cfg, s2, w, g, r, t, p.provider);
      Kinder(cfg, s2, acts, s', kind);
    } else if r < MAX_RETRIES {
      YieldWorks(cfg, s2, w, g, r, t, p.code);
      var s3 := Step(cfg, s2, Yield(w));
      InvStep(cfg, s2, Yield(w));
      var s4 := Step(cfg, s3, Retry(w));
      InvStep(cfg, s3, Retry(w));
      acts, s' := MessageToEnd(cfg, s4, g, r + 1);
      StepThen(cfg, s3, Retry(w), acts, s', kind);
      acts := [Retry(w)] + acts;
      StepThen(cfg, s2, Yield(w), acts, s', kind);
      acts := [Yield(w)] + acts;
    } else {
      var e := UpperBound(s2.db.callbacks.Keys);
      FailWorks(cfg, s2, w, g, r, t, p.code, e);
      s' := Step(cfg, s2, Fail(w, e));
      OneStep(cfg, s2, Fail(w, e), kind);
      acts := [Fail(w, e)];
    }
    StepThen(cfg, s1, Claim(w, t), acts, s', kind);
    acts := [Claim(w, t)] + acts;
    StepThen(cfg, s, Deliver(w, Process(g, r)), acts, s', kind);
    acts := [Deliver(w, Process(g, r))] + acts;
  }

  lemma Kinder(cfg: Config, s: Sys, acts: seq<Action>, s': Sys, kind: bool)
    requires Leads(cfg, s, acts, s', true)
    ensures Leads(cfg, s, acts, s', kind)
  {
    hide Constructive, Valid, Run;
  }

  lemma DeliverWorks(cfg: Config, s: Sys, w: nat, g: GenerationId, r: nat) returns (s': Sys)
    requires Inv(cfg, s) && Process(g, r) in s.broker && w !in s.workers
    ensures Enabled(cfg, s, Deliver(w, Process(g, r))) && s' == Step(cfg, s, Deliver(w, Process(g, r)))
    ensures Inv(cfg, s') && s'.db == s.db && s'.now == s.now && s'.issued == s.issued
    ensures w in s'.workers && s'.workers[w] == Worker(g, r, false, Claiming)
  {
    hide Inv;
    assert Enabled(cfg, s, Deliver(w, Process(g, r)));
    InvStep(cfg, s, Deliver(w, Process(g, r)));
    s' := Step(cfg, s, Deliver(w, Process(g, r)));
  }

  lemma NameConstructible(cfg: Config, s: Sys, g: GenerationId)
    requires Inv(cfg, s) && g in s.db.generations
    ensures s.db.generations[g].provider.Some? ==> s.db.generations[g].provider.value in cfg.constructible
  {
    hide Inv;
    JobFacts(cfg, s, g);
    hide GrantsOk, SubmitsOk, SavedOk, SettledOk;
  }

  // ----- Pending events reach the broker ------------------------------------------------------------------

  /** `g` waits, and its event `e` is still to be published or its message is in the broker. */
  ghost predicate Announced(s: Sys, g: GenerationId, e: EventId) {
    && g in s.db.generations && e in s.db.outbox && s.db.outbox[e].generation == g
    && (s.db.generations[g].status == Queued
        || (s.db.generations[g].status == Created && s.db.outbox[e].processedAt.None?))
    && (s.db.outbox[e].processedAt.None? || Process(g, 0) in s.broker)
  }

  lemma PublishWorks(cfg: Config, s: Sys, d: nat, g: GenerationId, e: EventId)
    requires d in s.dispatchers && s.dispatchers[d] != [] && s.dispatchers[d][0] in PendingEvents(s.db)
    requires Announced(s, g, e)
    ensures Enabled(cfg, s, DispatchNext(d, Published))
    ensures var s' := Step(cfg, s, DispatchNext(d, Published));
            && d in s'.dispatchers && s'.dispatchers[d] == s.dispatchers[d][1..]
            && PendingEvents(s'.db) == PendingEvents(s.db) - {s.dispatchers[d][0]}
            && Announced(s', g, e)
  {
  }

  lemma {:induction false} PublishAll(cfg: Config, s: Sys, d: nat, g: GenerationId, e: EventId)
    returns (acts: seq<Action>, s': Sys)
    requires Inv(cfg, s) && d in s.dispatchers && Announced(s, g, e)
    requires NoDup(s.dispatchers[d]) && forall x :: x in s.dispatchers[d] ==> x in PendingEvents(s.db)
    ensures Leads(cfg, s, acts, s', true) && Inv(cfg, s') && Announced(s', g, e)
    ensures |PendingEvents(s'.db)| == |PendingEvents(s.db)| - |s.dispatchers[d]|
    decreases |s.dispatchers[d]|
  {
    hide Inv, Enabled, Step, Leads, Announced, PendingEvents;
    if s.dispatchers[d] == [] {
      Stay(cfg, s, true);
      acts, s' := [], s;
    } else {
      var x := s.dispatchers[d][0];
      PublishWorks(cfg, s, d, g, e);
      var s1 := Step(cfg, s, DispatchNext(d, Published));
      InvStep(cfg, s, DispatchNext(d, Published));
      assert PendingEvents(s1.db).Keys == PendingEvents(s.db).Keys - {x};
      assert forall y :: y in s.dispatchers[d][1..] ==> y in s.dispatchers[d] && y != x;
      acts, s' := PublishAll(cfg, s1, d, g, e);
      StepThen(cfg, s, DispatchNext(d, Published), acts, s', true);
      acts := [DispatchNext(d, Published)] + acts;
    }
  }

  lemma SelectWorks(cfg: Config, s: Sys, d: nat, ids: seq<EventId>, g: GenerationId, e: EventId)
    requires d !in s.dispatchers && IsBatch(PendingEvents(s.db), cfg.batchLimit, ids) && Announced(s, g, e)
    ensures Enabled(cfg, s, SelectPending(d, ids))
    ensures var s' := Step(cfg, s, SelectPending(d, ids));
            s'.db == s.db && d in s'.dispatchers && s'.dispatchers[d] == ids && Announced(s', g, e)
  {
    hide IsBatch;
  }

  /** Batch after batch of at most `batchLimit` events, oldest first, until the message of `g`
      is in the broker. */
  lemma {:induction false} Drain(cfg: Config, s: Sys, g: GenerationId, e: EventId)
    returns (acts: seq<Action>, s': Sys)
    requires Inv(cfg, s) && Announced(s, g, e) && cfg.batchLimit > 0
    ensures Leads(cfg, s, acts, s', true) && Inv(cfg, s')
    ensures Process(g, 0) in s'.broker && g in s'.db.generations && s'.db.generations[g].status == Queued
    decreases |PendingEvents(s.db)|
  {
    hide Inv, Enabled, Step, Leads, IsBatch;
    if s.db.outbox[e].processedAt.Some? {
      Stay(cfg, s, true);
      acts, s' := [], s;
    } else {
      assert e in PendingEvents(s.db);
      var d := UpperBound(s.dispatchers.Keys);
      var ids := SomeBatch(PendingEvents(s.db), cfg.batchLimit);
      BatchFacts(PendingEvents(s.db), cfg.batchLimit, ids);
      SelectWorks(cfg, s, d, ids, g, e);
      var s1 := Step(cfg, s, SelectPending(d, ids));
      InvStep(cfg, s, SelectPending(d, ids));
      var a1, s2 := PublishAll(cfg, s1, d, g, e);
      var a2, s3 := Drain(cfg, s2, g, e);
      Chain(cfg, s1, a1, s2, a2, s3, true);
      StepThen(cfg, s, SelectPending(d, ids), a1 + a2, s3, true);
      acts, s' := [SelectPending(d, ids)] + (a1 + a2), s3;
    }
  }

  lemma BatchFacts<K(!new)>(rank: map<K, int>, limit: nat, ids: seq<K>)
    requires IsBatch(rank, limit, ids)
    ensures NoDup(ids) && (forall k :: k in ids ==> k in rank)
    ensures limit > 0 && rank != map[] ==> ids != []
  {
  }

  // ----- Stale work is announced again --------------------------------------------------------------------------

  /** Enough time has passed for every open generation that was ever queued or claimed. */
  ghost predicate Ripe(cfg: Config, s: Sys) {
    forall g :: g in Open(s) ==>
      s.db.generations[g].status == Created || Stale(s.db.generations[g], s.now, cfg.queuedRecovery)
  }

  lemma WaitWorks(cfg: Config, s: Sys) returns (a: Action)
    requires Inv(cfg, s)
    ensures Enabled(cfg, s, a) && Constructive(a) && !a.Fail?
    ensures Ripe(cfg, Step(cfg, s, a)) && Open(Step(cfg, s, a)) == Open(s) && Inv(cfg, Step(cfg, s, a))
  {
    hide Inv;
    var d: nat := Max(0, Max(cfg.leaseSeconds, cfg.queuedRecovery)) + 1;
    a := Tick(d);
    InvStep(cfg, s, a);
    forall g | g in Open(s) ensures s.db.generations[g].status == Created || Stale(s.db.generations[g], s.now + d, cfg.queuedRecovery) {
      JobFacts(cfg, s, g);
      AgesRipe(cfg, s.db.generations[g], s.hist[g], s.now, d);
    }
    hide Stale;
  }

  lemma AgesRipe(cfg: Config, row: Generation, h: History, now: int, d: nat)
    requires JobOk(cfg, row, h, now) && !row.Terminal() && d > cfg.leaseSeconds && d > cfg.queuedRecovery
    ensures row.status == Created || Stale(row, now + d, cfg.queuedRecovery)
  {
    hide GrantsOk, SubmitsOk, SavedOk, SettledOk;
  }

  lemma OutboxOf(cfg: Config, s: Sys, g: GenerationId) returns (e: EventId)
    requires Inv(cfg, s) && g in s.db.generations
    ensures e in s.db.outbox && s.db.outbox[e].generation == g
    ensures s.db.generations[g].status == Created ==> s.db.outbox[e].processedAt.None?
  {
    hide JobsInv, CallbacksOk, UsersOk, KeysOk;
    assert HasOutbox(s.db.outbox, g);
    e :| e in s.db.outbox && s.db.outbox[e].generation == g;
  }

  lemma RecoverWorks(cfg: Config, s: Sys, ids: seq<GenerationId>, g: GenerationId, e: EventId)
    requires IsBatch(StaleRows(s.db, s.now, cfg.queuedRecovery, {}), cfg.batchLimit, ids) && g in ids
    requires e in s.db.outbox && s.db.outbox[e].generation == g
    ensures Enabled(cfg, s, Recover({}, ids))
    ensures Announced(Step(cfg, s, Recover({}, ids)), g, e)
  {
    assert g in StaleRows(s.db, s.now, cfg.queuedRecovery, {});
    hide IsBatch;
  }

  lemma Announce(cfg: Config, s: Sys) returns (acts: seq<Action>, s': Sys, g: GenerationId, e: EventId)
    requires Inv(cfg, s) && Ripe(cfg, s) && Open(s) != {} && cfg.batchLimit > 0
    ensures Leads(cfg, s, acts, s', true) && Inv(cfg, s') && Announced(s', g, e) && g in Open(s)
  {
    hide Inv, Enabled, Step, Leads, IsBatch;
    if x :| x in Open(s) && s.db.generations[x].status == Created {
      g := x;
      e := OutboxOf(cfg, s, g);
      Stay(cfg, s, true);
      acts, s' := [], s;
    } else {
      var x :| x in Open(s);
      var rank := StaleRows(s.db, s.now, cfg.queuedRecovery, {});
      assert x in rank;
      var ids := SomeBatch(rank, cfg.batchLimit);
      BatchFacts(rank, cfg.batchLimit, ids);
      g := ids[0];
      assert g in rank;
      e := OutboxOf(cfg, s, g);
      RecoverWorks(cfg, s, ids, g, e);
      s' := Step(cfg, s, Recover({}, ids));
      InvStep(cfg, s, Recover({}, ids));
      OneStep(cfg, s, Recover({}, ids), true);
      acts := [Recover({}, ids)];
    }
  }

  // ----- One rescue, then all of them ------------------------------------------------------------------------------

  lemma RescueOne(cfg: Config, s: Sys) returns (acts: seq<Action>, s': Sys)
    requires Inv(cfg, s) && Open(s) != {} && cfg.batchLimit > 0
    ensures Leads(cfg, s, acts, s', cfg.primary in cfg.constructible) && Open(s') < Open(s)
  {
    hide Inv, Enabled, Step, Leads, Ripe, Announced, Constructive;
    var kind := cfg.primary in cfg.constructible;
    var wait := WaitWorks(cfg, s);
    var s1 := Step(cfg, s, wait);
    var a1, s2, g, e := Announce(cfg, s1);
    var a2, s3 := Drain(cfg, s2, g, e);
    var a3, s4 := MessageToEnd(cfg, s3, g, 0);
    Kinder(cfg, s1, a1, s2, kind);
    Kinder(cfg, s2, a2, s3, kind);
    Chain(cfg, s2, a2, s3, a3, s4, kind);
    Chain(cfg, s1, a1, s2, a2 + a3, s4, kind);
    StepThen(cfg, s, wait, a1 + (a2 + a3), s4, kind);
    acts, s' := [wait] + (a1 + (a2 + a3)), s4;
    RescueMakesNoNewWork(cfg, s, acts, s', kind);
    assert g in Open(s) && g !in Open(s');
  }

  lemma {:induction false} RescueAll(cfg: Config, s: Sys) returns (acts: seq<Action>, s': Sys)
    requires Inv(cfg, s) && cfg.batchLimit > 0
    ensures Leads(cfg, s, acts, s', cfg.primary in cfg.constructible) && Open(s') == {}
    decreases Open(s)
  {
    hide Inv, Enabled, Step, Leads, Open;
    var kind := cfg.primary in cfg.constructible;
    if Open(s) == {} {
      Stay(cfg, s, kind);
      acts, s' := [], s;
    } else {
      var a1, s1 := RescueOne(cfg, s);
      RescueMakesNoNewWork(cfg, s, a1, s1, kind);
      var a2, s2 := RescueAll(cfg, s1);
      Chain(cfg, s, a1, s1, a2, s2, kind);
      acts, s' := a1 + a2, s2;
    }
  }

  /** The state after the broker lost everything and every task and dispatcher died. */
  function WipedOut(s: Sys): Sys {
    s.(broker := multiset{}, workers := map[], dispatchers := map[])
  }

  lemma WipedOutInv(cfg: Config, s: Sys)
    requires Inv(cfg, s)
    ensures Inv(cfg, WipedOut(s))
  {
    hide TablesInv, JobOk, TaskOk;
  }

  /** From every reachable state, and also after losing the whole broker and every worker,
      some run of the periodic tasks and of fresh workers ends every generation.  If the
      primary provider can be constructed it fails nobody: every open generation completes. */
  lemma NoStuckWork(cfg: Config, s: Sys)
    requires Reachable(cfg, s) && cfg.batchLimit > 0
    ensures exists acts, s' :: Ended(cfg, s, acts, s')
    ensures exists acts, s' :: Ended(cfg, WipedOut(s), acts, s')
  {
    hide Inv, Valid, Run, Leads;
    ReachableInv(cfg, s);
    var acts, s' := RescueAll(cfg, s);
    AllEnded(cfg, s, acts, s');
    WipedOutInv(cfg, s);
    var acts2, s2 := RescueAll(cfg, WipedOut(s));
    AllEnded(cfg, WipedOut(s), acts2, s2);
  }

  ghost predicate Ended(cfg: Config, s: Sys, acts: seq<Action>, s': Sys) {
    && Leads(cfg, s, acts, s', cfg.primary in cfg.constructible)
    && s'.db.generations.Keys == s.db.generations.Keys
    && (forall g :: g in s'.db.generations ==> s'.db.generations[g].Terminal())
    && (cfg.primary in cfg.constructible ==>
          forall g :: g in Open(s) ==> s'.db.generations[g].status == Completed)
  }

  lemma AllEnded(cfg: Config, s: Sys, acts: seq<Action>, s': Sys)
    requires Inv(cfg, s) && Leads(cfg, s, acts, s', cfg.primary in cfg.constructible) && Open(s') == {}
    ensures Ended(cfg, s, acts, s')
  {
    hide Inv, Leads;
    RescueMakesNoNewWork(cfg, s, acts, s', cfg.primary in cfg.constructible);
    assert forall g :: g in s'.db.generations && !s'.db.generations[g].Terminal() ==> g in Open(s');
    if cfg.primary in cfg.constructible {
      forall g | g in Open(s) ensures s'.db.generations[g].status == Completed {
        KindRescue(cfg, s, acts, s', g);
      }
    }
  }
}
