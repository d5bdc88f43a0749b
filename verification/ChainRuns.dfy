/** The sequential account of one message and its retries is an account of the protocol: with
    nobody interfering, `AfterMessage` and `AfterChain` are where a run of the state machine ends
    in which one worker is given the same tokens, answers and times. */
module ChainRuns {
  import opened Common
  import opened Tables
  import opened Transactions
  import opened JobSystem
  import opened RetryChain

  // ----- The actions -------------------------------------------------------------------------------

  function PollActs(w: nat, a: Attempt, e: EventId): seq<Action> {
    [Poll(w, a.poll)] + if a.poll.Answer? then [Finishing(w, e, false)] else []
  }

  /** What a worker does from the phase its claim led to until the attempt is over. */
  function PhaseActs(p: Phase, w: nat, a: Attempt, e: EventId): seq<Action> {
    if p.Polling? then PollActs(w, a, e)
    else if !p.Submitting? then []
    else [Submit(w, a.submit)] + if a.submit.Answer? then [Save(w, false)] + PollActs(w, a, e) else []
  }

  function Claimed(cfg: Config, v: Worker, row: Generation, t: Token, now: int): Worker {
    AfterClaim(cfg, v, t, ClaimedRow(row, t, now, cfg.leaseSeconds))
  }

  function OnceActs(cfg: Config, v: Worker, row: Generation, t: Token, w: nat, a: Attempt, e: EventId, now: int): seq<Action> {
    [Claim(w, t)] + PhaseActs(Claimed(cfg, v, row, t, now).phase, w, a, e)
  }

  function ExplicitOf(cfg: Config, v: Worker): Option<string> {
    if v.failover then Some(cfg.fallback) else None
  }

  /** The failover claim and, if it breaks, the failure. */
  function SpareActs(cfg: Config, v: Worker, row: Generation, d: Delivery, w: nat, e: EventId): seq<Action> {
    OnceActs(cfg, v, row, d.second, w, d.spare, e, d.now)
    + if AfterOnce(cfg, row, d.second, Some(cfg.fallback), d.spare, d.now).1.Broken? then [Fail(w, e)] else []
  }

  /** What the handlers of `process_generation` do with a broken claim. */
  function HandlerActs(cfg: Config, v: Worker, row: Generation, d: Delivery, w: nat, e: EventId): seq<Action> {
    if v.phase.Failing? then [Fail(w, e)]
    else if v.phase.Requeueing? then [Yield(w), Retry(w)]
    else if row.requestId.Some? then [ReadForFailover(w), Fail(w, e)]
    else
      [ReadForFailover(w), YieldToFallback(w)]
      + if cfg.fallback in cfg.constructible
        then SpareActs(cfg, v.(failover := true, phase := Claiming), QueuedRow(row, "provider_failover", d.now), d, w, e) else []
  }

  /** One delivery from the arrival of the message to the last write. */
  function MessageActs(cfg: Config, g: GenerationId, row: Generation, r: nat, d: Delivery, w: nat, e: EventId): seq<Action> {
    var v := Worker(g, r, false, Claiming);
    var (row1, once, n) := AfterOnce(cfg, row, d.first, None, d.main, d.now);
    [Deliver(w, Process(g, r))] + OnceActs(cfg, v, row, d.first, w, d.main, e, d.now)
    + if once.Broken? then HandlerActs(cfg, AfterError(cfg, v, d.first, once.kind), row1, d, w, e) else []
  }

  /** Every delivery of the chain at its own time. */
  function ChainActs(cfg: Config, g: GenerationId, row: Generation, r: nat, plan: nat -> Delivery, now: int, w: nat, e: EventId): seq<Action>
    decreases MAX_RETRIES - r
  {
    var (row1, verdict, n) := AfterMessage(cfg, row, r, plan(r));
    [Tick(Max(0, plan(r).now - now))] + MessageActs(cfg, g, row, r, plan(r), w, e)
    + if verdict.RetryLater? then ChainActs(cfg, g, row1, r + 1, plan, plan(r).now, w, e) else []
  }

  // ----- Where the worker stands -----------------------------------------------------------------------

  /** Worker `w` stands at `v`; since `base` nothing but its row and the drawn tokens changed. */
  ghost predicate Stands(base: Sys, s: Sys, w: nat, v: Worker, row: Generation, used: set<Token>) {
    && s.workers == base.workers[w := v] && s.db == PutRow(base.db, v.generation, row)
    && s.now == base.now && s.broker == base.broker && s.issued == base.issued + used
  }

  /** The worker is gone; since `base` the tables became `db` and the broker `broker`. */
  ghost predicate Gone(base: Sys, s: Sys, db: Db, broker: multiset<Message>, used: set<Token>) {
    && s.workers == base.workers && s.db == db && s.now == base.now && s.broker == broker && s.issued == base.issued + used
  }

  /** `acts` is a run from `s`, and it ends in `s'`. */
  ghost predicate Goes(cfg: Config, s: Sys, acts: seq<Action>, s': Sys) {
    Valid(cfg, s, acts) && Run(cfg, s, acts) == s'
  }

  lemma GoesThen(cfg: Config, s: Sys, a: Action, acts: seq<Action>, s': Sys)
    requires Enabled(cfg, s, a) && Goes(cfg, Step(cfg, s, a), acts, s')
    ensures Goes(cfg, s, [a] + acts, s')
  {
    hide Enabled, Step;
    assert ([a] + acts)[0] == a && ([a] + acts)[1..] == acts;
  }

  lemma GoesOne(cfg: Config, s: Sys, a: Action)
    requires Enabled(cfg, s, a)
    ensures Goes(cfg, s, [a], Step(cfg, s, a))
  {
    hide Enabled, Step, Goes;
    GoesNowhere(cfg, Step(cfg, s, a));
    GoesThen(cfg, s, a, [], Step(cfg, s, a));
    assert [a] + [] == [a];
  }

  lemma GoesOn(cfg: Config, s: Sys, a: seq<Action>, s1: Sys, b: seq<Action>, s2: Sys)
    requires Goes(cfg, s, a, s1) && Goes(cfg, s1, b, s2)
    ensures Goes(cfg, s, a + b, s2)
  {
    RunAppend(cfg, s, a, b);
  }

  // ----- Its steps ------------------------------------------------------------------------------------------

  lemma Delivered(cfg: Config, base: Sys, w: nat, g: GenerationId, r: nat)
    requires w !in base.workers && Process(g, r) in base.broker && g in base.db.generations
    ensures Enabled(cfg, base, Deliver(w, Process(g, r)))
    ensures Stands(base, Step(cfg, base, Deliver(w, Process(g, r))), w, Worker(g, r, false, Claiming), base.db.generations[g], {})
  {
    assert base.db.generations[g := base.db.generations[g]] == base.db.generations;
  }

  lemma ClaimStands(cfg: Config, base: Sys, s: Sys, w: nat, v: Worker, row: Generation, used: set<Token>, t: Token)
    requires Stands(base, s, w, v, row, used) && v.phase.Claiming? && t !in s.issued && Claimable(row, s.now)
    ensures Enabled(cfg, s, Claim(w, t))
    ensures Stands(base, Step(cfg, s, Claim(w, t)), w, Claimed(cfg, v, row, t, s.now), ClaimedRow(row, t, s.now, cfg.leaseSeconds), used + {t})
  {
    assert Step(cfg, s, Claim(w, t)) == DoClaim(cfg, s, w, t);
    ClaimTwice(base, s, v, row, t, cfg.leaseSeconds);
    hide Step, Enabled, AfterClaim, Claimable, ClaimedRow, PutRow;
    AfterClaimKeeps(cfg, v, row, t, s.now);
    assert base.workers[w := v][w := Claimed(cfg, v, row, t, s.now)] == base.workers[w := Claimed(cfg, v, row, t, s.now)];
    assert base.issued + used + {t} == base.issued + (used + {t});
  }

  lemma AfterClaimKeeps(cfg: Config, v: Worker, row: Generation, t: Token, now: int)
    ensures Claimed(cfg, v, row, t, now).generation == v.generation
  {
  }

  lemma ClaimTwice(base: Sys, s: Sys, v: Worker, row: Generation, t: Token, lease: int)
    requires s.db == PutRow(base.db, v.generation, row) && Claimable(row, s.now)
    ensures StartProcessing(s.db, v.generation, t, s.now, lease) ==
            (PutRow(base.db, v.generation, ClaimedRow(row, t, s.now, lease)), Some(ClaimedRow(row, t, s.now, lease)))
  {
    hide Claimable, ClaimedRow;
    PutTwice(base.db, v.generation, row, ClaimedRow(row, t, s.now, lease));
  }

  lemma PutTwice(db: Db, g: GenerationId, row: Generation, row': Generation)
    ensures PutRow(PutRow(db, g, row), g, row') == PutRow(db, g, row')
  {
    assert db.generations[g := row][g := row'] == db.generations[g := row'];
  }

  lemma SubmitStands(cfg: Config, base: Sys, s: Sys, w: nat, v: Worker, row: Generation, used: set<Token>, reply: Reply)
    requires Stands(base, s, w, v, row, used) && v.phase.Submitting?
    ensures Enabled(cfg, s, Submit(w, reply))
    ensures Stands(base, Step(cfg, s, Submit(w, reply)), w,
                   if reply.Answer? then v.(phase := Saving(v.phase.token, v.phase.provider, reply.value))
                   else AfterError(cfg, v, v.phase.token, reply.kind), row, used)
  {
    assert Step(cfg, s, Submit(w, reply)) == DoSubmit(cfg, s, w, reply);
    hide Step, Enabled, AfterError, PutRow, Hist;
    SameGeneration(cfg, v, v.phase.token, if reply.Error? then reply.kind else Temporary);
    MovedWorker(base.workers, w, v, if reply.Answer? then v.(phase := Saving(v.phase.token, v.phase.provider, reply.value))
                                    else AfterError(cfg, v, v.phase.token, reply.kind));
  }

  lemma SameGeneration(cfg: Config, v: Worker, t: Token, kind: ErrorKind)
    ensures AfterError(cfg, v, t, kind).generation == v.generation
  {
  }

  lemma MovedWorker(workers: map<nat, Worker>, w: nat, v: Worker, v': Worker)
    ensures workers[w := v][w := v'] == workers[w := v']
  {
  }

  lemma SaveStands(cfg: Config, base: Sys, s: Sys, w: nat, v: Worker, row: Generation, used: set<Token>)
    requires Stands(base, s, w, v, row, used) && v.phase.Saving? && Owns(row, v.phase.token) && row.requestId.None?
    ensures Enabled(cfg, s, Save(w, false))
    ensures Stands(base, Step(cfg, s, Save(w, false)), w,
                   v.(phase := Polling(v.phase.token, v.phase.provider, v.phase.requestId)),
                   SavedRow(row, v.phase.provider, v.phase.requestId, s.now), used)
  {
    assert Step(cfg, s, Save(w, false)) == DoSave(cfg, s, w, false);
    hide Step, Enabled, AfterError, Hist;
    PutTwice(base.db, v.generation, row, SavedRow(row, v.phase.provider, v.phase.requestId, s.now));
    MovedWorker(base.workers, w, v, v.(phase := Polling(v.phase.token, v.phase.provider, v.phase.requestId)));
  }

  lemma PollStands(cfg: Config, base: Sys, s: Sys, w: nat, v: Worker, row: Generation, used: set<Token>, reply: Reply)
    requires Stands(base, s, w, v, row, used) && v.phase.Polling?
    ensures Enabled(cfg, s, Poll(w, reply))
    ensures Stands(base, Step(cfg, s, Poll(w, reply)), w,
                   if reply.Answer? then v.(phase := Completing(v.phase.token, v.phase.provider, v.phase.requestId, reply.value))
                   else AfterError(cfg, v, v.phase.token, reply.kind), row, used)
  {
    assert Step(cfg, s, Poll(w, reply)) == DoPoll(cfg, s, w, reply);
    hide Step, Enabled, AfterError, PutRow, Hist;
    SameGeneration(cfg, v, v.phase.token, if reply.Error? then reply.kind else Temporary);
    MovedWorker(base.workers, w, v, if reply.Answer? then v.(phase := Completing(v.phase.token, v.phase.provider, v.phase.requestId, reply.value))
                                    else AfterError(cfg, v, v.phase.token, reply.kind));
  }

  lemma CompletesDone(db: Db, g: GenerationId, row: Generation, t: Token, result: string, provider: string, e: EventId, now: int)
    requires Owns(row, t) && !HasCallback(db.callbacks, g)
    ensures Complete(PutRow(db, g, row), g, t, result, provider, e, now) == (JobDone(db, g, CompletedRow(row, result, provider, now), e, now), Wrote)
  {
    hide HasCallback;
    PutTwice(db, g, row, CompletedRow(row, result, provider, now));
  }

  lemma FailsDone(db: Db, g: GenerationId, row: Generation, t: Token, code: string, e: EventId, now: int)
    requires Owns(row, t) && row.refundedAt.None? && !HasCallback(db.callbacks, g)
    ensures FailAndRefund(PutRow(db, g, row), g, t, code, e, now) == (JobDone(db, g, FailedRow(row, code, now), e, now), Wrote)
  {
    hide HasCallback;
    PutTwice(db, g, row, FailedRow(row, code, now));
  }

  lemma DroppedWorker(workers: map<nat, Worker>, w: nat, v: Worker)
    requires w !in workers
    ensures workers[w := v] - {w} == workers
  {
  }

  lemma FinishGoes(cfg: Config, base: Sys, s: Sys, w: nat, v: Worker, row: Generation, used: set<Token>, e: EventId)
    requires Stands(base, s, w, v, row, used) && v.phase.Completing? && Owns(row, v.phase.token) && w !in base.workers
    requires e !in base.db.callbacks && !HasCallback(base.db.callbacks, v.generation)
    ensures Enabled(cfg, s, Finishing(w, e, false))
    ensures Gone(base, Step(cfg, s, Finishing(w, e, false)),
                 JobDone(base.db, v.generation, CompletedRow(row, v.phase.result, v.phase.provider, s.now), e, s.now), base.broker, used)
  {
    assert Step(cfg, s, Finishing(w, e, false)) == DoComplete(cfg, s, w, e, false);
    hide Step, Enabled, AfterError, Hist, Complete, JobDone, HasCallback;
    CompletesDone(base.db, v.generation, row, v.phase.token, v.phase.result, v.phase.provider, e, s.now);
    DroppedWorker(base.workers, w, v);
  }

  lemma FailGoes(cfg: Config, base: Sys, s: Sys, w: nat, v: Worker, row: Generation, used: set<Token>, e: EventId)
    requires Stands(base, s, w, v, row, used) && v.phase.Failing? && Owns(row, v.phase.token) && row.refundedAt.None? && w !in base.workers
    requires e !in base.db.callbacks && !HasCallback(base.db.callbacks, v.generation)
    ensures Enabled(cfg, s, Fail(w, e))
    ensures Gone(base, Step(cfg, s, Fail(w, e)), JobDone(base.db, v.generation, FailedRow(row, v.phase.code, s.now), e, s.now), base.broker, used)
  {
    assert Step(cfg, s, Fail(w, e)) == DoFail(s, w, e);
    hide Step, Enabled, Hist, FailAndRefund, JobDone, HasCallback;
    FailsDone(base.db, v.generation, row, v.phase.token, v.phase.code, e, s.now);
    DroppedWorker(base.workers, w, v);
  }

  lemma YieldStands(cfg: Config, base: Sys, s: Sys, w: nat, v: Worker, row: Generation, used: set<Token>)
    requires Stands(base, s, w, v, row, used) && v.phase.Requeueing? && Owns(row, v.phase.token)
    ensures Enabled(cfg, s, Yield(w))
    ensures Stands(base, Step(cfg, s, Yield(w)), w, v.(phase := Retrying), QueuedRow(row, v.phase.code, s.now), used)
  {
    assert Step(cfg, s, Yield(w)) == DoYield(s, w);
    hide Step, Enabled, Hist;
    PutTwice(base.db, v.generation, row, QueuedRow(row, v.phase.code, s.now));
    MovedWorker(base.workers, w, v, v.(phase := Retrying));
  }

  lemma RetryGoes(cfg: Config, base: Sys, s: Sys, w: nat, v: Worker, row: Generation, used: set<Token>)
    requires Stands(base, s, w, v, row, used) && v.phase.Retrying? && w !in base.workers
    ensures Enabled(cfg, s, Retry(w))
    ensures Gone(base, Step(cfg, s, Retry(w)), PutRow(base.db, v.generation, row), base.broker + multiset{Process(v.generation, v.retries + 1)}, used)
  {
    assert Step(cfg, s, Retry(w)) == DoRetry(s, w);
    hide Step, Enabled, PutRow;
    DroppedWorker(base.workers, w, v);
  }

  lemma ReadStands(cfg: Config, base: Sys, s: Sys, w: nat, v: Worker, row: Generation, used: set<Token>)
    requires Stands(base, s, w, v, row, used) && v.phase.FailoverReading?
    ensures Enabled(cfg, s, ReadForFailover(w))
    ensures Stands(base, Step(cfg, s, ReadForFailover(w)), w,
                   v.(phase := if row.requestId.Some? then Failing(v.phase.token, "temporary_provider_error")
                               else FailoverRequeueing(v.phase.token)), row, used)
  {
    assert Step(cfg, s, ReadForFailover(w)) == DoReadForFailover(s, w);
    hide Step, Enabled;
    MovedWorker(base.workers, w, v, v.(phase := if row.requestId.Some? then Failing(v.phase.token, "temporary_provider_error")
                                                else FailoverRequeueing(v.phase.token)));
  }

  lemma SwitchGoes(cfg: Config, base: Sys, s: Sys, w: nat, v: Worker, row: Generation, used: set<Token>)
    requires Stands(base, s, w, v, row, used) && v.phase.FailoverRequeueing? && Owns(row, v.phase.token) && w !in base.workers
    ensures Enabled(cfg, s, YieldToFallback(w))
    ensures var s', queued := Step(cfg, s, YieldToFallback(w)), QueuedRow(row, "provider_failover", s.now);
            if cfg.fallback in cfg.constructible then Stands(base, s', w, v.(failover := true, phase := Claiming), queued, used)
            else Gone(base, s', PutRow(base.db, v.generation, queued), base.broker, used)
  {
    assert Step(cfg, s, YieldToFallback(w)) == DoYieldToFallback(cfg, s, w);
    hide Step, Enabled, Hist;
    PutTwice(base.db, v.generation, row, QueuedRow(row, "provider_failover", s.now));
    MovedWorker(base.workers, w, v, v.(failover := true, phase := Claiming));
    DroppedWorker(base.workers, w, v);
  }

  // ----- One attempt ----------------------------------------------------------------------------------------

  /** How an attempt under the token `t` leaves things: completed, or broken with the claim held. */
  ghost predicate OnceOver(cfg: Config, base: Sys, s': Sys, w: nat, v: Worker, t: Token, row': Generation, once: Once,
                           used: set<Token>, e: EventId) {
    match once
    case Finished => Gone(base, s', JobDone(base.db, v.generation, row', e, base.now), base.broker, used)
    case Broken(kind) => Stands(base, s', w, AfterError(cfg, v, t, kind), row', used)
  }

  ghost predicate Free(base: Sys, w: nat, g: GenerationId, e: EventId) {
    w !in base.workers && e !in base.db.callbacks && !HasCallback(base.db.callbacks, g)
  }

  /** The phase of a worker is forgotten by its error handler. */
  lemma ErrorForgets(cfg: Config, v: Worker, p: Phase, t: Token, kind: ErrorKind)
    ensures AfterError(cfg, v.(phase := p), t, kind) == AfterError(cfg, v, t, kind)
  {
  }

  lemma PollRun(cfg: Config, base: Sys, s: Sys, w: nat, v: Worker, row: Generation, used: set<Token>, a: Attempt, e: EventId)
    returns (s': Sys)
    requires Stands(base, s, w, v, row, used) && v.phase.Polling? && Owns(row, v.phase.token) && Free(base, w, v.generation, e)
    ensures Goes(cfg, s, PollActs(w, a, e), s')
    ensures var (row', once, n) := AfterPoll(row, v.phase.provider, a.poll, base.now, 0);
            OnceOver(cfg, base, s', w, v, v.phase.token, row', once, used, e)
  {
    hide Step, Enabled, Stands, Gone, AfterError, JobDone, HasCallback, Goes;
    assert s.now == base.now by { StandsNow(base, s, w, v, row, used); }
    PollStands(cfg, base, s, w, v, row, used, a.poll);
    var s1 := Step(cfg, s, Poll(w, a.poll));
    if a.poll.Error? {
      s' := s1;
      GoesOne(cfg, s, Poll(w, a.poll));
      assert PollActs(w, a, e) == [Poll(w, a.poll)];
    } else {
      var v1 := v.(phase := Completing(v.phase.token, v.phase.provider, v.phase.requestId, a.poll.value));
      StandsNow(base, s1, w, v1, row, used);
      FinishGoes(cfg, base, s1, w, v1, row, used, e);
      s' := Step(cfg, s1, Finishing(w, e, false));
      GoesOne(cfg, s1, Finishing(w, e, false));
      GoesThen(cfg, s, Poll(w, a.poll), [Finishing(w, e, false)], s');
    }
  }

  lemma StandsNow(base: Sys, s: Sys, w: nat, v: Worker, row: Generation, used: set<Token>)
    requires Stands(base, s, w, v, row, used)
    ensures s.now == base.now && s.issued == base.issued + used
  {
  }

  lemma SubmitRun(cfg: Config, base: Sys, s: Sys, w: nat, v: Worker, row: Generation, used: set<Token>, a: Attempt, e: EventId)
    returns (s': Sys)
    requires Stands(base, s, w, v, row, used) && v.phase.Submitting? && Owns(row, v.phase.token) && row.requestId.None?
    requires Free(base, w, v.generation, e)
    ensures Goes(cfg, s, PhaseActs(v.phase, w, a, e), s')
    ensures a.submit.Error? ==> OnceOver(cfg, base, s', w, v, v.phase.token, row, Broken(a.submit.kind), used, e)
    ensures a.submit.Answer? ==>
              var (row', once, n) := AfterPoll(SavedRow(row, v.phase.provider, a.submit.value, base.now), v.phase.provider, a.poll, base.now, 1);
              OnceOver(cfg, base, s', w, v, v.phase.token, row', once, used, e)
  {
    hide Step, Enabled, Stands, Gone, AfterError, JobDone, HasCallback, Goes, PollActs;
    StandsNow(base, s, w, v, row, used);
    SubmitStands(cfg, base, s, w, v, row, used, a.submit);
    var s1 := Step(cfg, s, Submit(w, a.submit));
    if a.submit.Error? {
      s' := s1;
      GoesOne(cfg, s, Submit(w, a.submit));
      assert PhaseActs(v.phase, w, a, e) == [Submit(w, a.submit)];
    } else {
      var t, name, id := v.phase.token, v.phase.provider, a.submit.value;
      var v1 := v.(phase := Saving(t, name, id));
      StandsNow(base, s1, w, v1, row, used);
      SaveStands(cfg, base, s1, w, v1, row, used);
      var s2, v2 := Step(cfg, s1, Save(w, false)), v.(phase := Polling(t, name, id));
      s' := PollRun(cfg, base, s2, w, v2, SavedRow(row, name, id, base.now), used, a, e);
      GoesThen(cfg, s1, Save(w, false), PollActs(w, a, e), s');
      GoesThen(cfg, s, Submit(w, a.submit), [Save(w, false)] + PollActs(w, a, e), s');
      if a.poll.Error? { ErrorForgets(cfg, v, v2.phase, t, a.poll.kind); }
    }
  }

  /** `AfterOnce` is where the run of one claim ends. */
  lemma OnceRun(cfg: Config, base: Sys, s: Sys, w: nat, v: Worker, row: Generation, used: set<Token>, t: Token, a: Attempt, e: EventId)
    returns (s': Sys)
    requires Stands(base, s, w, v, row, used) && v.phase.Claiming? && t !in s.issued && Claimable(row, base.now)
    requires v.failover ==> cfg.fallback in cfg.constructible
    requires Free(base, w, v.generation, e)
    ensures Goes(cfg, s, OnceActs(cfg, v, row, t, w, a, e, base.now), s')
    ensures var (row', once, n) := AfterOnce(cfg, row, t, ExplicitOf(cfg, v), a, base.now);
            OnceOver(cfg, base, s', w, v, t, row', once, used + {t}, e)
  {
    hide Step, Enabled, Stands, Gone, AfterError, JobDone, HasCallback, Goes, PollActs, Free, Claimable;
    StandsNow(base, s, w, v, row, used);
    ClaimStands(cfg, base, s, w, v, row, used, t);
    var s1, v1 := Step(cfg, s, Claim(w, t)), Claimed(cfg, v, row, t, base.now);
    var row1 := ClaimedRow(row, t, base.now, cfg.leaseSeconds);
    ClaimedPhase(cfg, v, row, t, base.now);
    if v1.phase.Polling? {
      s' := PollRun(cfg, base, s1, w, v1, row1, used + {t}, a, e);
      if a.poll.Error? { ErrorForgets(cfg, v, v1.phase, t, a.poll.kind); }
    } else if v1.phase.Submitting? {
      s' := SubmitRun(cfg, base, s1, w, v1, row1, used + {t}, a, e);
      if a.submit.Error? { ErrorForgets(cfg, v, v1.phase, t, a.submit.kind); }
      if a.poll.Error? { ErrorForgets(cfg, v, v1.phase, t, a.poll.kind); }
    } else {
      s' := s1;
      GoesNowhere(cfg, s1);
    }
    GoesThen(cfg, s, Claim(w, t), PhaseActs(v1.phase, w, a, e), s');
  }

  lemma GoesNowhere(cfg: Config, s: Sys)
    ensures Goes(cfg, s, [], s)
  {
  }

  /** Where a claim leads to, in the words of both accounts. */
  lemma ClaimedPhase(cfg: Config, v: Worker, row: Generation, t: Token, now: int)
    requires v.phase.Claiming? && (v.failover ==> cfg.fallback in cfg.constructible)
    ensures var v1, name := Claimed(cfg, v, row, t, now), NameFor(cfg, ClaimedRow(row, t, now, cfg.leaseSeconds), ExplicitOf(cfg, v));
            && v1 == v.(phase := v1.phase)
            && Owns(ClaimedRow(row, t, now, cfg.leaseSeconds), t) && ClaimedRow(row, t, now, cfg.leaseSeconds).requestId == row.requestId
            && NameFor(cfg, row, ExplicitOf(cfg, v)) == name
            && (if !v.failover && name !in cfg.constructible then v1 == AfterError(cfg, v, t, Unexpected) && !v1.phase.Polling? && !v1.phase.Submitting?
                else if row.requestId.Some? then v1.phase == Polling(t, name, row.requestId.value)
                else v1.phase == Submitting(t, name))
  {
  }

  // ----- The handlers ------------------------------------------------------------------------------------------

  /** How a message leaves things: nothing of the worker is left, and a retry is in the broker. */
  ghost predicate MessageOver(base: Sys, s': Sys, g: GenerationId, r: nat, row': Generation, verdict: Verdict,
                              used: set<Token>, e: EventId) {
    Gone(base, s', JobDone(base.db, g, row', e, base.now),
         base.broker + (if verdict.RetryLater? then multiset{Process(g, r + 1)} else multiset{}), used)
  }

  lemma NothingSent(base: Sys, s': Sys, g: GenerationId, r: nat, row': Generation, verdict: Verdict, used: set<Token>, e: EventId)
    requires Gone(base, s', JobDone(base.db, g, row', e, base.now), base.broker, used) && !verdict.RetryLater?
    ensures MessageOver(base, s', g, r, row', verdict, used, e)
  {
    hide JobDone;
    assert base.broker + multiset{} == base.broker;
  }

  lemma FailRun(cfg: Config, base: Sys, s: Sys, w: nat, v: Worker, row: Generation, used: set<Token>, e: EventId) returns (s': Sys)
    requires Stands(base, s, w, v, row, used) && v.phase.Failing? && Owns(row, v.phase.token) && row.refundedAt.None?
    requires Free(base, w, v.generation, e)
    ensures Goes(cfg, s, [Fail(w, e)], s')
    ensures MessageOver(base, s', v.generation, v.retries, FailedRow(row, v.phase.code, base.now), Ended, used, e)
  {
    hide Step, Enabled, Goes, JobDone, HasCallback;
    FailGoes(cfg, base, s, w, v, row, used, e);
    GoesOne(cfg, s, Fail(w, e));
    s' := Step(cfg, s, Fail(w, e));
    NothingSent(base, s', v.generation, v.retries, FailedRow(row, v.phase.code, base.now), Ended, used, e);
  }

  lemma RetryRun(cfg: Config, base: Sys, s: Sys, w: nat, v: Worker, row: Generation, used: set<Token>, e: EventId) returns (s': Sys)
    requires Stands(base, s, w, v, row, used) && v.phase.Requeueing? && Owns(row, v.phase.token) && w !in base.workers
    ensures Goes(cfg, s, [Yield(w), Retry(w)], s')
    ensures MessageOver(base, s', v.generation, v.retries, QueuedRow(row, v.phase.code, base.now), RetryLater, used, e)
  {
    hide Step, Enabled, Goes, JobDone, Stands, Gone;
    StandsNow(base, s, w, v, row, used);
    YieldStands(cfg, base, s, w, v, row, used);
    var s1, v1, queued := Step(cfg, s, Yield(w)), v.(phase := Retrying), QueuedRow(row, v.phase.code, base.now);
    RetryGoes(cfg, base, s1, w, v1, queued, used);
    s' := Step(cfg, s1, Retry(w));
    GoesOne(cfg, s1, Retry(w));
    GoesThen(cfg, s, Yield(w), [Retry(w)], s');
    assert [Yield(w), Retry(w)] == [Yield(w)] + [Retry(w)];
    NotDoneYet(base.db, v.generation, queued, e, base.now);
  }

  lemma SpareRun(cfg: Config, base: Sys, s: Sys, w: nat, v: Worker, row: Generation, used: set<Token>, d: Delivery, e: EventId)
    returns (s': Sys)
    requires Stands(base, s, w, v, row, used) && v.phase.Claiming? && v.failover && cfg.fallback in cfg.constructible
    requires d.second !in s.issued && Claimable(row, base.now) && row.refundedAt.None? && d.now == base.now
    requires Free(base, w, v.generation, e)
    ensures Goes(cfg, s, SpareActs(cfg, v, row, d, w, e), s')
    ensures var (last, once, n) := AfterOnce(cfg, row, d.second, Some(cfg.fallback), d.spare, d.now);
            MessageOver(base, s', v.generation, v.retries,
                        if once.Finished? then last else FailedRow(last, "fallback_provider_error", d.now), Ended, used + {d.second}, e)
  {
    hide Step, Enabled, Goes, JobDone, Stands, Gone, Free, Claimable, AfterOnce, OnceActs, MessageOver;
    var (last, once, n) := AfterOnce(cfg, row, d.second, Some(cfg.fallback), d.spare, d.now);
    var s1 := OnceRun(cfg, base, s, w, v, row, used, d.second, d.spare, e);
    var acts := OnceActs(cfg, v, row, d.second, w, d.spare, e, d.now);
    if once.Finished? {
      s' := s1;
      NothingSent(base, s', v.generation, v.retries, last, Ended, used + {d.second}, e);
      assert SpareActs(cfg, v, row, d, w, e) == acts;
    } else {
      BrokenRow(cfg, row, d.second, Some(cfg.fallback), d.spare, d.now);
      s' := FailRun(cfg, base, s1, w, AfterError(cfg, v, d.second, once.kind), last, used + {d.second}, e);
      GoesOn(cfg, s, acts, s1, [Fail(w, e)], s');
    }
  }

  /** A broken claim is still held, and not refunded unless it was before. */
  lemma BrokenRow(cfg: Config, row: Generation, t: Token, explicit: Option<string>, a: Attempt, now: int)
    ensures var (row', once, n) := AfterOnce(cfg, row, t, explicit, a, now);
            once.Broken? ==> Owns(row', t) && row'.refundedAt == row.refundedAt
  {
  }

  /** The failover path, from the phase the error handler chose. */
  lemma FailoverRun(cfg: Config, base: Sys, s: Sys, w: nat, v: Worker, row: Generation, used: set<Token>, d: Delivery, e: EventId)
    returns (s': Sys)
    requires Stands(base, s, w, v, row, used) && v.phase == FailoverReading(d.first) && Owns(row, d.first)
    requires d.second !in s.issued && row.refundedAt.None? && d.now == base.now && Free(base, w, v.generation, e)
    ensures Goes(cfg, s, HandlerActs(cfg, v, row, d, w, e), s')
    ensures row.requestId.Some? ==>
              MessageOver(base, s', v.generation, v.retries, FailedRow(row, "temporary_provider_error", d.now), Ended, used, e)
    ensures row.requestId.None? ==>
              var (row', verdict, n) := AfterFailover(cfg, row, d);
              MessageOver(base, s', v.generation, v.retries, row', verdict,
                          if cfg.fallback in cfg.constructible then used + {d.second} else used, e)
  {
    hide Step, Enabled, Goes, JobDone, Stands, Gone, Free, AfterOnce, SpareActs, MessageOver;
    StandsNow(base, s, w, v, row, used);
    ReadStands(cfg, base, s, w, v, row, used);
    var s1 := Step(cfg, s, ReadForFailover(w));
    if row.requestId.Some? {
      s' := FailRun(cfg, base, s1, w, v.(phase := Failing(d.first, "temporary_provider_error")), row, used, e);
      GoesThen(cfg, s, ReadForFailover(w), [Fail(w, e)], s');
      assert [ReadForFailover(w), Fail(w, e)] == [ReadForFailover(w)] + [Fail(w, e)];
    } else {
      var v1, rest := v.(phase := FailoverRequeueing(d.first)), [];
      StandsNow(base, s1, w, v1, row, used);
      rest, s' := SwitchRun(cfg, base, s1, w, v1, row, used, d, e);
      GoesThen(cfg, s, ReadForFailover(w), [YieldToFallback(w)] + rest, s');
      assert [ReadForFailover(w), YieldToFallback(w)] + rest == [ReadForFailover(w)] + ([YieldToFallback(w)] + rest);
    }
  }

  lemma SwitchRun(cfg: Config, base: Sys, s: Sys, w: nat, v: Worker, row: Generation, used: set<Token>, d: Delivery, e: EventId)
    returns (rest: seq<Action>, s': Sys)
    requires Stands(base, s, w, v, row, used) && v.phase == FailoverRequeueing(d.first) && Owns(row, d.first)
    requires d.second !in s.issued && row.refundedAt.None? && d.now == base.now && Free(base, w, v.generation, e)
    ensures rest == if cfg.fallback in cfg.constructible
                    then SpareActs(cfg, v.(failover := true, phase := Claiming), QueuedRow(row, "provider_failover", d.now), d, w, e) else []
    ensures Goes(cfg, s, [YieldToFallback(w)] + rest, s')
    ensures var (row', verdict, n) := AfterFailover(cfg, row, d);
            MessageOver(base, s', v.generation, v.retries, row', verdict,
                        if cfg.fallback in cfg.constructible then used + {d.second} else used, e)
  {
    hide Step, Enabled, Goes, JobDone, Stands, Gone, Free, AfterOnce, SpareActs, MessageOver;
    StandsNow(base, s, w, v, row, used);
    FreeWorker(base, w, v.generation, e);
    SwitchGoes(cfg, base, s, w, v, row, used);
    var s1, queued := Step(cfg, s, YieldToFallback(w)), QueuedRow(row, "provider_failover", d.now);
    if cfg.fallback in cfg.constructible {
      var v1 := v.(failover := true, phase := Claiming);
      StandsNow(base, s1, w, v1, queued, used);
      s' := SpareRun(cfg, base, s1, w, v1, queued, used, d, e);
      rest := SpareActs(cfg, v1, queued, d, w, e);
    } else {
      s', rest := s1, [];
      NotDoneYet(base.db, v.generation, queued, e, base.now);
      NothingSent(base, s', v.generation, v.retries, queued, Propagated, used, e);
      GoesNowhere(cfg, s1);
    }
    GoesThen(cfg, s, YieldToFallback(w), rest, s');
  }

  lemma FreeWorker(base: Sys, w: nat, g: GenerationId, e: EventId)
    requires Free(base, w, g, e)
    ensures w !in base.workers
  {
  }

  // ----- A message, and the chain -------------------------------------------------------------------------------

  /** The two accounts agree on where a broken claim is taken. */
  lemma HandlerPhase(cfg: Config, g: GenerationId, r: nat, t: Token, kind: ErrorKind)
    ensures var v := AfterError(cfg, Worker(g, r, false, Claiming), t, kind);
            && v == Worker(g, r, false, v.phase)
            && v.phase == (if kind.Permanent? then Failing(t, CodeOf(kind))
                           else if r < MAX_RETRIES then Requeueing(t, CodeOf(kind))
                           else if kind.Temporary? && FailoverConfigured(cfg) then FailoverReading(t)
                           else Failing(t, CodeOf(kind)))
  {
  }

  lemma HandlerRun(cfg: Config, base: Sys, s: Sys, w: nat, g: GenerationId, r: nat, row: Generation, kind: ErrorKind,
                   used: set<Token>, d: Delivery, e: EventId)
    returns (s': Sys, used': set<Token>)
    requires Stands(base, s, w, AfterError(cfg, Worker(g, r, false, Claiming), d.first, kind), row, used) && Owns(row, d.first)
    requires d.second !in s.issued && row.refundedAt.None? && d.now == base.now && Free(base, w, g, e)
    ensures Goes(cfg, s, HandlerActs(cfg, AfterError(cfg, Worker(g, r, false, Claiming), d.first, kind), row, d, w, e), s')
    ensures used' <= used + {d.second}
    ensures kind.Permanent? ==> MessageOver(base, s', g, r, FailedRow(row, CodeOf(kind), d.now), Ended, used', e)
    ensures !kind.Permanent? && r < MAX_RETRIES ==> MessageOver(base, s', g, r, QueuedRow(row, CodeOf(kind), d.now), RetryLater, used', e)
    ensures !kind.Permanent? && r >= MAX_RETRIES ==>
              if kind.Temporary? && FailoverConfigured(cfg) && row.requestId.None?
              then var (row', verdict, n) := AfterFailover(cfg, row, d); MessageOver(base, s', g, r, row', verdict, used', e)
              else MessageOver(base, s', g, r, FailedRow(row, CodeOf(kind), d.now), Ended, used', e)
  {
    hide Step, Enabled, Goes, JobDone, Stands, Gone, Free, AfterError, AfterFailover, SpareActs, MessageOver;
    HandlerPhase(cfg, g, r, d.first, kind);
    var v := AfterError(cfg, Worker(g, r, false, Claiming), d.first, kind);
    used' := used;
    FreeWorker(base, w, g, e);
    if v.phase.Failing? {
      s' := FailRun(cfg, base, s, w, v, row, used, e);
    } else if v.phase.Requeueing? {
      s' := RetryRun(cfg, base, s, w, v, row, used, e);
    } else {
      s' := FailoverRun(cfg, base, s, w, v, row, used, d, e);
      if row.requestId.None? && cfg.fallback in cfg.constructible { used' := used + {d.second}; }
    }
  }

  /** One message: `AfterMessage` is where the run of its delivery ends. */
  lemma MessageIsRun(cfg: Config, base: Sys, w: nat, g: GenerationId, r: nat, d: Delivery, e: EventId)
    returns (s': Sys, used: set<Token>)
    requires Free(base, w, g, e) && Process(g, r) in base.broker && g in base.db.generations && d.now == base.now
    requires Claimable(base.db.generations[g], base.now) && base.db.generations[g].refundedAt.None?
    requires d.first !in base.issued && d.second !in base.issued && d.first != d.second
    ensures Goes(cfg, base, MessageActs(cfg, g, base.db.generations[g], r, d, w, e), s')
    ensures var (row', verdict, n) := AfterMessage(cfg, base.db.generations[g], r, d);
            MessageOver(base, s', g, r, row', verdict, used, e) && used <= {d.first, d.second}
  {
    hide Step, Enabled, Goes, JobDone, Stands, Gone, Free, AfterError, AfterFailover, AfterOnce, OnceActs, HandlerActs, MessageOver, Claimable;
    var row, v := base.db.generations[g], Worker(g, r, false, Claiming);
    FreeWorker(base, w, g, e);
    Delivered(cfg, base, w, g, r);
    var s0 := Step(cfg, base, Deliver(w, Process(g, r)));
    StandsNow(base, s0, w, v, row, {});
    var s1 := OnceRun(cfg, base, s0, w, v, row, {}, d.first, d.main, e);
    var once := OnceActs(cfg, v, row, d.first, w, d.main, e, d.now);
    var (row1, ending, n) := AfterOnce(cfg, row, d.first, None, d.main, d.now);
    if ending.Finished? {
      s', used := s1, {} + {d.first};
      NothingSent(base, s', g, r, row1, Ended, used, e);
      GoesThen(cfg, base, Deliver(w, Process(g, r)), once, s');
      assert [Deliver(w, Process(g, r))] + once + [] == [Deliver(w, Process(g, r))] + once;
    } else {
      BrokenRow(cfg, row, d.first, None, d.main, d.now);
      StandsNow(base, s1, w, AfterError(cfg, v, d.first, ending.kind), row1, {} + {d.first});
      s', used := HandlerRun(cfg, base, s1, w, g, r, row1, ending.kind, {} + {d.first}, d, e);
      var rest := HandlerActs(cfg, AfterError(cfg, v, d.first, ending.kind), row1, d, w, e);
      GoesOn(cfg, s0, once, s1, rest, s');
      GoesThen(cfg, base, Deliver(w, Process(g, r)), once + rest, s');
      assert [Deliver(w, Process(g, r))] + once + rest == [Deliver(w, Process(g, r))] + (once + rest);
    }
  }

  /** No token of the plan was drawn before, and none occurs twice. */
  ghost predicate FreshPlan(plan: nat -> Delivery, r: nat, issued: set<Token>) {
    && (forall i: nat :: i >= r ==> plan(i).first !in issued && plan(i).second !in issued && plan(i).first != plan(i).second)
    && (forall i: nat, j: nat :: r <= i < j ==> {plan(i).first, plan(i).second} !! {plan(j).first, plan(j).second})
  }

  /** Deliveries come one after the other, none before `now`. */
  ghost predicate TimelyPlan(plan: nat -> Delivery, r: nat, now: int) {
    now <= plan(r).now && forall i: nat, j: nat :: r <= i < j ==> plan(i).now <= plan(j).now
  }

  lemma TickGoes(cfg: Config, s: Sys, d: nat)
    ensures Enabled(cfg, s, Tick(d)) && Step(cfg, s, Tick(d)) == s.(now := s.now + d)
  {
  }

  lemma FreeAfterRetry(base: Sys, s: Sys, w: nat, g: GenerationId, r: nat, row: Generation, used: set<Token>, e: EventId)
    requires Free(base, w, g, e) && row.status == Queued && MessageOver(base, s, g, r, row, RetryLater, used, e)
    ensures Free(s, w, g, e) && Process(g, r + 1) in s.broker && s.db == PutRow(base.db, g, row)
    ensures s.workers == base.workers && s.now == base.now && s.issued == base.issued + used
  {
    hide HasCallback;
    NotDoneYet(base.db, g, row, e, base.now);
  }

  lemma OverFacts(base: Sys, s: Sys, g: GenerationId, r: nat, row: Generation, verdict: Verdict, used: set<Token>, e: EventId)
    requires MessageOver(base, s, g, r, row, verdict, used, e)
    ensures s.workers == base.workers && s.now == base.now && s.db == JobDone(base.db, g, row, e, base.now)
  {
    hide JobDone;
  }

  /** The first delivery of a chain, with the clock moved on: either the chain is over, or the next
      delivery can follow. */
  lemma OneDelivery(cfg: Config, base: Sys, w: nat, g: GenerationId, r: nat, plan: nat -> Delivery, e: EventId)
    returns (s1: Sys)
    requires r <= MAX_RETRIES && Free(base, w, g, e) && Process(g, r) in base.broker && g in base.db.generations
    requires Claimable(base.db.generations[g], plan(r).now) && base.db.generations[g].refundedAt.None?
    requires FreshPlan(plan, r, base.issued) && TimelyPlan(plan, r, base.now)
    ensures Goes(cfg, base, [Tick(Max(0, plan(r).now - base.now))] + MessageActs(cfg, g, base.db.generations[g], r, plan(r), w, e), s1)
    ensures var (row1, verdict, n) := AfterMessage(cfg, base.db.generations[g], r, plan(r));
            && s1.workers == base.workers && s1.now == plan(r).now
            && (!verdict.RetryLater? ==> s1.db == JobDone(base.db, g, row1, e, EndOf(plan, row1.completedAt)))
            && (verdict.RetryLater? ==>
                  && s1.db == PutRow(base.db, g, row1) && Free(s1, w, g, e) && Process(g, r + 1) in s1.broker && r < MAX_RETRIES
                  && Claimable(row1, plan(r + 1).now) && row1.refundedAt.None? && FreshPlan(plan, r + 1, s1.issued))
  {
    hide Step, Enabled, Goes, JobDone, Gone, Free, AfterMessage, MessageActs, MessageOver, Claimable, FreshPlan;
    var row := base.db.generations[g];
    var d := Max(0, plan(r).now - base.now);
    TickGoes(cfg, base, d);
    var start := Step(cfg, base, Tick(d));
    FreeLater(base, start, w, g, e);
    FreshNow(plan, r, base.issued);
    var used;
    s1, used := MessageIsRun(cfg, start, w, g, r, plan(r), e);
    var (row1, verdict, n) := AfterMessage(cfg, row, r, plan(r));
    OverFacts(start, s1, g, r, row1, verdict, used, e);
    StampOf(cfg, base.db, g, row, r, plan, e);
    SameDone(start.db, base.db, g, row1, e, plan(r).now);
    GoesThen(cfg, base, Tick(d), MessageActs(cfg, g, row, r, plan(r), w, e), s1);
    if verdict.RetryLater? {
      MessageFrame(cfg, row, r, plan(r));
      MessageFacts(cfg, row, r, plan(r));
      FreeAfterRetry(start, s1, w, g, r, row1, used, e);
      Waiting(row1, plan(r + 1).now);
      StillFresh(plan, r, base.issued, used);
    }
  }

  lemma SameDone(db: Db, db': Db, g: GenerationId, row: Generation, e: EventId, now: int)
    requires db == db'
    ensures JobDone(db, g, row, e, now) == JobDone(db', g, row, e, now)
  {
  }

  lemma FreshNow(plan: nat -> Delivery, r: nat, issued: set<Token>)
    requires FreshPlan(plan, r, issued)
    ensures plan(r).first !in issued && plan(r).second !in issued && plan(r).first != plan(r).second
  {
  }

  lemma StillTimely(plan: nat -> Delivery, r: nat, now: int)
    requires TimelyPlan(plan, r, now)
    ensures TimelyPlan(plan, r + 1, plan(r).now)
  {
    assert plan(r).now <= plan(r + 1).now;
  }

  /** The whole chain: from a state in which its first message is in the broker, `AfterChain` is
      where the run ends in which the message and its retries are delivered to a worker, one
      after the other, and everybody else stands still. */
  lemma {:induction false} ChainIsRun(cfg: Config, base: Sys, w: nat, g: GenerationId, r: nat, plan: nat -> Delivery, e: EventId)
    returns (s': Sys)
    requires r <= MAX_RETRIES && Free(base, w, g, e) && Process(g, r) in base.broker && g in base.db.generations
    requires Claimable(base.db.generations[g], plan(r).now) && base.db.generations[g].refundedAt.None?
    requires FreshPlan(plan, r, base.issued) && TimelyPlan(plan, r, base.now)
    ensures Goes(cfg, base, ChainActs(cfg, g, base.db.generations[g], r, plan, base.now, w, e), s')
    ensures var (last, verdict, n) := AfterChain(cfg, base.db.generations[g], r, plan);
            s'.workers == base.workers && s'.db == JobDone(base.db, g, last, e, EndOf(plan, last.completedAt))
    decreases MAX_RETRIES - r
  {
    hide Goes, JobDone, Free, AfterMessage, MessageActs, Claimable, AfterChain, FreshPlan, TimelyPlan, EndOf;
    var row := base.db.generations[g];
    var s1 := OneDelivery(cfg, base, w, g, r, plan, e);
    var (row1, verdict, n) := AfterMessage(cfg, row, r, plan(r));
    UnrollChain(cfg, row, r, plan);
    var acts := [Tick(Max(0, plan(r).now - base.now))] + MessageActs(cfg, g, row, r, plan(r), w, e);
    if verdict.RetryLater? {
      StillTimely(plan, r, base.now);
      s' := ChainIsRun(cfg, s1, w, g, r + 1, plan, e);
      var last := AfterChain(cfg, row1, r + 1, plan).0;
      DoneAfterPut(base.db, g, row1, last, e, EndOf(plan, last.completedAt));
      GoesOn(cfg, base, acts, s1, ChainActs(cfg, g, row1, r + 1, plan, plan(r).now, w, e), s');
    } else {
      s' := s1;
      assert acts + [] == acts;
    }
  }

  lemma FreeLater(base: Sys, s: Sys, w: nat, g: GenerationId, e: EventId)
    requires Free(base, w, g, e) && s.workers == base.workers && s.db == base.db
    ensures Free(s, w, g, e)
  {
    hide HasCallback;
  }

  lemma Waiting(row: Generation, now: int)
    requires row.status == Queued
    ensures Claimable(row, now)
  {
  }

  lemma StillFresh(plan: nat -> Delivery, r: nat, issued: set<Token>, used: set<Token>)
    requires FreshPlan(plan, r, issued) && used <= {plan(r).first, plan(r).second}
    ensures FreshPlan(plan, r + 1, issued + used)
  {
    forall i: nat | i >= r + 1 ensures plan(i).first !in issued + used && plan(i).second !in issued + used {
      assert {plan(r).first, plan(r).second} !! {plan(i).first, plan(i).second};
      assert plan(i).first in {plan(i).first, plan(i).second} && plan(i).second in {plan(i).first, plan(i).second};
    }
  }
}
