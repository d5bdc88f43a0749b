/** The inductive invariant of the paid-job protocol: what ties a generation row, its
    history and the worker tasks holding (or once holding) its tokens together. */
module JobInvariant {
  import opened Common
  import opened Tables
  import opened Transactions
  import opened JobSystem

  // ----- One row ------------------------------------------------------------------------

  ghost predicate RowOk(cfg: Config, row: Generation, now: int) {
    && (row.status == Processing <==> row.token.Some?)
    && (row.status == Processing <==> row.lease.Some?)
    && (row.status == Failed <==> row.refundedAt.Some?)
    && (row.Terminal() <==> row.completedAt.Some?)
    && (row.status == Completed ==> row.requestId.Some?)
    && (row.requestId.Some? ==> row.provider.Some?)
    && (row.provider.Some? ==> row.provider.value in cfg.constructible)
    && row.cost > 0
    && row.updatedAt <= now
    && (row.lease.Some? ==> row.lease.value <= now + cfg.leaseSeconds)
  }

  // ----- One row and its history -----------------------------------------------------------

  ghost predicate Granted(h: History, t: Token) {
    exists i :: 0 <= i < |h.grants| && h.grants[i].token == t
  }

  /** The claim `c` was over before `time`: its owner gave it back, or its lease ran out. */
  ghost predicate Over(h: History, c: Grant, time: int) {
    c.token in h.yielded || c.until < time
  }

  /** Each claim was over before the next one was granted. */
  ghost predicate InOrder(h: History) {
    forall i :: 0 < i < |h.grants| ==> h.grants[i - 1].at <= h.grants[i].at && Over(h, h.grants[i - 1], h.grants[i].at)
  }

  ghost predicate GrantsOk(cfg: Config, row: Generation, h: History, now: int) {
    && |h.grants| == row.attempts
    && (forall i, j :: 0 <= i < j < |h.grants| ==> h.grants[i].token != h.grants[j].token)
    && (forall i :: 0 <= i < |h.grants| ==> h.grants[i].at <= now && h.grants[i].until == h.grants[i].at + cfg.leaseSeconds)
    && InOrder(h)
    && (row.status == Created ==> h.grants == [])
    && (row.status == Queued && h.grants != [] ==> Over(h, h.grants[|h.grants| - 1], now))
    && (row.status == Processing ==>
          && h.grants != []
          && row.token == Some(h.grants[|h.grants| - 1].token)
          && row.lease == Some(h.grants[|h.grants| - 1].until))
  }

  ghost predicate SubmitsOk(h: History) {
    && NoDup(h.submits)
    && (forall t :: t in h.submits ==> Granted(h, t))
    && (forall i :: 0 <= i < |h.grants| && h.grants[i].hadId ==> h.grants[i].token !in h.submits)
  }

  ghost predicate SavedOk(row: Generation, h: History) {
    && (row.requestId.None? ==> h.saved == [])
    && (row.requestId.Some? ==>
          |h.saved| == 1 && h.saved[0].requestId == row.requestId.value && Granted(h, h.saved[0].token))
    && (forall i :: 0 <= i < |h.polls| ==> row.requestId == Some(h.polls[i].requestId))
  }

  ghost predicate SettledOk(row: Generation, h: History) {
    && (!row.Terminal() ==> h.settled == [])
    && (row.Terminal() ==>
          && h.grants != []
          && h.settled == [Settlement(h.grants[|h.grants| - 1].token, row.status == Completed)])
  }

  /** A poll under the token `t` brought this result. */
  ghost predicate Answered(polls: seq<Asked>, t: Token, result: string) {
    exists i :: 0 <= i < |polls| && polls[i].token == t && polls[i].reply == Answer(result)
  }

  /** The result of a completed row is what the claim that completed it was answered. */
  ghost predicate ResultOk(row: Generation, h: History) {
    row.status == Completed ==>
      row.result.Some? && h.settled != [] && Answered(h.polls, h.settled[0].token, row.result.value)
  }

  ghost predicate HistoryOk(cfg: Config, row: Generation, h: History, now: int) {
    GrantsOk(cfg, row, h, now) && SubmitsOk(h) && SavedOk(row, h) && SettledOk(row, h) && ResultOk(row, h)
  }

  // ----- A worker task and the row it works on ------------------------------------------------

  /** While its token is current, nobody has stored a request id since the worker looked. */
  ghost predicate UnsavedWhileCurrent(row: Generation, t: Token) {
    row.token == Some(t) ==> row.requestId.None?
  }

  ghost predicate WorkerOk(cfg: Config, p: Phase, row: Generation, h: History) {
    && (p.Held().Some? ==> Granted(h, p.Held().value))
    && (p.Submitting? ==>
          && p.token !in h.submits
          && forall i :: 0 <= i < |h.grants| && h.grants[i].token == p.token ==> !h.grants[i].hadId)
    && (p.Submitting? || p.Saving? || p.FailoverRequeueing? ==> UnsavedWhileCurrent(row, p.token))
    && (p.Polling? || p.Completing? ==> row.requestId == Some(p.requestId))
    && (p.Completing? ==> Answered(h.polls, p.token, p.result))
    && (p.Submitting? || p.Saving? || p.Polling? || p.Completing? ==> p.provider in cfg.constructible)
  }

  // ----- The whole protocol state ---------------------------------------------------------------

  ghost predicate JobOk(cfg: Config, row: Generation, h: History, now: int) {
    RowOk(cfg, row, now) && HistoryOk(cfg, row, h, now)
  }

  ghost predicate TokensIssued(h: History, issued: set<Token>) {
    forall i :: 0 <= i < |h.grants| ==> h.grants[i].token in issued
  }

  ghost predicate TaskOk(cfg: Config, v: Worker, gens: map<GenerationId, Generation>, hist: map<GenerationId, History>) {
    v.phase.Held().Some? ==>
      && v.generation in gens && v.generation in hist
      && WorkerOk(cfg, v.phase, gens[v.generation], hist[v.generation])
  }

  ghost predicate DistinctTokens(workers: map<nat, Worker>) {
    forall v, w :: v in workers && w in workers && v != w && workers[v].phase.Held().Some?
      ==> workers[v].phase.Held() != workers[w].phase.Held()
  }

  ghost predicate JobsInv(cfg: Config, s: Sys) {
    && s.hist.Keys == s.db.generations.Keys
    && (forall g :: g in s.hist ==> TokensIssued(s.hist[g], s.issued))
    && (forall g :: g in s.db.generations ==> JobOk(cfg, s.db.generations[g], s.hist[g], s.now))
    && (forall w :: w in s.workers ==> TaskOk(cfg, s.workers[w], s.db.generations, s.hist))
    && DistinctTokens(s.workers)
  }

  // ----- Preservation ------------------------------------------------------------------------------

  lemma AddGrant(h: History, grant: Grant, t: Token)
    requires Granted(h, t)
    ensures Granted(h.(grants := h.grants + [grant]), t)
  {
    var i :| 0 <= i < |h.grants| && h.grants[i].token == t;
    assert (h.grants + [grant])[i].token == t;
  }

  predicate HoldsClaim(v: Worker, g: GenerationId) {
    v.generation == g && v.phase.Held().Some?
  }

  /** The workers of `ws'` are those of `ws`, except that `w` moved or is gone; its token is
      its own. */
  ghost predicate OneWorkerMoved(ws: map<nat, Worker>, ws': map<nat, Worker>, w: nat) {
    && (forall v :: v in ws' && v != w ==> v in ws && ws'[v] == ws[v])
    && (w in ws' && ws'[w].phase.Held().Some? ==>
          forall v :: v in ws' && v != w ==> ws'[v].phase.Held() != ws'[w].phase.Held())
  }

  /** A step that changes one generation, and at most the worker `w` that made it, keeps the
      invariant as soon as that generation, the other workers on it and `w` are fine. */
  lemma OneJobStep(cfg: Config, s: Sys, s': Sys, g: GenerationId, row: Generation, h: History, w: nat)
    requires JobsInv(cfg, s) && g in s.db.generations
    requires s'.db.generations == s.db.generations[g := row] && s'.hist == s.hist[g := h]
    requires s'.now == s.now && s.issued <= s'.issued
    requires OneWorkerMoved(s.workers, s'.workers, w)
    requires JobOk(cfg, row, h, s.now) && TokensIssued(h, s'.issued)
    requires forall v :: v in s.workers && v != w && HoldsClaim(s.workers[v], g) ==> WorkerOk(cfg, s.workers[v].phase, row, h)
    requires w in s'.workers ==> TaskOk(cfg, s'.workers[w], s'.db.generations, s'.hist)
    ensures JobsInv(cfg, s')
  {
    hide JobOk, WorkerOk;
  }

  /** A step that only moves the worker `w`, if it moves anything here. */
  lemma OneWorkerStep(cfg: Config, s: Sys, s': Sys, w: nat)
    requires JobsInv(cfg, s)
    requires s'.db.generations == s.db.generations && s'.hist == s.hist
    requires s'.now == s.now && s.issued <= s'.issued
    requires OneWorkerMoved(s.workers, s'.workers, w)
    requires w in s'.workers ==> TaskOk(cfg, s'.workers[w], s'.db.generations, s'.hist)
    ensures JobsInv(cfg, s')
  {
    hide JobOk, WorkerOk;
  }

  // ----- Claims ---------------------------------------------------------------------------------------

  lemma NewGrantInOrder(h: History, grant: Grant)
    requires InOrder(h)
    requires h.grants != [] ==> h.grants[|h.grants| - 1].at <= grant.at && Over(h, h.grants[|h.grants| - 1], grant.at)
    ensures InOrder(h.(grants := h.grants + [grant]))
  {
    var h' := h.(grants := h.grants + [grant]);
    forall i | 0 < i < |h'.grants| ensures h'.grants[i - 1].at <= h'.grants[i].at && Over(h', h'.grants[i - 1], h'.grants[i].at) {
      if i < |h.grants| { assert Over(h, h.grants[i - 1], h.grants[i].at); }
    }
  }

  lemma NewGrantIsDistinct(h: History, grant: Grant)
    requires !Granted(h, grant.token)
    requires forall i, j :: 0 <= i < j < |h.grants| ==> h.grants[i].token != h.grants[j].token
    ensures var gs := h.grants + [grant]; forall i, j :: 0 <= i < j < |gs| ==> gs[i].token != gs[j].token
  {
  }

  lemma ClaimKeepsGrants(cfg: Config, row: Generation, h: History, now: int, t: Token, grant: Grant)
    requires RowOk(cfg, row, now) && GrantsOk(cfg, row, h, now) && Claimable(row, now)
    requires grant == Grant(t, now, now + cfg.leaseSeconds, row.requestId.Some?) && !Granted(h, t)
    ensures GrantsOk(cfg, ClaimedRow(row, t, now, cfg.leaseSeconds), h.(grants := h.grants + [grant]), now)
  {
    var h' := h.(grants := h.grants + [grant]);
    assert h'.grants[|h.grants|] == grant;
    assert h.grants != [] ==> Over(h, h.grants[|h.grants| - 1], now);
    hide Over, Granted, RowOk;
    NewGrantInOrder(h, grant);
    NewGrantIsDistinct(h, grant);
  }

  lemma ClaimKeepsSubmits(h: History, grant: Grant)
    requires SubmitsOk(h) && !Granted(h, grant.token)
    ensures SubmitsOk(h.(grants := h.grants + [grant]))
  {
    var h' := h.(grants := h.grants + [grant]);
    assert grant.token !in h.submits;
    forall u | u in h'.submits ensures Granted(h', u) { AddGrant(h, grant, u); }
  }

  lemma ClaimKeepsHistory(cfg: Config, row: Generation, h: History, now: int, t: Token, grant: Grant)
    requires JobOk(cfg, row, h, now) && Claimable(row, now)
    requires grant == Grant(t, now, now + cfg.leaseSeconds, row.requestId.Some?)
    requires !Granted(h, t)
    ensures JobOk(cfg, ClaimedRow(row, t, now, cfg.leaseSeconds), h.(grants := h.grants + [grant]), now)
  {
    hide GrantsOk, SubmitsOk;
    ClaimKeepsGrants(cfg, row, h, now, t, grant);
    ClaimKeepsSubmits(h, grant);
    if row.requestId.Some? { AddGrant(h, grant, h.saved[0].token); }
  }

  lemma ClaimKeepsOthers(cfg: Config, p: Phase, row: Generation, h: History, now: int, t: Token, grant: Grant)
    requires WorkerOk(cfg, p, row, h) && p.Held().Some?
    requires grant.token == t && !Granted(h, t)
    ensures WorkerOk(cfg, p, ClaimedRow(row, t, now, cfg.leaseSeconds), h.(grants := h.grants + [grant]))
  {
    AddGrant(h, grant, p.Held().value);
  }

  lemma ClaimStartsWell(cfg: Config, v: Worker, row: Generation, h: History, now: int, t: Token, grant: Grant)
    requires JobOk(cfg, row, h, now) && !Granted(h, t)
    requires grant == Grant(t, now, now + cfg.leaseSeconds, row.requestId.Some?)
    ensures var row' := ClaimedRow(row, t, now, cfg.leaseSeconds);
            WorkerOk(cfg, AfterClaim(cfg, v, t, row').phase, row', h.(grants := h.grants + [grant]))
  {
    var h' := h.(grants := h.grants + [grant]);
    assert h'.grants[|h.grants|].token == t;
    assert t !in h.submits;
  }

  lemma ClaimKeeps(cfg: Config, s: Sys, w: nat, t: Token)
    requires JobsInv(cfg, s) && Enabled(cfg, s, Claim(w, t))
    ensures JobsInv(cfg, DoClaim(cfg, s, w, t))
  {
    hide JobOk, WorkerOk;
    var s' := DoClaim(cfg, s, w, t);
    var g := s.workers[w].generation;
    if g in s.db.generations && Claimable(s.db.generations[g], s.now) {
      var row, h := s.db.generations[g], s.hist[g];
      var grant := Grant(t, s.now, s.now + cfg.leaseSeconds, row.requestId.Some?);
      var row', h' := ClaimedRow(row, t, s.now, cfg.leaseSeconds), h.(grants := h.grants + [grant]);
      ClaimKeepsHistory(cfg, row, h, s.now, t, grant);
      forall v | v in s.workers && v != w && HoldsClaim(s.workers[v], g)
        ensures WorkerOk(cfg, s.workers[v].phase, row', h')
      {
        ClaimKeepsOthers(cfg, s.workers[v].phase, row, h, s.now, t, grant);
      }
      ClaimStartsWell(cfg, s.workers[w], row, h, s.now, t, grant);
      HeldIssued(cfg, s, t);
      AfterClaimHolds(cfg, s.workers[w], t, row');
      OneJobStep(cfg, s, s', g, row', h', w);
    } else {
      OneWorkerStep(cfg, s, s', w);
    }
  }

  /** A token drawn by `uuid4` is held by no worker. */
  lemma HeldIssued(cfg: Config, s: Sys, t: Token)
    requires JobsInv(cfg, s) && t !in s.issued
    ensures forall v :: v in s.workers ==> s.workers[v].phase.Held() != Some(t)
  {
    hide JobOk;
  }

  lemma AfterClaimHolds(cfg: Config, v: Worker, t: Token, row: Generation)
    ensures AfterClaim(cfg, v, t, row).phase.Held() == Some(t)
    ensures AfterClaim(cfg, v, t, row).generation == v.generation
  {
  }

  // ----- Everything else a worker does under its token --------------------------------------------------

  /** What a step under the token `t` may do to the row and history of its generation. */
  ghost predicate OwnStep(row: Generation, row': Generation, h: History, h': History, t: Token) {
    && h'.grants == h.grants && h.polls <= h'.polls
    && (row'.token == row.token || row'.token.None?)
    && (row'.requestId == row.requestId || (row.requestId.None? && row.token == Some(t)))
    && (forall x :: x in h'.submits ==> x in h.submits || x == t)
  }

  lemma OthersStayFine(cfg: Config, p: Phase, row: Generation, row': Generation, h: History, h': History, t: Token)
    requires WorkerOk(cfg, p, row, h) && p.Held().Some? && p.Held() != Some(t)
    requires OwnStep(row, row', h, h', t)
    ensures WorkerOk(cfg, p, row', h')
  {
    if p.Completing? { AnsweredGrows(h.polls, h'.polls, p.token, p.result); }
    hide Answered;
  }

  lemma AnsweredGrows(polls: seq<Asked>, polls': seq<Asked>, t: Token, result: string)
    requires polls <= polls' && Answered(polls, t, result)
    ensures Answered(polls', t, result)
  {
    var i :| 0 <= i < |polls| && polls[i].token == t && polls[i].reply == Answer(result);
    assert polls'[i] == polls[i];
  }

  lemma OwnStepKeeps(cfg: Config, s: Sys, s': Sys, g: GenerationId, row: Generation, h: History, w: nat)
    requires JobsInv(cfg, s) && w in s.workers && s.workers[w].phase.Held().Some? && s.workers[w].generation == g
    requires g in s.db.generations && g in s.hist
    requires s'.db.generations == s.db.generations[g := row] && s'.hist == s.hist[g := h]
    requires s'.now == s.now && s.issued == s'.issued
    requires s'.workers == s.workers - {w} || (w in s'.workers && s'.workers == s.workers[w := s'.workers[w]])
    requires OwnStep(s.db.generations[g], row, s.hist[g], h, s.workers[w].phase.Held().value)
    requires JobOk(cfg, row, h, s.now)
    requires w in s'.workers && s'.workers[w].phase.Held().Some? ==>
      && s'.workers[w].phase.Held() == s.workers[w].phase.Held()
      && s'.workers[w].generation == g
      && WorkerOk(cfg, s'.workers[w].phase, row, h)
    ensures JobsInv(cfg, s')
  {
    hide JobOk, WorkerOk;
    forall v | v in s.workers && v != w && HoldsClaim(s.workers[v], g)
      ensures WorkerOk(cfg, s.workers[v].phase, row, h)
    {
      OthersStayFine(cfg, s.workers[v].phase, s.db.generations[g], row, s.hist[g], h, s.workers[w].phase.Held().value);
    }
    OneJobStep(cfg, s, s', g, row, h, w);
  }

  lemma AfterErrorFine(cfg: Config, v: Worker, t: Token, kind: ErrorKind, row: Generation, h: History)
    requires Granted(h, t)
    ensures WorkerOk(cfg, AfterError(cfg, v, t, kind).phase, row, h)
    ensures AfterError(cfg, v, t, kind).phase.Held() == Some(t)
    ensures AfterError(cfg, v, t, kind).generation == v.generation
  {
  }

  lemma KeepGrants(cfg: Config, row: Generation, row': Generation, h: History, h': History, now: int)
    requires GrantsOk(cfg, row, h, now)
    requires h'.grants == h.grants && h'.yielded == h.yielded
    requires row'.attempts == row.attempts && row'.status == row.status && row'.token == row.token && row'.lease == row.lease
    ensures GrantsOk(cfg, row', h', now)
  {
  }

  lemma KeepSubmits(h: History, h': History)
    requires SubmitsOk(h) && h'.grants == h.grants && h'.submits == h.submits
    ensures SubmitsOk(h')
  {
    assert forall u :: Granted(h, u) ==> Granted(h', u);
  }

  lemma SubmitOnce(h: History, t: Token)
    requires SubmitsOk(h) && Granted(h, t) && t !in h.submits
    requires forall i :: 0 <= i < |h.grants| && h.grants[i].token == t ==> !h.grants[i].hadId
    ensures SubmitsOk(h.(submits := h.submits + [t]))
  {
    var h' := h.(submits := h.submits + [t]);
    assert forall u :: Granted(h, u) ==> Granted(h', u);
    assert forall u :: u in h'.submits ==> u in h.submits || u == t;
  }

  lemma SubmitRow(cfg: Config, row: Generation, h: History, now: int, p: Phase)
    requires JobOk(cfg, row, h, now) && p.Submitting? && WorkerOk(cfg, p, row, h)
    ensures var h' := h.(submits := h.submits + [p.token]);
            && JobOk(cfg, row, h', now) && Granted(h', p.token)
            && forall id :: WorkerOk(cfg, Saving(p.token, p.provider, id), row, h')
  {
    hide GrantsOk, SubmitsOk;
    var h' := h.(submits := h.submits + [p.token]);
    KeepGrants(cfg, row, row, h, h', now);
    SubmitOnce(h, p.token);
    assert forall u :: Granted(h, u) ==> Granted(h', u);
  }

  lemma SubmitKeeps(cfg: Config, s: Sys, w: nat, reply: Reply)
    requires JobsInv(cfg, s) && Enabled(cfg, s, Submit(w, reply))
    ensures JobsInv(cfg, DoSubmit(cfg, s, w, reply))
  {
    hide JobOk, WorkerOk, Granted;
    var v := s.workers[w];
    var g, p := v.generation, v.phase;
    assert TaskOk(cfg, v, s.db.generations, s.hist);
    var row, h := s.db.generations[g], s.hist[g];
    SubmitRow(cfg, row, h, s.now, p);
    var h' := h.(submits := h.submits + [p.token]);
    if reply.Error? { AfterErrorFine(cfg, v, p.token, reply.kind, row, h'); }
    OwnStepKeeps(cfg, s, DoSubmit(cfg, s, w, reply), g, row, h', w);
  }

  lemma SaveRow(cfg: Config, row: Generation, h: History, now: int, p: Phase)
    requires JobOk(cfg, row, h, now) && p.Saving? && WorkerOk(cfg, p, row, h)
    requires row.requestId.None?
    ensures var row', h' := SavedRow(row, p.provider, p.requestId, now), h.(saved := h.saved + [Saved(p.token, p.requestId, p.provider)]);
            && JobOk(cfg, row', h', now) && Granted(h', p.token)
            && WorkerOk(cfg, Polling(p.token, p.provider, p.requestId), row', h')
  {
    var row', h' := SavedRow(row, p.provider, p.requestId, now), h.(saved := h.saved + [Saved(p.token, p.requestId, p.provider)]);
    hide GrantsOk, SubmitsOk;
    KeepGrants(cfg, row, row', h, h', now);
    KeepSubmits(h, h');
    assert forall u :: Granted(h, u) ==> Granted(h', u);
  }

  lemma SaveKeeps(cfg: Config, s: Sys, w: nat, ackLost: bool)
    requires JobsInv(cfg, s) && Enabled(cfg, s, Save(w, ackLost))
    ensures JobsInv(cfg, DoSave(cfg, s, w, ackLost))
  {
    hide JobOk, WorkerOk, Granted;
    var v := s.workers[w];
    var g, p := v.generation, v.phase;
    assert TaskOk(cfg, v, s.db.generations, s.hist);
    var row, h := s.db.generations[g], s.hist[g];
    var s' := DoSave(cfg, s, w, ackLost);
    if Owner(s.db, g, p.token) && row.requestId.None? {
      var row', h' := SavedRow(row, p.provider, p.requestId, s.now), h.(saved := h.saved + [Saved(p.token, p.requestId, p.provider)]);
      SaveRow(cfg, row, h, s.now, p);
      AfterErrorFine(cfg, v, p.token, Unexpected, row', h');
      OwnStepKeeps(cfg, s, s', g, row', h', w);
    } else {
      WorkerGranted(cfg, p, row, h);
      AfterErrorFine(cfg, v, p.token, Unexpected, row, h);
      OwnStepKeeps(cfg, s, s', g, row, h, w);
    }
  }

  lemma WorkerGranted(cfg: Config, p: Phase, row: Generation, h: History)
    requires WorkerOk(cfg, p, row, h) && p.Held().Some?
    ensures Granted(h, p.Held().value)
  {
  }

  lemma PollRow(cfg: Config, row: Generation, h: History, now: int, p: Phase, reply: Reply)
    requires JobOk(cfg, row, h, now) && p.Polling? && WorkerOk(cfg, p, row, h)
    ensures var h' := h.(polls := h.polls + [Asked(p.token, p.requestId, reply, p.provider)]);
            && JobOk(cfg, row, h', now) && Granted(h', p.token)
            && (reply.Answer? ==> WorkerOk(cfg, Completing(p.token, p.provider, p.requestId, reply.value), row, h'))
  {
    hide GrantsOk, SubmitsOk, Answered;
    var h' := h.(polls := h.polls + [Asked(p.token, p.requestId, reply, p.provider)]);
    KeepGrants(cfg, row, row, h, h', now);
    KeepSubmits(h, h');
    if row.status == Completed { AnsweredGrows(h.polls, h'.polls, h.settled[0].token, row.result.value); }
    if reply.Answer? { JustAnswered(h.polls, p.token, p.requestId, reply.value, p.provider); }
    assert forall u :: Granted(h, u) ==> Granted(h', u);
  }

  lemma JustAnswered(polls: seq<Asked>, t: Token, id: string, result: string, provider: string)
    ensures Answered(polls + [Asked(t, id, Answer(result), provider)], t, result)
  {
    assert (polls + [Asked(t, id, Answer(result), provider)])[|polls|].token == t;
  }

  lemma PollKeeps(cfg: Config, s: Sys, w: nat, reply: Reply)
    requires JobsInv(cfg, s) && Enabled(cfg, s, Poll(w, reply))
    ensures JobsInv(cfg, DoPoll(cfg, s, w, reply))
  {
    hide JobOk, WorkerOk, Granted;
    var v := s.workers[w];
    var g, p := v.generation, v.phase;
    assert TaskOk(cfg, v, s.db.generations, s.hist);
    var row, h := s.db.generations[g], s.hist[g];
    PollRow(cfg, row, h, s.now, p, reply);
    var h' := h.(polls := h.polls + [Asked(p.token, p.requestId, reply, p.provider)]);
    if reply.Error? { AfterErrorFine(cfg, v, p.token, reply.kind, row, h'); }
    OwnStepKeeps(cfg, s, DoPoll(cfg, s, w, reply), g, row, h', w);
  }

  lemma SettleRow(cfg: Config, row: Generation, row': Generation, h: History, now: int, t: Token)
    requires JobOk(cfg, row, h, now) && Owns(row, t)
    requires || (exists code :: row' == FailedRow(row, code, now))
             || (row.requestId.Some? && exists result, provider ::
                   provider in cfg.constructible && Answered(h.polls, t, result) && row' == CompletedRow(row, result, provider, now))
    ensures var h' := h.(settled := h.settled + [Settlement(t, row'.status == Completed)]);
            JobOk(cfg, row', h', now) && Granted(h', t)
  {
    var h' := h.(settled := h.settled + [Settlement(t, row'.status == Completed)]);
    assert h.grants[|h.grants| - 1].token == t;
    TerminalGrants(cfg, row, row', h, h', now);
    hide GrantsOk, SubmitsOk, Answered;
    KeepSubmits(h, h');
    assert forall u :: Granted(h, u) ==> Granted(h', u);
  }

  lemma TerminalGrants(cfg: Config, row: Generation, row': Generation, h: History, h': History, now: int)
    requires GrantsOk(cfg, row, h, now)
    requires h'.grants == h.grants && h'.yielded == h.yielded
    requires row'.attempts == row.attempts && row'.Terminal()
    ensures GrantsOk(cfg, row', h', now)
  {
  }

  lemma CompletingHasId(cfg: Config, p: Phase, row: Generation, h: History)
    requires WorkerOk(cfg, p, row, h) && p.Completing?
    ensures row.requestId.Some? && p.provider in cfg.constructible && Answered(h.polls, p.token, p.result)
  {
  }

  lemma CompleteKeeps(cfg: Config, s: Sys, w: nat, e: EventId, ackLost: bool)
    requires JobsInv(cfg, s) && Enabled(cfg, s, Finishing(w, e, ackLost))
    ensures JobsInv(cfg, DoComplete(cfg, s, w, e, ackLost))
  {
    hide JobOk, WorkerOk, Granted;
    var v := s.workers[w];
    var g, p := v.generation, v.phase;
    assert TaskOk(cfg, v, s.db.generations, s.hist);
    var row, h := s.db.generations[g], s.hist[g];
    var s' := DoComplete(cfg, s, w, e, ackLost);
    var row' := CompletedRow(row, p.result, p.provider, s.now);
    if Owner(s.db, g, p.token) && (row'.request.callbackUrl.None? || !HasCallback(s.db.callbacks, g)) {
      CompletingHasId(cfg, p, row, h);
      SettleRow(cfg, row, row', h, s.now, p.token);
      var h' := h.(settled := h.settled + [Settlement(p.token, true)]);
      AfterErrorFine(cfg, v, p.token, Unexpected, row', h');
      OwnStepKeeps(cfg, s, s', g, row', h', w);
    } else {
      WorkerGranted(cfg, p, row, h);
      AfterErrorFine(cfg, v, p.token, Unexpected, row, h);
      OwnStepKeeps(cfg, s, s', g, row, h, w);
    }
  }

  /** The token column is set only on `processing` rows, so the `queued` alternative of the
      refund guard never fires. */
  lemma RefundGuardIsOwnership(cfg: Config, row: Generation, h: History, now: int, t: Token)
    requires JobOk(cfg, row, h, now)
    ensures Refundable(row, t) <==> Owns(row, t)
  {
  }

  lemma FailKeeps(cfg: Config, s: Sys, w: nat, e: EventId)
    requires JobsInv(cfg, s) && Enabled(cfg, s, Fail(w, e))
    ensures JobsInv(cfg, DoFail(s, w, e))
  {
    hide JobOk, WorkerOk, Granted;
    var v := s.workers[w];
    var g, p := v.generation, v.phase;
    assert TaskOk(cfg, v, s.db.generations, s.hist);
    var row, h := s.db.generations[g], s.hist[g];
    var s' := DoFail(s, w, e);
    var row' := FailedRow(row, p.code, s.now);
    RefundGuardIsOwnership(cfg, row, h, s.now, p.token);
    if Owner(s.db, g, p.token) && (row'.request.callbackUrl.None? || !HasCallback(s.db.callbacks, g)) {
      SettleRow(cfg, row, row', h, s.now, p.token);
      var h' := h.(settled := h.settled + [Settlement(p.token, false)]);
      OwnStepKeeps(cfg, s, s', g, row', h', w);
    } else {
      OwnStepKeeps(cfg, s, s', g, row, h, w);
    }
  }

  lemma YieldRow(cfg: Config, row: Generation, h: History, now: int, t: Token, code: string)
    requires JobOk(cfg, row, h, now) && Owns(row, t)
    ensures JobOk(cfg, QueuedRow(row, code, now), h.(yielded := h.yielded + {t}), now)
  {
    var row', h' := QueuedRow(row, code, now), h.(yielded := h.yielded + {t});
    assert h.grants[|h.grants| - 1].token == t;
    assert forall u :: Granted(h, u) ==> Granted(h', u);
    assert forall c, time :: Over(h, c, time) ==> Over(h', c, time);
    assert GrantsOk(cfg, row', h', now);
    assert SubmitsOk(h');
  }

  lemma YieldKeeps(cfg: Config, s: Sys, w: nat)
    requires JobsInv(cfg, s) && Enabled(cfg, s, Yield(w))
    ensures JobsInv(cfg, DoYield(s, w))
  {
    hide JobOk, WorkerOk, Granted;
    var v := s.workers[w];
    var g, p := v.generation, v.phase;
    assert TaskOk(cfg, v, s.db.generations, s.hist);
    var row, h := s.db.generations[g], s.hist[g];
    if Owner(s.db, g, p.token) {
      YieldRow(cfg, row, h, s.now, p.token, p.code);
      OwnStepKeeps(cfg, s, DoYield(s, w), g, QueuedRow(row, p.code, s.now), h.(yielded := h.yielded + {p.token}), w);
    } else {
      OwnStepKeeps(cfg, s, DoYield(s, w), g, row, h, w);
    }
  }

  lemma YieldToFallbackKeeps(cfg: Config, s: Sys, w: nat)
    requires JobsInv(cfg, s) && Enabled(cfg, s, YieldToFallback(w))
    ensures JobsInv(cfg, DoYieldToFallback(cfg, s, w))
  {
    hide JobOk, WorkerOk, Granted;
    var v := s.workers[w];
    var g, p := v.generation, v.phase;
    assert TaskOk(cfg, v, s.db.generations, s.hist);
    var row, h := s.db.generations[g], s.hist[g];
    if Owner(s.db, g, p.token) {
      YieldRow(cfg, row, h, s.now, p.token, "provider_failover");
      OwnStepKeeps(cfg, s, DoYieldToFallback(cfg, s, w), g,
                   QueuedRow(row, "provider_failover", s.now), h.(yielded := h.yielded + {p.token}), w);
    } else {
      WorkerGranted(cfg, p, row, h);
      FailingFine(cfg, p.token, row, h);
      OwnStepKeeps(cfg, s, DoYieldToFallback(cfg, s, w), g, row, h, w);
    }
  }

  lemma FailingFine(cfg: Config, t: Token, row: Generation, h: History)
    requires Granted(h, t)
    ensures WorkerOk(cfg, Failing(t, "temporary_provider_error"), row, h)
    ensures row.requestId.None? ==> WorkerOk(cfg, FailoverRequeueing(t), row, h)
  {
  }

  lemma ReadForFailoverKeeps(cfg: Config, s: Sys, w: nat)
    requires JobsInv(cfg, s) && Enabled(cfg, s, ReadForFailover(w))
    ensures JobsInv(cfg, DoReadForFailover(s, w))
  {
    hide JobOk, WorkerOk, Granted;
    var v := s.workers[w];
    var g, p := v.generation, v.phase;
    assert TaskOk(cfg, v, s.db.generations, s.hist);
    var row, h := s.db.generations[g], s.hist[g];
    WorkerGranted(cfg, p, row, h);
    FailingFine(cfg, p.token, row, h);
    OwnStepKeeps(cfg, s, DoReadForFailover(s, w), g, row, h, w);
  }

  lemma BreakKeeps(cfg: Config, s: Sys, w: nat)
    requires JobsInv(cfg, s) && Enabled(cfg, s, Break(w))
    ensures JobsInv(cfg, Step(cfg, s, Break(w)))
  {
    hide JobOk, WorkerOk, Granted;
    var v := s.workers[w];
    var g, p := v.generation, v.phase;
    assert TaskOk(cfg, v, s.db.generations, s.hist);
    var row, h := s.db.generations[g], s.hist[g];
    WorkerGranted(cfg, p, row, h);
    AfterErrorFine(cfg, v, p.token, Unexpected, row, h);
    OwnStepKeeps(cfg, s, Step(cfg, s, Break(w)), g, row, h, w);
  }

  // ----- Steps of the environment, of dispatch and of recovery -------------------------------------------

  /** What a step that belongs to no worker may do to a row. */
  ghost predicate RowOutside(cfg: Config, row: Generation, row': Generation, h: History, now: int, now': int) {
    && row'.requestId == row.requestId
    && (row'.token == row.token || row'.token.None?)
    && (JobOk(cfg, row, h, now) ==> JobOk(cfg, row', h, now'))
  }

  lemma OutsideKeepsWorker(cfg: Config, p: Phase, row: Generation, row': Generation, h: History, now: int, now': int)
    requires RowOutside(cfg, row, row', h, now, now') && WorkerOk(cfg, p, row, h)
    ensures WorkerOk(cfg, p, row', h)
  {
    hide JobOk;
  }

  lemma OutsideStep(cfg: Config, s: Sys, s': Sys)
    requires JobsInv(cfg, s)
    requires s'.hist == s.hist && s'.issued == s.issued
    requires forall w :: w in s'.workers && s'.workers[w].phase.Held().Some? ==> w in s.workers && s'.workers[w] == s.workers[w]
    requires s'.db.generations.Keys == s.db.generations.Keys
    requires forall g :: g in s.hist ==>
      RowOutside(cfg, s.db.generations[g], s'.db.generations[g], s.hist[g], s.now, s'.now)
    ensures JobsInv(cfg, s')
  {
    hide JobOk, WorkerOk, RowOutside;
    forall g | g in s.db.generations ensures JobOk(cfg, s'.db.generations[g], s.hist[g], s'.now) {
      OutsideJob(cfg, s.db.generations[g], s'.db.generations[g], s.hist[g], s.now, s'.now);
    }
    forall w | w in s'.workers ensures TaskOk(cfg, s'.workers[w], s'.db.generations, s'.hist) {
      var v := s'.workers[w];
      if v.phase.Held().Some? {
        var g := v.generation;
        OutsideKeepsWorker(cfg, v.phase, s.db.generations[g], s'.db.generations[g], s.hist[g], s.now, s'.now);
      }
    }
  }

  lemma OutsideJob(cfg: Config, row: Generation, row': Generation, h: History, now: int, now': int)
    requires RowOutside(cfg, row, row', h, now, now') && JobOk(cfg, row, h, now)
    ensures JobOk(cfg, row', h, now')
  {
    hide JobOk;
  }

  lemma TickRow(cfg: Config, row: Generation, h: History, now: int, d: nat)
    ensures RowOutside(cfg, row, row, h, now, now + d)
  {
    if JobOk(cfg, row, h, now) {
      assert forall c, time :: Over(h, c, time) ==> Over(h, c, time + d);
      assert GrantsOk(cfg, row, h, now + d);
    }
  }

  lemma EnqueueRow(cfg: Config, row: Generation, h: History, now: int)
    ensures RowOutside(cfg, row, Enqueued(row, now), h, now, now)
  {
    if JobOk(cfg, row, h, now) {
      assert GrantsOk(cfg, Enqueued(row, now), h, now);
      assert SavedOk(Enqueued(row, now), h);
    }
  }

  lemma RecoverRow(cfg: Config, row: Generation, h: History, now: int)
    requires Stale(row, now, cfg.queuedRecovery)
    ensures RowOutside(cfg, row, RecoveredRow(row, now), h, now, now)
  {
    if JobOk(cfg, row, h, now) {
      assert GrantsOk(cfg, RecoveredRow(row, now), h, now);
      assert SavedOk(RecoveredRow(row, now), h);
    }
  }

  lemma SameRow(cfg: Config, row: Generation, h: History, now: int)
    ensures RowOutside(cfg, row, row, h, now, now)
  {
    hide JobOk;
  }

  lemma NewRow(cfg: Config, cmd: Command, cost: int, now: int)
    requires cost > 0
    ensures JobOk(cfg, NewGeneration(cmd, cost, now), NoHistory, now)
  {
  }

  lemma AddedJob(cfg: Config, s: Sys, s': Sys, g: GenerationId, row: Generation)
    requires JobsInv(cfg, s) && g !in s.db.generations && JobOk(cfg, row, NoHistory, s.now)
    requires s'.db.generations == s.db.generations[g := row] && s'.hist == s.hist[g := NoHistory]
    requires s'.workers == s.workers && s'.issued == s.issued && s'.now == s.now
    ensures JobsInv(cfg, s')
  {
    hide JobOk, WorkerOk;
    assert forall x :: x in s.db.generations ==> x != g && s'.db.generations[x] == s.db.generations[x];
    assert forall x :: x in s.hist ==> x != g && s'.hist[x] == s.hist[x];
  }

  lemma CreateStep(cfg: Config, s: Sys, cmd: Command, cost: int, g: GenerationId, e: EventId)
    requires Enabled(cfg, s, Create(cmd, cost, g, e))
    ensures var (db, reply) := CreateAndCharge(s.db, cmd, cost, g, e, s.now);
            g !in s.db.generations && Step(cfg, s, Create(cmd, cost, g, e)) == DoCreate(s, db, reply)
  {
    hide CreateAndCharge, DoCreate;
  }

  lemma CreateKeeps(cfg: Config, s: Sys, cmd: Command, cost: int, g: GenerationId, e: EventId)
    requires JobsInv(cfg, s) && Enabled(cfg, s, Create(cmd, cost, g, e))
    ensures JobsInv(cfg, Step(cfg, s, Create(cmd, cost, g, e)))
  {
    hide JobsInv, JobOk, Step, Enabled;
    CreateStep(cfg, s, cmd, cost, g, e);
    if CreateAndCharge(s.db, cmd, cost, g, e, s.now).1.Opened? {
      NewRow(cfg, cmd, cost, s.now);
      AddedJob(cfg, s, Step(cfg, s, Create(cmd, cost, g, e)), g, NewGeneration(cmd, cost, s.now));
    }
  }

  lemma DispatchKeeps(cfg: Config, s: Sys, disp: nat, outcome: DispatchOutcome)
    requires JobsInv(cfg, s) && Enabled(cfg, s, DispatchNext(disp, outcome))
    ensures JobsInv(cfg, Step(cfg, s, DispatchNext(disp, outcome)))
  {
    hide JobOk, WorkerOk;
    var s' := DoDispatch(s, disp, outcome);
    forall g | g in s.hist
      ensures RowOutside(cfg, s.db.generations[g], s'.db.generations[g], s.hist[g], s.now, s'.now)
    {
      SameRow(cfg, s.db.generations[g], s.hist[g], s.now);
      EnqueueRow(cfg, s.db.generations[g], s.hist[g], s.now);
    }
    OutsideStep(cfg, s, s');
  }

  lemma RecoverKeeps(cfg: Config, s: Sys, locked: set<GenerationId>, ids: seq<GenerationId>)
    requires JobsInv(cfg, s) && Enabled(cfg, s, Recover(locked, ids))
    ensures JobsInv(cfg, Step(cfg, s, Recover(locked, ids)))
  {
    hide JobOk, WorkerOk;
    var s' := Step(cfg, s, Recover(locked, ids));
    forall g | g in s.hist
      ensures RowOutside(cfg, s.db.generations[g], s'.db.generations[g], s.hist[g], s.now, s'.now)
    {
      SameRow(cfg, s.db.generations[g], s.hist[g], s.now);
      if g in ids { RecoverRow(cfg, s.db.generations[g], s.hist[g], s.now); }
    }
    OutsideStep(cfg, s, s');
  }

  lemma TickKeeps(cfg: Config, s: Sys, d: nat)
    requires JobsInv(cfg, s)
    ensures JobsInv(cfg, Step(cfg, s, Tick(d)))
  {
    hide JobOk, WorkerOk;
    forall g | g in s.hist
      ensures RowOutside(cfg, s.db.generations[g], s.db.generations[g], s.hist[g], s.now, s.now + d)
    {
      TickRow(cfg, s.db.generations[g], s.hist[g], s.now, d);
    }
    OutsideStep(cfg, s, Step(cfg, s, Tick(d)));
  }

  /** Steps that leave generations, histories and the clock alone and move no claim. */
  lemma QuietStep(cfg: Config, s: Sys, s': Sys)
    requires JobsInv(cfg, s)
    requires s'.db.generations == s.db.generations && s'.hist == s.hist && s'.issued == s.issued && s'.now == s.now
    requires forall w :: w in s'.workers && s'.workers[w].phase.Held().Some? ==> w in s.workers && s'.workers[w] == s.workers[w]
    ensures JobsInv(cfg, s')
  {
    hide JobOk, WorkerOk;
  }

  predicate OfWorker(a: Action) {
    a.Claim? || a.Submit? || a.Save? || a.Poll? || a.Finishing? || a.Break? ||
    a.ReadForFailover? || a.YieldToFallback? || a.Yield? || a.Fail?
  }

  lemma WorkerStepKeeps(cfg: Config, s: Sys, a: Action)
    requires JobsInv(cfg, s) && Enabled(cfg, s, a) && OfWorker(a)
    ensures JobsInv(cfg, Step(cfg, s, a))
  {
    hide JobsInv, DoClaim, DoSubmit, DoSave, DoPoll, DoComplete, DoReadForFailover, DoYieldToFallback, DoYield, DoFail;
    match a
    case Claim(w, t) => ClaimKeeps(cfg, s, w, t);
    case Submit(w, reply) => SubmitKeeps(cfg, s, w, reply);
    case Save(w, ackLost) => SaveKeeps(cfg, s, w, ackLost);
    case Poll(w, reply) => PollKeeps(cfg, s, w, reply);
    case Finishing(w, e, ackLost) => CompleteKeeps(cfg, s, w, e, ackLost);
    case Break(w) => BreakKeeps(cfg, s, w);
    case ReadForFailover(w) => ReadForFailoverKeeps(cfg, s, w);
    case YieldToFallback(w) => YieldToFallbackKeeps(cfg, s, w);
    case Yield(w) => YieldKeeps(cfg, s, w);
    case Fail(w, e) => FailKeeps(cfg, s, w, e);
  }

  lemma MoneyStepKeeps(cfg: Config, s: Sys, a: Action)
    requires JobsInv(cfg, s) && Enabled(cfg, s, a) && (a.Register? || a.Pay? || a.Courier?)
    ensures JobsInv(cfg, Step(cfg, s, a))
  {
    hide JobsInv, SameCallbackRows;
    QuietStep(cfg, s, Step(cfg, s, a));
  }

  lemma BrokerStepKeeps(cfg: Config, s: Sys, a: Action)
    requires JobsInv(cfg, s) && Enabled(cfg, s, a)
    requires a.Lose? || a.Duplicate? || a.SelectPending? || a.StopDispatcher?
    ensures JobsInv(cfg, Step(cfg, s, a))
  {
    hide JobsInv, IsBatch;
    QuietStep(cfg, s, Step(cfg, s, a));
  }

  /** A task starts, hands its message over to a retry, or dies. */
  lemma ArrivalKeeps(cfg: Config, s: Sys, a: Action)
    requires JobsInv(cfg, s) && Enabled(cfg, s, a) && (a.Deliver? || a.Retry? || a.Crash?)
    ensures JobsInv(cfg, Step(cfg, s, a))
  {
    hide JobsInv;
    QuietStep(cfg, s, Step(cfg, s, a));
  }

  /** Every step keeps the invariant of rows, histories and worker tasks. */
  lemma JobsStep(cfg: Config, s: Sys, a: Action)
    requires JobsInv(cfg, s) && Enabled(cfg, s, a)
    ensures JobsInv(cfg, Step(cfg, s, a))
  {
    hide JobsInv, Step, Enabled;
    match a
    case Create(cmd, cost, g, e) => CreateKeeps(cfg, s, cmd, cost, g, e);
    case Tick(d) => TickKeeps(cfg, s, d);
    case DispatchNext(disp, outcome) => DispatchKeeps(cfg, s, disp, outcome);
    case Recover(locked, ids) => RecoverKeeps(cfg, s, locked, ids);
    case _ => 
      if OfWorker(a) { WorkerStepKeeps(cfg, s, a); }
      else if a.Register? || a.Pay? || a.Courier? { MoneyStepKeeps(cfg, s, a); }
      else if a.Lose? || a.Duplicate? || a.SelectPending? || a.StopDispatcher? { BrokerStepKeeps(cfg, s, a); }
      else { ArrivalKeeps(cfg, s, a); }
  }
}
