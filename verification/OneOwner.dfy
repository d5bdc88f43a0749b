/** The protocol as its users may think of it: every job has at most one owner at a time,
    only the owner records an id, gives the job back or closes it, and money moves with
    orders and failed closings.  There are no workers, messages, retries or crashes here.
    The concurrent system refines this one: each of its steps is one of these moves, or
    changes nothing that can be seen here. */
module OneOwner {
  import opened Common
  import opened Tables
  import opened Transactions
  import opened JobSystem
  import opened JobInvariant
  import opened TableInvariant
  import opened Fencing

  datatype Stage = Waiting | Owned(token: Token, until: int) | Closed(completed: bool, closer: Token)

  datatype Job = Job(user: UserId, cost: int, id: Option<string>, stage: Stage)

  datatype Desk = Desk(now: int, used: set<Token>, jobs: map<GenerationId, Job>, cash: map<UserId, int>)

  datatype Move =
    | Idle
    | Advance(d: nat)
    | Join(user: UserId)
    | TopUp(user: UserId, amount: int)
    | Order(g: GenerationId, user: UserId, cost: int)
    | Draw(t: Token)
    | Take(g: GenerationId, t: Token, until: int)
    | Note(g: GenerationId, t: Token, id: string)
    | Release(g: GenerationId, t: Token)
    | Reclaim(gs: set<GenerationId>)
    | Close(g: GenerationId, t: Token, completed: bool)

  predicate Free(job: Job, now: int) {
    job.stage.Waiting? || Lapsed(job, now)
  }

  predicate Lapsed(job: Job, now: int) {
    job.stage.Owned? && job.stage.until < now
  }

  predicate OwnedBy(d: Desk, g: GenerationId, t: Token) {
    g in d.jobs && d.jobs[g].stage.Owned? && d.jobs[g].stage.token == t
  }

  ghost predicate CanMove(d: Desk, m: Move) {
    match m
    case Idle => true
    case Advance(_) => true
    case Join(u) => u !in d.cash
    case TopUp(u, amount) => u in d.cash && amount > 0
    case Order(g, u, cost) => g !in d.jobs && u in d.cash && 0 < cost <= d.cash[u]
    case Draw(t) => t !in d.used
    case Take(g, t, until) => g in d.jobs && Free(d.jobs[g], d.now) && t !in d.used
    case Note(g, t, id) => OwnedBy(d, g, t) && d.jobs[g].id.None?
    case Release(g, t) => OwnedBy(d, g, t)
    case Reclaim(gs) => forall g :: g in gs ==> g in d.jobs && Lapsed(d.jobs[g], d.now)
    case Close(g, t, completed) => OwnedBy(d, g, t) && d.jobs[g].user in d.cash && (completed ==> d.jobs[g].id.Some?)
  }

  ghost function DoMove(d: Desk, m: Move): Desk
    requires CanMove(d, m)
  {
    match m
    case Idle => d
    case Advance(n) => d.(now := d.now + n)
    case Join(u) => d.(cash := d.cash[u := 0])
    case TopUp(u, amount) => d.(cash := d.cash[u := d.cash[u] + amount])
    case Order(g, u, cost) =>
      d.(jobs := d.jobs[g := Job(u, cost, None, Waiting)], cash := d.cash[u := d.cash[u] - cost])
    case Draw(t) => d.(used := d.used + {t})
    case Take(g, t, until) => d.(used := d.used + {t}, jobs := d.jobs[g := d.jobs[g].(stage := Owned(t, until))])
    case Note(g, t, id) => d.(jobs := d.jobs[g := d.jobs[g].(id := Some(id))])
    case Release(g, t) => d.(jobs := d.jobs[g := d.jobs[g].(stage := Waiting)])
    case Reclaim(gs) => d.(jobs := map g | g in d.jobs :: if g in gs then d.jobs[g].(stage := Waiting) else d.jobs[g])
    case Close(g, t, completed) =>
      var job := d.jobs[g];
      d.(jobs := d.jobs[g := job.(stage := Closed(completed, t))],
         cash := if completed then d.cash else d.cash[job.user := d.cash[job.user] + job.cost])
  }

  // ----- The refinement mapping -------------------------------------------------------------------

  function StageOf(row: Generation, h: History): Stage {
    if row.Terminal() && h.settled != [] then Closed(row.status == Completed, h.settled[0].token)
    else if row.token.Some? && row.lease.Some? then Owned(row.token.value, row.lease.value)
    else Waiting
  }

  function JobOf(row: Generation, h: History): Job {
    Job(row.user, row.cost, row.requestId, StageOf(row, h))
  }

  function DeskOf(s: Sys): Desk {
    Desk(s.now, s.issued, map g | g in s.db.generations :: JobOf(s.db.generations[g], Hist(s, g)), s.db.balances)
  }

  /** The move a step of the concurrent system amounts to. */
  ghost function Shadow(cfg: Config, s: Sys, a: Action): Move
    requires Enabled(cfg, s, a)
  {
    match a
    case Register(u) => if u in s.db.balances then Idle else Join(u)
    case Pay(x, u, amount) => if ApplyCredit(s.db, x, u, amount).1.Applied? then TopUp(u, amount) else Idle
    case Create(cmd, cost, g, e) =>
      if CreateAndCharge(s.db, cmd, cost, g, e, s.now).1.Opened? then Order(g, cmd.user, cost) else Idle
    case Tick(d) => Advance(d)
    case Recover(_, ids) => Reclaim(set g | g in ids && s.db.generations[g].status == Processing)
    case Claim(w, t) =>
      var g := s.workers[w].generation;
      if g in s.db.generations && Claimable(s.db.generations[g], s.now) then Take(g, t, s.now + cfg.leaseSeconds) else Draw(t)
    case Save(w, _) =>
      var v := s.workers[w];
      if Owner(s.db, v.generation, v.phase.token) && s.db.generations[v.generation].requestId.None?
      then Note(v.generation, v.phase.token, v.phase.requestId) else Idle
    case Finishing(w, _, _) =>
      var v := s.workers[w];
      if Owner(s.db, v.generation, v.phase.token) then Close(v.generation, v.phase.token, true) else Idle
    case Fail(w, _) =>
      var v := s.workers[w];
      if Owner(s.db, v.generation, v.phase.token) then Close(v.generation, v.phase.token, false) else Idle
    case Yield(w) =>
      var v := s.workers[w];
      if Owner(s.db, v.generation, v.phase.token) then Release(v.generation, v.phase.token) else Idle
    case YieldToFallback(w) =>
      var v := s.workers[w];
      if Owner(s.db, v.generation, v.phase.token) then Release(v.generation, v.phase.token) else Idle
    case _ => Idle
  }

  ghost predicate Refines(cfg: Config, s: Sys, a: Action)
    requires Enabled(cfg, s, a)
  {
    && CanMove(DeskOf(s), Shadow(cfg, s, a))
    && DoMove(DeskOf(s), Shadow(cfg, s, a)) == DeskOf(Step(cfg, s, a))
  }

  // ----- The refinement, step by step ------------------------------------------------------------------

  /** Two states look the same from here if their rows and settlements do. */
  lemma SameDesk(s: Sys, s': Sys)
    requires s'.now == s.now && s'.issued == s.issued && s'.db.balances == s.db.balances
    requires s'.db.generations.Keys == s.db.generations.Keys
    requires forall g :: g in s.db.generations ==>
      JobOf(s'.db.generations[g], Hist(s', g)) == JobOf(s.db.generations[g], Hist(s, g))
    ensures DeskOf(s') == DeskOf(s)
  {
    hide JobOf, Hist;
  }

  /** A step on one generation. */
  lemma OneJobMoved(s: Sys, s': Sys, g: GenerationId, row: Generation, h: History)
    requires g in s.db.generations
    requires s'.db.generations == s.db.generations[g := row] && s'.hist == s.hist[g := h]
    ensures DeskOf(s').jobs == DeskOf(s).jobs[g := JobOf(row, h)]
  {
    hide JobOf;
  }

  lemma OwnerJob(cfg: Config, s: Sys, g: GenerationId, t: Token)
    requires Inv(cfg, s) && Owner(s.db, g, t)
    ensures OwnedBy(DeskOf(s), g, t) && DeskOf(s).jobs[g].user in s.db.balances
    ensures DeskOf(s).jobs[g].id == s.db.generations[g].requestId && g in s.hist && s.hist[g].settled == []
  {
    hide OutboxOk, CallbacksOk, KeysOk, GrantsOk, SubmitsOk, SavedOk, TaskOk, DistinctTokens, TokensIssued;
    assert JobOk(cfg, s.db.generations[g], s.hist[g], s.now);
  }

  /** What a step shows of itself here: the new row and history of one generation, and money. */
  ghost predicate Effect(s: Sys, s': Sys, g: GenerationId, row: Generation, h: History) {
    && s'.db.generations == s.db.generations[g := row] && s'.hist == s.hist[g := h]
    && s'.now == s.now
  }

  lemma ClaimEffect(cfg: Config, s: Sys, w: nat, t: Token)
    requires Enabled(cfg, s, Claim(w, t))
    ensures var g, s' := s.workers[w].generation, DoClaim(cfg, s, w, t);
            && s'.db.balances == s.db.balances && s'.issued == s.issued + {t} && s'.now == s.now
            && if g in s.db.generations && Claimable(s.db.generations[g], s.now)
               then g in s'.hist && s'.hist[g].settled == Hist(s, g).settled
                    && Effect(s, s', g, ClaimedRow(s.db.generations[g], t, s.now, cfg.leaseSeconds), s'.hist[g])
               else s'.db == s.db && s'.hist == s.hist
  {
    hide AfterClaim;
  }

  lemma ClaimRefines(cfg: Config, s: Sys, w: nat, t: Token)
    requires Inv(cfg, s) && Enabled(cfg, s, Claim(w, t))
    ensures Refines(cfg, s, Claim(w, t))
  {
    hide Inv, DoClaim, DeskOf, Step, Enabled, Shadow, CanMove, DoMove, Claimable;
    ClaimShadow(cfg, s, w, t);
    var g, s' := s.workers[w].generation, DoClaim(cfg, s, w, t);
    if g in s.db.generations && Claimable(s.db.generations[g], s.now) {
      GrantRefines(cfg, s, w, t);
    } else {
      ClaimEffect(cfg, s, w, t);
      SameJobs(s, s');
      DeskFields(s);
      DeskFields(s');
      DrawRefines(DeskOf(s), DeskOf(s'), t);
    }
  }

  lemma DeskFields(s: Sys)
    ensures DeskOf(s).used == s.issued && DeskOf(s).cash == s.db.balances && DeskOf(s).now == s.now
  {
  }

  lemma DeskAt(s: Sys, g: GenerationId)
    requires g in s.db.generations && g in s.hist
    ensures DeskOf(s).used == s.issued && DeskOf(s).cash == s.db.balances && DeskOf(s).now == s.now
    ensures g in DeskOf(s).jobs && DeskOf(s).jobs[g] == JobOf(s.db.generations[g], s.hist[g])
  {
  }

  lemma DrawRefines(d: Desk, d': Desk, t: Token)
    requires t !in d.used && d' == d.(used := d.used + {t})
    ensures CanMove(d, Draw(t)) && DoMove(d, Draw(t)) == d'
  {
  }

  lemma TakeRefines(d: Desk, d': Desk, g: GenerationId, t: Token, until: int)
    requires g in d.jobs && Free(d.jobs[g], d.now) && t !in d.used
    requires d' == d.(used := d.used + {t}, jobs := d.jobs[g := d.jobs[g].(stage := Owned(t, until))])
    ensures CanMove(d, Take(g, t, until)) && DoMove(d, Take(g, t, until)) == d'
  {
  }

  lemma ClaimShadow(cfg: Config, s: Sys, w: nat, t: Token)
    requires Enabled(cfg, s, Claim(w, t))
    ensures w in s.workers && s.workers[w].phase.Claiming? && t !in s.issued
    ensures Step(cfg, s, Claim(w, t)) == DoClaim(cfg, s, w, t)
    ensures var g := s.workers[w].generation;
            var free := g in s.db.generations && Claimable(s.db.generations[g], s.now);
            Shadow(cfg, s, Claim(w, t)) == if free then Take(g, t, s.now + cfg.leaseSeconds) else Draw(t)
  {
  }

  lemma GrantRefines(cfg: Config, s: Sys, w: nat, t: Token)
    requires Inv(cfg, s) && Enabled(cfg, s, Claim(w, t)) && w in s.workers
    requires s.workers[w].generation in s.db.generations && Claimable(s.db.generations[s.workers[w].generation], s.now)
    ensures Refines(cfg, s, Claim(w, t))
  {
    hide Inv, DoClaim, JobOk, JobOf, Claimable, ClaimedRow, DeskOf, CanMove, DoMove, Step, Enabled, Shadow;
    ClaimShadow(cfg, s, w, t);
    ClaimEffect(cfg, s, w, t);
    var g, s' := s.workers[w].generation, DoClaim(cfg, s, w, t);
    JobFacts(cfg, s, g);
    ClaimedJob(cfg, s.db.generations[g], s.hist[g], s'.hist[g], s.now, t);
    OneJobMoved(s, s', g, ClaimedRow(s.db.generations[g], t, s.now, cfg.leaseSeconds), s'.hist[g]);
    DeskAt(s, g);
    DeskFields(s');
    TakeRefines(DeskOf(s), DeskOf(s'), g, t, s.now + cfg.leaseSeconds);
  }

  lemma ClaimedJob(cfg: Config, row: Generation, h: History, h': History, now: int, t: Token)
    requires JobOk(cfg, row, h, now) && Claimable(row, now) && h'.settled == h.settled
    ensures Free(JobOf(row, h), now)
    ensures JobOf(ClaimedRow(row, t, now, cfg.leaseSeconds), h') == JobOf(row, h).(stage := Owned(t, now + cfg.leaseSeconds))
  {
  }

  lemma SaveShadow(cfg: Config, s: Sys, w: nat, ackLost: bool)
    requires Enabled(cfg, s, Save(w, ackLost))
    ensures w in s.workers && s.workers[w].phase.Saving?
    ensures Step(cfg, s, Save(w, ackLost)) == DoSave(cfg, s, w, ackLost)
    ensures var v := s.workers[w];
            var first := Owner(s.db, v.generation, v.phase.token) && s.db.generations[v.generation].requestId.None?;
            Shadow(cfg, s, Save(w, ackLost)) == if first then Note(v.generation, v.phase.token, v.phase.requestId) else Idle
  {
  }

  lemma SaveEffect(cfg: Config, s: Sys, w: nat, ackLost: bool)
    requires w in s.workers && s.workers[w].phase.Saving?
    ensures var v, s' := s.workers[w], DoSave(cfg, s, w, ackLost);
            var g, p := v.generation, v.phase;
            && s'.issued == s.issued && s'.now == s.now && s'.db.balances == s.db.balances
            && if Owner(s.db, g, p.token) && s.db.generations[g].requestId.None?
               then var h := Hist(s, g);
                    Effect(s, s', g, SavedRow(s.db.generations[g], p.provider, p.requestId, s.now), h.(saved := h.saved + [Saved(p.token, p.requestId, p.provider)]))
               else s'.db == s.db && s'.hist == s.hist
  {
    hide AfterError, SavedRow;
  }

  lemma NotedJob(row: Generation, h: History, h': History, provider: string, id: string, now: int)
    requires h'.settled == h.settled
    ensures JobOf(SavedRow(row, provider, id, now), h') == JobOf(row, h).(id := Some(id))
  {
  }

  lemma NoteRefines(d: Desk, d': Desk, g: GenerationId, t: Token, id: string)
    requires OwnedBy(d, g, t) && d.jobs[g].id.None? && d' == d.(jobs := d.jobs[g := d.jobs[g].(id := Some(id))])
    ensures CanMove(d, Note(g, t, id)) && DoMove(d, Note(g, t, id)) == d'
  {
  }

  lemma SaveRefines(cfg: Config, s: Sys, w: nat, ackLost: bool)
    requires Inv(cfg, s) && Enabled(cfg, s, Save(w, ackLost))
    ensures Refines(cfg, s, Save(w, ackLost))
  {
    hide Inv, DoSave, DoMove, CanMove, DeskOf, Step, Enabled, Shadow, JobOf, SavedRow, TaskEnabled, OwnedBy;
    SaveShadow(cfg, s, w, ackLost);
    SaveEffect(cfg, s, w, ackLost);
    var v := s.workers[w];
    var g, p := v.generation, v.phase;
    var s' := DoSave(cfg, s, w, ackLost);
    if Owner(s.db, g, p.token) && s.db.generations[g].requestId.None? {
      OwnerJob(cfg, s, g, p.token);
      NotedJob(s.db.generations[g], s.hist[g], s'.hist[g], p.provider, p.requestId, s.now);
      OneJobMoved(s, s', g, s'.db.generations[g], s'.hist[g]);
      DeskAt(s, g);
      DeskFields(s');
      NoteRefines(DeskOf(s), DeskOf(s'), g, p.token, p.requestId);
    } else { SameDesk(s, s'); IdleRefines(DeskOf(s)); }
  }

  /** The claim of worker `w` given back, whatever becomes of the worker. */
  ghost predicate GivesBack(s: Sys, w: nat, s': Sys)
    requires w in s.workers && s.workers[w].phase.Held().Some?
  {
    var g, t := s.workers[w].generation, s.workers[w].phase.token;
    && s'.issued == s.issued && s'.now == s.now && s'.db.balances == s.db.balances
    && if Owner(s.db, g, t)
       then g in s'.hist && g in s'.db.generations
            && s'.hist[g].settled == Hist(s, g).settled
            && (exists code :: s'.db.generations[g] == QueuedRow(s.db.generations[g], code, s.now))
            && Effect(s, s', g, s'.db.generations[g], s'.hist[g])
       else s'.db == s.db && s'.hist == s.hist
  }

  lemma YieldGivesBack(s: Sys, w: nat)
    requires w in s.workers && s.workers[w].phase.Requeueing?
    ensures GivesBack(s, w, DoYield(s, w))
  {
    hide QueuedRow;
  }

  lemma FallbackGivesBack(cfg: Config, s: Sys, w: nat)
    requires w in s.workers && s.workers[w].phase.FailoverRequeueing?
    ensures GivesBack(s, w, DoYieldToFallback(cfg, s, w))
  {
    hide QueuedRow;
  }

  lemma YieldEffect(cfg: Config, s: Sys, a: Action)
    requires Enabled(cfg, s, a) && (a.Yield? || a.YieldToFallback?)
    ensures a.w in s.workers && s.workers[a.w].phase.Held().Some? && GivesBack(s, a.w, Step(cfg, s, a))
  {
    hide DoYield, DoYieldToFallback, GivesBack;
    if a.Yield? { YieldGivesBack(s, a.w); } else { FallbackGivesBack(cfg, s, a.w); }
  }

  lemma YieldRefines(cfg: Config, s: Sys, a: Action)
    requires Inv(cfg, s) && Enabled(cfg, s, a) && (a.Yield? || a.YieldToFallback?)
    ensures Refines(cfg, s, a)
  {
    hide Inv, Step, Enabled, DoMove, CanMove, DeskOf, Shadow, JobOf, QueuedRow;
    YieldEffect(cfg, s, a);
    YieldShadow(cfg, s, a);
    var s' := Step(cfg, s, a);
    var g, t := s.workers[a.w].generation, s.workers[a.w].phase.token;
    if Owner(s.db, g, t) {
      OwnerJob(cfg, s, g, t);
      var code :| s'.db.generations[g] == QueuedRow(s.db.generations[g], code, s.now);
      ReleasedJob(s.db.generations[g], code, s.now, s.hist[g], s'.hist[g]);
      OneJobMoved(s, s', g, s'.db.generations[g], s'.hist[g]);
      DeskAt(s, g);
      DeskFields(s');
      ReleaseRefines(DeskOf(s), DeskOf(s'), g, t);
    } else { SameDesk(s, s'); IdleRefines(DeskOf(s)); }
  }

  lemma ReleasedJob(row: Generation, code: string, now: int, h: History, h': History)
    requires row.status == Processing
    ensures JobOf(QueuedRow(row, code, now), h') == JobOf(row, h).(stage := Waiting)
  {
  }

  lemma YieldShadow(cfg: Config, s: Sys, a: Action)
    requires Enabled(cfg, s, a) && (a.Yield? || a.YieldToFallback?)
    ensures var v := s.workers[a.w];
            var own := Owner(s.db, v.generation, v.phase.token);
            Shadow(cfg, s, a) == if own then Release(v.generation, v.phase.token) else Idle
  {
  }

  lemma ReleaseRefines(d: Desk, d': Desk, g: GenerationId, t: Token)
    requires OwnedBy(d, g, t) && d' == d.(jobs := d.jobs[g := d.jobs[g].(stage := Waiting)])
    ensures CanMove(d, Release(g, t)) && DoMove(d, Release(g, t)) == d'
  {
  }

  lemma IdleRefines(d: Desk)
    ensures CanMove(d, Idle) && DoMove(d, Idle) == d
  {
  }

  lemma NeverRaised(cfg: Config, s: Sys, g: GenerationId, row: Generation, e: EventId)
    requires Inv(cfg, s) && g in s.db.generations && !s.db.generations[g].Terminal() && row.Terminal()
    requires SameIdentity(s.db.generations[g], row) && e !in s.db.callbacks
    ensures Finish(s.db, g, row, e, s.now).1 == Wrote
  {
    hide JobsInv, TablesInv;
    FinishKeeps(s.db, g, row, e, s.now);
  }

  lemma OwnerCompletes(cfg: Config, s: Sys, g: GenerationId, t: Token, result: string, provider: string, e: EventId)
    requires Inv(cfg, s) && e !in s.db.callbacks
    ensures var (after, reply) := Complete(s.db, g, t, result, provider, e, s.now);
            && after.balances == s.db.balances
            && if Owner(s.db, g, t)
               then reply == Wrote && after.generations == s.db.generations[g := CompletedRow(s.db.generations[g], result, provider, s.now)]
               else reply == Missed && after == s.db
  {
    hide Inv, HasCallback;
    if Owner(s.db, g, t) { NeverRaised(cfg, s, g, CompletedRow(s.db.generations[g], result, provider, s.now), e); }
  }

  lemma CompleteEffect(cfg: Config, s: Sys, w: nat, e: EventId, ackLost: bool)
    requires Inv(cfg, s) && w in s.workers && s.workers[w].phase.Completing? && e !in s.db.callbacks
    ensures var v, s' := s.workers[w], DoComplete(cfg, s, w, e, ackLost);
            var g, p := v.generation, v.phase;
            && s'.issued == s.issued && s'.now == s.now && s'.db.balances == s.db.balances
            && if Owner(s.db, g, p.token)
               then var h := Hist(s, g);
                    Effect(s, s', g, CompletedRow(s.db.generations[g], p.result, p.provider, s.now),
                           h.(settled := h.settled + [Settlement(p.token, true)]))
               else s'.db == s.db && s'.hist == s.hist
  {
    hide Inv, AfterError, Complete, CompletedRow, Owner;
    var v := s.workers[w];
    OwnerCompletes(cfg, s, v.generation, v.phase.token, v.phase.result, v.phase.provider, e);
  }

  lemma CompleteShadow(cfg: Config, s: Sys, w: nat, e: EventId, ackLost: bool)
    requires Enabled(cfg, s, Finishing(w, e, ackLost))
    ensures w in s.workers && s.workers[w].phase.Completing? && e !in s.db.callbacks
    ensures Step(cfg, s, Finishing(w, e, ackLost)) == DoComplete(cfg, s, w, e, ackLost)
    ensures var v := s.workers[w];
            var own := Owner(s.db, v.generation, v.phase.token);
            Shadow(cfg, s, Finishing(w, e, ackLost)) == if own then Close(v.generation, v.phase.token, true) else Idle
  {
  }

  lemma ClosedJob(row: Generation, row': Generation, h: History, t: Token, completed: bool)
    requires h.settled == [] && row'.status == (if completed then Completed else Failed)
    requires row'.user == row.user && row'.cost == row.cost && row'.requestId == row.requestId
    ensures JobOf(row', h.(settled := h.settled + [Settlement(t, completed)])) == JobOf(row, h).(stage := Closed(completed, t))
  {
  }

  lemma CloseRefines(d: Desk, d': Desk, g: GenerationId, t: Token, completed: bool)
    requires OwnedBy(d, g, t) && d.jobs[g].user in d.cash && (completed ==> d.jobs[g].id.Some?)
    requires d'.now == d.now && d'.used == d.used && d'.jobs == d.jobs[g := d.jobs[g].(stage := Closed(completed, t))]
    requires var job := d.jobs[g];
             d'.cash == if completed then d.cash else d.cash[job.user := d.cash[job.user] + job.cost]
    ensures CanMove(d, Close(g, t, completed)) && DoMove(d, Close(g, t, completed)) == d'
  {
  }

  lemma CompleteRefines(cfg: Config, s: Sys, w: nat, e: EventId, ackLost: bool)
    requires Inv(cfg, s) && Enabled(cfg, s, Finishing(w, e, ackLost))
    ensures Refines(cfg, s, Finishing(w, e, ackLost))
  {
    hide Inv, DoComplete, DoMove, CanMove, DeskOf, Step, Enabled, Shadow, JobOf, TaskEnabled, OwnedBy;
    CompleteShadow(cfg, s, w, e, ackLost);
    var v := s.workers[w];
    var g, p := v.generation, v.phase;
    var s' := DoComplete(cfg, s, w, e, ackLost);
    CompleteEffect(cfg, s, w, e, ackLost);
    if Owner(s.db, g, p.token) {
      OwnerJob(cfg, s, g, p.token);
      CompletingId(cfg, s, w);
      ClosedJob(s.db.generations[g], s'.db.generations[g], s.hist[g], p.token, true);
      OneJobMoved(s, s', g, s'.db.generations[g], s'.hist[g]);
      DeskAt(s, g);
      DeskFields(s');
      CloseRefines(DeskOf(s), DeskOf(s'), g, p.token, true);
    } else { SameDesk(s, s'); IdleRefines(DeskOf(s)); }
  }

  lemma CompletingId(cfg: Config, s: Sys, w: nat)
    requires Inv(cfg, s) && w in s.workers && s.workers[w].phase.Completing?
    ensures s.workers[w].generation in s.db.generations && s.db.generations[s.workers[w].generation].requestId.Some?
  {
    hide Inv, JobOk;
    TaskFacts(cfg, s, w);
  }

  lemma FailedRows(db: Db, g: GenerationId, t: Token, code: string, e: EventId, now: int)
    requires g in db.generations && Finish(db, g, FailedRow(db.generations[g], code, now), e, now).1 == Wrote
    ensures var (after, reply) := FailAndRefund(db, g, t, code, e, now);
            var row := db.generations[g];
            if Refundable(row, t)
            then reply == Wrote && after.generations == db.generations[g := FailedRow(row, code, now)]
                 && after.balances == Refund(db, row.user, row.cost).balances
            else reply == Missed && after == db
  {
  }

  lemma NotRefundable(db: Db, g: GenerationId, t: Token, code: string, e: EventId, now: int)
    requires g in db.generations && !Refundable(db.generations[g], t)
    ensures FailAndRefund(db, g, t, code, e, now) == (db, Missed)
  {
  }

  lemma FailEffect(cfg: Config, s: Sys, w: nat, e: EventId)
    requires w in s.workers && s.workers[w].phase.Failing? && e !in s.db.callbacks && Inv(cfg, s)
    ensures var v, s' := s.workers[w], DoFail(s, w, e);
            var g, p := v.generation, v.phase;
            && s'.issued == s.issued && s'.now == s.now
            && if Owner(s.db, g, p.token)
               then var row, h := s.db.generations[g], Hist(s, g);
                    && Effect(s, s', g, FailedRow(row, p.code, s.now), h.(settled := h.settled + [Settlement(p.token, false)]))
                    && s'.db.balances == Refund(s.db, row.user, row.cost).balances
               else s'.db == s.db && s'.hist == s.hist
  {
    hide Inv, JobOk, FailAndRefund, Refundable, Finish, Refund;
    var g, p := s.workers[w].generation, s.workers[w].phase;
    TaskFacts(cfg, s, w);
    RefundGuardIsOwnership(cfg, s.db.generations[g], s.hist[g], s.now, p.token);
    if Owner(s.db, g, p.token) {
      NeverRaised(cfg, s, g, FailedRow(s.db.generations[g], p.code, s.now), e);
      FailedRows(s.db, g, p.token, p.code, e, s.now);
    } else {
      NotRefundable(s.db, g, p.token, p.code, e, s.now);
    }
  }

  lemma FailShadow(cfg: Config, s: Sys, w: nat, e: EventId)
    requires Enabled(cfg, s, Fail(w, e))
    ensures w in s.workers && s.workers[w].phase.Failing? && e !in s.db.callbacks
    ensures Step(cfg, s, Fail(w, e)) == DoFail(s, w, e)
    ensures var v := s.workers[w];
            var own := Owner(s.db, v.generation, v.phase.token);
            Shadow(cfg, s, Fail(w, e)) == if own then Close(v.generation, v.phase.token, false) else Idle
  {
  }

  lemma FailRefines(cfg: Config, s: Sys, w: nat, e: EventId)
    requires Inv(cfg, s) && Enabled(cfg, s, Fail(w, e))
    ensures Refines(cfg, s, Fail(w, e))
  {
    hide Inv, DoFail, DoMove, CanMove, DeskOf, Step, Enabled, Shadow, JobOf, TaskEnabled, OwnedBy;
    FailShadow(cfg, s, w, e);
    var v := s.workers[w];
    var g, p := v.generation, v.phase;
    var s' := DoFail(s, w, e);
    FailEffect(cfg, s, w, e);
    if Owner(s.db, g, p.token) {
      OwnerJob(cfg, s, g, p.token);
      ClosedJob(s.db.generations[g], s'.db.generations[g], s.hist[g], p.token, false);
      OneJobMoved(s, s', g, s'.db.generations[g], s'.hist[g]);
      DeskAt(s, g);
      DeskFields(s');
      JobFields(s.db.generations[g], s.hist[g]);
      CloseRefines(DeskOf(s), DeskOf(s'), g, p.token, false);
    } else { SameDesk(s, s'); IdleRefines(DeskOf(s)); }
  }

  lemma JobFields(row: Generation, h: History)
    ensures JobOf(row, h).user == row.user && JobOf(row, h).cost == row.cost
  {
  }

  lemma RecoverEffect(cfg: Config, s: Sys, locked: set<GenerationId>, ids: seq<GenerationId>, g: GenerationId)
    requires Inv(cfg, s) && Enabled(cfg, s, Recover(locked, ids)) && g in ids
    ensures g in s.db.generations && var row, h := s.db.generations[g], Hist(s, g);
            var job, job' := JobOf(row, h), JobOf(RecoveredRow(row, s.now), h);
            if row.status == Processing then Lapsed(job, s.now) && job' == job.(stage := Waiting) else job' == job
  {
    hide Inv, JobOk, JobOf;
    assert g in StaleRows(s.db, s.now, cfg.queuedRecovery, locked);
    JobFacts(cfg, s, g);
    RecoveredJob(cfg, s.db.generations[g], s.hist[g], s.now);
  }

  lemma RecoverRefines(cfg: Config, s: Sys, locked: set<GenerationId>, ids: seq<GenerationId>)
    requires Inv(cfg, s) && Enabled(cfg, s, Recover(locked, ids))
    ensures Refines(cfg, s, Recover(locked, ids))
  {
    hide Inv, IsBatch, JobOf, RecoveredRow, Lapsed;
    forall g | g in ids ensures g in s.db.generations && var row, h := s.db.generations[g], Hist(s, g);
            var job, job' := JobOf(row, h), JobOf(RecoveredRow(row, s.now), h);
            if row.status == Processing then Lapsed(job, s.now) && job' == job.(stage := Waiting) else job' == job
    {
      RecoverEffect(cfg, s, locked, ids, g);
    }
    var d, d' := DeskOf(s), DeskOf(Step(cfg, s, Recover(locked, ids)));
    assert DoMove(d, Shadow(cfg, s, Recover(locked, ids))).jobs == d'.jobs;
  }

  lemma RecoveredJob(cfg: Config, row: Generation, h: History, now: int)
    requires JobOk(cfg, row, h, now) && Stale(row, now, cfg.queuedRecovery)
    ensures row.status == Processing ==>
      Lapsed(JobOf(row, h), now) && JobOf(RecoveredRow(row, now), h) == JobOf(row, h).(stage := Waiting)
    ensures row.status != Processing ==> JobOf(RecoveredRow(row, now), h) == JobOf(row, h)
  {
  }

  lemma DispatchShadow(cfg: Config, s: Sys, disp: nat, outcome: DispatchOutcome)
    requires Enabled(cfg, s, DispatchNext(disp, outcome))
    ensures disp in s.dispatchers && s.dispatchers[disp] != []
    ensures Step(cfg, s, DispatchNext(disp, outcome)) == DoDispatch(s, disp, outcome)
    ensures Shadow(cfg, s, DispatchNext(disp, outcome)) == Idle
  {
  }

  /** A published event changes nothing that can be seen here. */
  lemma DispatchEffect(s: Sys, disp: nat, outcome: DispatchOutcome)
    requires disp in s.dispatchers && s.dispatchers[disp] != []
    ensures var s' := DoDispatch(s, disp, outcome);
            && s'.now == s.now && s'.issued == s.issued && s'.db.balances == s.db.balances && s'.hist == s.hist
            && s'.db.generations.Keys == s.db.generations.Keys
            && forall g :: g in s.db.generations ==>
                 s'.db.generations[g] == s.db.generations[g] || s'.db.generations[g] == Enqueued(s.db.generations[g], s.now)
  {
    hide Enqueued;
  }

  lemma EnqueuedJob(row: Generation, now: int, h: History)
    ensures JobOf(Enqueued(row, now), h) == JobOf(row, h)
  {
  }

  lemma DispatchRefines(cfg: Config, s: Sys, disp: nat, outcome: DispatchOutcome)
    requires Inv(cfg, s) && Enabled(cfg, s, DispatchNext(disp, outcome))
    ensures Refines(cfg, s, DispatchNext(disp, outcome))
  {
    hide Inv, DoDispatch, DoMove, CanMove, DeskOf, Step, Enabled, Shadow, JobOf, Enqueued, DispatchEnabled;
    DispatchShadow(cfg, s, disp, outcome);
    DispatchEffect(s, disp, outcome);
    var s' := DoDispatch(s, disp, outcome);
    forall g | g in s.db.generations ensures JobOf(s'.db.generations[g], Hist(s', g)) == JobOf(s.db.generations[g], Hist(s, g)) {
      EnqueuedJob(s.db.generations[g], s.now, Hist(s, g));
    }
    SameDesk(s, s');
    IdleRefines(DeskOf(s));
  }

  lemma CreateShadow(cfg: Config, s: Sys, cmd: Command, cost: int, g: GenerationId, e: EventId)
    requires Enabled(cfg, s, Create(cmd, cost, g, e))
    ensures var reply := CreateAndCharge(s.db, cmd, cost, g, e, s.now).1;
            Shadow(cfg, s, Create(cmd, cost, g, e)) == if reply.Opened? then Order(g, cmd.user, cost) else Idle
  {
    hide CreateAndCharge;
  }

  lemma CreateEffect(s: Sys, cmd: Command, cost: int, g: GenerationId, e: EventId)
    ensures var (db, reply) := CreateAndCharge(s.db, cmd, cost, g, e, s.now);
            if reply.Opened?
            then reply.id == g && cmd.user in s.db.balances && 0 < cost <= s.db.balances[cmd.user]
                 && db.generations == s.db.generations[g := NewGeneration(cmd, cost, s.now)]
                 && db.balances == s.db.balances[cmd.user := s.db.balances[cmd.user] - cost]
            else db == s.db
  {
  }

  lemma OrderRefines(d: Desk, d': Desk, g: GenerationId, u: UserId, cost: int)
    requires g !in d.jobs && u in d.cash && 0 < cost <= d.cash[u]
    requires d' == d.(jobs := d.jobs[g := Job(u, cost, None, Waiting)], cash := d.cash[u := d.cash[u] - cost])
    ensures CanMove(d, Order(g, u, cost)) && DoMove(d, Order(g, u, cost)) == d'
  {
  }

  lemma NewDesk(s: Sys, s': Sys, g: GenerationId, row: Generation)
    requires g !in s.db.generations && row.token.None? && !row.Terminal()
    requires s'.db.generations == s.db.generations[g := row] && s'.hist == s.hist[g := NoHistory]
    ensures g !in DeskOf(s).jobs
    ensures DeskOf(s').jobs == DeskOf(s).jobs[g := Job(row.user, row.cost, row.requestId, Waiting)]
  {
    assert JobOf(row, NoHistory) == Job(row.user, row.cost, row.requestId, Waiting);
    hide JobOf;
  }

  lemma CreateRefines(cfg: Config, s: Sys, cmd: Command, cost: int, g: GenerationId, e: EventId)
    requires Inv(cfg, s) && Enabled(cfg, s, Create(cmd, cost, g, e))
    ensures Refines(cfg, s, Create(cmd, cost, g, e))
  {
    hide Inv, CreateAndCharge, DoMove, CanMove, DeskOf, Step, Enabled, Shadow, ClientEnabled;
    CreateShadow(cfg, s, cmd, cost, g, e);
    CreateStep(cfg, s, cmd, cost, g, e);
    CreateEffect(s, cmd, cost, g, e);
    var s' := Step(cfg, s, Create(cmd, cost, g, e));
    DeskFields(s);
    DeskFields(s');
    if CreateAndCharge(s.db, cmd, cost, g, e, s.now).1.Opened? {
      NewDesk(s, s', g, NewGeneration(cmd, cost, s.now));
      OrderRefines(DeskOf(s), DeskOf(s'), g, cmd.user, cost);
    } else { SameDesk(s, s'); IdleRefines(DeskOf(s)); }
  }

  predicate Hidden(a: Action) {
    !(a.Create? || a.Recover? || a.Claim? || a.Save? || a.Finishing? || a.Fail? || a.Yield? || a.YieldToFallback? || a.DispatchNext?)
  }

  /** What no one can see from here changes only money and the clock. */
  ghost predicate Unseen(s: Sys, s': Sys, a: Action) {
    && s'.db.generations == s.db.generations && s'.issued == s.issued
    && (a.Tick? || s'.now == s.now) && (a.Register? || a.Pay? || s'.db.balances == s.db.balances)
    && forall g :: g in s.db.generations ==> Hist(s', g).settled == Hist(s, g).settled
  }

  lemma OtherEffect(cfg: Config, s: Sys, a: Action)
    requires Enabled(cfg, s, a) && Hidden(a)
    ensures Unseen(s, Step(cfg, s, a), a)
  {
    if a.Submit? || a.Poll? {
      CallEffect(cfg, s, a);
    } else {
      QuietEffect(cfg, s, a);
      SameHist(s, Step(cfg, s, a));
    }
    hide Step, Enabled;
  }

  /** `s'` shows the same rows, histories and tokens as `s`. */
  ghost predicate SameView(s: Sys, s': Sys) {
    s'.db.generations == s.db.generations && s'.issued == s.issued && s'.hist == s.hist
  }

  lemma QuietDispatch(cfg: Config, s: Sys, a: Action)
    requires ByDispatch(a) && DispatchEnabled(cfg, s, a) && Hidden(a)
    ensures var s' := DispatchStep(cfg, s, a); SameView(s, s') && s'.now == s.now && s'.db.balances == s.db.balances
  {
    hide IsBatch, DoDispatch;
  }

  lemma QuietClient(s: Sys, a: Action)
    requires ByClient(a) && ClientEnabled(s, a) && Hidden(a)
    ensures var s' := ClientStep(s, a); SameView(s, s') && s'.now == s.now
  {
  }

  lemma QuietEnvironment(s: Sys, a: Action)
    requires ByEnvironment(a) && EnvironmentEnabled(s, a)
    ensures var s' := EnvironmentStep(s, a); SameView(s, s') && (a.Tick? || s'.now == s.now) && s'.db.balances == s.db.balances
  {
    hide SameCallbackRows;
  }

  lemma QuietEffect(cfg: Config, s: Sys, a: Action)
    requires Enabled(cfg, s, a) && Hidden(a) && !a.Submit? && !a.Poll?
    ensures SameView(s, Step(cfg, s, a))
    ensures a.Tick? || Step(cfg, s, a).now == s.now
    ensures a.Register? || a.Pay? || Step(cfg, s, a).db.balances == s.db.balances
  {
    hide SameView, ClientStep, ClientEnabled, EnvironmentStep, EnvironmentEnabled, DispatchStep, DispatchEnabled, TaskStep, TaskEnabled;
    if ByTask(a) { QuietTask(cfg, s, a); }
    else if ByDispatch(a) { QuietDispatch(cfg, s, a); }
    else if ByClient(a) { QuietClient(s, a); }
    else { QuietEnvironment(s, a); }
  }

  lemma QuietTask(cfg: Config, s: Sys, a: Action)
    requires ByTask(a) && TaskEnabled(s, a) && Hidden(a) && !a.Submit? && !a.Poll?
    ensures var s' := TaskStep(cfg, s, a); SameView(s, s') && s'.now == s.now && s'.db.balances == s.db.balances
  {
    hide DoClaim, DoSave, DoComplete, DoFail, DoYield, DoYieldToFallback, DoSubmit, DoPoll, AfterError;
  }

  lemma SameHist(s: Sys, s': Sys)
    requires s'.hist == s.hist
    ensures forall g :: Hist(s', g) == Hist(s, g)
  {
  }

  lemma CallEffect(cfg: Config, s: Sys, a: Action)
    requires Enabled(cfg, s, a) && (a.Submit? || a.Poll?)
    ensures Step(cfg, s, a).db == s.db && Step(cfg, s, a).issued == s.issued && Step(cfg, s, a).now == s.now
    ensures forall g :: Hist(Step(cfg, s, a), g).settled == Hist(s, g).settled
  {
    hide AfterError, DoClaim, DoSave, DoComplete, DoFail, DoYield, DoYieldToFallback, DoDispatch, DoCreate;
  }

  lemma OtherShadow(cfg: Config, s: Sys, a: Action)
    requires Enabled(cfg, s, a) && Hidden(a) && !(a.Register? || a.Pay? || a.Tick?)
    ensures Shadow(cfg, s, a) == Idle
  {
  }

  /** Money and time move here exactly as they do in the concurrent system. */
  lemma OpenRefines(cfg: Config, s: Sys, a: Action)
    requires Enabled(cfg, s, a) && (a.Register? || a.Pay? || a.Tick?)
    requires DeskOf(Step(cfg, s, a)).jobs == DeskOf(s).jobs
    ensures Refines(cfg, s, a)
  {
    hide DispatchStep, DispatchEnabled, TaskStep, TaskEnabled, JobOf;
  }

  lemma OtherRefines(cfg: Config, s: Sys, a: Action)
    requires Enabled(cfg, s, a) && Hidden(a)
    ensures Refines(cfg, s, a)
  {
    hide Hist, Step, Enabled, Shadow, DeskOf, CanMove, DoMove;
    OtherEffect(cfg, s, a);
    var s' := Step(cfg, s, a);
    SameJobs(s, s');
    if a.Register? || a.Pay? || a.Tick? {
      OpenRefines(cfg, s, a);
    } else {
      OtherShadow(cfg, s, a);
      DeskFields(s);
      DeskFields(s');
      IdleRefines(DeskOf(s));
    }
  }

  lemma SameJobs(s: Sys, s': Sys)
    requires s'.db.generations == s.db.generations
    requires forall g :: g in s.db.generations ==> Hist(s', g).settled == Hist(s, g).settled
    ensures DeskOf(s').jobs == DeskOf(s).jobs
  {
    hide Hist;
  }

  /** Every step of the concurrent system, with its zombies, crashes and duplicate messages,
      is one move of the one-owner system. */
  lemma StepRefines(cfg: Config, s: Sys, a: Action)
    requires Inv(cfg, s) && Enabled(cfg, s, a)
    ensures Refines(cfg, s, a)
  {
    hide Inv, Enabled, Step, Refines;
    match a
    case Create(cmd, cost, g, e) => CreateRefines(cfg, s, cmd, cost, g, e);
    case Recover(locked, ids) => RecoverRefines(cfg, s, locked, ids);
    case Claim(w, t) => ClaimRefines(cfg, s, w, t);
    case Save(w, ackLost) => SaveRefines(cfg, s, w, ackLost);
    case Finishing(w, e, ackLost) => CompleteRefines(cfg, s, w, e, ackLost);
    case Fail(w, e) => FailRefines(cfg, s, w, e);
    case Yield(_) => YieldRefines(cfg, s, a);
    case YieldToFallback(_) => YieldRefines(cfg, s, a);
    case DispatchNext(disp, outcome) => DispatchRefines(cfg, s, disp, outcome);
    case _ => OtherRefines(cfg, s, a);
  }

  // ----- Whole runs ---------------------------------------------------------------------------------------

  ghost predicate CanRun(d: Desk, moves: seq<Move>)
    decreases |moves|
  {
    moves == [] || (CanMove(d, moves[0]) && CanRun(DoMove(d, moves[0]), moves[1..]))
  }

  ghost function RunMoves(d: Desk, moves: seq<Move>): Desk
    requires CanRun(d, moves)
    decreases |moves|
  {
    if moves == [] then d else RunMoves(DoMove(d, moves[0]), moves[1..])
  }

  /** The moves a whole run amounts to. */
  ghost function Shadows(cfg: Config, s: Sys, acts: seq<Action>): seq<Move>
    requires Valid(cfg, s, acts)
    decreases |acts|
  {
    if acts == [] then [] else [Shadow(cfg, s, acts[0])] + Shadows(cfg, Step(cfg, s, acts[0]), acts[1..])
  }

  /** Every run of the concurrent system is, step for step, a run of the one-owner system. */
  lemma {:induction false} RunRefines(cfg: Config, s: Sys, acts: seq<Action>)
    requires Inv(cfg, s) && Valid(cfg, s, acts)
    ensures CanRun(DeskOf(s), Shadows(cfg, s, acts))
    ensures RunMoves(DeskOf(s), Shadows(cfg, s, acts)) == DeskOf(Run(cfg, s, acts))
    decreases |acts|
  {
    hide Inv, Enabled, Step, Shadow, CanMove, DoMove, DeskOf;
    if acts != [] {
      StepRefines(cfg, s, acts[0]);
      InvStep(cfg, s, acts[0]);
      var s' := Step(cfg, s, acts[0]);
      RunRefines(cfg, s', acts[1..]);
      var moves := Shadows(cfg, s, acts);
      assert moves[0] == Shadow(cfg, s, acts[0]) && moves[1..] == Shadows(cfg, s', acts[1..]);
    }
  }
}
