/** The paid-job protocol as one state machine: the database, a message broker that may
    lose and duplicate, any number of worker tasks running `process_generation`, outbox
    dispatchers, the recovery task, client requests and a monotone clock.  Every
    interleaving of the individual transactions and calls is a run; a worker may crash
    between any two of them. */
module JobSystem {
  import opened Common
  import opened Tables
  import opened Transactions

  const MAX_RETRIES := 3

  /** The settings the protocol reads.  `constructible` are the provider names that
      `create_generation_provider` accepts. */
  datatype Config = Config(
    primary: string, fallback: string, constructible: set<string>,
    leaseSeconds: int, queuedRecovery: int, batchLimit: nat)

  predicate FailoverConfigured(cfg: Config) {
    cfg.fallback != "" && cfg.fallback != cfg.primary
  }

  datatype Message = Process(generation: GenerationId, retries: nat)

  datatype ErrorKind = Temporary | Permanent | Unexpected

  datatype Reply = Answer(value: string) | Error(kind: ErrorKind)

  /** Where a `process_generation` task stands between two atomic steps. */
  datatype Phase =
    | Claiming
    | Submitting(token: Token, provider: string)
    | Saving(token: Token, provider: string, requestId: string)
    | Polling(token: Token, provider: string, requestId: string)
    | Completing(token: Token, provider: string, requestId: string, result: string)
    | FailoverReading(token: Token)
    | FailoverRequeueing(token: Token)
    | Requeueing(token: Token, code: string)
    | Retrying
    | Failing(token: Token, code: string)
  {
    function Held(): Option<Token> {
      if Claiming? || Retrying? then None else Some(token)
    }
  }

  datatype Worker = Worker(generation: GenerationId, retries: nat, failover: bool, phase: Phase)

  /** One successful `start_processing`; `hadId` says whether the claimed row already held
      a provider request id. */
  datatype Grant = Grant(token: Token, at: int, until: int, hadId: bool)

  datatype Settlement = Settlement(token: Token, completed: bool)

  /** One `get_result` call, what came back, and which provider was asked. */
  datatype Asked = Asked(token: Token, requestId: string, reply: Reply, provider: string)

  /** One request id stored, and the provider that issued it. */
  datatype Saved = Saved(token: Token, requestId: string, provider: string)

  /** Everything that ever happened to one generation, in order. */
  datatype History = History(
    grants: seq<Grant>, yielded: set<Token>, submits: seq<Token>,
    saved: seq<Saved>, polls: seq<Asked>, settled: seq<Settlement>)

  const NoHistory := History([], {}, [], [], [], [])

  datatype Sys = Sys(
    db: Db, now: int, broker: multiset<Message>,
    workers: map<nat, Worker>, dispatchers: map<nat, seq<EventId>>,
    issued: set<Token>, hist: map<GenerationId, History>)

  const Init := Sys(EmptyDb, 0, multiset{}, map[], map[], {}, map[])

  function Hist(s: Sys, g: GenerationId): History {
    if g in s.hist then s.hist[g] else NoHistory
  }

  datatype DispatchOutcome = Published | PublishFailed | CommitFailed | SkippedLocked | DiedAfterPublish

  /** How one event of a batch can go without ending the dispatcher itself. */
  type LiveOutcome = o: DispatchOutcome | o != DiedAfterPublish witness Published

  /** The broker accepted the message, whatever became of the transaction. */
  predicate Sends(o: LiveOutcome) { o == Published || o == CommitFailed }

  datatype Action =
    // clients
    | Register(user: UserId)
    | Pay(externalId: string, user: UserId, amount: int)
    | Create(cmd: Command, cost: int, g: GenerationId, e: EventId)
    // environment
    | Tick(d: nat)
    | Lose(m: Message)
    | Duplicate(m: Message)
    | Courier(rows: map<EventId, CallbackEvent>)
    // outbox dispatch and recovery
    | SelectPending(disp: nat, ids: seq<EventId>)
    | DispatchNext(disp: nat, outcome: DispatchOutcome)
    | StopDispatcher(disp: nat)
    | Recover(locked: set<GenerationId>, stale: seq<GenerationId>)
    // worker tasks
    | Deliver(w: nat, m: Message)
    | Claim(w: nat, t: Token)
    | Submit(w: nat, reply: Reply)
    | Save(w: nat, ackLost: bool)
    | Poll(w: nat, reply: Reply)
    | Finishing(w: nat, e: EventId, ackLost: bool)
    | Break(w: nat)
    | ReadForFailover(w: nat)
    | YieldToFallback(w: nat)
    | Yield(w: nat)
    | Retry(w: nat)
    | Fail(w: nat, e: EventId)
    | Crash(w: nat)

  // ----- What one step does ---------------------------------------------------------

  function SetWorker(s: Sys, w: nat, v: Worker): Sys { s.(workers := s.workers[w := v]) }

  function DropWorker(s: Sys, w: nat): Sys { s.(workers := s.workers - {w}) }

  function Write(s: Sys, db: Db, g: GenerationId, h: History): Sys {
    s.(db := db, hist := s.hist[g := h])
  }

  /** Where the exception handlers of `process_generation` and of the failover path send a
      task whose claim `t` ended in an error. */
  function AfterError(cfg: Config, v: Worker, t: Token, kind: ErrorKind): Worker {
    v.(phase :=
      if v.failover then Failing(t, "fallback_provider_error")
      else match kind
        case Permanent => Failing(t, "permanent_provider_error")
        case Temporary =>
          if v.retries < MAX_RETRIES then Requeueing(t, "temporary_provider_error")
          else if FailoverConfigured(cfg) then FailoverReading(t)
          else Failing(t, "temporary_provider_error")
        case Unexpected =>
          if v.retries < MAX_RETRIES then Requeueing(t, "internal_processing_error")
          else Failing(t, "internal_processing_error"))
  }

  function DoCreate(s: Sys, db: Db, reply: CreateReply): Sys {
    if reply.Opened? then s.(db := db, hist := s.hist[reply.id := NoHistory]) else s
  }

  function DoDispatch(s: Sys, disp: nat, outcome: DispatchOutcome): Sys
    requires disp in s.dispatchers && s.dispatchers[disp] != []
  {
    var e := s.dispatchers[disp][0];
    var rest := s.(dispatchers := s.dispatchers[disp := s.dispatchers[disp][1..]]);
    if e !in s.db.outbox || s.db.outbox[e].processedAt.Some? || outcome == SkippedLocked then rest
    else
      var sent := s.broker + multiset{Process(s.db.outbox[e].generation, 0)};
      match outcome
      case Published => rest.(db := PublishEvent(s.db, e, s.now), broker := sent)
      case PublishFailed => rest.(db := NoteDispatchFailure(s.db, e))
      case CommitFailed => rest.(db := NoteDispatchFailure(s.db, e), broker := sent)
      case DiedAfterPublish => s.(dispatchers := s.dispatchers - {disp}, broker := sent)
      case SkippedLocked => rest
  }

  function ProviderName(cfg: Config, v: Worker, row: Generation): string {
    if v.failover then cfg.fallback
    else if row.provider.Some? then row.provider.value else cfg.primary
  }

  /** The phase a successful claim leads to, decided by the row as claimed. */
  function AfterClaim(cfg: Config, v: Worker, t: Token, row: Generation): Worker {
    var name := ProviderName(cfg, v, row);
    if name !in cfg.constructible then AfterError(cfg, v, t, Unexpected)
    else if row.requestId.Some? then v.(phase := Polling(t, name, row.requestId.value))
    else v.(phase := Submitting(t, name))
  }

  function DoClaim(cfg: Config, s: Sys, w: nat, t: Token): Sys
    requires w in s.workers
  {
    var v := s.workers[w];
    var g := v.generation;
    var (db, claimed) := StartProcessing(s.db, g, t, s.now, cfg.leaseSeconds);
    var s1 := s.(issued := s.issued + {t});
    if claimed.None? then DropWorker(s1, w)
    else
      var h := Hist(s, g);
      var grant := Grant(t, s.now, s.now + cfg.leaseSeconds, claimed.value.requestId.Some?);
      SetWorker(Write(s1, db, g, h.(grants := h.grants + [grant])), w, AfterClaim(cfg, v, t, claimed.value))
  }

  function DoSubmit(cfg: Config, s: Sys, w: nat, reply: Reply): Sys
    requires w in s.workers && s.workers[w].phase.Submitting?
  {
    var v := s.workers[w];
    var h := Hist(s, v.generation);
    var s1 := s.(hist := s.hist[v.generation := h.(submits := h.submits + [v.phase.token])]);
    SetWorker(s1, w, match reply
      case Answer(id) => v.(phase := Saving(v.phase.token, v.phase.provider, id))
      case Error(kind) => AfterError(cfg, v, v.phase.token, kind))
  }

  function DoSave(cfg: Config, s: Sys, w: nat, ackLost: bool): Sys
    requires w in s.workers && s.workers[w].phase.Saving?
  {
    var v := s.workers[w];
    var p := v.phase;
    var (db, saved) := SaveProviderRequest(s.db, v.generation, p.token, p.provider, p.requestId, s.now);
    var h := Hist(s, v.generation);
    var s1 := if saved then Write(s, db, v.generation, h.(saved := h.saved + [Saved(p.token, p.requestId, p.provider)])) else s;
    if ackLost then SetWorker(s1, w, AfterError(cfg, v, p.token, Unexpected))
    else if saved then SetWorker(s1, w, v.(phase := Polling(p.token, p.provider, p.requestId)))
    else DropWorker(s1, w)
  }

  function DoPoll(cfg: Config, s: Sys, w: nat, reply: Reply): Sys
    requires w in s.workers && s.workers[w].phase.Polling?
  {
    var v := s.workers[w];
    var p := v.phase;
    var h := Hist(s, v.generation);
    var s1 := s.(hist := s.hist[v.generation := h.(polls := h.polls + [Asked(p.token, p.requestId, reply, p.provider)])]);
    SetWorker(s1, w, match reply
      case Answer(result) => v.(phase := Completing(p.token, p.provider, p.requestId, result))
      case Error(kind) => AfterError(cfg, v, p.token, kind))
  }

  function Settle(s: Sys, g: GenerationId, db: Db, t: Token, completed: bool): Sys {
    var h := Hist(s, g);
    Write(s, db, g, h.(settled := h.settled + [Settlement(t, completed)]))
  }

  function DoComplete(cfg: Config, s: Sys, w: nat, e: EventId, ackLost: bool): Sys
    requires w in s.workers && s.workers[w].phase.Completing?
  {
    var v := s.workers[w];
    var p := v.phase;
    var (db, reply) := Complete(s.db, v.generation, p.token, p.result, p.provider, e, s.now);
    var s1 := if reply == Wrote then Settle(s, v.generation, db, p.token, true) else s;
    if ackLost || reply == Raised then SetWorker(s1, w, AfterError(cfg, v, p.token, Unexpected))
    else DropWorker(s1, w)
  }

  function YieldClaim(s: Sys, g: GenerationId, db: Db, t: Token): Sys {
    var h := Hist(s, g);
    Write(s, db, g, h.(yielded := h.yielded + {t}))
  }

  function DoReadForFailover(s: Sys, w: nat): Sys
    requires w in s.workers && s.workers[w].phase.FailoverReading?
  {
    var v := s.workers[w];
    var stored := v.generation in s.db.generations && s.db.generations[v.generation].requestId.Some?;
    SetWorker(s, w, v.(phase :=
      if stored then Failing(v.phase.token, "temporary_provider_error") else FailoverRequeueing(v.phase.token)))
  }

  function DoYieldToFallback(cfg: Config, s: Sys, w: nat): Sys
    requires w in s.workers && s.workers[w].phase.FailoverRequeueing?
  {
    var v := s.workers[w];
    var t := v.phase.token;
    var (db, ok) := Requeue(s.db, v.generation, t, "provider_failover", s.now);
    if !ok then SetWorker(s, w, v.(phase := Failing(t, "temporary_provider_error")))
    else
      var s1 := YieldClaim(s, v.generation, db, t);
      if cfg.fallback in cfg.constructible then SetWorker(s1, w, v.(failover := true, phase := Claiming))
      else DropWorker(s1, w)
  }

  function DoYield(s: Sys, w: nat): Sys
    requires w in s.workers && s.workers[w].phase.Requeueing?
  {
    var v := s.workers[w];
    var t := v.phase.token;
    var (db, ok) := Requeue(s.db, v.generation, t, v.phase.code, s.now);
    var s1 := if ok then YieldClaim(s, v.generation, db, t) else s;
    SetWorker(s1, w, v.(phase := Retrying))
  }

  function DoRetry(s: Sys, w: nat): Sys
    requires w in s.workers
  {
    var v := s.workers[w];
    DropWorker(s.(broker := s.broker + multiset{Process(v.generation, v.retries + 1)}), w)
  }

  function DoFail(s: Sys, w: nat, e: EventId): Sys
    requires w in s.workers && s.workers[w].phase.Failing?
  {
    var v := s.workers[w];
    var t := v.phase.token;
    var (db, reply) := FailAndRefund(s.db, v.generation, t, v.phase.code, e, s.now);
    DropWorker(if reply == Wrote then Settle(s, v.generation, db, t, false) else s, w)
  }

  /** Callback deliveries touch nothing but the delivery columns of existing callback rows. */
  ghost predicate SameCallbackRows(before: map<EventId, CallbackEvent>, after: map<EventId, CallbackEvent>) {
    && before.Keys == after.Keys
    && forall e :: e in before ==> after[e].generation == before[e].generation
  }

  predicate ByClient(a: Action) { a.Register? || a.Pay? || a.Create? }

  predicate ByEnvironment(a: Action) { a.Tick? || a.Lose? || a.Duplicate? || a.Courier? }

  predicate ByDispatch(a: Action) { a.SelectPending? || a.DispatchNext? || a.StopDispatcher? || a.Recover? }

  predicate ByTask(a: Action) { !ByClient(a) && !ByEnvironment(a) && !ByDispatch(a) }

  ghost predicate ClientEnabled(s: Sys, a: Action) {
    a.Create? ==> a.g !in s.db.generations && a.e !in s.db.outbox
  }

  ghost predicate EnvironmentEnabled(s: Sys, a: Action)
    requires ByEnvironment(a)
  {
    match a
    case Tick(_) => true
    case Lose(m) => m in s.broker
    case Duplicate(m) => m in s.broker
    case Courier(rows) => SameCallbackRows(s.db.callbacks, rows)
  }

  ghost predicate DispatchEnabled(cfg: Config, s: Sys, a: Action)
    requires ByDispatch(a)
  {
    match a
    case SelectPending(disp, ids) =>
      disp !in s.dispatchers && IsBatch(PendingEvents(s.db), cfg.batchLimit, ids)
    case DispatchNext(disp, _) => disp in s.dispatchers && s.dispatchers[disp] != []
    case StopDispatcher(disp) => disp in s.dispatchers
    case Recover(locked, ids) =>
      IsBatch(StaleRows(s.db, s.now, cfg.queuedRecovery, locked), cfg.batchLimit, ids)
  }

  predicate TaskEnabled(s: Sys, a: Action)
    requires ByTask(a)
  {
    match a
    case Deliver(w, m) => w !in s.workers && m in s.broker
    case Claim(w, t) => w in s.workers && s.workers[w].phase.Claiming? && t !in s.issued
    case Submit(w, _) => w in s.workers && s.workers[w].phase.Submitting?
    case Save(w, _) => w in s.workers && s.workers[w].phase.Saving?
    case Poll(w, _) => w in s.workers && s.workers[w].phase.Polling?
    case Finishing(w, e, _) => w in s.workers && s.workers[w].phase.Completing? && e !in s.db.callbacks
    case Break(w) => w in s.workers && (s.workers[w].phase.Saving? || s.workers[w].phase.Completing?)
    case ReadForFailover(w) => w in s.workers && s.workers[w].phase.FailoverReading?
    case YieldToFallback(w) => w in s.workers && s.workers[w].phase.FailoverRequeueing?
    case Yield(w) => w in s.workers && s.workers[w].phase.Requeueing?
    case Retry(w) => w in s.workers && s.workers[w].phase.Retrying?
    case Fail(w, e) => w in s.workers && s.workers[w].phase.Failing? && e !in s.db.callbacks
    case Crash(w) => w in s.workers
  }

  ghost predicate Enabled(cfg: Config, s: Sys, a: Action) {
    if ByClient(a) then ClientEnabled(s, a)
    else if ByEnvironment(a) then EnvironmentEnabled(s, a)
    else if ByDispatch(a) then DispatchEnabled(cfg, s, a)
    else TaskEnabled(s, a)
  }

  ghost function ClientStep(s: Sys, a: Action): Sys
    requires ByClient(a) && ClientEnabled(s, a)
  {
    match a
    case Register(u) => s.(db := Transactions.Register(s.db, u))
    case Pay(x, u, amount) => s.(db := ApplyCredit(s.db, x, u, amount).0)
    case Create(cmd, cost, g, e) =>
      var (db, reply) := CreateAndCharge(s.db, cmd, cost, g, e, s.now);
      DoCreate(s, db, reply)
  }

  ghost function EnvironmentStep(s: Sys, a: Action): Sys
    requires ByEnvironment(a) && EnvironmentEnabled(s, a)
  {
    match a
    case Tick(d) => s.(now := s.now + d)
    case Lose(m) => s.(broker := s.broker - multiset{m})
    case Duplicate(m) => s.(broker := s.broker + multiset{m})
    case Courier(rows) => s.(db := s.db.(callbacks := rows))
  }

  ghost function DispatchStep(cfg: Config, s: Sys, a: Action): Sys
    requires ByDispatch(a) && DispatchEnabled(cfg, s, a)
  {
    match a
    case SelectPending(disp, ids) => s.(dispatchers := s.dispatchers[disp := ids])
    case DispatchNext(disp, outcome) => DoDispatch(s, disp, outcome)
    case StopDispatcher(disp) => s.(dispatchers := s.dispatchers - {disp})
    case Recover(_, ids) => s.(db := RecoverRows(s.db, ids, s.now))
  }

  function TaskStep(cfg: Config, s: Sys, a: Action): Sys
    requires ByTask(a) && TaskEnabled(s, a)
  {
    match a
    case Deliver(w, m) => SetWorker(s, w, Worker(m.generation, m.retries, false, Claiming))
    case Claim(w, t) => DoClaim(cfg, s, w, t)
    case Submit(w, reply) => DoSubmit(cfg, s, w, reply)
    case Save(w, ackLost) => DoSave(cfg, s, w, ackLost)
    case Poll(w, reply) => DoPoll(cfg, s, w, reply)
    case Finishing(w, e, ackLost) => DoComplete(cfg, s, w, e, ackLost)
    case Break(w) => SetWorker(s, w, AfterError(cfg, s.workers[w], s.workers[w].phase.token, Unexpected))
    case ReadForFailover(w) => DoReadForFailover(s, w)
    case YieldToFallback(w) => DoYieldToFallback(cfg, s, w)
    case Yield(w) => DoYield(s, w)
    case Retry(w) => DoRetry(s, w)
    case Fail(w, e) => DoFail(s, w, e)
    case Crash(w) => DropWorker(s, w)
  }

  ghost function Step(cfg: Config, s: Sys, a: Action): Sys
    requires Enabled(cfg, s, a)
  {
    if ByClient(a) then ClientStep(s, a)
    else if ByEnvironment(a) then EnvironmentStep(s, a)
    else if ByDispatch(a) then DispatchStep(cfg, s, a)
    else TaskStep(cfg, s, a)
  }

  // ----- Runs -------------------------------------------------------------------------

  ghost predicate Valid(cfg: Config, s: Sys, acts: seq<Action>)
    decreases |acts|
  {
    acts == [] || (Enabled(cfg, s, acts[0]) && Valid(cfg, Step(cfg, s, acts[0]), acts[1..]))
  }

  /** The state after a run. */
  ghost function Run(cfg: Config, s: Sys, acts: seq<Action>): Sys
    requires Valid(cfg, s, acts)
    decreases |acts|
  {
    if acts == [] then s else Run(cfg, Step(cfg, s, acts[0]), acts[1..])
  }

  ghost predicate Reachable(cfg: Config, s: Sys) {
    exists acts :: Valid(cfg, Init, acts) && Run(cfg, Init, acts) == s
  }

  lemma {:induction false} RunAppend(cfg: Config, s: Sys, a: seq<Action>, b: seq<Action>)
    requires Valid(cfg, s, a) && Valid(cfg, Run(cfg, s, a), b)
    ensures Valid(cfg, s, a + b) && Run(cfg, s, a + b) == Run(cfg, Run(cfg, s, a), b)
    decreases |a|
  {
    hide Step, Enabled;
    if a == [] {
      assert a + b == b;
    } else {
      RunAppend(cfg, Step(cfg, s, a[0]), a[1..], b);
      assert (a + b)[0] == a[0] && (a + b)[1..] == a[1..] + b;
    }
  }
}
