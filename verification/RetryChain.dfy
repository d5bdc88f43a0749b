/** One generation processed without interference: what a claim, a message with its failover,
    and the whole chain of retry messages make of the row, for every behaviour of the
    providers. */
module RetryChain {
  import opened Common
  import opened Tables
  import opened Transactions
  import opened JobSystem

  /** What a provider answers during one claim. */
  datatype Attempt = Attempt(submit: Reply, poll: Reply)

  /** One delivery of a `generation.process` message: the tokens its two possible claims draw,
      the providers' answers, and the clock. */
  datatype Delivery = Delivery(first: Token, second: Token, main: Attempt, spare: Attempt, now: int)

  datatype Once = Finished | Broken(kind: ErrorKind)

  datatype Verdict = Ended | RetryLater | Propagated

  function NameFor(cfg: Config, row: Generation, explicit: Option<string>): string {
    if explicit.Some? then explicit.value
    else if row.provider.Some? then row.provider.value else cfg.primary
  }

  /** Polling under the stored id; `n` counts the submissions that returned an id. */
  function AfterPoll(row: Generation, name: string, poll: Reply, now: int, n: nat): (Generation, Once, nat) {
    match poll
    case Answer(result) => (CompletedRow(row, result, name, now), Finished, n)
    case Error(kind) => (row, Broken(kind), n)
  }

  /** `process_generation_once` on a claimable row. */
  function AfterOnce(cfg: Config, row: Generation, t: Token, explicit: Option<string>, a: Attempt, now: int): (Generation, Once, nat) {
    var claimed := ClaimedRow(row, t, now, cfg.leaseSeconds);
    var name := NameFor(cfg, row, explicit);
    if explicit.None? && name !in cfg.constructible then (claimed, Broken(Unexpected), 0)
    else if claimed.requestId.Some? then AfterPoll(claimed, name, a.poll, now, 0)
    else match a.submit
      case Error(kind) => (claimed, Broken(kind), 0)
      case Answer(id) => AfterPoll(SavedRow(claimed, name, id, now), name, a.poll, now, 1)
  }

  function CodeOf(kind: ErrorKind): string {
    match kind
    case Permanent => "permanent_provider_error"
    case Temporary => "temporary_provider_error"
    case Unexpected => "internal_processing_error"
  }

  /** The failover of the last delivery: requeue, then one claim with the fallback provider. */
  function AfterFailover(cfg: Config, row: Generation, d: Delivery): (Generation, Verdict, nat) {
    var queued := QueuedRow(row, "provider_failover", d.now);
    if cfg.fallback !in cfg.constructible then (queued, Propagated, 0)
    else
      var (last, once, n) := AfterOnce(cfg, queued, d.second, Some(cfg.fallback), d.spare, d.now);
      (if once.Finished? then last else FailedRow(last, "fallback_provider_error", d.now), Ended, n)
  }

  function AfterMessage(cfg: Config, row: Generation, retries: nat, d: Delivery): (Generation, Verdict, nat) {
    var (row1, once, n) := AfterOnce(cfg, row, d.first, None, d.main, d.now);
    if once.Finished? then (row1, Ended, n)
    else if once.kind.Permanent? then (FailedRow(row1, CodeOf(once.kind), d.now), Ended, n)
    else if retries < MAX_RETRIES then (QueuedRow(row1, CodeOf(once.kind), d.now), RetryLater, n)
    else if once.kind.Temporary? && FailoverConfigured(cfg) && row1.requestId.None? then
      var (row2, verdict, m) := AfterFailover(cfg, row1, d);
      (row2, verdict, n + m)
    else (FailedRow(row1, CodeOf(once.kind), d.now), Ended, n)
  }

  /** The message delivered with `r` retries behind it, and the retries it leads to. */
  function AfterChain(cfg: Config, row: Generation, r: nat, plan: nat -> Delivery): (Generation, Verdict, nat)
    decreases MAX_RETRIES - r
  {
    var (row1, verdict, n) := AfterMessage(cfg, row, r, plan(r));
    if verdict.RetryLater? then
      var (row2, last, m) := AfterChain(cfg, row1, r + 1, plan);
      (row2, last, n + m)
    else (row1, verdict, n)
  }

  /** The tables once a job stands at `row`: nothing but this row and what belongs to its end
      has changed, that is the refund of a failed row, and the callback row of a finished one
      that asked for it. */
  function JobDone(db: Db, g: GenerationId, row: Generation, e: EventId, now: int): Db {
    db.(generations := db.generations[g := row],
        balances := if row.status == Failed then Refund(db, row.user, row.cost).balances else db.balances,
        callbacks := if row.WantsCallback() then db.callbacks[e := NewCallback(g, now)] else db.callbacks)
  }

  // ----- Message after message ---------------------------------------------------------------------

  /** The time a finished row was finished at. */
  function EndOf(plan: nat -> Delivery, completedAt: Option<int>): int {
    if completedAt.Some? then completedAt.value else plan(0).now
  }

  /** What one message never changes, and when it leaves the row to be claimed again. */
  lemma MessageFrame(cfg: Config, row: Generation, retries: nat, d: Delivery)
    ensures var (row', verdict, n) := AfterMessage(cfg, row, retries, d);
            && row'.user == row.user && row'.cost == row.cost && row'.request == row.request
            && (row'.Terminal() ==> row'.completedAt == Some(d.now))
            && (verdict.RetryLater? ==> row'.status == Queued && retries < MAX_RETRIES)
  {
  }

  /** After the message with `r` retries behind it: a retry is due and the rest of the chain is
      still to come, or the chain is over. */
  ghost predicate ChainSoFar(cfg: Config, before: Db, db: Db, g: GenerationId, plan: nat -> Delivery, r: nat,
                             verdict: Verdict, answered: nat, e: EventId)
    requires g in before.generations
  {
    && g in db.generations
    && var row := db.generations[g];
       var whole := AfterChain(cfg, before.generations[g], 0, plan);
       if verdict.RetryLater? then
         && r < MAX_RETRIES && row.status == Queued && db == PutRow(before, g, row)
         && var (last, final, n) := AfterChain(cfg, row, r + 1, plan); whole == (last, final, answered + n)
       else
         whole == (row, verdict, answered) && db == JobDone(before, g, row, e, EndOf(plan, row.completedAt))
  }

  /** A row written before leaves no trace under the final one. */
  lemma DoneAfterPut(db: Db, g: GenerationId, row: Generation, row': Generation, e: EventId, now: int)
    ensures JobDone(PutRow(db, g, row), g, row', e, now) == JobDone(db, g, row', e, now)
    ensures PutRow(PutRow(db, g, row), g, row') == PutRow(db, g, row')
  {
    assert db.generations[g := row][g := row'] == db.generations[g := row'];
  }

  /** An unfinished row is all there is to see. */
  lemma NotDoneYet(db: Db, g: GenerationId, row: Generation, e: EventId, now: int)
    requires !row.Terminal()
    ensures JobDone(db, g, row, e, now) == PutRow(db, g, row)
  {
    hide Refund;
  }

  /** Whether finished or not, the stamp that counts is the one in the row. */
  lemma StampOf(cfg: Config, before: Db, g: GenerationId, row: Generation, r: nat, plan: nat -> Delivery, e: EventId)
    ensures var (row', verdict, n) := AfterMessage(cfg, row, r, plan(r));
            JobDone(before, g, row', e, plan(r).now) == JobDone(before, g, row', e, EndOf(plan, row'.completedAt))
    ensures var (row', verdict, n) := AfterMessage(cfg, row, r, plan(r));
            verdict.RetryLater? ==> JobDone(before, g, row', e, plan(r).now) == PutRow(before, g, row')
  {
    MessageFrame(cfg, row, r, plan(r));
    hide AfterMessage, Refund;
  }

  lemma FirstMessage(cfg: Config, before: Db, g: GenerationId, plan: nat -> Delivery, e: EventId)
    requires g in before.generations
    ensures var (row, verdict, n) := AfterMessage(cfg, before.generations[g], 0, plan(0));
            ChainSoFar(cfg, before, JobDone(before, g, row, e, plan(0).now), g, plan, 0, verdict, n, e)
  {
    hide AfterMessage, AfterChain, JobDone;
    var start := before.generations[g];
    MessageFrame(cfg, start, 0, plan(0));
    StampOf(cfg, before, g, start, 0, plan, e);
    UnrollChain(cfg, start, 0, plan);
    RowOfDone(before, g, AfterMessage(cfg, start, 0, plan(0)).0, e, plan(0).now);
  }

  lemma NextMessage(cfg: Config, before: Db, db: Db, g: GenerationId, plan: nat -> Delivery, r: nat, answered: nat, e: EventId)
    requires g in before.generations && ChainSoFar(cfg, before, db, g, plan, r, RetryLater, answered, e)
    ensures g in db.generations && db.callbacks == before.callbacks && Claimable(db.generations[g], plan(r + 1).now) && r < MAX_RETRIES
    ensures var (row, verdict, n) := AfterMessage(cfg, db.generations[g], r + 1, plan(r + 1));
            ChainSoFar(cfg, before, JobDone(db, g, row, e, plan(r + 1).now), g, plan, r + 1, verdict, answered + n, e)
  {
    hide AfterMessage, AfterChain, Refund, JobDone;
    var row1 := db.generations[g];
    MessageFrame(cfg, row1, r + 1, plan(r + 1));
    StampOf(cfg, before, g, row1, r + 1, plan, e);
    UnrollChain(cfg, row1, r + 1, plan);
    var (row2, verdict, n) := AfterMessage(cfg, row1, r + 1, plan(r + 1));
    DoneAfterPut(before, g, row1, row2, e, plan(r + 1).now);
    RowOfDone(before, g, row2, e, plan(r + 1).now);
  }

  lemma UnrollChain(cfg: Config, row: Generation, r: nat, plan: nat -> Delivery)
    ensures var (row1, verdict, n) := AfterMessage(cfg, row, r, plan(r));
            && (verdict.RetryLater? ==>
                  var (row2, last, m) := AfterChain(cfg, row1, r + 1, plan); AfterChain(cfg, row, r, plan) == (row2, last, n + m))
            && (!verdict.RetryLater? ==> AfterChain(cfg, row, r, plan) == (row1, verdict, n))
  {
    hide AfterMessage;
  }

  lemma RowOfDone(db: Db, g: GenerationId, row: Generation, e: EventId, now: int)
    ensures g in JobDone(db, g, row, e, now).generations && JobDone(db, g, row, e, now).generations[g] == row
  {
  }

  lemma ChainOver(cfg: Config, before: Db, db: Db, g: GenerationId, plan: nat -> Delivery, r: nat,
                  verdict: Verdict, answered: nat, e: EventId)
    requires g in before.generations && !verdict.RetryLater? && ChainSoFar(cfg, before, db, g, plan, r, verdict, answered, e)
    ensures var (row, v, n) := AfterChain(cfg, before.generations[g], 0, plan);
            verdict == v && answered == n && db == JobDone(before, g, row, e, EndOf(plan, row.completedAt))
  {
    hide AfterChain, JobDone;
  }

  // ----- The chain ends --------------------------------------------------------------------------

  /** What one message does, whatever the providers answer. */
  lemma MessageFacts(cfg: Config, row: Generation, retries: nat, d: Delivery)
    requires row.refundedAt.None?
    ensures var (row', verdict, n) := AfterMessage(cfg, row, retries, d);
            && (verdict.RetryLater? ==> retries < MAX_RETRIES && row'.status == Queued && row'.refundedAt.None?
                                        && row'.attempts == row.attempts + 1)
            && (verdict.Ended? ==> row'.Terminal() && (row'.status == Failed <==> row'.refundedAt.Some?))
            && row.attempts + 1 <= row'.attempts <= row.attempts + 2
            && (row.requestId.Some? ==> n == 0 && row'.requestId == row.requestId && !verdict.Propagated?)
            && n == (if row.requestId.None? && row'.requestId.Some? then 1 else 0)
            && (row'.status == Completed ==> row'.requestId.Some?)
  {
  }

  /** For every sequence of provider answers the chain ends the generation: completed and
      charged, or failed and refunded, after at most four ordinary claims and one for the
      fallback, with at most one submission that returned an id. */
  lemma {:induction false} ChainEnds(cfg: Config, row: Generation, r: nat, plan: nat -> Delivery)
    requires row.refundedAt.None? && r <= MAX_RETRIES
    requires cfg.fallback != "" && cfg.fallback != cfg.primary ==> cfg.fallback in cfg.constructible
    ensures var (row', verdict, n) := AfterChain(cfg, row, r, plan);
            && verdict.Ended? && row'.Terminal()
            && (row'.status == Failed <==> row'.refundedAt.Some?)
            && (row'.status == Completed ==> row'.requestId.Some?)
            && row'.attempts - row.attempts <= (MAX_RETRIES + 1 - r) + 1
            && n == (if row.requestId.None? && row'.requestId.Some? then 1 else 0)
            && (row.requestId.Some? ==> row'.requestId == row.requestId)
    decreases MAX_RETRIES - r
  {
    MessageFacts(cfg, row, r, plan(r));
    var (row1, verdict, n) := AfterMessage(cfg, row, r, plan(r));
    if verdict.RetryLater? {
      ChainEnds(cfg, row1, r + 1, plan);
    } else {
      NeverPropagates(cfg, row, r, plan(r));
    }
    hide AfterMessage;
  }

  lemma NeverPropagates(cfg: Config, row: Generation, retries: nat, d: Delivery)
    requires cfg.fallback != "" && cfg.fallback != cfg.primary ==> cfg.fallback in cfg.constructible
    ensures !AfterMessage(cfg, row, retries, d).1.Propagated?
  {
    hide AfterOnce;
  }

  // ----- Exactly when it always ends ------------------------------------------------------------------

  /** The guard a deployment can check: with this setting and this row some provider behaviour
      leaves the generation in the queue with nobody working on it. */
  predicate MayBeLeft(cfg: Config, row: Generation) {
    && cfg.fallback != "" && cfg.fallback != cfg.primary && cfg.fallback !in cfg.constructible
    && row.requestId.None? && NameFor(cfg, row, None) in cfg.constructible
  }

  lemma {:induction false} LeftOnlyWhen(cfg: Config, row: Generation, r: nat, plan: nat -> Delivery)
    requires row.refundedAt.None? && r <= MAX_RETRIES && !MayBeLeft(cfg, row)
    ensures AfterChain(cfg, row, r, plan).1.Ended?
    decreases MAX_RETRIES - r
  {
    var (row1, verdict, n) := AfterMessage(cfg, row, r, plan(r));
    MessageFacts(cfg, row, r, plan(r));
    StillNotLeft(cfg, row, r, plan(r));
    if verdict.RetryLater? { LeftOnlyWhen(cfg, row1, r + 1, plan); }
    hide AfterMessage;
  }

  lemma StillNotLeft(cfg: Config, row: Generation, retries: nat, d: Delivery)
    requires !MayBeLeft(cfg, row)
    ensures var (row', verdict, n) := AfterMessage(cfg, row, retries, d);
            (verdict.RetryLater? ==> !MayBeLeft(cfg, row')) && !verdict.Propagated?
  {
  }

  /** The provider is unavailable at every submission. */
  function Unavailable(now: int): Delivery {
    Delivery(0, 1, Attempt(Error(Temporary), Error(Temporary)), Attempt(Error(Temporary), Error(Temporary)), now)
  }

  lemma {:induction false} LeftWhenUnavailable(cfg: Config, row: Generation, r: nat, now: int)
    requires r <= MAX_RETRIES && MayBeLeft(cfg, row)
    ensures AfterChain(cfg, row, r, i => Unavailable(now)).1.Propagated?
    ensures AfterChain(cfg, row, r, i => Unavailable(now)).0.status == Queued
    decreases MAX_RETRIES - r
  {
    var (row1, verdict, n) := AfterMessage(cfg, row, r, Unavailable(now));
    if r < MAX_RETRIES {
      assert verdict.RetryLater? && MayBeLeft(cfg, row1);
      LeftWhenUnavailable(cfg, row1, r + 1, now);
    }
  }

  /** A fresh chain ends whatever the providers answer if and only if the guard is false.  The
      unconstructible fallback raises outside the inner handler, so nobody fails the job. */
  lemma ChainAlwaysEndsExactlyWhen(cfg: Config, row: Generation)
    requires row.refundedAt.None?
    ensures (forall plan :: AfterChain(cfg, row, 0, plan).1.Ended?) <==> !MayBeLeft(cfg, row)
  {
    if MayBeLeft(cfg, row) {
      LeftWhenUnavailable(cfg, row, 0, 0);
      assert !AfterChain(cfg, row, 0, i => Unavailable(0)).1.Ended?;
    } else {
      forall plan ensures AfterChain(cfg, row, 0, plan).1.Ended? { LeftOnlyWhen(cfg, row, 0, plan); }
    }
  }
}
