/** What becomes of a generation, said in terms of the settings and of the providers' answers
    alone: which answer decides, when the fallback provider is asked, what the row says in the
    end, and under which error code. */
module Outcomes {
  import opened Common
  import opened Tables
  import opened Transactions
  import opened JobSystem
  import opened RetryChain

  /** `p` is the provider an ordinary claim of the row turns to, and it can be constructed. */
  predicate TurnsTo(cfg: Config, row: Generation, p: string) {
    p in cfg.constructible && (row.provider == Some(p) || (row.provider.None? && p == cfg.primary))
  }

  /** With the request id `id` stored, or none: every question put to the provider is answered. */
  predicate Succeeds(id: Option<string>, a: Attempt) {
    a.poll.Answer? && (id.Some? || a.submit.Answer?)
  }

  /** The first question that is not answered ends in an error of this kind. */
  predicate BreaksWith(id: Option<string>, a: Attempt, kind: ErrorKind) {
    if id.None? && a.submit.Error? then a.submit.kind == kind else a.poll == Error(kind)
  }

  /** The id known once the submission, if there is one, is over. */
  function IdAfter(id: Option<string>, a: Attempt): Option<string> {
    if id.None? && a.submit.Answer? then Some(a.submit.value) else id
  }

  predicate CompletedWith(row: Generation, result: string, p: string, id: Option<string>, now: int) {
    && row.status == Completed && row.result == Some(result) && row.provider == Some(p)
    && row.requestId == id && id.Some? && row.completedAt == Some(now)
  }

  predicate FailedWith(row: Generation, code: string, now: int) {
    && row.status == Failed && row.errorCode == Some(code)
    && row.refundedAt == Some(now) && row.completedAt == Some(now)
  }

  predicate QueuedWith(row: Generation, code: string) {
    row.status == Queued && row.errorCode == Some(code) && row.token.None? && row.lease.None?
  }

  /** The fallback setting is neither blank nor the primary provider again, and it works. */
  predicate HasFallback(cfg: Config) {
    cfg.fallback != "" && cfg.fallback != cfg.primary && cfg.fallback in cfg.constructible
  }

  // ----- One message -----------------------------------------------------------------------------

  /** Answers all the way complete the generation, however often it was tried before. */
  lemma AnswersComplete(cfg: Config, row: Generation, retries: nat, d: Delivery, p: string)
    requires TurnsTo(cfg, row, p) && Succeeds(row.requestId, d.main)
    ensures var (row', verdict, n) := AfterMessage(cfg, row, retries, d);
            && verdict == Ended && CompletedWith(row', d.main.poll.value, p, IdAfter(row.requestId, d.main), d.now)
            && row'.attempts == row.attempts + 1 && row'.refundedAt == row.refundedAt
            && n == if row.requestId.None? then 1 else 0
  {
  }

  /** A refusal for good fails the generation at once, on every delivery. */
  lemma RefusalFails(cfg: Config, row: Generation, retries: nat, d: Delivery, p: string)
    requires TurnsTo(cfg, row, p) && BreaksWith(row.requestId, d.main, Permanent)
    ensures var (row', verdict, n) := AfterMessage(cfg, row, retries, d);
            verdict == Ended && FailedWith(row', "permanent_provider_error", d.now) && row'.attempts == row.attempts + 1
  {
  }

  /** Any other trouble is put back into the queue on the first three deliveries, together with
      the id if the provider gave one. */
  lemma TroubleIsRetried(cfg: Config, row: Generation, retries: nat, d: Delivery, p: string, kind: ErrorKind)
    requires TurnsTo(cfg, row, p) && kind != Permanent && BreaksWith(row.requestId, d.main, kind) && retries < 3
    ensures var (row', verdict, n) := AfterMessage(cfg, row, retries, d);
            && verdict == RetryLater && row'.attempts == row.attempts + 1 && row'.refundedAt == row.refundedAt
            && QueuedWith(row', if kind == Temporary then "temporary_provider_error" else "internal_processing_error")
            && row'.requestId == IdAfter(row.requestId, d.main) && TurnsTo(cfg, row', p)
  {
  }

  /** On the last delivery an unexpected error fails the generation; so does temporary trouble
      once an id is stored, whatever fallback there is. */
  lemma LateTroubleFails(cfg: Config, row: Generation, retries: nat, d: Delivery, p: string, kind: ErrorKind)
    requires retries >= 3 && TurnsTo(cfg, row, p) && kind != Permanent && BreaksWith(row.requestId, d.main, kind)
    requires kind == Unexpected || IdAfter(row.requestId, d.main).Some?
    ensures var (row', verdict, n) := AfterMessage(cfg, row, retries, d);
            && verdict == Ended && row'.attempts == row.attempts + 1
            && FailedWith(row', if kind == Temporary then "temporary_provider_error" else "internal_processing_error", d.now)
  {
  }

  /** Temporary trouble on the last delivery, before any id is stored: with a fallback the verdict
      is the fallback's alone. */
  lemma FallbackDecides(cfg: Config, row: Generation, retries: nat, d: Delivery, p: string)
    requires retries >= 3 && TurnsTo(cfg, row, p) && row.requestId.None? && d.main.submit == Error(Temporary) && HasFallback(cfg)
    ensures var (row', verdict, n) := AfterMessage(cfg, row, retries, d);
            && verdict == Ended && row'.attempts == row.attempts + 2
            && (d.spare.submit.Answer? && d.spare.poll.Answer? ==>
                  CompletedWith(row', d.spare.poll.value, cfg.fallback, Some(d.spare.submit.value), d.now))
            && (d.spare.submit.Error? || d.spare.poll.Error? ==> FailedWith(row', "fallback_provider_error", d.now))
            && n == if d.spare.submit.Answer? then 1 else 0
  {
  }

  /** With a blank fallback, or the primary provider itself, there is one claim and no more. */
  lemma NoFallbackFails(cfg: Config, row: Generation, retries: nat, d: Delivery, p: string)
    requires retries >= 3 && TurnsTo(cfg, row, p) && row.requestId.None? && d.main.submit == Error(Temporary)
    requires cfg.fallback == "" || cfg.fallback == cfg.primary
    ensures var (row', verdict, n) := AfterMessage(cfg, row, retries, d);
            && verdict == Ended && row'.attempts == row.attempts + 1 && n == 0
            && FailedWith(row', "temporary_provider_error", d.now)
  {
  }

  /** A fallback that cannot be constructed raises after the claim was given back. */
  lemma BrokenFallbackLeavesQueued(cfg: Config, row: Generation, retries: nat, d: Delivery, p: string)
    requires retries >= 3 && TurnsTo(cfg, row, p) && row.requestId.None? && d.main.submit == Error(Temporary)
    requires cfg.fallback != "" && cfg.fallback != cfg.primary && cfg.fallback !in cfg.constructible
    ensures var (row', verdict, n) := AfterMessage(cfg, row, retries, d);
            verdict == Propagated && QueuedWith(row', "provider_failover") && row'.attempts == row.attempts + 1 && n == 0
  {
  }

  /** The fallback is asked exactly on the last delivery of a row without an id whose submission
      met temporary trouble, if the settings name a working provider other than the primary. */
  lemma FallbackIsAskedExactlyWhen(cfg: Config, row: Generation, retries: nat, d: Delivery)
    ensures AfterMessage(cfg, row, retries, d).0.attempts == row.attempts + 2 <==>
              && retries >= 3 && row.requestId.None? && d.main.submit == Error(Temporary)
              && (exists p :: TurnsTo(cfg, row, p)) && HasFallback(cfg)
  {
    if exists p :: TurnsTo(cfg, row, p) {
    } else {
      assert !TurnsTo(cfg, row, if row.provider.Some? then row.provider.value else cfg.primary);
    }
    if NameFor(cfg, row, None) in cfg.constructible { assert TurnsTo(cfg, row, NameFor(cfg, row, None)); }
  }

  /** A provider that cannot be constructed counts as an unexpected error. */
  lemma UnknownProviderFails(cfg: Config, row: Generation, retries: nat, d: Delivery)
    requires !exists p :: TurnsTo(cfg, row, p)
    ensures var (row', verdict, n) := AfterMessage(cfg, row, retries, d);
            && row'.attempts == row.attempts + 1 && n == 0 && row'.requestId == row.requestId
            && (retries < 3 ==> verdict == RetryLater && QueuedWith(row', "internal_processing_error"))
            && (retries >= 3 ==> verdict == Ended && FailedWith(row', "internal_processing_error", d.now))
  {
    assert !TurnsTo(cfg, row, if row.provider.Some? then row.provider.value else cfg.primary);
  }

  // ----- The chain ---------------------------------------------------------------------------------

  /** The id stored before message `i`, if all messages before it, beginning with `r`, broke. */
  function IdBefore(id: Option<string>, plan: nat -> Delivery, r: nat, i: nat): Option<string>
    requires r <= i
    decreases i
  {
    if i == r then id else IdAfter(IdBefore(id, plan, r, i - 1), plan(i - 1).main)
  }

  /** Message `i` meets trouble that may pass. */
  ghost predicate Passing(id: Option<string>, plan: nat -> Delivery, r: nat, i: nat)
    requires r <= i
  {
    exists kind :: kind != Permanent && BreaksWith(IdBefore(id, plan, r, i), plan(i).main, kind)
  }

  lemma {:induction false} IdShifts(id: Option<string>, plan: nat -> Delivery, r: nat, i: nat)
    requires r < i
    ensures IdBefore(id, plan, r, i) == IdBefore(IdAfter(id, plan(r).main), plan, r + 1, i)
    decreases i
  {
    if r + 1 < i { IdShifts(id, plan, r, i - 1); }
  }

  /** While trouble passes, message after message is claimed once and requeued: the chain comes
      to message `k` with the id given so far, and ends as that message and its followers do. */
  lemma {:induction false} ChainComesTo(cfg: Config, row: Generation, r: nat, k: nat, plan: nat -> Delivery, p: string) returns (row': Generation)
    requires r <= k <= 3 && TurnsTo(cfg, row, p) && forall i :: r <= i < k ==> Passing(row.requestId, plan, r, i)
    ensures TurnsTo(cfg, row', p) && row'.requestId == IdBefore(row.requestId, plan, r, k)
    ensures row'.attempts == row.attempts + (k - r) && row'.refundedAt == row.refundedAt
    ensures AfterChain(cfg, row, r, plan).0 == AfterChain(cfg, row', k, plan).0
    ensures AfterChain(cfg, row, r, plan).1 == AfterChain(cfg, row', k, plan).1
    decreases k - r
  {
    hide AfterMessage, TurnsTo, BreaksWith, IdAfter;
    if r == k {
      row' := row;
    } else {
      assert Passing(row.requestId, plan, r, r);
      var kind :| kind != Permanent && BreaksWith(row.requestId, plan(r).main, kind);
      TroubleIsRetried(cfg, row, r, plan(r), p, kind);
      var next := AfterMessage(cfg, row, r, plan(r)).0;
      var r' := r + 1;
      IdShifts(row.requestId, plan, r, k);
      forall i | r' <= i < k ensures Passing(next.requestId, plan, r', i) {
        assert Passing(row.requestId, plan, r, i);
        IdShifts(row.requestId, plan, r, i);
      }
      row' := ChainComesTo(cfg, next, r', k, plan, p);
    }
  }

  /** Message `k`, of at most four, ends the chain: by its answers, or by a refusal. */
  lemma FirstClearAnswerDecides(cfg: Config, row: Generation, k: nat, plan: nat -> Delivery, p: string)
    requires k <= 3 && TurnsTo(cfg, row, p) && forall i :: 0 <= i < k ==> Passing(row.requestId, plan, 0, i)
    ensures var (row', verdict, n) := AfterChain(cfg, row, 0, plan);
            var id, d := IdBefore(row.requestId, plan, 0, k), plan(k);
            && (Succeeds(id, d.main) ==>
                  verdict == Ended && CompletedWith(row', d.main.poll.value, p, IdAfter(id, d.main), d.now) && row'.attempts == row.attempts + k + 1)
            && (BreaksWith(id, d.main, Permanent) ==>
                  verdict == Ended && FailedWith(row', "permanent_provider_error", d.now) && row'.attempts == row.attempts + k + 1)
  {
    var last := ChainComesTo(cfg, row, 0, k, plan, p);
    hide AfterMessage, TurnsTo, BreaksWith, Succeeds, IdAfter, CompletedWith, FailedWith;
    if Succeeds(last.requestId, plan(k).main) { AnswersComplete(cfg, last, k, plan(k), p); }
    if BreaksWith(last.requestId, plan(k).main, Permanent) { RefusalFails(cfg, last, k, plan(k), p); }
  }

  /** If all four messages meet passing trouble, the generation fails, unless no submission was
      answered, the last trouble was temporary and there is a fallback: then five claims are made,
      and the fallback's answers decide. */
  lemma LastTroubleDecides(cfg: Config, row: Generation, plan: nat -> Delivery, p: string, kind: ErrorKind)
    requires TurnsTo(cfg, row, p) && forall i :: 0 <= i < 3 ==> Passing(row.requestId, plan, 0, i)
    requires kind != Permanent && BreaksWith(IdBefore(row.requestId, plan, 0, 3), plan(3).main, kind)
    ensures var (row', verdict, n) := AfterChain(cfg, row, 0, plan);
            var id, d := IdBefore(row.requestId, plan, 0, 3), plan(3);
            if kind == Unexpected then
              verdict == Ended && FailedWith(row', "internal_processing_error", d.now) && row'.attempts == row.attempts + 4
            else if IdAfter(id, d.main).Some? || cfg.fallback == "" || cfg.fallback == cfg.primary then
              verdict == Ended && FailedWith(row', "temporary_provider_error", d.now) && row'.attempts == row.attempts + 4
            else if cfg.fallback !in cfg.constructible then
              verdict == Propagated && QueuedWith(row', "provider_failover") && row'.attempts == row.attempts + 4
            else
              && verdict == Ended && row'.attempts == row.attempts + 5
              && if d.spare.submit.Answer? && d.spare.poll.Answer?
                 then CompletedWith(row', d.spare.poll.value, cfg.fallback, Some(d.spare.submit.value), d.now)
                 else FailedWith(row', "fallback_provider_error", d.now)
  {
    var last := ChainComesTo(cfg, row, 0, 3, plan, p);
    hide AfterMessage, TurnsTo, CompletedWith, FailedWith, QueuedWith;
    if kind == Unexpected || IdAfter(last.requestId, plan(3).main).Some? {
      LateTroubleFails(cfg, last, 3, plan(3), p, kind);
    } else if cfg.fallback == "" || cfg.fallback == cfg.primary {
      NoFallbackFails(cfg, last, 3, plan(3), p);
    } else if cfg.fallback !in cfg.constructible {
      BrokenFallbackLeavesQueued(cfg, last, 3, plan(3), p);
    } else {
      FallbackDecides(cfg, last, 3, plan(3), p);
    }
  }
}
