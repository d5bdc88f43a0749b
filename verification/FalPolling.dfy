/** The Fal provider's HTTP side: how responses become results or errors, the polling loop
    with its deadline, and why a claim that keeps to it is heard.  Time is counted in ticks
    of any fixed length; how long each call takes is given from outside. */
module FalPolling {
  import opened Common
  import opened Tables
  import opened Transactions
  import opened JobSystem
  import opened TableInvariant
  import opened Fencing
  import opened RetryChain
  import O = Outcomes
  import Store

  datatype Fal = Fal(pollInterval: nat, requestTimeout: nat)

  /** A field: a string, another value that can be hashed, or a list or object. */
  datatype Value = Text(text: string) | Scalar(repr: string) | Nested(repr: string)

  datatype Json = Object(fields: map<string, Value>) | OtherJson(repr: string)

  datatype Call = TransportFailure | Response(code: int, json: Option<Json>)

  /** A call, and the ticks until it was answered or given up. */
  datatype Timed = Timed(call: Call, took: nat)

  datatype Outcome<T> = Got(value: T) | Threw(kind: ErrorKind)

  // ----- Reading responses -------------------------------------------------------------------

  /** `_raise_for_status`. */
  function StatusError(code: int): Option<ErrorKind> {
    if 200 <= code < 300 then None
    else if code in {408, 409, 425, 429} || code >= 500 then Some(Temporary)
    else Some(Permanent)
  }

  /** The field `key` of a response: a body that is no JSON or lacks the field is a permanent
      error, a body that is JSON but no object escapes both handlers. */
  function ReadField(call: Call, key: string): Outcome<Value> {
    match call
    case TransportFailure => Threw(Temporary)
    case Response(code, json) =>
      if StatusError(code).Some? then Threw(StatusError(code).value)
      else match json
        case None => Threw(Permanent)
        case Some(OtherJson(_)) => Threw(Unexpected)
        case Some(Object(fields)) => if key in fields then Got(fields[key]) else Threw(Permanent)
  }

  function ReadBody(call: Call): Outcome<Json> {
    match call
    case TransportFailure => Threw(Temporary)
    case Response(code, json) =>
      if StatusError(code).Some? then Threw(StatusError(code).value)
      else if json.None? then Threw(Permanent) else Got(json.value)
  }

  // ----- The polling loop ---------------------------------------------------------------------

  /** The answers of one `get_result` call: to its k-th status request, and to the last request. */
  datatype Env = Env(status: nat -> Timed, result: Timed)

  /** Neither a poll nor a pause takes no time at all forever. */
  ghost predicate RoundsTakeTime(fal: Fal, env: Env) {
    forall k: nat :: env.status(k).took + fal.pollInterval > 0
  }

  predicate Pending(call: Call) {
    ReadField(call, "status") == Got(Text("IN_QUEUE")) || ReadField(call, "status") == Got(Text("IN_PROGRESS"))
  }

  /** Ticks from the start of the loop to the answer of status request `k`. */
  function AnsweredAt(fal: Fal, env: Env, k: nat): nat {
    (if k == 0 then 0 else AnsweredAt(fal, env, k - 1) + fal.pollInterval) + env.status(k).took
  }

  /** After the answer to request `k` the loop sleeps and polls again. */
  predicate GoesOn(fal: Fal, env: Env, k: nat) {
    Pending(env.status(k).call) && AnsweredAt(fal, env, k) < fal.requestTimeout
  }

  /** Request `last` is the one the loop ends with. */
  ghost predicate EndsWith(fal: Fal, env: Env, last: nat) {
    !GoesOn(fal, env, last) && forall k: nat :: k < last ==> GoesOn(fal, env, k)
  }

  /** What the call returns, and after how many ticks, if its last status request is `last`. */
  function Verdict(fal: Fal, env: Env, last: nat): (Outcome<Json>, nat) {
    var at := AnsweredAt(fal, env, last);
    match ReadField(env.status(last).call, "status")
    case Threw(kind) => (Threw(kind), at)
    case Got(status) =>
      if status == Text("COMPLETED") then (ReadBody(env.result.call), at + env.result.took)
      else if status == Text("IN_QUEUE") || status == Text("IN_PROGRESS") then (Threw(Temporary), at)  // timed out
      else (Threw(if status.Nested? then Unexpected else Permanent), at)  // a list cannot be looked up in a set
  }

  lemma {:induction false} TimePasses(fal: Fal, env: Env, k: nat)
    requires RoundsTakeTime(fal, env)
    ensures AnsweredAt(fal, env, k) >= k
  {
    if k > 0 { TimePasses(fal, env, k - 1); }
  }

  /** `outcome` after `elapsed` ticks is the verdict of the request the loop ends with. */
  ghost predicate Finishes(fal: Fal, env: Env, outcome: Outcome<Json>, elapsed: nat) {
    exists last: nat :: EndsWith(fal, env, last) && Verdict(fal, env, last) == (outcome, elapsed)
  }

  /** Some status answer ends the loop.  Without one the loop goes on forever. */
  ghost predicate Terminates(fal: Fal, env: Env) {
    exists k: nat :: !GoesOn(fal, env, k)
  }

  /** As soon as time passes in every round, the deadline sees to that. */
  lemma DeadlineEnds(fal: Fal, env: Env)
    requires RoundsTakeTime(fal, env)
    ensures Terminates(fal, env)
  {
    TimePasses(fal, env, fal.requestTimeout);
    assert !GoesOn(fal, env, fal.requestTimeout);
  }

  /** `get_result`: ends, with the verdict of the first status answer that is not a timely
      "still pending". */
  method GetResult(fal: Fal, env: Env) returns (outcome: Outcome<Json>, elapsed: nat)
    requires Terminates(fal, env)
    ensures Finishes(fal, env, outcome, elapsed)
  {
    var deadline := fal.requestTimeout;
    var now, k := 0, 0;
    ghost var end: nat :| !GoesOn(fal, env, end);
    while true
      invariant now == if k == 0 then 0 else AnsweredAt(fal, env, k - 1) + fal.pollInterval
      invariant 0 <= k <= end
      invariant forall i: nat :: i < k ==> GoesOn(fal, env, i)
      decreases end - k
    {
      var answer := env.status(k);
      now := now + answer.took;
      assert now == AnsweredAt(fal, env, k);
      var status := ReadField(answer.call, "status");
      if status.Threw? {
        assert EndsWith(fal, env, k);
        return Threw(status.kind), now;
      }
      if status.value == Text("COMPLETED") { break; }
      if status.value != Text("IN_QUEUE") && status.value != Text("IN_PROGRESS") {
        assert EndsWith(fal, env, k);
        return Threw(if status.value.Nested? then Unexpected else Permanent), now;
      }
      if now >= deadline {
        assert EndsWith(fal, env, k);
        return Threw(Temporary), now;
      }
      now := now + fal.pollInterval;
      k := k + 1;
    }
    assert EndsWith(fal, env, k);
    elapsed := now + env.result.took;
    outcome := ReadBody(env.result.call);
  }

  // ----- Outcomes by status code and body ----------------------------------------------------------

  predicate Succeeded(call: Call) { call.Response? && 200 <= call.code <= 299 }

  /** Nobody answered, or an answer that asks to come back later. */
  predicate Unavailable(call: Call) {
    call.TransportFailure? || call.code == 408 || call.code == 409 || call.code == 425 || call.code == 429 || call.code >= 500
  }

  predicate Denied(call: Call) { !Succeeded(call) && !Unavailable(call) }

  predicate HasField(call: Call, key: string) {
    Succeeded(call) && call.json.Some? && call.json.value.Object? && key in call.json.value.fields
  }

  predicate Says(call: Call, status: Value) {
    HasField(call, "status") && call.json.value.fields["status"] == status
  }

  predicate StillPending(call: Call) { Says(call, Text("IN_QUEUE")) || Says(call, Text("IN_PROGRESS")) }

  /** A JSON object is expected: no JSON at all, and an object without the field, are refused. */
  predicate Malformed(call: Call, key: string) {
    Succeeded(call) && (call.json.None? || (call.json.value.Object? && key !in call.json.value.fields))
  }

  /** JSON that is no object breaks the code that reads it. */
  predicate Misshapen(call: Call) { Succeeded(call) && call.json.Some? && call.json.value.OtherJson? }

  /** The duration of the first `n` status calls. */
  function CallTime(env: Env, n: nat): nat {
    if n == 0 then 0 else CallTime(env, n - 1) + env.status(n - 1).took
  }

  lemma {:induction false} AnswerTime(fal: Fal, env: Env, k: nat)
    ensures AnsweredAt(fal, env, k) == CallTime(env, k + 1) + k * fal.pollInterval
  {
    if k > 0 {
      AnswerTime(fal, env, k - 1);
      assert k * fal.pollInterval == (k - 1) * fal.pollInterval + fal.pollInterval;
    }
  }

  /** Answer `k` leaves the request pending, and the timeout has not run out. */
  predicate Waits(fal: Fal, env: Env, k: nat) {
    StillPending(env.status(k).call) && CallTime(env, k + 1) + k * fal.pollInterval < fal.requestTimeout
  }

  /** Answer `last` is the first that the loop does not wait after. */
  ghost predicate StopsAt(fal: Fal, env: Env, last: nat) {
    !Waits(fal, env, last) && forall k: nat :: k < last ==> Waits(fal, env, k)
  }

  lemma WaitingGoesOn(fal: Fal, env: Env, k: nat)
    ensures GoesOn(fal, env, k) <==> Waits(fal, env, k)
  {
    AnswerTime(fal, env, k);
  }

  lemma StopsWhereItEnds(fal: Fal, env: Env, last: nat, end: nat)
    requires StopsAt(fal, env, last) && EndsWith(fal, env, end)
    ensures last == end
  {
    hide GoesOn, Waits;
    WaitingGoesOn(fal, env, last);
    WaitingGoesOn(fal, env, end);
    assert last < end ==> GoesOn(fal, env, last);
    assert end < last ==> Waits(fal, env, end);
  }

  /** What `get_result` returns, by the status codes and bodies of the last status answer and of
      the result, and how long it takes: all its calls, and one pause after each status call but
      the last. */
  ghost predicate OutcomeOf(fal: Fal, env: Env, last: nat, outcome: Outcome<Json>, elapsed: nat) {
    var answer, result := env.status(last).call, env.result.call;
    var done := Says(answer, Text("COMPLETED"));
    var deciding := if done then result else answer;
    && (outcome == Threw(Temporary) <==> Unavailable(deciding) || StillPending(answer))
    && (outcome.Got? <==> done && Succeeded(result) && result.json.Some?)
    && (outcome.Got? ==> outcome.value == result.json.value)
    && (outcome == Threw(Unexpected) <==> Misshapen(answer) || (HasField(answer, "status") && answer.json.value.fields["status"].Nested?))
    && (outcome == Threw(Permanent) <==>
          || Denied(deciding) || Malformed(answer, "status") || (done && Succeeded(result) && result.json.None?)
          || (HasField(answer, "status") && !done && !StillPending(answer) && !answer.json.value.fields["status"].Nested?))
    && elapsed == CallTime(env, last + 1) + last * fal.pollInterval + (if done then env.result.took else 0)
    && (StillPending(answer) ==> elapsed >= fal.requestTimeout)
  }

  lemma VerdictIsOutcome(fal: Fal, env: Env, last: nat)
    requires !GoesOn(fal, env, last)
    ensures var (outcome, elapsed) := Verdict(fal, env, last); OutcomeOf(fal, env, last, outcome, elapsed)
  {
    AnswerTime(fal, env, last);
    hide CallTime;
  }

  lemma EndsWhereItStops(fal: Fal, env: Env, end: nat)
    requires EndsWith(fal, env, end)
    ensures StopsAt(fal, env, end)
  {
    hide GoesOn, Waits;
    WaitingGoesOn(fal, env, end);
    forall k: nat | k < end ensures Waits(fal, env, k) { WaitingGoesOn(fal, env, k); }
  }

  /** The outcomes of `get_result`, each exactly when: there is one answer the loop stops at, and it
      decides. */
  lemma OutcomeExactlyWhen(fal: Fal, env: Env, outcome: Outcome<Json>, elapsed: nat)
    requires Finishes(fal, env, outcome, elapsed)
    ensures exists last: nat :: StopsAt(fal, env, last)
    ensures forall last: nat :: StopsAt(fal, env, last) ==> OutcomeOf(fal, env, last, outcome, elapsed)
  {
    hide StopsAt, OutcomeOf, Verdict, GoesOn;
    var end: nat :| EndsWith(fal, env, end) && Verdict(fal, env, end) == (outcome, elapsed);
    EndsWhereItStops(fal, env, end);
    forall last: nat | StopsAt(fal, env, last) ensures OutcomeOf(fal, env, last, outcome, elapsed) {
      StopsWhereItEnds(fal, env, last, end);
      VerdictIsOutcome(fal, env, end);
    }
  }

  /** `str`. */
  function Spelled(v: Value): string {
    match v
    case Text(text) => text
    case Scalar(repr) => repr
    case Nested(repr) => repr
  }

  /** `submit`: the field `request_id` of the answer, as a string. */
  function SubmitOutcome(call: Call): Outcome<string> {
    match ReadField(call, "request_id")
    case Got(id) => Got(Spelled(id))
    case Threw(kind) => Threw(kind)
  }

  lemma SubmitExactlyWhen(call: Call)
    ensures var outcome := SubmitOutcome(call);
            && (outcome.Got? <==> HasField(call, "request_id"))
            && (forall id :: HasField(call, "request_id") && call.json.value.fields["request_id"] == Text(id) ==> outcome == Got(id))
            && (outcome == Threw(Temporary) <==> Unavailable(call))
            && (outcome == Threw(Permanent) <==> Denied(call) || Malformed(call, "request_id"))
            && (outcome == Threw(Unexpected) <==> Misshapen(call))
  {
  }

  /** What the worker makes of it; `encode` is how documents are stored. */
  function ReplyOf(outcome: Outcome<Json>, encode: Json -> string): Reply {
    match outcome
    case Got(document) => Answer(encode(document))
    case Threw(kind) => Error(kind)
  }

  /** From the status code to the row: a generation whose id is stored goes back to the queue when
      Fal is unavailable or still pending after the timeout, fails and is refunded at once when Fal
      denies it, and completes with the document when Fal says so. */
  lemma StatusCodeDecides(cfg: Config, row: Generation, retries: nat, d: Delivery, fal: Fal, env: Env,
                          outcome: Outcome<Json>, elapsed: nat, last: nat, encode: Json -> string)
    requires O.TurnsTo(cfg, row, "fal") && row.requestId.Some? && d.main.poll == ReplyOf(outcome, encode)
    requires Finishes(fal, env, outcome, elapsed) && StopsAt(fal, env, last)
    ensures var (row', verdict, n) := AfterMessage(cfg, row, retries, d);
            var answer, result := env.status(last).call, env.result.call;
            var done := Says(answer, Text("COMPLETED"));
            && (Unavailable(answer) || StillPending(answer) || (done && Unavailable(result)) ==>
                  if retries < 3 then verdict == RetryLater && O.QueuedWith(row', "temporary_provider_error")
                  else O.FailedWith(row', "temporary_provider_error", d.now))
            && (Denied(answer) || (done && Denied(result)) ==> O.FailedWith(row', "permanent_provider_error", d.now))
            && (done && Succeeded(result) && result.json.Some? ==>
                  O.CompletedWith(row', encode(result.json.value), "fal", row.requestId, d.now))
  {
    OutcomeExactlyWhen(fal, env, outcome, elapsed);
    assert OutcomeOf(fal, env, last, outcome, elapsed);
    hide AfterMessage, Finishes, StopsAt, O.TurnsTo, O.QueuedWith, O.FailedWith, O.CompletedWith, O.TurnsTo;
    match outcome {
      case Got(document) => O.AnswersComplete(cfg, row, retries, d, "fal");
      case Threw(Permanent) => O.RefusalFails(cfg, row, retries, d, "fal");
      case Threw(kind) =>
        if retries < 3 { O.TroubleIsRetried(cfg, row, retries, d, "fal", kind); }
        else { O.LateTroubleFails(cfg, row, retries, d, "fal", kind); }
    }
  }

  // ----- The time it takes ------------------------------------------------------------------------

  ghost predicate CallsWithin(env: Env, d: nat) {
    env.result.took <= d && forall k: nat :: env.status(k).took <= d
  }

  lemma {:induction false} PausesAddUp(fal: Fal, env: Env, k: nat)
    ensures AnsweredAt(fal, env, k) >= k * fal.pollInterval
  {
    if k > 0 {
      PausesAddUp(fal, env, k - 1);
      assert k * fal.pollInterval == (k - 1) * fal.pollInterval + fal.pollInterval;
    }
  }

  /** The pauses before the last poll but one fit the timeout. */
  lemma FewPolls(fal: Fal, env: Env, last: nat)
    requires EndsWith(fal, env, last) && last > 0
    ensures (last - 1) * fal.pollInterval < fal.requestTimeout
  {
    assert GoesOn(fal, env, last - 1);
    PausesAddUp(fal, env, last - 1);
  }

  /** The longest `get_result` can take: one pause and one status call past the deadline, then
      the call for the result. */
  lemma GetResultBound(fal: Fal, env: Env, outcome: Outcome<Json>, elapsed: nat, d: nat)
    requires Finishes(fal, env, outcome, elapsed) && CallsWithin(env, d)
    ensures elapsed <= fal.requestTimeout + fal.pollInterval + 2 * d
  {
    var last: nat :| EndsWith(fal, env, last) && Verdict(fal, env, last) == (outcome, elapsed);
    if last > 0 { assert GoesOn(fal, env, last - 1); }
    assert env.status(last).took <= d;
  }

  // ----- Within the lease, a claim is heard ---------------------------------------------------------

  /** Submit and wait for the result, each call taking at most `d`. */
  function ClaimBudget(fal: Fal, d: nat): nat {
    fal.requestTimeout + fal.pollInterval + 3 * d
  }

  /** The claim of a worker that goes through `submit` and `get_result` without crashing: if the
      budget fits the lease (by default 300 + 2 seconds and three calls, out of 600), then
      whatever everybody else does meanwhile, the token is still current when the worker comes
      back, and each of the writes it may end with is accepted. */
  lemma LiveWorkerIsHeard(cfg: Config, s: Sys, w: nat, t: Token, g: GenerationId, s1: Sys, acts: seq<Action>,
                          fal: Fal, env: Env, outcome: Outcome<Json>, elapsed: nat, submit: Timed, d: nat)
    requires Reachable(cfg, s) && Enabled(cfg, s, Claim(w, t)) && Claims(s, w, g)
    requires s1 == Step(cfg, s, Claim(w, t)) && Valid(cfg, s1, acts) && HolderKeepsClaim(cfg, s1, acts, t)
    requires Finishes(fal, env, outcome, elapsed) && CallsWithin(env, d) && submit.took <= d
    requires ClaimBudget(fal, d) <= cfg.leaseSeconds
    requires Run(cfg, s1, acts).now <= s.now + submit.took + elapsed
    ensures Heard(Run(cfg, s1, acts).db, g, t)
  {
    hide Step, Enabled, Inv, Holds, Run, HolderKeepsClaim, Valid, Heard, Claims, Finishes, CallsWithin;
    GetResultBound(fal, env, outcome, elapsed, d);
    ReachableInv(cfg, s);
    ClaimHolds(cfg, s, w, t, g);
    InvStep(cfg, s, Claim(w, t));
    LiveClaimIsNeverFenced(cfg, s1, acts, g, t, s.now + cfg.leaseSeconds);
    RunKeeps(cfg, s1, acts);
    HolderIsHeard(cfg, Run(cfg, s1, acts), g, t, s.now + cfg.leaseSeconds);
  }

  /** Worker `w` is about to claim the row `g`, and may. */
  predicate Claims(s: Sys, w: nat, g: GenerationId) {
    w in s.workers && s.workers[w].generation == g && g in s.db.generations && Claimable(s.db.generations[g], s.now)
  }

  /** Completing, refunding and giving back all succeed for the holder of `t`. */
  ghost predicate Heard(db: Db, g: GenerationId, t: Token) {
    && (forall result, provider, e, now :: e !in db.callbacks ==> Complete(db, g, t, result, provider, e, now).1 == Wrote)
    && (forall code, e, now :: e !in db.callbacks ==> FailAndRefund(db, g, t, code, e, now).1 == Wrote)
    && (forall code, now :: Requeue(db, g, t, code, now).1)
  }

  lemma ClaimHolds(cfg: Config, s: Sys, w: nat, t: Token, g: GenerationId)
    requires Enabled(cfg, s, Claim(w, t)) && Claims(s, w, g)
    ensures Holds(Step(cfg, s, Claim(w, t)), g, t, s.now + cfg.leaseSeconds)
  {
  }

  lemma CompleteIsHeard(db: Db, g: GenerationId, t: Token, result: string, provider: string, e: EventId, now: int)
    requires TablesInv(db) && Owner(db, g, t) && e !in db.callbacks
    ensures Complete(db, g, t, result, provider, e, now).1 == Wrote
  {
    hide TablesInv, Complete;
    Store.CompletesAs(db, g, t, result, provider, e, now);
  }

  lemma FailIsHeard(db: Db, g: GenerationId, t: Token, code: string, e: EventId, now: int)
    requires TablesInv(db) && Owner(db, g, t) && db.generations[g].refundedAt.None? && e !in db.callbacks
    ensures FailAndRefund(db, g, t, code, e, now).1 == Wrote
  {
    hide TablesInv, FailAndRefund;
    Store.FailsAs(db, g, t, code, e, now);
  }

  lemma HolderIsHeard(cfg: Config, s: Sys, g: GenerationId, t: Token, until: int)
    requires Inv(cfg, s) && Holds(s, g, t, until)
    ensures Heard(s.db, g, t)
  {
    hide Inv, TablesInv, Complete, FailAndRefund;
    var db := s.db;
    HolderRow(cfg, s, g, t);
    forall result, provider, e, now | e !in db.callbacks
      ensures Complete(db, g, t, result, provider, e, now).1 == Wrote
    {
      CompleteIsHeard(db, g, t, result, provider, e, now);
    }
    forall code, e, now | e !in db.callbacks
      ensures FailAndRefund(db, g, t, code, e, now).1 == Wrote
    {
      FailIsHeard(db, g, t, code, e, now);
    }
  }

  lemma HolderRow(cfg: Config, s: Sys, g: GenerationId, t: Token)
    requires Inv(cfg, s) && Owner(s.db, g, t)
    ensures TablesInv(s.db) && s.db.generations[g].refundedAt.None?
  {
    hide Inv, TablesInv;
    JobFacts(cfg, s, g);
    TablesPart(cfg, s);
  }
}
