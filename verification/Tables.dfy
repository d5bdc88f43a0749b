/** The rows of the service's PostgreSQL schema, as values.  Free text that no
    decision depends on (error messages, `last_error`, prompts' contents) is kept
    opaque or left out; every timestamp is a reading of one integer clock. */
module Tables {
  import opened Common

  type UserId = nat
  type GenerationId = nat
  type EventId = nat
  type Token = nat

  datatype Kind = TextToImage | ImageToImage | TextToVideo | ImageToVideo

  /** The fields covered by `request_hash`; two requests have the same hash here
      exactly when they are the same request. */
  datatype Request = Request(
    kind: Kind, prompt: string, sourceUrl: Option<string>,
    callbackUrl: Option<string>, inputParams: string)

  datatype Command = Command(user: UserId, key: string, request: Request)

  datatype Status = Created | Queued | Processing | Completed | Failed

  datatype Generation = Generation(
    user: UserId, key: string, request: Request, cost: int,
    status: Status, result: Option<string>, errorCode: Option<string>,
    provider: Option<string>, requestId: Option<string>,
    token: Option<Token>, startedAt: Option<int>, lease: Option<int>, attempts: nat,
    refundedAt: Option<int>, completedAt: Option<int>, createdAt: int, updatedAt: int)
  {
    predicate Terminal() { status == Completed || status == Failed }

    predicate WantsCallback() { Terminal() && request.callbackUrl.Some? }
  }

  datatype Payment = Payment(user: UserId, amount: int)

  /** A row of `generation_outbox`: a request to publish one `generation.process` message. */
  datatype OutboxEvent = OutboxEvent(
    generation: GenerationId, attempts: nat, createdAt: int, processedAt: Option<int>)

  /** A row of `callback_outbox`: one client webhook to deliver. */
  datatype CallbackEvent = CallbackEvent(
    generation: GenerationId, attempts: nat, nextAttemptAt: int, reservedUntil: Option<int>,
    inFlightUntil: Option<int>, claimToken: Option<Token>, deliveredAt: Option<int>)

  datatype Db = Db(
    balances: map<UserId, int>,
    payments: map<string, Payment>,
    generations: map<GenerationId, Generation>,
    outbox: map<EventId, OutboxEvent>,
    callbacks: map<EventId, CallbackEvent>)

  const EmptyDb := Db(map[], map[], map[], map[], map[])
}
