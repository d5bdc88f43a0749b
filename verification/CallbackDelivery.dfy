/** Delivery of client webhooks: the transactions on `callback_outbox` and the state machine
    of dispatchers and delivery tasks around them, running beside the paid-job protocol. */
module CallbackDelivery {
  import opened Common
  import opened Tables
  import opened Transactions
  import J = JobSystem

  const MAX_ATTEMPTS := 5
  const RETRY_DELAY := 15
  const RESERVATION := 30

  type Rows = map<EventId, CallbackEvent>

  // ----- Transactions on callback rows (tasks.py) ---------------------------------------------

  predicate Passed(until: Option<int>, now: int) { until.None? || until.value < now }

  predicate Due(row: CallbackEvent, now: int) {
    && row.deliveredAt.None? && row.attempts < MAX_ATTEMPTS && row.nextAttemptAt <= now
    && Passed(row.inFlightUntil, now)
  }

  function DueRows(rows: Rows, now: int): map<EventId, int> {
    map e | e in rows && Due(rows[e], now) && Passed(rows[e].reservedUntil, now) :: rows[e].nextAttemptAt
  }

  function Reserved(row: CallbackEvent, now: int): CallbackEvent {
    row.(reservedUntil := Some(now + RESERVATION))
  }

  function Unreserved(row: CallbackEvent): CallbackEvent { row.(reservedUntil := None) }

  function ClaimedDelivery(row: CallbackEvent, t: Token, now: int, leaseSeconds: int): CallbackEvent {
    row.(attempts := row.attempts + 1, claimToken := Some(t), inFlightUntil := Some(now + leaseSeconds), reservedUntil := None)
  }

  function Reported(row: CallbackEvent, delivered: bool, now: int): CallbackEvent {
    var free := row.(claimToken := None, inFlightUntil := None, reservedUntil := None);
    if delivered then free.(deliveredAt := Some(now)) else free.(nextAttemptAt := now + RETRY_DELAY)
  }

  function ClaimDelivery(rows: Rows, e: EventId, t: Token, now: int, leaseSeconds: int): (Rows, Option<GenerationId>) {
    if e in rows && Due(rows[e], now)
    then (rows[e := ClaimedDelivery(rows[e], t, now, leaseSeconds)], Some(rows[e].generation))
    else (rows, None)
  }

  function FinishDelivery(rows: Rows, e: EventId, t: Token, delivered: bool, now: int): (Rows, bool) {
    if e in rows && rows[e].claimToken == Some(t)
    then (rows[e := Reported(rows[e], delivered, now)], true)
    else (rows, false)
  }

  /** How the transaction of one event of a callback batch goes. */
  datatype Sending = Sent | SendFailed | CommitFailed | SendLost | Locked

  /** All but the end of the dispatcher itself. */
  type LiveSending = o: Sending | o != SendLost witness Sent

  predicate Accepts(o: LiveSending) { o == Sent || o == CommitFailed }

  /** The loop of the callback dispatcher under the clock reading `now` of its start. */
  function ReserveEvents(rows: Rows, ids: seq<EventId>, fate: EventId -> LiveSending, now: int): (Rows, seq<EventId>)
    decreases |ids|
  {
    if ids == [] then (rows, [])
    else
      var (before, sent) := ReserveEvents(rows, ids[..|ids| - 1], fate, now);
      ReserveOne(before, sent, ids[|ids| - 1], fate, now)
  }

  function ReserveOne(rows: Rows, sent: seq<EventId>, e: EventId, fate: EventId -> LiveSending, now: int): (Rows, seq<EventId>) {
    if e !in DueRows(rows, now) || fate(e) == Locked then (rows, sent)
    else
      (rows[e := if fate(e) == Sent then Reserved(rows[e], now) else Unreserved(rows[e])],
       if Accepts(fate(e)) then sent + [e] else sent)
  }

  /** The events whose delivery tasks the broker accepted, in the order of the batch. */
  function AcceptedIds(ids: seq<EventId>, fate: EventId -> LiveSending): seq<EventId>
    decreases |ids|
  {
    if ids == [] then []
    else AcceptedIds(ids[..|ids| - 1], fate) + if Accepts(fate(ids[|ids| - 1])) then [ids[|ids| - 1]] else []
  }

  function RowAfter(row: CallbackEvent, selected: bool, o: LiveSending, now: int): CallbackEvent {
    if !selected || o == Locked then row
    else if o == Sent then Reserved(row, now)
    else Unreserved(row)
  }

  /** The batch, read off row by row: sent events are reserved, failed ones lose their
      reservation, locked and other rows are left alone, and the accepted events are announced
      in the order of the batch. */
  ghost predicate ReserveEffect(rows: Rows, ids: seq<EventId>, fate: EventId -> LiveSending, now: int, rows': Rows, sent: seq<EventId>) {
    && rows'.Keys == rows.Keys
    && (forall e :: e in rows ==> rows'[e] == RowAfter(rows[e], e in ids, fate(e), now))
    && sent == AcceptedIds(ids, fate)
  }

  lemma {:induction false} BatchReserves(rows: Rows, ids: seq<EventId>, fate: EventId -> LiveSending, now: int)
    requires NoDup(ids) && forall e :: e in ids ==> e in DueRows(rows, now)
    ensures var (rows', sent) := ReserveEvents(rows, ids, fate, now);
            ReserveEffect(rows, ids, fate, now, rows', sent)
    decreases |ids|
  {
    if ids != [] {
      var front, e := ids[..|ids| - 1], ids[|ids| - 1];
      assert ids == front + [e];
      assert e in DueRows(rows, now) && e !in front;
      BatchReserves(rows, front, fate, now);
      var (mid, sent) := ReserveEvents(rows, front, fate, now);
      assert mid[e] == rows[e];
      assert e in DueRows(mid, now);
      assert forall x :: x in ids <==> x in front || x == e;
    }
  }

  // ----- What is sent ------------------------------------------------------------------------------

  datatype Payload = Payload(generation: GenerationId, status: Status, result: Option<string>, error: Option<Option<string>>)

  function PayloadOf(g: GenerationId, row: Generation): Payload {
    Payload(g, row.status, row.result, if row.status == Failed then Some(row.errorCode) else None)
  }

  // ----- The state machine ----------------------------------------------------------------------------

  datatype Errand =
    | Waiting
    | Reading(generation: GenerationId, token: Token)
    | Posting(token: Token, payload: Payload)
    | Reporting(token: Token, delivered: bool)
  {
    function Held(): Option<Token> { if Waiting? then None else Some(token) }
  }

  datatype Courier = Courier(event: EventId, errand: Errand)

  /** A dispatcher keeps the clock reading of the start of its batch. */
  datatype Round = Round(started: int, ids: seq<EventId>)

  datatype DeliveryGrant = DeliveryGrant(token: Token, at: int, until: int)

  datatype Post = Post(token: Token, payload: Payload, at: int, success: bool)

  /** What happened to one event: its claims, its POSTs and whether they succeeded, and
      when a claim's failure was recorded. */
  datatype Log = Log(grants: seq<DeliveryGrant>, posts: seq<Post>, failures: map<Token, int>)

  const NoLog := Log([], [], map[])

  datatype World = World(
    job: J.Sys, mail: multiset<EventId>, rounds: map<nat, Round>,
    couriers: map<nat, Courier>, tokens: set<Token>, logs: map<EventId, Log>)

  const Init := World(J.Init, multiset{}, map[], map[], {}, map[])

  function LogOf(w: World, e: EventId): Log {
    if e in w.logs then w.logs[e] else NoLog
  }

  datatype Act =
    | Job(a: J.Action)
    | LoseMail(e: EventId)
    | CopyMail(e: EventId)
    | SelectDue(disp: nat, ids: seq<EventId>)
    | ReserveNext(disp: nat, outcome: Sending)
    | StopRound(disp: nat)
    | Receive(c: nat, e: EventId)
    | Claim(c: nat, t: Token)
    | Read(c: nat)
    | PostOnce(c: nat, success: bool)
    | Report(c: nat)
    | Die(c: nat)

  function SetRows(w: World, rows: Rows): World { w.(job := w.job.(db := w.job.db.(callbacks := rows))) }

  function SetCourier(w: World, c: nat, v: Courier): World { w.(couriers := w.couriers[c := v]) }

  function DropCourier(w: World, c: nat): World { w.(couriers := w.couriers - {c}) }

  /** One event of a dispatcher's batch: checked again under the batch's own clock reading,
      reserved and published; a failed publication is undone and the reservation cleared. */
  function DoReserve(w: World, disp: nat, outcome: Sending): World
    requires disp in w.rounds && w.rounds[disp].ids != []
  {
    var round := w.rounds[disp];
    var e := round.ids[0];
    var rows := w.job.db.callbacks;
    var rest := w.(rounds := w.rounds[disp := round.(ids := round.ids[1..])]);
    if e !in DueRows(rows, round.started) || outcome == Locked then rest
    else
      var sent := w.mail + multiset{e};
      match outcome
      case Sent => SetRows(rest, rows[e := Reserved(rows[e], round.started)]).(mail := sent)
      case SendFailed => SetRows(rest, rows[e := Unreserved(rows[e])])
      case CommitFailed => SetRows(rest, rows[e := Unreserved(rows[e])]).(mail := sent)
      case SendLost => w.(rounds := w.rounds - {disp}, mail := sent)
      case Locked => rest
  }

  function DoClaim(leaseSeconds: int, w: World, c: nat, t: Token): World
    requires c in w.couriers
  {
    var e := w.couriers[c].event;
    var now := w.job.now;
    var (rows, claimed) := ClaimDelivery(w.job.db.callbacks, e, t, now, leaseSeconds);
    var w1 := w.(tokens := w.tokens + {t});
    if claimed.None? then DropCourier(w1, c)
    else
      var log := LogOf(w, e);
      var grant := DeliveryGrant(t, now, now + leaseSeconds);
      SetCourier(SetRows(w1.(logs := w1.logs[e := log.(grants := log.grants + [grant])]), rows),
                 c, Courier(e, Reading(claimed.value, t)))
  }

  function DoRead(w: World, c: nat): World
    requires c in w.couriers && w.couriers[c].errand.Reading?
  {
    var v := w.couriers[c];
    var g, gens := v.errand.generation, w.job.db.generations;
    SetCourier(w, c, v.(errand :=
      if g in gens && gens[g].Terminal() && gens[g].request.callbackUrl.Some?
      then Posting(v.errand.token, PayloadOf(g, gens[g]))
      else Reporting(v.errand.token, false)))
  }

  function DoPost(w: World, c: nat, success: bool): World
    requires c in w.couriers && w.couriers[c].errand.Posting?
  {
    var v := w.couriers[c];
    var log := LogOf(w, v.event);
    var post := Post(v.errand.token, v.errand.payload, w.job.now, success);
    SetCourier(w.(logs := w.logs[v.event := log.(posts := log.posts + [post])]),
               c, v.(errand := Reporting(v.errand.token, success)))
  }

  function DoReport(w: World, c: nat): World
    requires c in w.couriers && w.couriers[c].errand.Reporting?
  {
    var v := w.couriers[c];
    var t := v.errand.token;
    var (rows, done) := FinishDelivery(w.job.db.callbacks, v.event, t, v.errand.delivered, w.job.now);
    var log := LogOf(w, v.event);
    var w1 := if done then SetRows(w, rows) else w;
    var w2 := if done && !v.errand.delivered
              then w1.(logs := w1.logs[v.event := log.(failures := log.failures[t := w.job.now])]) else w1;
    DropCourier(w2, c)
  }

  ghost predicate Enabled(cfg: J.Config, w: World, a: Act) {
    match a
    case Job(b) => !b.Courier? && J.Enabled(cfg, w.job, b)
    case LoseMail(e) => e in w.mail
    case CopyMail(e) => e in w.mail
    case SelectDue(disp, ids) =>
      disp !in w.rounds && IsBatch(DueRows(w.job.db.callbacks, w.job.now), cfg.batchLimit, ids)
    case ReserveNext(disp, _) => disp in w.rounds && w.rounds[disp].ids != []
    case StopRound(disp) => disp in w.rounds
    case Receive(c, e) => c !in w.couriers && e in w.mail
    case Claim(c, t) => c in w.couriers && w.couriers[c].errand.Waiting? && t !in w.tokens
    case Read(c) => c in w.couriers && w.couriers[c].errand.Reading?
    case PostOnce(c, _) => c in w.couriers && w.couriers[c].errand.Posting?
    case Report(c) => c in w.couriers && w.couriers[c].errand.Reporting?
    case Die(c) => c in w.couriers
  }

  ghost function Step(cfg: J.Config, leaseSeconds: int, w: World, a: Act): World
    requires Enabled(cfg, w, a)
  {
    match a
    case Job(b) => w.(job := J.Step(cfg, w.job, b))
    case LoseMail(e) => w.(mail := w.mail - multiset{e})
    case CopyMail(e) => w.(mail := w.mail + multiset{e})
    case SelectDue(disp, ids) => w.(rounds := w.rounds[disp := Round(w.job.now, ids)])
    case ReserveNext(disp, outcome) => DoReserve(w, disp, outcome)
    case StopRound(disp) => w.(rounds := w.rounds - {disp})
    case Receive(c, e) => SetCourier(w, c, Courier(e, Waiting))
    case Claim(c, t) => DoClaim(leaseSeconds, w, c, t)
    case Read(c) => DoRead(w, c)
    case PostOnce(c, success) => DoPost(w, c, success)
    case Report(c) => DoReport(w, c)
    case Die(c) => DropCourier(w, c)
  }

  ghost predicate Valid(cfg: J.Config, leaseSeconds: int, w: World, acts: seq<Act>)
    decreases |acts|
  {
    acts == [] || (Enabled(cfg, w, acts[0]) && Valid(cfg, leaseSeconds, Step(cfg, leaseSeconds, w, acts[0]), acts[1..]))
  }

  ghost function Run(cfg: J.Config, leaseSeconds: int, w: World, acts: seq<Act>): World
    requires Valid(cfg, leaseSeconds, w, acts)
    decreases |acts|
  {
    if acts == [] then w else Run(cfg, leaseSeconds, Step(cfg, leaseSeconds, w, acts[0]), acts[1..])
  }

  ghost predicate Reachable(cfg: J.Config, leaseSeconds: int, w: World) {
    exists acts :: Valid(cfg, leaseSeconds, Init, acts) && Run(cfg, leaseSeconds, Init, acts) == w
  }
}
