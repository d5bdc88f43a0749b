/** Webhooks get through: what is on record as delivered was delivered, a failed delivery is tried
    again after the retry delay, and from every reachable state every delivery that is still open
    can use all the attempts it has left. */
module WebhookRecovery {
  import opened Common
  import opened Tables
  import opened Transactions
  import J = JobSystem
  import R = Recovery
  import P = Providers
  import Q = Queueing
  import G = JobGuarantees
  import opened TableInvariant
  import opened CallbackDelivery
  import opened CallbackInvariant

  // ----- Records are true ------------------------------------------------------------------------

  /** The POST under the claim `t` succeeded. */
  ghost predicate SuccessUnder(log: Log, t: Token) {
    exists i :: 0 <= i < |log.posts| && log.posts[i].token == t && log.posts[i].success
  }

  ghost predicate SuccessBy(log: Log, time: int) {
    exists i :: 0 <= i < |log.posts| && log.posts[i].success && log.posts[i].at <= time
  }

  /** A recorded delivery had a successful POST, and a recorded failure had none. */
  ghost predicate RecordsTrue(row: CallbackEvent, log: Log) {
    && (row.deliveredAt.Some? ==> SuccessBy(log, row.deliveredAt.value))
    && (forall t :: t in log.failures ==> !SuccessUnder(log, t))
  }

  /** A task is about to report what its POST came to. */
  ghost predicate Honest(p: Errand, log: Log) {
    p.Reporting? ==> (p.delivered <==> SuccessUnder(log, p.token))
  }

  ghost predicate Truthful(w: World) {
    && (forall e :: e in w.job.db.callbacks ==> RecordsTrue(w.job.db.callbacks[e], LogOf(w, e)))
    && (forall c :: c in w.couriers ==> Honest(w.couriers[c].errand, LogOf(w, w.couriers[c].event)))
  }

  // ----- Nothing waits for long --------------------------------------------------------------------

  /** The first attempt is due at once and any other within fifteen seconds; a lease ends after
      its time and a reservation after thirty seconds; without a claim nothing is in flight. */
  ghost predicate RowTimely(lease: int, row: CallbackEvent, now: int) {
    && row.nextAttemptAt <= now + 15
    && (row.attempts == 0 ==> row.nextAttemptAt <= now && row.claimToken.None?)
    && (row.claimToken.None? ==> row.inFlightUntil.None?)
    && (row.inFlightUntil.Some? ==> row.inFlightUntil.value <= now + lease)
    && (row.reservedUntil.Some? ==> row.reservedUntil.value <= now + 30)
  }

  ghost predicate Timely(lease: int, w: World) {
    && (forall e :: e in w.job.db.callbacks ==> RowTimely(lease, w.job.db.callbacks[e], w.job.now))
    && (forall disp :: disp in w.rounds ==> w.rounds[disp].started <= w.job.now)
  }

  ghost predicate WebhookInv(cfg: J.Config, lease: int, w: World) {
    WorldInv(cfg, lease, w) && Timely(lease, w) && Truthful(w)
  }

  // ----- What a step does to logs, tasks and rounds ----------------------------------------------------

  ghost predicate LogMoves(w: World, a: Act, e: EventId, log: Log, log': Log) {
    || (log'.posts == log.posts && log'.failures == log.failures
        && !(a.PostOnce? && a.c in w.couriers && w.couriers[a.c].event == e))
    || (a.PostOnce? && a.c in w.couriers && w.couriers[a.c].event == e && w.couriers[a.c].errand.Posting?
        && var p := w.couriers[a.c].errand;
           log' == log.(posts := log.posts + [Post(p.token, p.payload, w.job.now, a.success)]))
    || (a.Report? && a.c in w.couriers && w.couriers[a.c].event == e && w.couriers[a.c].errand.Reporting?
        && !w.couriers[a.c].errand.delivered
        && log' == log.(failures := log.failures[w.couriers[a.c].errand.token := w.job.now]))
  }

  lemma ClaimLogs(lease: int, w: World, c: nat, t: Token, e: EventId)
    requires c in w.couriers
    ensures var log, log' := LogOf(w, e), LogOf(DoClaim(lease, w, c, t), e); log'.posts == log.posts && log'.failures == log.failures
  {
    hide Due, ClaimedDelivery;
  }

  lemma ReportLogs(w: World, c: nat, e: EventId)
    requires c in w.couriers && w.couriers[c].errand.Reporting?
    ensures var log, log' := LogOf(w, e), LogOf(DoReport(w, c), e);
            log' == log || (w.couriers[c].event == e && !w.couriers[c].errand.delivered
                            && log' == log.(failures := log.failures[w.couriers[c].errand.token := w.job.now]))
  {
    hide Reported;
  }

  lemma EveryLogMove(cfg: J.Config, lease: int, w: World, a: Act, e: EventId)
    requires Enabled(cfg, w, a)
    ensures LogMoves(w, a, e, LogOf(w, e), LogOf(Step(cfg, lease, w, a), e))
  {
    hide J.Enabled, J.Step, IsBatch, DueRows, PayloadOf, DoReserve, DoClaim, DoReport, DoRead;
    if a.ReserveNext? { ReservedRows(w, a.disp, a.outcome); }
    else if a.Claim? { ClaimLogs(lease, w, a.c, a.t, e); }
    else if a.Report? { ReportLogs(w, a.c, e); }
    else if a.Read? { ReadLogs(w, a.c); }
  }

  lemma ReadLogs(w: World, c: nat)
    requires c in w.couriers && w.couriers[c].errand.Reading?
    ensures DoRead(w, c).logs == w.logs
  {
    hide PayloadOf;
  }

  ghost predicate TaskMoves(w: World, a: Act, c: nat, v: Courier) {
    || (c in w.couriers && v == w.couriers[c])
    || !v.errand.Reporting?
    || (a.PostOnce? && a.c == c && c in w.couriers && w.couriers[c].errand.Posting?
        && v == Courier(w.couriers[c].event, Reporting(w.couriers[c].errand.token, a.success)))
  }

  lemma EveryTaskMove(cfg: J.Config, lease: int, w: World, a: Act, c: nat)
    requires WorldInv(cfg, lease, w) && Enabled(cfg, w, a) && c in Step(cfg, lease, w, a).couriers
    ensures TaskMoves(w, a, c, Step(cfg, lease, w, a).couriers[c])
  {
    hide WorldInv, J.Enabled, J.Step, IsBatch, DueRows, PayloadOf, ClaimDelivery, FinishDelivery, DoReserve, DoRead, LogOf;
    if a.ReserveNext? { ReservedRows(w, a.disp, a.outcome); }
    if a.Read? && a.c == c { ReadFindsPayload(cfg, lease, w, c); }
    if a.Read? && a.c != c { ReadOthers(w, a.c, c); }
  }

  lemma ReadOthers(w: World, c: nat, d: nat)
    requires c in w.couriers && w.couriers[c].errand.Reading? && d != c
    ensures d in DoRead(w, c).couriers <==> d in w.couriers
    ensures d in w.couriers ==> DoRead(w, c).couriers[d] == w.couriers[d]
  {
    hide PayloadOf;
  }

  // ----- Records stay true -----------------------------------------------------------------------------

  lemma MorePosts(log: Log, post: Post, t: Token)
    ensures SuccessUnder(log.(posts := log.posts + [post]), t) <==> SuccessUnder(log, t) || (post.token == t && post.success)
    ensures forall time :: SuccessBy(log, time) ==> SuccessBy(log.(posts := log.posts + [post]), time)
  {
    var log' := log.(posts := log.posts + [post]);
    if SuccessUnder(log, t) {
      var i :| 0 <= i < |log.posts| && log.posts[i].token == t && log.posts[i].success;
      assert log'.posts[i] == log.posts[i];
    }
    if post.token == t && post.success { assert log'.posts[|log.posts|] == post; }
    if SuccessUnder(log', t) {
      var i :| 0 <= i < |log'.posts| && log'.posts[i].token == t && log'.posts[i].success;
      assert i < |log.posts| ==> log.posts[i] == log'.posts[i];
    }
    forall time | SuccessBy(log, time) ensures SuccessBy(log', time) {
      var i :| 0 <= i < |log.posts| && log.posts[i].success && log.posts[i].at <= time;
      assert log'.posts[i] == log.posts[i];
    }
  }

  lemma SamePosts(log: Log, log': Log)
    requires log'.posts == log.posts
    ensures forall t :: SuccessUnder(log', t) <==> SuccessUnder(log, t)
    ensures forall time :: SuccessBy(log', time) <==> SuccessBy(log, time)
  {
  }

  /** Whoever posts has not posted before, and no failure is on record for its claim. */
  lemma PosterIsFresh(cfg: J.Config, lease: int, w: World, c: nat)
    requires WorldInv(cfg, lease, w) && c in w.couriers && w.couriers[c].errand.Posting?
    ensures w.couriers[c].errand.token !in LogOf(w, w.couriers[c].event).failures
    ensures forall d :: d in w.couriers && d != c ==> w.couriers[d].errand.Held() != Some(w.couriers[c].errand.token)
  {
    hide Inv, EventOk, PayloadOf, HasPosted;
    assert CourierOk(w, w.couriers[c]);
  }

  lemma PostsArePast(cfg: J.Config, lease: int, w: World, e: EventId)
    requires WorldInv(cfg, lease, w) && e in w.job.db.callbacks
    ensures forall t :: SuccessUnder(LogOf(w, e), t) ==> SuccessBy(LogOf(w, e), w.job.now)
  {
    EventFacts(cfg, lease, w, e);
    hide WorldInv, ClaimsOk, PostsOk;
  }

  lemma ReporterKnows(w: World, c: nat)
    requires Truthful(w) && c in w.couriers && w.couriers[c].errand.Reporting?
    ensures w.couriers[c].errand.delivered <==> SuccessUnder(LogOf(w, w.couriers[c].event), w.couriers[c].errand.token)
  {
    assert Honest(w.couriers[c].errand, LogOf(w, w.couriers[c].event));
  }

  lemma RecordStays(cfg: J.Config, lease: int, w: World, a: Act, e: EventId)
    requires WorldInv(cfg, lease, w) && Truthful(w) && Enabled(cfg, w, a) && e in w.job.db.callbacks
    ensures var w' := Step(cfg, lease, w, a);
            e in w'.job.db.callbacks && RecordsTrue(w'.job.db.callbacks[e], LogOf(w', e))
  {
    hide WorldInv, Enabled, Step, Due, LogOf, SuccessUnder, SuccessBy, Honest;
    EveryCallbackMove(cfg, lease, w, a, e);
    EveryLogMove(cfg, lease, w, a, e);
    PostsArePast(cfg, lease, w, e);
    var log, log' := LogOf(w, e), LogOf(Step(cfg, lease, w, a), e);
    assert RecordsTrue(w.job.db.callbacks[e], log);
    if a.Report? && a.c in w.couriers && w.couriers[a.c].errand.Reporting? { ReporterKnows(w, a.c); }
    if log'.posts == log.posts {
      SamePosts(log, log');
    } else {
      var p := w.couriers[a.c].errand;
      PosterIsFresh(cfg, lease, w, a.c);
      var post := Post(p.token, p.payload, w.job.now, a.success);
      MorePosts(log, post, p.token);
      forall t | t in log.failures ensures !SuccessUnder(log', t) { MorePosts(log, post, t); }
    }
  }

  lemma HonestStays(cfg: J.Config, lease: int, w: World, a: Act, c: nat)
    requires WorldInv(cfg, lease, w) && Truthful(w) && Enabled(cfg, w, a) && c in Step(cfg, lease, w, a).couriers
    ensures var w' := Step(cfg, lease, w, a); Honest(w'.couriers[c].errand, LogOf(w', w'.couriers[c].event))
  {
    hide WorldInv, Enabled, Step, LogOf, SuccessUnder, SuccessBy, RecordsTrue;
    var v := Step(cfg, lease, w, a).couriers[c];
    EveryTaskMove(cfg, lease, w, a, c);
    EveryLogMove(cfg, lease, w, a, v.event);
    if v.errand.Reporting? {
      var log, log' := LogOf(w, v.event), LogOf(Step(cfg, lease, w, a), v.event);
      assert c in w.couriers;
      if log'.posts == log.posts {
        SamePosts(log, log');
        assert v == w.couriers[c];
      } else {
        var p := w.couriers[a.c].errand;
        PosterIsFresh(cfg, lease, w, a.c);
        MorePosts(log, Post(p.token, p.payload, w.job.now, a.success), v.errand.token);
        NotYetPosted(cfg, lease, w, a.c);
      }
    }
  }

  lemma NotYetPosted(cfg: J.Config, lease: int, w: World, c: nat)
    requires WorldInv(cfg, lease, w) && c in w.couriers && w.couriers[c].errand.Posting?
    ensures !SuccessUnder(LogOf(w, w.couriers[c].event), w.couriers[c].errand.token)
  {
    hide Inv, EventOk, PayloadOf;
    assert CourierOk(w, w.couriers[c]);
  }

  // ----- The invariant ---------------------------------------------------------------------------------

  lemma NewEvent(cfg: J.Config, lease: int, w: World, a: Act, e: EventId)
    requires WorldInv(cfg, lease, w) && Enabled(cfg, w, a)
    requires e in Step(cfg, lease, w, a).job.db.callbacks && e !in w.job.db.callbacks
    ensures var w' := Step(cfg, lease, w, a);
            LogOf(w', e) == NoLog && exists g :: w'.job.db.callbacks[e] == NewCallback(g, w.job.now)
  {
    if a.Job? {
      WorldJob(cfg, lease, w);
      assert e !in w.logs;
      hide WorldInv, J.Enabled, J.Step;
      JobEvents(cfg, w.job, a.a, e);
    } else {
      hide Step, Enabled, WorldInv;
      DeliveryFrame(cfg, lease, w, a);
    }
  }

  lemma TruthfulStep(cfg: J.Config, lease: int, w: World, a: Act)
    requires WorldInv(cfg, lease, w) && Truthful(w) && Enabled(cfg, w, a)
    ensures Truthful(Step(cfg, lease, w, a))
  {
    hide WorldInv, Enabled, Step, RecordsTrue, Honest, LogOf;
    var w' := Step(cfg, lease, w, a);
    forall e | e in w'.job.db.callbacks ensures RecordsTrue(w'.job.db.callbacks[e], LogOf(w', e)) {
      if e in w.job.db.callbacks {
        RecordStays(cfg, lease, w, a, e);
      } else {
        NewEvent(cfg, lease, w, a, e);
        NewRecord(w'.job.db.callbacks[e], w.job.now);
      }
    }
    forall c | c in w'.couriers ensures Honest(w'.couriers[c].errand, LogOf(w', w'.couriers[c].event)) {
      HonestStays(cfg, lease, w, a, c);
    }
  }

  lemma NewRecord(row: CallbackEvent, now: int)
    requires exists g :: row == NewCallback(g, now)
    ensures RecordsTrue(row, NoLog)
  {
  }

  lemma TimePasses(cfg: J.Config, lease: int, w: World, a: Act)
    requires Enabled(cfg, w, a)
    ensures Step(cfg, lease, w, a).job.now >= w.job.now
  {
    if a.Job? {
      JobIsItself(cfg, lease, w, a);
      F.ClockAdvances(cfg, w.job, a.a);
      hide Step, J.Step, J.Enabled, Enabled;
    } else {
      hide Step, Enabled;
      DeliveryFrame(cfg, lease, w, a);
    }
  }

  lemma RoundsStep(cfg: J.Config, lease: int, w: World, a: Act, disp: nat)
    requires Enabled(cfg, w, a) && disp in Step(cfg, lease, w, a).rounds
    ensures var w' := Step(cfg, lease, w, a);
            w'.rounds[disp].started == w.job.now || (disp in w.rounds && w'.rounds[disp].started == w.rounds[disp].started)
  {
    hide J.Enabled, J.Step, IsBatch, DueRows, PayloadOf, LogOf, DoClaim, DoReport, DoRead;
    if a.Claim? { ClaimRounds(lease, w, a.c, a.t); }
    else if a.Report? { ReportRounds(w, a.c); }
    else if a.Read? { ReadRounds(w, a.c); }
  }

  lemma ClaimRounds(lease: int, w: World, c: nat, t: Token)
    requires c in w.couriers
    ensures DoClaim(lease, w, c, t).rounds == w.rounds
  {
    hide Due, LogOf;
  }

  lemma ReportRounds(w: World, c: nat)
    requires c in w.couriers && w.couriers[c].errand.Reporting?
    ensures DoReport(w, c).rounds == w.rounds
  {
    hide Reported, LogOf;
  }

  lemma ReadRounds(w: World, c: nat)
    requires c in w.couriers && w.couriers[c].errand.Reading?
    ensures DoRead(w, c).rounds == w.rounds
  {
    hide PayloadOf;
  }

  lemma MoveIsTimely(lease: int, w: World, a: Act, e: EventId, row: CallbackEvent, row': CallbackEvent, now: int)
    requires CallbackMoves(lease, w, a, e, row, row') && RowTimely(lease, row, w.job.now) && w.job.now <= now
    requires forall disp :: disp in w.rounds ==> w.rounds[disp].started <= w.job.now
    ensures RowTimely(lease, row', now)
  {
    hide Due, Passed;
  }

  lemma TimelyStep(cfg: J.Config, lease: int, w: World, a: Act)
    requires WorldInv(cfg, lease, w) && Timely(lease, w) && Enabled(cfg, w, a)
    ensures Timely(lease, Step(cfg, lease, w, a))
  {
    hide WorldInv, Enabled, Step, RowTimely, CallbackMoves;
    var w' := Step(cfg, lease, w, a);
    TimePasses(cfg, lease, w, a);
    forall e | e in w'.job.db.callbacks ensures RowTimely(lease, w'.job.db.callbacks[e], w'.job.now) {
      if e in w.job.db.callbacks {
        EveryCallbackMove(cfg, lease, w, a, e);
        MoveIsTimely(lease, w, a, e, w.job.db.callbacks[e], w'.job.db.callbacks[e], w'.job.now);
      } else {
        NewEvent(cfg, lease, w, a, e);
        NewIsTimely(lease, w'.job.db.callbacks[e], w.job.now, w'.job.now);
      }
    }
    forall disp | disp in w'.rounds ensures w'.rounds[disp].started <= w'.job.now { RoundsStep(cfg, lease, w, a, disp); }
  }

  lemma NewIsTimely(lease: int, row: CallbackEvent, created: int, now: int)
    requires (exists g :: row == NewCallback(g, created)) && created <= now
    ensures RowTimely(lease, row, now)
  {
  }

  lemma WebhookStep(cfg: J.Config, lease: int, w: World, a: Act)
    requires WebhookInv(cfg, lease, w) && Enabled(cfg, w, a)
    ensures WebhookInv(cfg, lease, Step(cfg, lease, w, a))
  {
    hide WorldInv, Timely, Truthful, Enabled, Step;
    WorldStep(cfg, lease, w, a);
    TimelyStep(cfg, lease, w, a);
    TruthfulStep(cfg, lease, w, a);
  }

  lemma {:induction false} WebhookRun(cfg: J.Config, lease: int, w: World, acts: seq<Act>)
    requires WebhookInv(cfg, lease, w) && Valid(cfg, lease, w, acts)
    ensures WebhookInv(cfg, lease, Run(cfg, lease, w, acts))
    decreases |acts|
  {
    hide WebhookInv, Step, Enabled;
    if acts != [] {
      WebhookStep(cfg, lease, w, acts[0]);
      WebhookRun(cfg, lease, Step(cfg, lease, w, acts[0]), acts[1..]);
    }
  }

  lemma WebhookReachable(cfg: J.Config, lease: int, w: World)
    requires Reachable(cfg, lease, w)
    ensures WebhookInv(cfg, lease, w)
  {
    var acts :| Valid(cfg, lease, Init, acts) && Run(cfg, lease, Init, acts) == w;
    WorldInit(cfg, lease);
    assert WebhookInv(cfg, lease, Init);
    hide WebhookInv;
    WebhookRun(cfg, lease, Init, acts);
  }

  // ----- Runs that get a webhook through ------------------------------------------------------------------

  /** Time passes, the dispatcher's publications succeed, tasks run to their end. */
  predicate Ordinary(a: Act) {
    || (a.Job? && a.a.Tick?) || a.SelectDue? || (a.ReserveNext? && a.outcome == Sent)
    || a.Receive? || a.Claim? || a.Read? || a.PostOnce? || a.Report?
  }

  ghost predicate Leads(cfg: J.Config, lease: int, w: World, acts: seq<Act>, w': World) {
    && Valid(cfg, lease, w, acts) && Run(cfg, lease, w, acts) == w'
    && forall i :: 0 <= i < |acts| ==> Ordinary(acts[i])
  }

  lemma {:induction false} RunAppend(cfg: J.Config, lease: int, w: World, a: seq<Act>, b: seq<Act>)
    requires Valid(cfg, lease, w, a) && Valid(cfg, lease, Run(cfg, lease, w, a), b)
    ensures Valid(cfg, lease, w, a + b)
    ensures Run(cfg, lease, w, a + b) == Run(cfg, lease, Run(cfg, lease, w, a), b)
    decreases |a|
  {
    hide Step, Enabled;
    if a == [] {
      assert a + b == b;
    } else {
      RunAppend(cfg, lease, Step(cfg, lease, w, a[0]), a[1..], b);
      assert (a + b)[0] == a[0] && (a + b)[1..] == a[1..] + b;
    }
  }

  lemma Chain(cfg: J.Config, lease: int, w: World, a: seq<Act>, mid: World, b: seq<Act>, w': World)
    requires Leads(cfg, lease, w, a, mid) && Leads(cfg, lease, mid, b, w')
    ensures Leads(cfg, lease, w, a + b, w')
  {
    hide Ordinary;
    RunAppend(cfg, lease, w, a, b);
  }

  lemma OneStep(cfg: J.Config, lease: int, w: World, a: Act)
    requires WebhookInv(cfg, lease, w) && Enabled(cfg, w, a) && Ordinary(a)
    ensures Leads(cfg, lease, w, [a], Step(cfg, lease, w, a)) && WebhookInv(cfg, lease, Step(cfg, lease, w, a))
  {
    hide Enabled, Step, Ordinary, WebhookInv;
    WebhookStep(cfg, lease, w, a);
    var w' := Step(cfg, lease, w, a);
    assert [a][1..] == [];
    assert Valid(cfg, lease, w', []) && Run(cfg, lease, w', []) == w';
    assert Valid(cfg, lease, w, [a]);
  }

  /** Only reservations differ, and of the events that were due some may be reserved now. */
  ghost predicate OnlyReserves(w: World, w': World) {
    && w'.job == w.job.(db := w.job.db.(callbacks := w'.job.db.callbacks))
    && w'.logs == w.logs && w'.couriers == w.couriers && w'.tokens == w.tokens && w.mail <= w'.mail
    && w'.job.db.callbacks.Keys == w.job.db.callbacks.Keys
    && (forall e :: e in w.job.db.callbacks ==>
          w'.job.db.callbacks[e] == w.job.db.callbacks[e].(reservedUntil := w'.job.db.callbacks[e].reservedUntil))
    && DueNow(w') <= DueNow(w)
  }

  ghost function DueNow(w: World): set<EventId> { DueRows(w.job.db.callbacks, w.job.now).Keys }

  lemma SentMail(w: World, disp: nat)
    requires disp in w.rounds && w.rounds[disp].ids != []
    ensures var e, w' := w.rounds[disp].ids[0], DoReserve(w, disp, Sent);
            && w'.mail == (if e in DueRows(w.job.db.callbacks, w.rounds[disp].started) then w.mail + multiset{e} else w.mail)
            && disp in w'.rounds && w'.rounds[disp] == Round(w.rounds[disp].started, w.rounds[disp].ids[1..])
  {
    hide Due, Reserved;
  }

  lemma ReservedIsNotDue(rows: Rows, e: EventId, now: int)
    requires e in rows
    ensures var rows' := rows[e := Reserved(rows[e], now)];
            DueRows(rows', now).Keys == DueRows(rows, now).Keys - {e}
  {
  }

  /** A dispatcher sends the first event of a batch it has just selected, or finds it taken. */
  lemma SendOne(w: World, disp: nat)
    requires disp in w.rounds && w.rounds[disp].ids != [] && w.rounds[disp].started == w.job.now
    ensures var e, w' := w.rounds[disp].ids[0], DoReserve(w, disp, Sent);
            && OnlyReserves(w, w') && e !in DueNow(w')
            && (e in DueNow(w) ==> e in w'.mail)
            && (forall x :: x in DueNow(w) && x != e ==> x in DueNow(w') && w'.job.db.callbacks[x] == w.job.db.callbacks[x])
            && disp in w'.rounds && w'.rounds[disp] == Round(w.job.now, w.rounds[disp].ids[1..])
  {
    var e := w.rounds[disp].ids[0];
    SentMail(w, disp);
    ReservedAs(w, disp, Sent);
    ReservedRows(w, disp, Sent);
    if e in w.job.db.callbacks { ReservedIsNotDue(w.job.db.callbacks, e, w.job.now); }
    hide DoReserve, Due;
  }

  lemma {:induction false} SendAll(cfg: J.Config, lease: int, w: World, disp: nat, e: EventId) returns (acts: seq<Act>, w': World)
    requires WebhookInv(cfg, lease, w) && disp in w.rounds && w.rounds[disp].started == w.job.now && e in DueNow(w)
    ensures Leads(cfg, lease, w, acts, w') && WebhookInv(cfg, lease, w') && OnlyReserves(w, w')
    ensures if e in w.rounds[disp].ids then e in w'.mail
            else e in DueNow(w') && w'.job.db.callbacks[e] == w.job.db.callbacks[e]
    ensures forall x :: x in w.rounds[disp].ids ==> x !in DueNow(w')
    decreases |w.rounds[disp].ids|
  {
    hide WebhookInv, Leads, DueNow, Step;
    var ids := w.rounds[disp].ids;
    if ids == [] {
      Nothing(cfg, lease, w);
      acts, w' := [], w;
    } else {
      var a := ReserveNext(disp, Sent);
      SendOne(w, disp);
      ReserveIsDo(cfg, lease, w, disp);
      OneStep(cfg, lease, w, a);
      var w1 := Step(cfg, lease, w, a);
      var rest;
      if ids[0] == e {
        rest, w' := SendOthers(cfg, lease, w1, disp);
      } else {
        rest, w' := SendAll(cfg, lease, w1, disp, e);
      }
      Chain(cfg, lease, w, [a], w1, rest, w');
      acts := [a] + rest;
    }
  }

  lemma Nothing(cfg: J.Config, lease: int, w: World)
    ensures Leads(cfg, lease, w, [], w) && OnlyReserves(w, w)
  {
  }

  lemma ReserveIsDo(cfg: J.Config, lease: int, w: World, disp: nat)
    requires disp in w.rounds && w.rounds[disp].ids != []
    ensures Enabled(cfg, w, ReserveNext(disp, Sent)) && Step(cfg, lease, w, ReserveNext(disp, Sent)) == DoReserve(w, disp, Sent)
  {
    hide DoReserve;
  }

  /** The rest of a batch. */
  lemma {:induction false} SendOthers(cfg: J.Config, lease: int, w: World, disp: nat) returns (acts: seq<Act>, w': World)
    requires WebhookInv(cfg, lease, w) && disp in w.rounds && w.rounds[disp].started == w.job.now
    ensures Leads(cfg, lease, w, acts, w') && WebhookInv(cfg, lease, w') && OnlyReserves(w, w')
    ensures forall x :: x in w.rounds[disp].ids ==> x !in DueNow(w')
    decreases |w.rounds[disp].ids|
  {
    hide WebhookInv, Leads, DueNow, Step;
    if w.rounds[disp].ids == [] {
      Nothing(cfg, lease, w);
      acts, w' := [], w;
    } else {
      var a := ReserveNext(disp, Sent);
      SendOne(w, disp);
      ReserveIsDo(cfg, lease, w, disp);
      OneStep(cfg, lease, w, a);
      var w1 := Step(cfg, lease, w, a);
      var rest;
      rest, w' := SendOthers(cfg, lease, w1, disp);
      Chain(cfg, lease, w, [a], w1, rest, w');
      acts := [a] + rest;
    }
  }

  lemma SelectWorks(cfg: J.Config, lease: int, w: World, disp: nat, ids: seq<EventId>)
    requires disp !in w.rounds && IsBatch(DueRows(w.job.db.callbacks, w.job.now), cfg.batchLimit, ids)
    ensures Enabled(cfg, w, SelectDue(disp, ids))
    ensures var w' := Step(cfg, lease, w, SelectDue(disp, ids));
            w' == w.(rounds := w'.rounds) && disp in w'.rounds && w'.rounds[disp] == Round(w.job.now, ids)
  {
    hide IsBatch, DueRows;
  }

  /** Batch after batch, whatever the limit, a due event comes to be sent. */
  lemma {:induction false} Mailed(cfg: J.Config, lease: int, w: World, e: EventId) returns (acts: seq<Act>, w': World)
    requires WebhookInv(cfg, lease, w) && e in DueNow(w) && cfg.batchLimit > 0
    ensures Leads(cfg, lease, w, acts, w') && WebhookInv(cfg, lease, w') && OnlyReserves(w, w') && e in w'.mail
    decreases DueNow(w)
  {
    hide WebhookInv, Leads, Step, Enabled, IsBatch, Due, DueRows;
    var disp := UpperBound(w.rounds.Keys);
    var due := DueRows(w.job.db.callbacks, w.job.now);
    var ids := SomeBatch(due, cfg.batchLimit);
    R.BatchFacts(due, cfg.batchLimit, ids);
    SelectWorks(cfg, lease, w, disp, ids);
    OneStep(cfg, lease, w, SelectDue(disp, ids));
    var w1 := Step(cfg, lease, w, SelectDue(disp, ids));
    var sent, w2 := SendAll(cfg, lease, w1, disp, e);
    Chain(cfg, lease, w, [SelectDue(disp, ids)], w1, sent, w2);
    acts, w' := [SelectDue(disp, ids)] + sent, w2;
    if e !in ids {
      assert ids[0] in DueNow(w) && ids[0] !in DueNow(w2);
      var more, w3 := Mailed(cfg, lease, w2, e);
      Chain(cfg, lease, w, acts, w2, more, w3);
      acts, w' := acts + more, w3;
    }
  }

  // ----- One more attempt ---------------------------------------------------------------------------------

  /** How long it may take until the event can be dispatched again. */
  function Patience(lease: int, row: CallbackEvent): nat {
    Max(Max(if row.attempts == 0 then 0 else 15, if row.claimToken.Some? then lease + 1 else 0),
        if row.reservedUntil.Some? then 31 else 0)
  }

  predicate Undelivered(w: World, e: EventId) {
    e in w.job.db.callbacks && w.job.db.callbacks[e].deliveredAt.None?
  }

  lemma WaitWorks(cfg: J.Config, lease: int, w: World, e: EventId)
    requires WebhookInv(cfg, lease, w) && Undelivered(w, e) && w.job.db.callbacks[e].attempts < 5
    ensures var a := Job(J.Tick(Patience(lease, w.job.db.callbacks[e])));
            && Enabled(cfg, w, a) && e in DueNow(Step(cfg, lease, w, a))
            && Step(cfg, lease, w, a) == w.(job := w.job.(now := w.job.now + Patience(lease, w.job.db.callbacks[e])))
  {
    hide WorldInv, Truthful;
    assert RowTimely(lease, w.job.db.callbacks[e], w.job.now);
  }

  /** A task works on the event `e`. */
  predicate At(w: World, c: nat, e: EventId, p: Errand) {
    c in w.couriers && w.couriers[c] == Courier(e, p)
  }

  lemma ReceiveWorks(cfg: J.Config, lease: int, w: World, c: nat, e: EventId)
    requires e in w.mail && c !in w.couriers
    ensures Enabled(cfg, w, Receive(c, e))
    ensures var w' := Step(cfg, lease, w, Receive(c, e));
            At(w', c, e, Waiting) && w'.job == w.job && w'.logs == w.logs && w'.tokens == w.tokens
  {
  }

  lemma ClaimWorks(cfg: J.Config, lease: int, w: World, c: nat, t: Token, e: EventId)
    requires At(w, c, e, Waiting) && t !in w.tokens && e in w.job.db.callbacks && Due(w.job.db.callbacks[e], w.job.now)
    ensures Enabled(cfg, w, Claim(c, t))
    ensures var w' := Step(cfg, lease, w, Claim(c, t));
            var row, row' := w.job.db.callbacks[e], ClaimedDelivery(w.job.db.callbacks[e], t, w.job.now, lease);
            && At(w', c, e, Reading(row.generation, t)) && LogOf(w', e).posts == LogOf(w, e).posts
            && w'.job == w.job.(db := w.job.db.(callbacks := w.job.db.callbacks[e := row']))
  {
    ClaimEffect(lease, w, c, t);
    hide ClaimedDelivery, Due, DoClaim, LogOf;
  }

  lemma ReadWorks(cfg: J.Config, lease: int, w: World, c: nat, t: Token, e: EventId)
    requires WebhookInv(cfg, lease, w) && e in w.job.db.callbacks && At(w, c, e, Reading(w.job.db.callbacks[e].generation, t))
    ensures Enabled(cfg, w, Read(c)) && Known(w, e)
    ensures var w' := Step(cfg, lease, w, Read(c));
            At(w', c, e, Posting(t, PayloadFor(w, e))) && w'.job == w.job && w'.logs == w.logs
  {
    hide WorldInv, Timely, Truthful, PayloadOf;
    ReadFindsPayload(cfg, lease, w, c);
  }

  lemma PostWorks(cfg: J.Config, lease: int, w: World, c: nat, t: Token, e: EventId, payload: Payload, success: bool)
    requires At(w, c, e, Posting(t, payload))
    ensures Enabled(cfg, w, PostOnce(c, success))
    ensures var w' := Step(cfg, lease, w, PostOnce(c, success));
            && At(w', c, e, Reporting(t, success)) && w'.job == w.job
            && LogOf(w', e).posts == LogOf(w, e).posts + [Post(t, payload, w.job.now, success)]
  {
  }

  lemma ReportWorks(cfg: J.Config, lease: int, w: World, c: nat, t: Token, e: EventId, success: bool)
    requires At(w, c, e, Reporting(t, success)) && e in w.job.db.callbacks && w.job.db.callbacks[e].claimToken == Some(t)
    ensures Enabled(cfg, w, Report(c))
    ensures var w' := Step(cfg, lease, w, Report(c));
            && LogOf(w', e).posts == LogOf(w, e).posts
            && w'.job == w.job.(db := w.job.db.(callbacks := w.job.db.callbacks[e := Reported(w.job.db.callbacks[e], success, w.job.now)]))
  {
    hide Reported;
  }

  /** One more attempt was made, and its outcome recorded. */
  ghost predicate Attempted(w: World, w': World, e: EventId, success: bool)
    requires Known(w, e)
  {
    && e in w'.job.db.callbacks
    && w'.job == w.job.(now := w'.job.now, db := w.job.db.(callbacks := w'.job.db.callbacks))
    && w'.job.db.callbacks[e].generation == w.job.db.callbacks[e].generation
    && (exists t :: LogOf(w', e).posts == LogOf(w, e).posts + [Post(t, PayloadFor(w, e), w'.job.now, success)])
    && var row, row' := w.job.db.callbacks[e], w'.job.db.callbacks[e];
       && row'.attempts == row.attempts + 1 && row'.claimToken.None? && row'.reservedUntil.None?
       && row'.deliveredAt == if success then Some(w'.job.now) else None
  }

  /** A message in the broker for a due event becomes a POST. */
  lemma TaskGetsThrough(cfg: J.Config, lease: int, w: World, e: EventId, success: bool) returns (acts: seq<Act>, w': World)
    requires WebhookInv(cfg, lease, w) && e in w.mail && e in w.job.db.callbacks && Due(w.job.db.callbacks[e], w.job.now)
    ensures Leads(cfg, lease, w, acts, w') && WebhookInv(cfg, lease, w')
    ensures w'.job.now == w.job.now && Known(w, e) && Attempted(w, w', e, success)
  {
    hide WebhookInv, Leads, Step, Enabled, LogOf, PayloadOf;
    var c := UpperBound(w.couriers.Keys);
    var t := UpperBound(w.tokens);
    var row := w.job.db.callbacks[e];
    ReceiveWorks(cfg, lease, w, c, e);
    OneStep(cfg, lease, w, Receive(c, e));
    var w1 := Step(cfg, lease, w, Receive(c, e));
    ClaimWorks(cfg, lease, w1, c, t, e);
    OneStep(cfg, lease, w1, Claim(c, t));
    var w2 := Step(cfg, lease, w1, Claim(c, t));
    ReadWorks(cfg, lease, w2, c, t, e);
    OneStep(cfg, lease, w2, Read(c));
    var w3 := Step(cfg, lease, w2, Read(c));
    PostWorks(cfg, lease, w3, c, t, e, PayloadFor(w2, e), success);
    OneStep(cfg, lease, w3, PostOnce(c, success));
    var w4 := Step(cfg, lease, w3, PostOnce(c, success));
    ReportWorks(cfg, lease, w4, c, t, e, success);
    OneStep(cfg, lease, w4, Report(c));
    w' := Step(cfg, lease, w4, Report(c));
    Chain(cfg, lease, w, [Receive(c, e)], w1, [Claim(c, t)], w2);
    Chain(cfg, lease, w, [Receive(c, e)] + [Claim(c, t)], w2, [Read(c)], w3);
    Chain(cfg, lease, w, [Receive(c, e)] + [Claim(c, t)] + [Read(c)], w3, [PostOnce(c, success)], w4);
    acts := [Receive(c, e)] + [Claim(c, t)] + [Read(c)] + [PostOnce(c, success)];
    Chain(cfg, lease, w, acts, w4, [Report(c)], w');
    acts := acts + [Report(c)];
    SameLogs(w, w1, e);
    SameLogs(w2, w3, e);
    var post := Post(t, PayloadFor(w, e), w.job.now, success);
    assert PayloadFor(w2, e) == PayloadFor(w, e);
    assert LogOf(w', e).posts == LogOf(w, e).posts + [post];
    assert w'.job.db == w.job.db.(callbacks := w'.job.db.callbacks);
  }

  /** The next attempt is made as soon as `Patience` allows, and comes out as the client decides. */
  lemma NextAttempt(cfg: J.Config, lease: int, w: World, e: EventId, success: bool) returns (acts: seq<Act>, w': World)
    requires WebhookInv(cfg, lease, w) && Undelivered(w, e) && w.job.db.callbacks[e].attempts < 5 && cfg.batchLimit > 0
    ensures Leads(cfg, lease, w, acts, w') && WebhookInv(cfg, lease, w')
    ensures w'.job.now == w.job.now + Patience(lease, w.job.db.callbacks[e]) && Known(w, e) && Attempted(w, w', e, success)
  {
    hide WebhookInv, Leads, Step, Enabled, LogOf, PayloadOf, Patience;
    var a := Job(J.Tick(Patience(lease, w.job.db.callbacks[e])));
    WaitWorks(cfg, lease, w, e);
    OneStep(cfg, lease, w, a);
    var w1 := Step(cfg, lease, w, a);
    var a2, w2 := Mailed(cfg, lease, w1, e);
    Chain(cfg, lease, w, [a], w1, a2, w2);
    StillDue(w1, w2, e);
    var a3;
    a3, w' := TaskGetsThrough(cfg, lease, w2, e, success);
    Chain(cfg, lease, w, [a] + a2, w2, a3, w');
    acts := [a] + a2 + a3;
    AttemptedSince(w, w1, w2, w', e, success);
  }

  lemma AttemptedSince(w: World, w1: World, w2: World, w': World, e: EventId, success: bool)
    requires w1 == w.(job := w.job.(now := w1.job.now)) && OnlyReserves(w1, w2)
    requires Known(w2, e) && Attempted(w2, w', e, success)
    ensures Known(w, e) && Attempted(w, w', e, success)
  {
    hide PayloadOf, DueNow, LogOf;
    SameLogs(w, w2, e);
    var t :| LogOf(w', e).posts == LogOf(w2, e).posts + [Post(t, PayloadFor(w2, e), w'.job.now, success)];
    assert PayloadFor(w2, e) == PayloadFor(w, e);
    assert LogOf(w', e).posts == LogOf(w, e).posts + [Post(t, PayloadFor(w, e), w'.job.now, success)];
    assert w'.job.db == w.job.db.(callbacks := w'.job.db.callbacks);
  }

  lemma StillDue(w: World, w': World, e: EventId)
    requires e in DueNow(w) && OnlyReserves(w, w')
    ensures e in w'.job.db.callbacks && Due(w'.job.db.callbacks[e], w'.job.now)
  {
  }

  lemma SameLogs(w: World, w': World, e: EventId)
    requires w'.logs == w.logs
    ensures LogOf(w', e) == LogOf(w, e)
  {
  }

  // ----- All attempts that are left -------------------------------------------------------------------------

  /** `failures` more POSTs of the event fail, each fifteen seconds after the one before, and the
      one after them succeeds and is recorded. */
  ghost predicate GetsThrough(cfg: J.Config, lease: int, w: World, e: EventId, failures: nat, acts: seq<Act>, w': World)
    requires Known(w, e)
  {
    && Leads(cfg, lease, w, acts, w') && e in w'.job.db.callbacks
    && w'.job.now == w.job.now + Patience(lease, w.job.db.callbacks[e]) + 15 * failures
    && w'.job.db.callbacks[e].deliveredAt == Some(w'.job.now)
    && var n, posts := |LogOf(w, e).posts|, LogOf(w', e).posts;
       && |posts| == n + failures + 1 && posts[..n] == LogOf(w, e).posts
       && forall i :: n <= i < |posts| ==> posts[i].payload == PayloadFor(w, e) && (posts[i].success <==> i == n + failures)
  }

  lemma {:induction false} AllAttempts(cfg: J.Config, lease: int, w: World, e: EventId, failures: nat) returns (acts: seq<Act>, w': World)
    requires WebhookInv(cfg, lease, w) && Undelivered(w, e) && w.job.db.callbacks[e].attempts + failures < 5 && cfg.batchLimit > 0
    ensures Known(w, e) && GetsThrough(cfg, lease, w, e, failures, acts, w')
    decreases failures
  {
    hide WebhookInv, Leads, PayloadOf, LogOf;
    acts, w' := NextAttempt(cfg, lease, w, e, failures == 0);
    if failures > 0 {
      var w1 := w';
      var rest;
      rest, w' := AllAttempts(cfg, lease, w1, e, failures - 1);
      Chain(cfg, lease, w, acts, w1, rest, w');
      acts := acts + rest;
      FailedBefore(cfg, lease, w, w1, e, failures, rest, w');
    }
  }

  /** A failed attempt in front. */
  lemma FailedBefore(cfg: J.Config, lease: int, w: World, w1: World, e: EventId, failures: nat, rest: seq<Act>, w': World)
    requires failures > 0 && Known(w, e) && Known(w1, e)
    requires Attempted(w, w1, e, false) && GetsThrough(cfg, lease, w1, e, failures - 1, rest, w')
    ensures var n, posts := |LogOf(w, e).posts|, LogOf(w', e).posts;
            && |posts| == n + failures + 1 && posts[..n] == LogOf(w, e).posts
            && forall i :: n <= i < |posts| ==> posts[i].payload == PayloadFor(w, e) && (posts[i].success <==> i == n + failures)
    ensures Patience(lease, w1.job.db.callbacks[e]) == 15
  {
    hide Leads, PayloadOf, LogOf;
    var n, before, posts := |LogOf(w, e).posts|, LogOf(w1, e).posts, LogOf(w', e).posts;
    assert PayloadFor(w1, e) == PayloadFor(w, e);
    assert before[..n] == LogOf(w, e).posts;
    assert posts[..n] == posts[..n + 1][..n];
    assert posts[n] == posts[..n + 1][n];
  }

  /** The state after the broker lost all delivery messages and every task and dispatcher died. */
  function Silenced(w: World): World {
    w.(mail := multiset{}, rounds := map[], couriers := map[])
  }

  lemma SilencedInv(cfg: J.Config, lease: int, w: World)
    requires WebhookInv(cfg, lease, w)
    ensures WebhookInv(cfg, lease, Silenced(w))
  {
    hide Inv, EventOk, RecordsTrue, RowTimely, TokensDrawn, PayloadOf;
    var w' := Silenced(w);
    forall e | e in w'.job.db.callbacks ensures LogOf(w', e) == LogOf(w, e) && Known(w', e) { assert Known(w, e); }
  }

  // ----- Reservations ----------------------------------------------------------------------------------------

  lemma MailGrows(cfg: J.Config, lease: int, w: World, a: Act, e: EventId)
    requires Enabled(cfg, w, a)
    ensures Step(cfg, lease, w, a).mail[e] > w.mail[e] ==>
              a == CopyMail(e)
              || (a.ReserveNext? && w.rounds[a.disp].ids[0] == e && e in DueRows(w.job.db.callbacks, w.rounds[a.disp].started))
  {
    hide J.Enabled, J.Step, IsBatch, DueRows, PayloadOf, LogOf, DoClaim, DoReport, DoRead, Reserved;
    if a.Claim? { ClaimMail(lease, w, a.c, a.t); }
    else if a.Report? { ReportMail(w, a.c); }
    else if a.Read? { ReadMail(w, a.c); }
  }

  lemma ClaimMail(lease: int, w: World, c: nat, t: Token)
    requires c in w.couriers
    ensures DoClaim(lease, w, c, t).mail == w.mail
  {
    hide Due, LogOf;
  }

  lemma ReportMail(w: World, c: nat)
    requires c in w.couriers && w.couriers[c].errand.Reporting?
    ensures DoReport(w, c).mail == w.mail
  {
    hide Reported, LogOf;
  }

  lemma ReadMail(w: World, c: nat)
    requires c in w.couriers && w.couriers[c].errand.Reading?
    ensures DoRead(w, c).mail == w.mail
  {
    hide PayloadOf;
  }

  /** The row is as it was, and no message was added, unless the event has been claimed since. */
  ghost predicate StillReserved(w: World, w': World, e: EventId)
    requires e in w.job.db.callbacks
  {
    && e in w'.job.db.callbacks
    && var row, row' := w.job.db.callbacks[e], w'.job.db.callbacks[e];
       row'.attempts > row.attempts || (row' == row && w'.mail[e] <= w.mail[e])
  }

  lemma ReservedStep(cfg: J.Config, lease: int, w: World, a: Act, e: EventId)
    requires WebhookInv(cfg, lease, w) && Enabled(cfg, w, a) && e in w.job.db.callbacks && a != CopyMail(e)
    requires var row := w.job.db.callbacks[e]; row.claimToken.None? && row.reservedUntil.Some? && w.job.now <= row.reservedUntil.value
    ensures StillReserved(w, Step(cfg, lease, w, a), e)
  {
    hide WorldInv, Timely, Truthful, Step, Due, DueRows, Passed, Reserved, Unreserved, Reported, J.Enabled, IsBatch;
    EveryCallbackMove(cfg, lease, w, a, e);
    MailGrows(cfg, lease, w, a, e);
    if a.ReserveNext? { NoRoundGetsPast(cfg, lease, w, a.disp, e); }
  }

  lemma NoRoundGetsPast(cfg: J.Config, lease: int, w: World, disp: nat, e: EventId)
    requires WebhookInv(cfg, lease, w) && disp in w.rounds && e in w.job.db.callbacks
    requires var row := w.job.db.callbacks[e]; row.reservedUntil.Some? && w.job.now <= row.reservedUntil.value
    ensures e !in DueRows(w.job.db.callbacks, w.rounds[disp].started)
    ensures !Passed(w.job.db.callbacks[e].reservedUntil, w.rounds[disp].started)
  {
    hide WorldInv, Truthful, RowTimely, Due;
  }

  lemma AttemptsGrow(cfg: J.Config, lease: int, w: World, a: Act, e: EventId)
    requires WebhookInv(cfg, lease, w) && Enabled(cfg, w, a) && e in w.job.db.callbacks
    ensures var w' := Step(cfg, lease, w, a);
            e in w'.job.db.callbacks && w'.job.db.callbacks[e].attempts >= w.job.db.callbacks[e].attempts
  {
    hide WorldInv, Timely, Truthful, Step, Enabled, Due, Passed;
    EveryCallbackMove(cfg, lease, w, a, e);
  }

  lemma {:induction false} AttemptsNeverShrink(cfg: J.Config, lease: int, w: World, acts: seq<Act>, e: EventId)
    requires WebhookInv(cfg, lease, w) && Valid(cfg, lease, w, acts) && e in w.job.db.callbacks
    ensures var w' := Run(cfg, lease, w, acts);
            w'.job.now >= w.job.now
            && e in w'.job.db.callbacks && w'.job.db.callbacks[e].attempts >= w.job.db.callbacks[e].attempts
    decreases |acts|
  {
    hide WebhookInv, Step, Enabled;
    if acts != [] {
      WebhookStep(cfg, lease, w, acts[0]);
      TimePasses(cfg, lease, w, acts[0]);
      AttemptsGrow(cfg, lease, w, acts[0], e);
      AttemptsNeverShrink(cfg, lease, Step(cfg, lease, w, acts[0]), acts[1..], e);
    }
  }

  lemma {:induction false} ReservationHolds(cfg: J.Config, lease: int, w: World, acts: seq<Act>, e: EventId)
    requires WebhookInv(cfg, lease, w) && Valid(cfg, lease, w, acts) && e in w.job.db.callbacks
    requires forall i :: 0 <= i < |acts| ==> acts[i] != CopyMail(e)
    requires var row := w.job.db.callbacks[e];
             row.claimToken.None? && row.reservedUntil.Some? && Run(cfg, lease, w, acts).job.now <= row.reservedUntil.value
    ensures StillReserved(w, Run(cfg, lease, w, acts), e)
    decreases |acts|
  {
    hide WebhookInv, Step, Enabled;
    if acts != [] {
      var w1 := Step(cfg, lease, w, acts[0]);
      WebhookStep(cfg, lease, w, acts[0]);
      TimePasses(cfg, lease, w, acts[0]);
      AttemptsGrow(cfg, lease, w, acts[0], e);
      AttemptsNeverShrink(cfg, lease, w1, acts[1..], e);
      ReservedStep(cfg, lease, w, acts[0], e);
      if w1.job.db.callbacks[e] == w.job.db.callbacks[e] {
        ReservationHolds(cfg, lease, w1, acts[1..], e);
      }
    }
  }

  // ----- What clients are promised ----------------------------------------------------------------------------

  /** A delivery on record was made: some POST before succeeded.  A failure on record had no success. */
  lemma DeliveredWasPosted(cfg: J.Config, lease: int, w: World, e: EventId)
    requires Reachable(cfg, lease, w) && e in w.job.db.callbacks
    ensures w.job.db.callbacks[e].deliveredAt.Some? ==> SuccessBy(LogOf(w, e), w.job.db.callbacks[e].deliveredAt.value)
    ensures forall t :: t in LogOf(w, e).failures ==> !SuccessUnder(LogOf(w, e), t)
  {
    WebhookReachable(cfg, lease, w);
    hide Reachable, WorldInv, Timely, LogOf, SuccessBy, SuccessUnder;
    assert RecordsTrue(w.job.db.callbacks[e], LogOf(w, e));
  }

  /** What a report made under the current claim, or not, writes. */
  ghost predicate Records(rows: Rows, e: EventId, t: Token, success: bool, now: int, rows': Rows) {
    if e in rows && rows[e].claimToken == Some(t) then
      && e in rows' && rows' == rows[e := rows'[e]] && rows'[e].attempts == rows[e].attempts
      && rows'[e].claimToken.None? && rows'[e].inFlightUntil.None? && rows'[e].reservedUntil.None?
      && if success then rows'[e].deliveredAt == Some(now)
         else rows'[e].deliveredAt.None? && rows'[e].nextAttemptAt == now + 15
    else rows' == rows
  }

  lemma FinishRecords(rows: Rows, e: EventId, t: Token, success: bool, now: int)
    requires e in rows && rows[e].claimToken == Some(t) ==> rows[e].deliveredAt.None?
    ensures Records(rows, e, t, success, now, FinishDelivery(rows, e, t, success, now).0)
  {
  }

  lemma ClaimedIsOpen(cfg: J.Config, lease: int, w: World, e: EventId)
    requires WorldInv(cfg, lease, w) && e in w.job.db.callbacks && w.job.db.callbacks[e].claimToken.Some?
    ensures w.job.db.callbacks[e].deliveredAt.None?
  {
    EventFacts(cfg, lease, w, e);
    hide WorldInv, PostsOk, LogOf;
  }

  /** The report of the task that holds the claim records what the client answered: a success for
      good, a failure for fifteen seconds.  The report of any other task records nothing. */
  lemma ReportTellsTheTruth(cfg: J.Config, lease: int, w: World, c: nat)
    requires Reachable(cfg, lease, w) && c in w.couriers && w.couriers[c].errand.Reporting?
    ensures var e, t := w.couriers[c].event, w.couriers[c].errand.token;
            Records(w.job.db.callbacks, e, t, SuccessUnder(LogOf(w, e), t), w.job.now, DoReport(w, c).job.db.callbacks)
  {
    WebhookReachable(cfg, lease, w);
    hide Reachable, WorldInv, Timely, SuccessUnder, LogOf, DoReport, Records, FinishDelivery;
    ReporterKnows(w, c);
    ReportedRows(w, c);
    var v := w.couriers[c];
    if v.event in w.job.db.callbacks && w.job.db.callbacks[v.event].claimToken.Some? { ClaimedIsOpen(cfg, lease, w, v.event); }
    FinishRecords(w.job.db.callbacks, v.event, v.errand.token, v.errand.delivered, w.job.now);
  }

  /** A delivery claim is granted exactly if the event is due, undelivered, has been attempted fewer
      than five times, and no other claim of it is within its lease.  It counts the attempt, holds
      the event for the lease and ends the reservation; nothing else changes. */
  ghost predicate ClaimedWhenFree(rows: Rows, e: EventId, t: Token, now: int, lease: int, rows': Rows, claimed: Option<GenerationId>) {
    && (claimed.Some? <==>
          && e in rows && rows[e].deliveredAt.None? && rows[e].attempts < 5 && rows[e].nextAttemptAt <= now
          && (rows[e].claimToken.Some? ==> rows[e].inFlightUntil.Some? && rows[e].inFlightUntil.value < now))
    && (claimed.None? ==> rows' == rows)
    && (claimed.Some? ==>
          && claimed == Some(rows[e].generation) && e in rows' && rows' == rows[e := rows'[e]]
          && rows'[e] == rows[e].(attempts := rows[e].attempts + 1, claimToken := Some(t),
                                  inFlightUntil := Some(now + lease), reservedUntil := None))
  }

  lemma ClaimsWhenFree(rows: Rows, e: EventId, t: Token, now: int, lease: int)
    requires e in rows ==> (rows[e].claimToken.Some? <==> rows[e].inFlightUntil.Some?)
    ensures var (rows', claimed) := ClaimDelivery(rows, e, t, now, lease); ClaimedWhenFree(rows, e, t, now, lease, rows', claimed)
  {
  }

  lemma DeliveryClaimedExactlyWhen(cfg: J.Config, lease: int, w: World, e: EventId, t: Token)
    requires Reachable(cfg, lease, w)
    ensures var (rows', claimed) := ClaimDelivery(w.job.db.callbacks, e, t, w.job.now, lease);
            ClaimedWhenFree(w.job.db.callbacks, e, t, w.job.now, lease, rows', claimed)
  {
    hide Reachable, WebhookInv, ClaimedWhenFree, ClaimDelivery;
    WebhookReachable(cfg, lease, w);
    if e in w.job.db.callbacks { FlightMatchesClaim(cfg, lease, w, e); }
    ClaimsWhenFree(w.job.db.callbacks, e, t, w.job.now, lease);
  }

  lemma FlightMatchesClaim(cfg: J.Config, lease: int, w: World, e: EventId)
    requires WebhookInv(cfg, lease, w) && e in w.job.db.callbacks
    ensures w.job.db.callbacks[e].claimToken.Some? <==> w.job.db.callbacks[e].inFlightUntil.Some?
  {
    hide WorldInv, Truthful;
    EventFacts(cfg, lease, w, e);
    assert RowTimely(lease, w.job.db.callbacks[e], w.job.now);
    hide PostsOk, LogOf;
  }

  /** A dispatcher takes the events that have been due the longest, and all that are due while there
      is room in the batch. */
  lemma LongestDueFirst(cfg: J.Config, w: World, disp: nat, ids: seq<EventId>)
    requires Enabled(cfg, w, SelectDue(disp, ids))
    ensures var rows := w.job.db.callbacks;
            && (forall e, f :: e in DueNow(w) && e !in ids && f in ids ==> f in rows && rows[f].nextAttemptAt <= rows[e].nextAttemptAt)
            && (|ids| < cfg.batchLimit ==> forall e :: e in DueNow(w) ==> e in ids)
  {
    var due := DueRows(w.job.db.callbacks, w.job.now);
    hide NoDup, Due;
    assert IsBatch(due, cfg.batchLimit, ids);
    if |ids| < cfg.batchLimit { Q.AllTaken(due, cfg.batchLimit, ids); }
    forall f | f in ids ensures f in due {}
  }

  /** No webhook is ever stuck: from every reachable state, and also after losing all messages,
      tasks and dispatchers, an undelivered event can still be POSTed as often as it has attempts
      left, out of five; it is recorded as delivered as soon as one of them succeeds.  The first of
      these POSTs comes at once if the event was never claimed or reserved, after fifteen seconds
      if the last attempt is known to have failed, and after the lease if it was never heard of. */
  lemma NoStuckWebhook(cfg: J.Config, lease: int, w: World, e: EventId, failures: nat)
    requires Reachable(cfg, lease, w) && cfg.batchLimit > 0
    requires Undelivered(w, e) && w.job.db.callbacks[e].attempts + failures < 5
    ensures Known(w, e) && exists acts, w' :: GetsThrough(cfg, lease, w, e, failures, acts, w')
    ensures exists acts, w' :: GetsThrough(cfg, lease, Silenced(w), e, failures, acts, w')
  {
    hide Reachable, WebhookInv, GetsThrough;
    WebhookReachable(cfg, lease, w);
    SilencedInv(cfg, lease, w);
    var acts, w1 := AllAttempts(cfg, lease, w, e, failures);
    var acts', w2 := AllAttempts(cfg, lease, Silenced(w), e, failures);
  }

  /** What a client reads in a POST is how its generation ended: the result the provider gave the
      claim that completed it, or why it failed, and then it was refunded. */
  lemma PayloadTellsTheOutcome(cfg: J.Config, lease: int, w: World, e: EventId, i: nat)
    requires Reachable(cfg, lease, w) && e in w.job.db.callbacks && i < |LogOf(w, e).posts|
    ensures var g, payload := w.job.db.callbacks[e].generation, LogOf(w, e).posts[i].payload;
            && g in w.job.db.generations && g in w.job.hist && payload.generation == g
            && var row, h := w.job.db.generations[g], w.job.hist[g];
               match payload.status
               case Completed => row.status == Completed && payload.error.None? && payload.result.Some?
                                 && exists k: nat :: G.BroughtResult(row, h, k) && h.polls[k].reply == J.Answer(payload.result.value)
               case Failed => row.status == Failed && row.refundedAt.Some? && payload.result.None?
                              && payload.error.Some? && payload.error.value.Some? && payload.error.value.value in P.FINAL_CODES
               case _ => false
  {
    WebhookReachable(cfg, lease, w);
    JobsAreReachable(cfg, lease, w);
    OnePayload(cfg, lease, w, e, i);
    var g := w.job.db.callbacks[e].generation;
    P.EndsAreRecorded(cfg, w.job, g);
    TablesPart(cfg, w.job);
    CallbackIsDue(w.job.db, e);
    hide Reachable, J.Reachable, WebhookInv, WorldInv, Inv, TablesInv, LogOf;
    if w.job.db.generations[g].status == Completed { G.ResultIsProvidersAnswer(cfg, w.job, [], g); }
    P.LawsOf(cfg, w.job, g);
  }

  /** One message for each reservation: for the thirty seconds after the start of the batch that sent
      an event, and until it is claimed, no dispatcher sends it again; only the broker itself could
      make a copy. */
  lemma OneMessagePerReservation(cfg: J.Config, lease: int, w: World, disp: nat, e: EventId, acts: seq<Act>)
    requires Reachable(cfg, lease, w) && disp in w.rounds && w.rounds[disp].ids != [] && w.rounds[disp].ids[0] == e
    requires e in DueRows(w.job.db.callbacks, w.rounds[disp].started) && w.job.db.callbacks[e].claimToken.None?
    requires Valid(cfg, lease, DoReserve(w, disp, Sent), acts) && forall i :: 0 <= i < |acts| ==> acts[i] != CopyMail(e)
    requires Run(cfg, lease, DoReserve(w, disp, Sent), acts).job.now <= w.rounds[disp].started + 30
    ensures var w1 := DoReserve(w, disp, Sent);
            e in w1.job.db.callbacks && w1.mail[e] == w.mail[e] + 1 && StillReserved(w1, Run(cfg, lease, w1, acts), e)
  {
    WebhookReachable(cfg, lease, w);
    hide Reachable, WebhookInv, Valid, Run, StillReserved, Step, Due;
    hide Enabled, DoReserve;
    ReserveIsDo(cfg, lease, w, disp);
    WebhookStep(cfg, lease, w, ReserveNext(disp, Sent));
    SentMail(w, disp);
    ReservedAs(w, disp, Sent);
    ReservationHolds(cfg, lease, DoReserve(w, disp, Sent), acts, e);
  }
}
