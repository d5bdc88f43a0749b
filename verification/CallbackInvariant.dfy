/** Guarantees of webhook delivery over all runs: at most five attempts, spaced in time, one
    payload, nothing after delivery, and no effect of stale claims. */
module CallbackInvariant {
  import opened Common
  import opened Tables
  import opened Transactions
  import J = JobSystem
  import opened TableInvariant
  import F = Fencing
  import L = Ledger
  import opened CallbackDelivery

  // ----- One callback row and its log ---------------------------------------------------------------

  ghost predicate Claimed(log: Log, t: Token) {
    exists i :: 0 <= i < |log.grants| && log.grants[i].token == t
  }

  ghost predicate HasPosted(log: Log, t: Token) {
    exists i :: 0 <= i < |log.posts| && log.posts[i].token == t
  }

  /** The claim `c` failed on record, and at least the retry delay lies between that and `time`. */
  ghost predicate DelayedBy(log: Log, c: DeliveryGrant, time: int) {
    c.token in log.failures && c.at <= log.failures[c.token] && log.failures[c.token] + RETRY_DELAY <= time
  }

  /** Why a claim may follow `c` at `time`: the lease of `c` has expired, or its failure was
      recorded and the retry delay has passed. */
  ghost predicate Separated(log: Log, c: DeliveryGrant, time: int) {
    c.until < time || DelayedBy(log, c, time)
  }

  ghost predicate ClaimsOk(lease: int, row: CallbackEvent, log: Log, now: int) {
    && |log.grants| == row.attempts <= MAX_ATTEMPTS
    && (forall i, j :: 0 <= i < j < |log.grants| ==> log.grants[i].token != log.grants[j].token)
    && (forall i :: 0 <= i < |log.grants| ==> log.grants[i].at <= now && log.grants[i].until == log.grants[i].at + lease)
    && (forall i :: 0 < i < |log.grants| ==> Separated(log, log.grants[i - 1], log.grants[i].at))
    && (row.claimToken.Some? ==>
          && log.grants != [] && row.deliveredAt.None?
          && row.claimToken == Some(log.grants[|log.grants| - 1].token)
          && row.inFlightUntil == Some(log.grants[|log.grants| - 1].until))
    && (row.claimToken.None? && row.deliveredAt.None? && log.grants != [] ==>
          DelayedBy(log, log.grants[|log.grants| - 1], row.nextAttemptAt))
  }

  ghost predicate PostsOk(log: Log, payload: Payload) {
    && (forall i, j :: 0 <= i < j < |log.posts| ==> log.posts[i].token != log.posts[j].token)
    && (forall i :: 0 <= i < |log.posts| ==> Claimed(log, log.posts[i].token) && log.posts[i].payload == payload)
    && (forall i :: 0 <= i < |log.posts| && log.posts[i].token in log.failures ==> log.posts[i].at <= log.failures[log.posts[i].token])
    && (forall t :: t in log.failures ==> Claimed(log, t))
    && (forall i, j :: 0 <= i < |log.posts| && 0 <= j < |log.grants| && log.posts[i].token == log.grants[j].token
          ==> log.grants[j].at <= log.posts[i].at)
  }

  ghost predicate PostsPast(log: Log, now: int) {
    forall i :: 0 <= i < |log.posts| ==> log.posts[i].at <= now
  }

  ghost predicate EventOk(lease: int, row: CallbackEvent, log: Log, now: int, payload: Payload) {
    ClaimsOk(lease, row, log, now) && PostsOk(log, payload) && PostsPast(log, now)
  }

  // ----- One delivery task ------------------------------------------------------------------------------

  ghost predicate ErrandOk(p: Errand, row: CallbackEvent, log: Log, payload: Payload) {
    && (p.Held().Some? ==> Claimed(log, p.Held().value))
    && (p.Reading? ==> p.generation == row.generation)
    && (p.Reading? || p.Posting? ==> !HasPosted(log, p.token) && p.token !in log.failures)
    && (p.Posting? ==> p.payload == payload)
  }

  ghost function PayloadFor(w: World, e: EventId): Payload
    requires e in w.job.db.callbacks && w.job.db.callbacks[e].generation in w.job.db.generations
  {
    PayloadOf(w.job.db.callbacks[e].generation, w.job.db.generations[w.job.db.callbacks[e].generation])
  }

  ghost predicate Known(w: World, e: EventId) {
    e in w.job.db.callbacks && w.job.db.callbacks[e].generation in w.job.db.generations
  }

  ghost predicate CourierOk(w: World, v: Courier) {
    v.errand.Held().Some? ==>
      && Known(w, v.event)
      && ErrandOk(v.errand, w.job.db.callbacks[v.event], LogOf(w, v.event), PayloadFor(w, v.event))
  }

  ghost predicate TokensDrawn(log: Log, tokens: set<Token>) {
    forall i :: 0 <= i < |log.grants| ==> log.grants[i].token in tokens
  }

  ghost predicate Distinct(couriers: map<nat, Courier>) {
    forall c, d :: c in couriers && d in couriers && c != d && couriers[c].errand.Held().Some?
      ==> couriers[c].errand.Held() != couriers[d].errand.Held()
  }

  ghost predicate DeliveryInv(lease: int, w: World) {
    && w.logs.Keys <= w.job.db.callbacks.Keys
    && (forall e :: e in w.job.db.callbacks ==> Known(w, e) && TokensDrawn(LogOf(w, e), w.tokens))
    && (forall e :: e in w.job.db.callbacks ==>
          EventOk(lease, w.job.db.callbacks[e], LogOf(w, e), w.job.now, PayloadFor(w, e)))
    && (forall c :: c in w.couriers ==> CourierOk(w, w.couriers[c]))
    && Distinct(w.couriers)
  }

  ghost predicate WorldInv(cfg: J.Config, lease: int, w: World) {
    Inv(cfg, w.job) && DeliveryInv(lease, w)
  }

  // ----- Steps on one event ----------------------------------------------------------------------------------

  predicate HoldsClaim(v: Courier, e: EventId) { v.event == e && v.errand.Held().Some? }

  ghost predicate OneMoved(cs: map<nat, Courier>, cs': map<nat, Courier>, c: nat) {
    && (forall d :: d in cs' && d != c ==> d in cs && cs'[d] == cs[d])
    && (c in cs' && cs'[c].errand.Held().Some? ==>
          forall d :: d in cs' && d != c ==> cs'[d].errand.Held() != cs'[c].errand.Held())
  }

  lemma SameLog(w: World, w': World, e: EventId, x: EventId)
    requires x != e && (w'.logs == w.logs || (e in w'.logs && w'.logs == w.logs[e := w'.logs[e]]))
    ensures LogOf(w', x) == LogOf(w, x)
  {
  }

  lemma MoreTokens(log: Log, tokens: set<Token>, tokens': set<Token>)
    requires TokensDrawn(log, tokens) && tokens <= tokens'
    ensures TokensDrawn(log, tokens')
  {
  }

  lemma StillDistinct(cs: map<nat, Courier>, cs': map<nat, Courier>, c: nat)
    requires Distinct(cs) && OneMoved(cs, cs', c)
    ensures Distinct(cs')
  {
  }

  lemma CourierStays(w: World, w': World, e: EventId, c: nat, d: nat)
    requires d in w'.couriers && OneMoved(w.couriers, w'.couriers, c)
    requires d in w.couriers ==> CourierOk(w, w.couriers[d])
    requires Known(w, e)
    requires w'.job == w.job.(db := w.job.db.(callbacks := w'.job.db.callbacks))
    requires e in w'.job.db.callbacks && w'.job.db.callbacks == w.job.db.callbacks[e := w'.job.db.callbacks[e]]
    requires w'.job.db.callbacks[e].generation == w.job.db.callbacks[e].generation
    requires w'.logs == w.logs || (e in w'.logs && w'.logs == w.logs[e := w'.logs[e]])
    requires d != c && d in w.couriers && HoldsClaim(w.couriers[d], e) ==>
      ErrandOk(w.couriers[d].errand, w'.job.db.callbacks[e], LogOf(w', e), PayloadFor(w, e))
    requires c in w'.couriers ==> CourierOk(w', w'.couriers[c])
    ensures CourierOk(w', w'.couriers[d])
  {
    hide ErrandOk, PayloadOf;
    if d != c {
      var v := w.couriers[d];
      assert w'.couriers[d] == v;
      if v.errand.Held().Some? && v.event != e { SameLog(w, w', e, v.event); }
    }
  }

  /** A step on the event `e`, made by the task `c`. */
  lemma OneEventStep(lease: int, w: World, w': World, e: EventId, c: nat)
    requires DeliveryInv(lease, w) && e in w.job.db.callbacks
    requires w'.job == w.job.(db := w.job.db.(callbacks := w'.job.db.callbacks))
    requires e in w'.job.db.callbacks && w'.job.db.callbacks == w.job.db.callbacks[e := w'.job.db.callbacks[e]]
    requires w'.job.db.callbacks[e].generation == w.job.db.callbacks[e].generation
    requires w'.logs == w.logs || (e in w'.logs && w'.logs == w.logs[e := w'.logs[e]])
    requires w.tokens <= w'.tokens && OneMoved(w.couriers, w'.couriers, c)
    requires EventOk(lease, w'.job.db.callbacks[e], LogOf(w', e), w.job.now, PayloadFor(w, e))
    requires TokensDrawn(LogOf(w', e), w'.tokens)
    requires forall d :: d in w.couriers && d != c && HoldsClaim(w.couriers[d], e) ==>
      ErrandOk(w.couriers[d].errand, w'.job.db.callbacks[e], LogOf(w', e), PayloadFor(w, e))
    requires c in w'.couriers ==> CourierOk(w', w'.couriers[c])
    ensures DeliveryInv(lease, w')
  {
    hide EventOk, ErrandOk, PayloadOf, TokensDrawn, LogOf, CourierOk, OneMoved;
    forall x | x in w'.job.db.callbacks && x != e
      ensures Known(w', x) && TokensDrawn(LogOf(w', x), w'.tokens)
      ensures EventOk(lease, w'.job.db.callbacks[x], LogOf(w', x), w'.job.now, PayloadFor(w', x))
    {
      SameLog(w, w', e, x);
      MoreTokens(LogOf(w, x), w.tokens, w'.tokens);
    }
    forall d | d in w'.couriers ensures CourierOk(w', w'.couriers[d]) {
      CourierStays(w, w', e, c, d);
    }
    StillDistinct(w.couriers, w'.couriers, c);
  }

  // ----- Rows and logs, transition by transition -------------------------------------------------------------------

  lemma ClaimKeepsClaims(lease: int, row: CallbackEvent, log: Log, now: int, t: Token)
    requires ClaimsOk(lease, row, log, now) && Due(row, now) && !Claimed(log, t)
    ensures ClaimsOk(lease, ClaimedDelivery(row, t, now, lease), log.(grants := log.grants + [DeliveryGrant(t, now, now + lease)]), now)
  {
    var grant := DeliveryGrant(t, now, now + lease);
    var log' := log.(grants := log.grants + [grant]);
    assert log'.grants[|log.grants|] == grant;
    assert log.grants != [] ==> Separated(log', log.grants[|log.grants| - 1], now);
    assert forall i :: 0 < i < |log.grants| ==> Separated(log, log.grants[i - 1], log.grants[i].at);
  }

  lemma MoreClaims(log: Log, grant: DeliveryGrant, u: Token)
    requires Claimed(log, u)
    ensures Claimed(log.(grants := log.grants + [grant]), u)
  {
    var i :| 0 <= i < |log.grants| && log.grants[i].token == u;
    assert (log.grants + [grant])[i].token == u;
  }

  lemma ClaimKeepsEvent(lease: int, row: CallbackEvent, log: Log, now: int, t: Token, payload: Payload)
    requires EventOk(lease, row, log, now, payload) && Due(row, now) && !Claimed(log, t)
    ensures EventOk(lease, ClaimedDelivery(row, t, now, lease), log.(grants := log.grants + [DeliveryGrant(t, now, now + lease)]), now, payload)
  {
    hide ClaimsOk;
    ClaimKeepsClaims(lease, row, log, now, t);
    ClaimKeepsPosts(log, DeliveryGrant(t, now, now + lease), payload);
  }

  lemma ClaimKeepsPosts(log: Log, grant: DeliveryGrant, payload: Payload)
    requires PostsOk(log, payload) && !Claimed(log, grant.token)
    ensures PostsOk(log.(grants := log.grants + [grant]), payload)
  {
    var log' := log.(grants := log.grants + [grant]);
    forall u | Claimed(log, u) ensures Claimed(log', u) { MoreClaims(log, grant, u); }
  }

  lemma ClaimKeepsErrand(p: Errand, row: CallbackEvent, row': CallbackEvent, log: Log, grant: DeliveryGrant, payload: Payload)
    requires ErrandOk(p, row, log, payload) && p.Held().Some? && row'.generation == row.generation
    ensures ErrandOk(p, row', log.(grants := log.grants + [grant]), payload)
  {
    MoreClaims(log, grant, p.Held().value);
  }

  lemma ClaimStarts(lease: int, row: CallbackEvent, log: Log, now: int, t: Token, payload: Payload)
    requires EventOk(lease, row, log, now, payload) && !Claimed(log, t)
    ensures ErrandOk(Reading(row.generation, t), ClaimedDelivery(row, t, now, lease),
                     log.(grants := log.grants + [DeliveryGrant(t, now, now + lease)]), payload)
  {
    var log' := log.(grants := log.grants + [DeliveryGrant(t, now, now + lease)]);
    assert log'.grants[|log.grants|].token == t;
    hide ClaimsOk;
  }

  lemma HeldDrawn(lease: int, w: World, t: Token)
    requires DeliveryInv(lease, w) && t !in w.tokens
    ensures forall c :: c in w.couriers ==> w.couriers[c].errand.Held() != Some(t)
    ensures forall e :: e in w.job.db.callbacks ==> !Claimed(LogOf(w, e), t)
  {
    hide EventOk;
    forall c | c in w.couriers ensures w.couriers[c].errand.Held() != Some(t) { assert CourierOk(w, w.couriers[c]); }
  }

  /** What a successful claim writes. */
  lemma ClaimEffect(lease: int, w: World, c: nat, t: Token)
    requires c in w.couriers && w.couriers[c].event in w.job.db.callbacks
    requires Due(w.job.db.callbacks[w.couriers[c].event], w.job.now)
    ensures var e, w' := w.couriers[c].event, DoClaim(lease, w, c, t);
            var row, log := w.job.db.callbacks[e], LogOf(w, e);
            var row', log' := ClaimedDelivery(row, t, w.job.now, lease), log.(grants := log.grants + [DeliveryGrant(t, w.job.now, w.job.now + lease)]);
            && w'.job == w.job.(db := w.job.db.(callbacks := w.job.db.callbacks[e := row']))
            && w'.logs == w.logs[e := log'] && LogOf(w', e) == log' && w'.tokens == w.tokens + {t}
            && w'.couriers == w.couriers[c := Courier(e, Reading(row.generation, t))]
  {
    hide Due;
  }

  lemma ClaimGranted(lease: int, w: World, c: nat, t: Token)
    requires DeliveryInv(lease, w) && c in w.couriers && t !in w.tokens
    requires w.couriers[c].event in w.job.db.callbacks && Due(w.job.db.callbacks[w.couriers[c].event], w.job.now)
    ensures DeliveryInv(lease, DoClaim(lease, w, c, t))
  {
    hide EventOk, ErrandOk, Due, PayloadOf, DoClaim, LogOf, ClaimedDelivery;
    HeldDrawn(lease, w, t);
    ClaimEffect(lease, w, c, t);
    var e, w' := w.couriers[c].event, DoClaim(lease, w, c, t);
    var row, log := w.job.db.callbacks[e], LogOf(w, e);
    assert Known(w, e);
    var payload := PayloadFor(w, e);
    ClaimKeepsEvent(lease, row, log, w.job.now, t, payload);
    ClaimStarts(lease, row, log, w.job.now, t, payload);
    ClaimGeneration(row, t, w.job.now, lease);
    forall d | d in w.couriers && d != c && HoldsClaim(w.couriers[d], e)
      ensures ErrandOk(w.couriers[d].errand, w'.job.db.callbacks[e], LogOf(w', e), payload)
    {
      assert CourierOk(w, w.couriers[d]);
      ClaimKeepsErrand(w.couriers[d].errand, row, w'.job.db.callbacks[e], log, DeliveryGrant(t, w.job.now, w.job.now + lease), payload);
    }
    OneEventStep(lease, w, w', e, c);
  }

  lemma ClaimGeneration(row: CallbackEvent, t: Token, now: int, lease: int)
    ensures ClaimedDelivery(row, t, now, lease).generation == row.generation
  {
  }

  lemma ClaimRefused(lease: int, w: World, c: nat, t: Token)
    requires c in w.couriers
    requires !(w.couriers[c].event in w.job.db.callbacks && Due(w.job.db.callbacks[w.couriers[c].event], w.job.now))
    ensures DoClaim(lease, w, c, t) == DropCourier(w.(tokens := w.tokens + {t}), c)
  {
    hide Due;
  }

  lemma ClaimKeeps(cfg: J.Config, lease: int, w: World, c: nat, t: Token)
    requires DeliveryInv(lease, w) && c in w.couriers && t !in w.tokens
    ensures DeliveryInv(lease, DoClaim(lease, w, c, t))
  {
    hide DeliveryInv, Due, DoClaim;
    var e := w.couriers[c].event;
    if e in w.job.db.callbacks && Due(w.job.db.callbacks[e], w.job.now) {
      ClaimGranted(lease, w, c, t);
    } else {
      ClaimRefused(lease, w, c, t);
      SameEvents(lease, w, DoClaim(lease, w, c, t), c);
    }
  }

  /** No row and no log changed; at most the task `c` moved. */
  lemma SameEvents(lease: int, w: World, w': World, c: nat)
    requires DeliveryInv(lease, w)
    requires w'.job == w.job && w'.logs == w.logs && w.tokens <= w'.tokens && OneMoved(w.couriers, w'.couriers, c)
    requires c in w'.couriers ==> CourierOk(w', w'.couriers[c])
    ensures DeliveryInv(lease, w')
  {
    hide EventOk, ErrandOk, PayloadOf;
    forall d | d in w'.couriers && d != c ensures CourierOk(w', w'.couriers[d]) {
      assert CourierOk(w, w.couriers[d]);
    }
  }

  lemma PostKeepsPosts(log: Log, post: Post, payload: Payload)
    requires PostsOk(log, payload) && Claimed(log, post.token) && !HasPosted(log, post.token) && post.token !in log.failures
    requires post.payload == payload && forall j :: 0 <= j < |log.grants| ==> log.grants[j].at <= post.at
    ensures PostsOk(log.(posts := log.posts + [post]), payload)
  {
    var log' := log.(posts := log.posts + [post]);
    assert forall u :: Claimed(log, u) ==> Claimed(log', u);
    assert forall i :: 0 <= i < |log.posts| ==> log.posts[i].token != post.token;
  }

  lemma PostKeepsEvent(lease: int, row: CallbackEvent, log: Log, now: int, p: Errand, success: bool, payload: Payload)
    requires EventOk(lease, row, log, now, payload) && p.Posting? && ErrandOk(p, row, log, payload)
    ensures var log' := log.(posts := log.posts + [Post(p.token, p.payload, now, success)]);
            && EventOk(lease, row, log', now, payload)
            && forall ok :: ErrandOk(Reporting(p.token, ok), row, log', payload)
  {
    var log' := log.(posts := log.posts + [Post(p.token, p.payload, now, success)]);
    assert forall u :: Claimed(log, u) ==> Claimed(log', u);
    PostKeepsPosts(log, Post(p.token, p.payload, now, success), payload);
    SameClaims(lease, row, log, log', now);
    hide ClaimsOk, PostsOk;
  }

  lemma SameClaims(lease: int, row: CallbackEvent, log: Log, log': Log, now: int)
    requires ClaimsOk(lease, row, log, now) && log'.grants == log.grants && log'.failures == log.failures
    ensures ClaimsOk(lease, row, log', now)
  {
    assert forall c, time :: Separated(log, c, time) ==> Separated(log', c, time);
  }

  lemma PostKeepsErrand(p: Errand, row: CallbackEvent, log: Log, post: Post, payload: Payload)
    requires ErrandOk(p, row, log, payload) && p.Held().Some? && p.Held() != Some(post.token)
    ensures ErrandOk(p, row, log.(posts := log.posts + [post]), payload)
  {
    var log' := log.(posts := log.posts + [post]);
    assert forall u :: Claimed(log, u) ==> Claimed(log', u);
    if HasPosted(log', p.Held().value) {
      var i :| 0 <= i < |log'.posts| && log'.posts[i].token == p.Held().value;
      assert i < |log.posts| && log.posts[i].token == p.Held().value;
    }
  }

  lemma PostKeeps(cfg: J.Config, lease: int, w: World, c: nat, success: bool)
    requires DeliveryInv(lease, w) && Enabled(cfg, w, PostOnce(c, success))
    ensures DeliveryInv(lease, DoPost(w, c, success))
  {
    hide EventOk, ErrandOk, PayloadOf;
    var w' := DoPost(w, c, success);
    var v := w.couriers[c];
    var e, p := v.event, v.errand;
    assert CourierOk(w, v);
    var row, log, payload := w.job.db.callbacks[e], LogOf(w, e), PayloadFor(w, e);
    PostKeepsEvent(lease, row, log, w.job.now, p, success, payload);
    forall d | d in w.couriers && d != c && HoldsClaim(w.couriers[d], e)
      ensures ErrandOk(w.couriers[d].errand, w'.job.db.callbacks[e], LogOf(w', e), payload)
    {
      assert CourierOk(w, w.couriers[d]);
      PostKeepsErrand(w.couriers[d].errand, row, log, Post(p.token, p.payload, w.job.now, success), payload);
    }
    OneEventStep(lease, w, w', e, c);
  }

  lemma ReportKeepsClaims(lease: int, row: CallbackEvent, log: Log, now: int, t: Token, delivered: bool)
    requires ClaimsOk(lease, row, log, now) && row.claimToken == Some(t)
    ensures ClaimsOk(lease, Reported(row, delivered, now), if delivered then log else log.(failures := log.failures[t := now]), now)
  {
    var log' := log.(failures := log.failures[t := now]);
    assert log.grants[|log.grants| - 1].token == t;
    forall i | 0 < i < |log.grants| ensures Separated(log', log.grants[i - 1], log.grants[i].at) {
      assert Separated(log, log.grants[i - 1], log.grants[i].at);
    }
  }

  lemma ReportKeepsPosts(log: Log, t: Token, now: int, payload: Payload)
    requires PostsOk(log, payload) && Claimed(log, t) && PostsPast(log, now)
    ensures PostsOk(log.(failures := log.failures[t := now]), payload)
  {
    var log' := log.(failures := log.failures[t := now]);
    assert forall u :: Claimed(log, u) ==> Claimed(log', u);
  }

  lemma ReportKeepsEvent(lease: int, row: CallbackEvent, log: Log, now: int, t: Token, delivered: bool, payload: Payload)
    requires EventOk(lease, row, log, now, payload) && row.claimToken == Some(t)
    ensures EventOk(lease, Reported(row, delivered, now), if delivered then log else log.(failures := log.failures[t := now]), now, payload)
  {
    assert log.grants[|log.grants| - 1].token == t;
    ReportKeepsClaims(lease, row, log, now, t, delivered);
    ReportKeepsPosts(log, t, now, payload);
    hide ClaimsOk, PostsOk;
  }

  lemma ReportKeepsErrand(p: Errand, row: CallbackEvent, log: Log, delivered: bool, now: int, t: Token, payload: Payload)
    requires ErrandOk(p, row, log, payload) && p.Held().Some? && p.Held() != Some(t)
    ensures ErrandOk(p, Reported(row, delivered, now), if delivered then log else log.(failures := log.failures[t := now]), payload)
  {
    var log' := log.(failures := log.failures[t := now]);
    assert forall u :: Claimed(log, u) ==> Claimed(log', u);
    assert forall u :: HasPosted(log', u) ==> HasPosted(log, u);
  }

  lemma ReportKeeps(cfg: J.Config, lease: int, w: World, c: nat)
    requires DeliveryInv(lease, w) && Enabled(cfg, w, Report(c))
    ensures DeliveryInv(lease, DoReport(w, c))
  {
    hide EventOk, ErrandOk, PayloadOf, Reported;
    var w' := DoReport(w, c);
    var v := w.couriers[c];
    var e, t, delivered := v.event, v.errand.token, v.errand.delivered;
    assert CourierOk(w, v);
    var row, log, payload := w.job.db.callbacks[e], LogOf(w, e), PayloadFor(w, e);
    if row.claimToken == Some(t) {
      ReportKeepsEvent(lease, row, log, w.job.now, t, delivered, payload);
      ReportGeneration(row, delivered, w.job.now);
      forall d | d in w.couriers && d != c && HoldsClaim(w.couriers[d], e)
        ensures ErrandOk(w.couriers[d].errand, w'.job.db.callbacks[e], LogOf(w', e), payload)
      {
        assert CourierOk(w, w.couriers[d]);
        ReportKeepsErrand(w.couriers[d].errand, row, log, delivered, w.job.now, t, payload);
      }
      OneEventStep(lease, w, w', e, c);
    } else {
      SameEvents(lease, w, w', c);
    }
  }

  lemma ReportGeneration(row: CallbackEvent, delivered: bool, now: int)
    ensures Reported(row, delivered, now).generation == row.generation
  {
  }

  /** A callback row belongs to a terminal generation with a URL, so the task's read always
      finds something to send: its early `return False` is unreachable. */
  lemma ReadFindsPayload(cfg: J.Config, lease: int, w: World, c: nat)
    requires WorldInv(cfg, lease, w) && c in w.couriers && w.couriers[c].errand.Reading?
    ensures var v := w.couriers[c];
            && Known(w, v.event)
            && DoRead(w, c).couriers[c].errand == Posting(v.errand.token, PayloadFor(w, v.event))
  {
    hide Inv, TablesInv, DeliveryInv, DoRead;
    CourierKnows(lease, w, c);
    TablesPart(cfg, w.job);
    CallbackIsDue(w.job.db, w.couriers[c].event);
    ReadResult(w, c);
  }

  lemma ReadResult(w: World, c: nat)
    requires c in w.couriers && w.couriers[c].errand.Reading? && Known(w, w.couriers[c].event)
    requires w.job.db.callbacks[w.couriers[c].event].generation == w.couriers[c].errand.generation
    requires w.job.db.generations[w.couriers[c].errand.generation].WantsCallback()
    ensures DoRead(w, c).couriers[c].errand == Posting(w.couriers[c].errand.token, PayloadFor(w, w.couriers[c].event))
  {
    hide PayloadOf;
  }

  lemma CourierKnows(lease: int, w: World, c: nat)
    requires DeliveryInv(lease, w) && c in w.couriers && w.couriers[c].errand.Reading?
    ensures Known(w, w.couriers[c].event)
    ensures w.job.db.callbacks[w.couriers[c].event].generation == w.couriers[c].errand.generation
  {
    hide EventOk;
    assert CourierOk(w, w.couriers[c]);
  }

  lemma CallbackIsDue(db: Db, e: EventId)
    requires TablesInv(db) && e in db.callbacks
    ensures db.callbacks[e].generation in db.generations && db.generations[db.callbacks[e].generation].WantsCallback()
  {
    hide OutboxOk, UsersOk, KeysOk;
  }

  lemma ReadKeeps(cfg: J.Config, lease: int, w: World, c: nat)
    requires WorldInv(cfg, lease, w) && Enabled(cfg, w, Read(c))
    ensures DeliveryInv(lease, DoRead(w, c))
  {
    hide EventOk, Inv, PayloadOf;
    ReadFindsPayload(cfg, lease, w, c);
    assert CourierOk(w, w.couriers[c]);
    SameEvents(lease, w, DoRead(w, c), c);
  }

  lemma ReservedRows(w: World, disp: nat, outcome: Sending)
    requires disp in w.rounds && w.rounds[disp].ids != []
    ensures var e, w' := w.rounds[disp].ids[0], DoReserve(w, disp, outcome);
            && w'.logs == w.logs && w'.tokens == w.tokens && w'.couriers == w.couriers
            && w'.job == w.job.(db := w.job.db.(callbacks := w'.job.db.callbacks))
            && (w'.job.db.callbacks == w.job.db.callbacks
                || (e in w.job.db.callbacks && e in w'.job.db.callbacks
                    && w'.job.db.callbacks == w.job.db.callbacks[e := w'.job.db.callbacks[e]]
                    && w'.job.db.callbacks[e] == w.job.db.callbacks[e].(reservedUntil := w'.job.db.callbacks[e].reservedUntil)))
  {
    hide Due;
  }

  lemma ReserveKeeps(cfg: J.Config, lease: int, w: World, disp: nat, outcome: Sending)
    requires DeliveryInv(lease, w) && Enabled(cfg, w, ReserveNext(disp, outcome))
    ensures DeliveryInv(lease, DoReserve(w, disp, outcome))
  {
    hide EventOk, ErrandOk, PayloadOf, DoReserve;
    var w' := DoReserve(w, disp, outcome);
    var e := w.rounds[disp].ids[0];
    var c := UpperBound(w.couriers.Keys);
    ReservedRows(w, disp, outcome);
    if w'.job.db.callbacks != w.job.db.callbacks {
      assert Known(w, e);
      var row, row', log, payload := w.job.db.callbacks[e], w'.job.db.callbacks[e], LogOf(w, e), PayloadFor(w, e);
      ReservationIsCosmetic(lease, row, row', log, w.job.now, payload);
      forall d | d in w.couriers && HoldsClaim(w.couriers[d], e) ensures ErrandOk(w.couriers[d].errand, row', log, payload) {
        assert CourierOk(w, w.couriers[d]);
        ReservationKeepsErrand(w.couriers[d].errand, row, row', log, payload);
      }
      hide DeliveryInv, CourierOk, HoldsClaim;
      OneEventStep(lease, w, w', e, c);
    } else {
      hide DeliveryInv, CourierOk;
      SameEvents(lease, w, w', c);
    }
  }

  lemma ReservationIsCosmetic(lease: int, row: CallbackEvent, row': CallbackEvent, log: Log, now: int, payload: Payload)
    requires EventOk(lease, row, log, now, payload) && row' == row.(reservedUntil := row'.reservedUntil)
    ensures EventOk(lease, row', log, now, payload)
  {
    hide PostsOk;
  }

  lemma ReservationKeepsErrand(p: Errand, row: CallbackEvent, row': CallbackEvent, log: Log, payload: Payload)
    requires ErrandOk(p, row, log, payload) && row' == row.(reservedUntil := row'.reservedUntil)
    ensures ErrandOk(p, row', log, payload)
  {
  }

  // ----- Steps of the paid-job protocol ------------------------------------------------------------------------

  lemma LaterEventOk(lease: int, row: CallbackEvent, log: Log, now: int, now': int, payload: Payload)
    requires EventOk(lease, row, log, now, payload) && now <= now'
    ensures EventOk(lease, row, log, now', payload)
  {
    hide PostsOk;
  }

  lemma NewEventOk(lease: int, g: GenerationId, created: int, now: int, payload: Payload)
    ensures EventOk(lease, NewCallback(g, created), NoLog, now, payload)
  {
  }

  /** A job step keeps every callback row, and the generation it belongs to. */
  lemma JobKeepsEvent(cfg: J.Config, s: J.Sys, a: J.Action, e: EventId)
    requires Inv(cfg, s) && J.Enabled(cfg, s, a) && !a.Courier? && e in s.db.callbacks
    ensures var s' := J.Step(cfg, s, a);
            && e in s'.db.callbacks && s'.db.callbacks[e] == s.db.callbacks[e]
            && s.db.callbacks[e].generation in s.db.generations && s.db.callbacks[e].generation in s'.db.generations
            && s'.db.generations[s.db.callbacks[e].generation] == s.db.generations[s.db.callbacks[e].generation]
  {
    hide Inv, TablesInv, J.Enabled, J.Step;
    TablesPart(cfg, s);
    CallbackIsDue(s.db, e);
    F.TerminalStep(cfg, s, a, s.db.callbacks[e].generation);
    L.CallbackRows(cfg, s, a);
  }

  lemma JobEvents(cfg: J.Config, s: J.Sys, a: J.Action, e: EventId)
    requires Inv(cfg, s) && J.Enabled(cfg, s, a) && !a.Courier?
    requires e in J.Step(cfg, s, a).db.callbacks && e !in s.db.callbacks
    ensures var s' := J.Step(cfg, s, a);
            && s'.db.callbacks[e].generation in s'.db.generations
            && exists g :: s'.db.callbacks[e] == NewCallback(g, s.now)
  {
    hide Inv, TablesInv, J.Enabled, J.Step;
    L.CallbackRows(cfg, s, a);
    InvStep(cfg, s, a);
    TablesPart(cfg, J.Step(cfg, s, a));
    CallbackIsDue(J.Step(cfg, s, a).db, e);
  }

  lemma JobKeeps(cfg: J.Config, lease: int, w: World, a: J.Action)
    requires WorldInv(cfg, lease, w) && Enabled(cfg, w, Job(a))
    ensures DeliveryInv(lease, Step(cfg, lease, w, Job(a)))
  {
    hide Inv, J.Enabled, J.Step, EventOk, ErrandOk, PayloadOf;
    var w' := Step(cfg, lease, w, Job(a));
    F.ClockAdvances(cfg, w.job, a);
    forall e | e in w'.job.db.callbacks
      ensures Known(w', e) && EventOk(lease, w'.job.db.callbacks[e], LogOf(w', e), w'.job.now, PayloadFor(w', e))
    {
      if e in w.job.db.callbacks {
        JobKeepsEvent(cfg, w.job, a, e);
        LaterEventOk(lease, w.job.db.callbacks[e], LogOf(w, e), w.job.now, w'.job.now, PayloadFor(w, e));
      } else {
        JobEvents(cfg, w.job, a, e);
        var g :| w'.job.db.callbacks[e] == NewCallback(g, w.job.now);
        NewEventOk(lease, g, w.job.now, w'.job.now, PayloadFor(w', e));
      }
    }
    forall e | e in w.job.db.callbacks ensures e in w'.job.db.callbacks { JobKeepsEvent(cfg, w.job, a, e); }
    forall c | c in w'.couriers ensures CourierOk(w', w'.couriers[c]) {
      assert CourierOk(w, w.couriers[c]);
      if w.couriers[c].errand.Held().Some? { JobKeepsEvent(cfg, w.job, a, w.couriers[c].event); }
    }
  }

  // ----- Every step, every run -----------------------------------------------------------------------------------

  /** A delivery step looks to the job protocol like a change of delivery columns only. */
  lemma DeliveryIsCourier(cfg: J.Config, lease: int, w: World, a: Act)
    requires Inv(cfg, w.job) && Enabled(cfg, w, a) && !a.Job?
    ensures Inv(cfg, Step(cfg, lease, w, a).job)
  {
    hide Inv, Step, Enabled;
    DeliveryFrame(cfg, lease, w, a);
    CourierStep(cfg, w.job, Step(cfg, lease, w, a).job.db.callbacks);
  }

  ghost predicate RowsOnly(w: World, w': World) {
    && w'.job == w.job.(db := w.job.db.(callbacks := w'.job.db.callbacks))
    && J.SameCallbackRows(w.job.db.callbacks, w'.job.db.callbacks)
  }

  lemma ClaimFrame(lease: int, w: World, c: nat, t: Token)
    requires c in w.couriers
    ensures RowsOnly(w, DoClaim(lease, w, c, t))
  {
    hide Due, LogOf;
  }

  lemma ReportFrame(w: World, c: nat)
    requires c in w.couriers && w.couriers[c].errand.Reporting?
    ensures RowsOnly(w, DoReport(w, c))
  {
    hide LogOf;
  }

  lemma ReserveFrame(w: World, disp: nat, outcome: Sending)
    requires disp in w.rounds && w.rounds[disp].ids != []
    ensures RowsOnly(w, DoReserve(w, disp, outcome))
  {
    hide Due;
  }

  lemma DeliveryFrame(cfg: J.Config, lease: int, w: World, a: Act)
    requires Enabled(cfg, w, a) && !a.Job?
    ensures RowsOnly(w, Step(cfg, lease, w, a))
  {
    hide IsBatch, PayloadOf, LogOf, DueRows, DoClaim, DoReport, DoReserve, J.Enabled, J.Step;
    if a.ReserveNext? { ReserveFrame(w, a.disp, a.outcome); }
    else if a.Claim? { ClaimFrame(lease, w, a.c, a.t); }
    else if a.Report? { ReportFrame(w, a.c); }
    else { SameRows(w, Step(cfg, lease, w, a)); }
  }

  lemma SameRows(w: World, w': World)
    requires w'.job == w.job
    ensures RowsOnly(w, w')
  {
  }

  lemma CourierStep(cfg: J.Config, s: J.Sys, rows: Rows)
    requires Inv(cfg, s) && J.SameCallbackRows(s.db.callbacks, rows)
    ensures Inv(cfg, s.(db := s.db.(callbacks := rows)))
  {
    hide Inv;
    InvStep(cfg, s, J.Courier(rows));
  }

  lemma WorldStep(cfg: J.Config, lease: int, w: World, a: Act)
    requires WorldInv(cfg, lease, w) && Enabled(cfg, w, a)
    ensures WorldInv(cfg, lease, Step(cfg, lease, w, a))
  {
    hide Inv, DeliveryInv, J.Enabled, J.Step, Due, DoClaim, DoPost, DoRead, DoReport, DoReserve;
    match a {
      case Job(b) => InvStep(cfg, w.job, b); JobKeeps(cfg, lease, w, b);
      case ReserveNext(disp, outcome) => ReserveKeeps(cfg, lease, w, disp, outcome);
      case Claim(c, t) => ClaimKeeps(cfg, lease, w, c, t);
      case Read(c) => ReadKeeps(cfg, lease, w, c);
      case PostOnce(c, success) => PostKeeps(cfg, lease, w, c, success);
      case Report(c) => ReportKeeps(cfg, lease, w, c);
      case _ => IdleStep(cfg, lease, w, a);
    }
    if !a.Job? { DeliveryIsCourier(cfg, lease, w, a); }
  }

  lemma IdleStep(cfg: J.Config, lease: int, w: World, a: Act)
    requires DeliveryInv(lease, w) && Enabled(cfg, w, a)
    requires a.LoseMail? || a.CopyMail? || a.SelectDue? || a.StopRound? || a.Receive? || a.Die?
    ensures DeliveryInv(lease, Step(cfg, lease, w, a))
  {
    hide EventOk, ErrandOk, PayloadOf, IsBatch, DeliveryInv, DoReserve, DoClaim, DoRead, DoPost, DoReport, J.Step, J.Enabled;
    var w' := Step(cfg, lease, w, a);
    var c := UpperBound(w.couriers.Keys);
    if a.Receive? || a.Die? { c := a.c; }
    assert w'.job == w.job && w'.logs == w.logs && w'.tokens == w.tokens;
    assert OneMoved(w.couriers, w'.couriers, c);
    SameEvents(lease, w, w', c);
  }

  lemma WorldInit(cfg: J.Config, lease: int)
    ensures WorldInv(cfg, lease, Init)
  {
    InitInv(cfg);
    hide Inv;
  }

  lemma {:induction false} WorldRun(cfg: J.Config, lease: int, w: World, acts: seq<Act>)
    requires WorldInv(cfg, lease, w) && Valid(cfg, lease, w, acts)
    ensures WorldInv(cfg, lease, Run(cfg, lease, w, acts))
    decreases |acts|
  {
    hide WorldInv, Step, Enabled;
    if acts != [] {
      WorldStep(cfg, lease, w, acts[0]);
      WorldRun(cfg, lease, Step(cfg, lease, w, acts[0]), acts[1..]);
    }
  }

  lemma WorldReachable(cfg: J.Config, lease: int, w: World)
    requires Reachable(cfg, lease, w)
    ensures WorldInv(cfg, lease, w)
  {
    hide WorldInv;
    var acts :| Valid(cfg, lease, Init, acts) && Run(cfg, lease, Init, acts) == w;
    WorldInit(cfg, lease);
    WorldRun(cfg, lease, Init, acts);
  }

  // ----- The job protocol inside the joint one -------------------------------------------------------------

  /** What a step is for the job protocol: itself, or a change of delivery columns. */
  ghost function JobAct(cfg: J.Config, lease: int, w: World, a: Act): J.Action
    requires Enabled(cfg, w, a)
  {
    if a.Job? then a.a else J.Courier(Step(cfg, lease, w, a).job.db.callbacks)
  }

  lemma StepProjects(cfg: J.Config, lease: int, w: World, a: Act)
    requires Enabled(cfg, w, a)
    ensures J.Enabled(cfg, w.job, JobAct(cfg, lease, w, a))
    ensures J.Step(cfg, w.job, JobAct(cfg, lease, w, a)) == Step(cfg, lease, w, a).job
  {
    if a.Job? {
      JobIsItself(cfg, lease, w, a);
    } else {
      hide Step, Enabled, J.Step, J.Enabled;
      DeliveryFrame(cfg, lease, w, a);
      CourierIsEnabled(cfg, w.job, Step(cfg, lease, w, a).job.db.callbacks);
    }
  }

  lemma JobIsItself(cfg: J.Config, lease: int, w: World, a: Act)
    requires Enabled(cfg, w, a) && a.Job?
    ensures J.Enabled(cfg, w.job, a.a) && J.Step(cfg, w.job, a.a) == Step(cfg, lease, w, a).job
  {
    hide J.Step, J.Enabled;
  }

  lemma CourierIsEnabled(cfg: J.Config, s: J.Sys, rows: Rows)
    requires J.SameCallbackRows(s.db.callbacks, rows)
    ensures J.Enabled(cfg, s, J.Courier(rows))
    ensures J.Step(cfg, s, J.Courier(rows)) == s.(db := s.db.(callbacks := rows))
  {
  }

  ghost function JobActs(cfg: J.Config, lease: int, w: World, acts: seq<Act>): seq<J.Action>
    requires Valid(cfg, lease, w, acts)
    decreases |acts|
  {
    if acts == [] then []
    else [JobAct(cfg, lease, w, acts[0])] + JobActs(cfg, lease, Step(cfg, lease, w, acts[0]), acts[1..])
  }

  /** Every joint run is, seen from the jobs, a run of the job protocol. */
  lemma {:induction false} RunProjects(cfg: J.Config, lease: int, w: World, acts: seq<Act>)
    requires Valid(cfg, lease, w, acts)
    ensures J.Valid(cfg, w.job, JobActs(cfg, lease, w, acts))
    ensures J.Run(cfg, w.job, JobActs(cfg, lease, w, acts)) == Run(cfg, lease, w, acts).job
    decreases |acts|
  {
    hide Step, Enabled, J.Step, J.Enabled, JobAct;
    if acts != [] {
      var next := Step(cfg, lease, w, acts[0]);
      StepProjects(cfg, lease, w, acts[0]);
      RunProjects(cfg, lease, next, acts[1..]);
      var js := JobActs(cfg, lease, w, acts);
      assert js[0] == JobAct(cfg, lease, w, acts[0]) && js[1..] == JobActs(cfg, lease, next, acts[1..]);
    }
  }

  /** The jobs of a reachable joint state are a reachable state of the job protocol, so all that
      is proved about reachable job states holds beside callback delivery too. */
  lemma JobsAreReachable(cfg: J.Config, lease: int, w: World)
    requires Reachable(cfg, lease, w)
    ensures J.Reachable(cfg, w.job)
  {
    hide Step, Enabled, J.Step, J.Enabled;
    var acts :| Valid(cfg, lease, Init, acts) && Run(cfg, lease, Init, acts) == w;
    RunProjects(cfg, lease, Init, acts);
  }

  // ----- What clients are promised --------------------------------------------------------------------------------

  lemma EventFacts(cfg: J.Config, lease: int, w: World, e: EventId)
    requires WorldInv(cfg, lease, w) && e in w.job.db.callbacks
    ensures Known(w, e) && EventOk(lease, w.job.db.callbacks[e], LogOf(w, e), w.job.now, PayloadFor(w, e))
  {
    hide Inv, EventOk, CourierOk, PayloadOf;
  }

  /** At most five attempts are ever claimed for an event, no claim POSTs twice, and so an event
      is POSTed at most five times, crashes and duplicated messages included. */
  lemma AtMostFivePosts(cfg: J.Config, lease: int, w: World, e: EventId)
    requires WorldInv(cfg, lease, w) && e in w.job.db.callbacks
    ensures |LogOf(w, e).posts| <= |LogOf(w, e).grants| == w.job.db.callbacks[e].attempts <= MAX_ATTEMPTS
  {
    hide WorldInv;
    EventFacts(cfg, lease, w, e);
    PostsWithinClaims(LogOf(w, e), PayloadFor(w, e));
    hide PostsOk;
  }

  lemma PostsWithinClaims(log: Log, payload: Payload)
    requires PostsOk(log, payload)
    ensures |log.posts| <= |log.grants|
  {
    var posted := seq(|log.posts|, i requires 0 <= i < |log.posts| => log.posts[i].token);
    var claimed := seq(|log.grants|, i requires 0 <= i < |log.grants| => log.grants[i].token);
    var tokens := set t | t in claimed;
    assert NoDup(posted);
    forall t | t in posted ensures t in tokens {
      var i :| 0 <= i < |posted| && posted[i] == t;
      assert Claimed(log, log.posts[i].token);
      var j :| 0 <= j < |log.grants| && log.grants[j].token == t;
      assert claimed[j] == t;
    }
    NoDupCount(posted, tokens);
    ElementsCount(claimed, tokens);
  }

  /** Attempts are spaced: the k-th claim after the first comes at least k times
      min(retry delay, lease) later. */
  lemma {:induction false} AttemptsAreSpaced(cfg: J.Config, lease: int, w: World, e: EventId, k: nat)
    requires WorldInv(cfg, lease, w) && e in w.job.db.callbacks && k < |LogOf(w, e).grants|
    ensures LogOf(w, e).grants[k].at >= LogOf(w, e).grants[0].at + k * Min(RETRY_DELAY, lease)
  {
    hide WorldInv, PostsOk;
    if k > 0 {
      AttemptsAreSpaced(cfg, lease, w, e, k - 1);
      EventFacts(cfg, lease, w, e);
      var log := LogOf(w, e);
      assert Separated(log, log.grants[k - 1], log.grants[k].at);
      assert k * Min(RETRY_DELAY, lease) == (k - 1) * Min(RETRY_DELAY, lease) + Min(RETRY_DELAY, lease);
    }
  }

  /** After a failure is on record, the next claim waits out the retry delay; without a record
      it waits out the lease. */
  lemma NextAttemptWaits(cfg: J.Config, lease: int, w: World, e: EventId, k: nat)
    requires WorldInv(cfg, lease, w) && e in w.job.db.callbacks && k + 1 < |LogOf(w, e).grants|
    ensures var log := LogOf(w, e);
            var c, d := log.grants[k], log.grants[k + 1];
            c.at + lease < d.at || (c.token in log.failures && log.failures[c.token] + RETRY_DELAY <= d.at)
  {
    hide WorldInv, PostsOk;
    EventFacts(cfg, lease, w, e);
    assert Separated(LogOf(w, e), LogOf(w, e).grants[(k + 1) - 1], LogOf(w, e).grants[k + 1].at);
  }

  lemma GrantsOrdered(lease: int, row: CallbackEvent, log: Log, now: int, a: nat, b: nat)
    requires ClaimsOk(lease, row, log, now) && lease >= 0 && a < b < |log.grants|
    ensures log.grants[a + 1].at <= log.grants[b].at
    decreases b
  {
    if a + 1 < b {
      GrantsOrdered(lease, row, log, now, a, b - 1);
      assert Separated(log, log.grants[b - 1], log.grants[b].at);
    }
  }

  /** POSTs are spaced too, as long as no task dawdles: if every POST of an event goes out
      within `d` of its claim, two POSTs are min(retry delay, lease - d) apart. */
  lemma PostsAreSpaced(cfg: J.Config, lease: int, w: World, e: EventId, d: nat, i: nat, j: nat, a: nat, b: nat)
    requires WorldInv(cfg, lease, w) && e in w.job.db.callbacks && d <= lease
    requires var log := LogOf(w, e);
             && i < |log.posts| && j < |log.posts| && a < b < |log.grants|
             && log.posts[i].token == log.grants[a].token && log.posts[j].token == log.grants[b].token
             && log.posts[i].at <= log.grants[a].at + d
    ensures LogOf(w, e).posts[i].at + Min(RETRY_DELAY, lease - d) <= LogOf(w, e).posts[j].at
  {
    hide WorldInv;
    EventFacts(cfg, lease, w, e);
    var row, log := w.job.db.callbacks[e], LogOf(w, e);
    GrantsOrdered(lease, row, log, w.job.now, a, b);
    assert Separated(log, log.grants[(a + 1) - 1], log.grants[a + 1].at);
  }

  /** Every POST of an event carries one and the same payload: that of the generation as it is
      now, and as it has been since it ended. */
  lemma OnePayload(cfg: J.Config, lease: int, w: World, e: EventId, i: nat)
    requires WorldInv(cfg, lease, w) && e in w.job.db.callbacks && i < |LogOf(w, e).posts|
    ensures Known(w, e) && LogOf(w, e).posts[i].payload == PayloadFor(w, e)
  {
    hide WorldInv, ClaimsOk, PayloadOf;
    EventFacts(cfg, lease, w, e);
  }

  /** Callback rows are exact: one for every terminal generation that asked for a callback, none
      for any other. */
  lemma CallbacksAreExact(cfg: J.Config, lease: int, w: World, g: GenerationId)
    requires WorldInv(cfg, lease, w) && g in w.job.db.generations
    ensures HasCallback(w.job.db.callbacks, g) <==> w.job.db.generations[g].WantsCallback()
    ensures forall e, f :: e in w.job.db.callbacks && f in w.job.db.callbacks && e != f ==>
              w.job.db.callbacks[e].generation != w.job.db.callbacks[f].generation
  {
    hide Inv, DeliveryInv;
    TablesPart(cfg, w.job);
    hide OutboxOk, UsersOk, KeysOk;
  }

  // ----- Delivered events stay delivered ---------------------------------------------------------------------------

  ghost predicate Delivered(w: World, e: EventId, attempts: nat) {
    && e in w.job.db.callbacks && w.job.db.callbacks[e].deliveredAt.Some?
    && w.job.db.callbacks[e].claimToken.None? && w.job.db.callbacks[e].attempts == attempts
  }

  /** The only ways a callback row changes: a dispatcher reserves it or takes the reservation back,
      a task claims it, and the task holding the claim reports. */
  ghost predicate CallbackMoves(lease: int, w: World, a: Act, e: EventId, row: CallbackEvent, row': CallbackEvent) {
    || row' == row
    || (a.ReserveNext? && a.disp in w.rounds && w.rounds[a.disp].ids != [] && w.rounds[a.disp].ids[0] == e
        && var started := w.rounds[a.disp].started;
           Due(row, started) && Passed(row.reservedUntil, started)
           && row' == if a.outcome == Sent then Reserved(row, started) else Unreserved(row))
    || (a.Claim? && a.t !in w.tokens && Due(row, w.job.now) && row' == ClaimedDelivery(row, a.t, w.job.now, lease))
    || (a.Report? && a.c in w.couriers && w.couriers[a.c].event == e && w.couriers[a.c].errand.Reporting?
        && row.claimToken == Some(w.couriers[a.c].errand.token) && row' == Reported(row, w.couriers[a.c].errand.delivered, w.job.now))
  }

  lemma EveryCallbackMove(cfg: J.Config, lease: int, w: World, a: Act, e: EventId)
    requires WorldInv(cfg, lease, w) && Enabled(cfg, w, a) && e in w.job.db.callbacks
    ensures var w' := Step(cfg, lease, w, a);
            && e in w'.job.db.callbacks && w.tokens <= w'.tokens
            && CallbackMoves(lease, w, a, e, w.job.db.callbacks[e], w'.job.db.callbacks[e])
  {
    hide WorldInv, IsBatch, DueRows, PayloadOf, LogOf, J.Enabled, J.Step, DoClaim, DoReport, DoReserve, Due, Reported, ClaimedDelivery;
    if a.Job? { WorldJob(cfg, lease, w); JobKeepsEvent(cfg, w.job, a.a, e); }
    else if a.Claim? { ClaimMove(lease, w, a, e); }
    else if a.Report? { ReportMove(lease, w, a, e); }
    else if a.ReserveNext? { ReserveMove(lease, w, a, e); }
    else { assert Step(cfg, lease, w, a).job == w.job; }
  }

  lemma ClaimMove(lease: int, w: World, a: Act, e: EventId)
    requires a.Claim? && a.c in w.couriers && a.t !in w.tokens && e in w.job.db.callbacks
    ensures var w' := DoClaim(lease, w, a.c, a.t);
            && e in w'.job.db.callbacks && w.tokens <= w'.tokens
            && CallbackMoves(lease, w, a, e, w.job.db.callbacks[e], w'.job.db.callbacks[e])
  {
    hide LogOf, Due;
  }

  lemma ReportedRow(rows: map<EventId, CallbackEvent>, event: EventId, t: Token, delivered: bool, now: int, e: EventId)
    requires e in rows
    ensures var rows' := FinishDelivery(rows, event, t, delivered, now).0;
            && e in rows'
            && (rows'[e] == rows[e] || (event == e && rows[e].claimToken == Some(t) && rows'[e] == Reported(rows[e], delivered, now)))
  {
    hide Reported;
  }

  lemma ReportedRows(w: World, c: nat)
    requires c in w.couriers && w.couriers[c].errand.Reporting?
    ensures var v, w' := w.couriers[c], DoReport(w, c);
            && w'.tokens == w.tokens
            && w'.job.db.callbacks == FinishDelivery(w.job.db.callbacks, v.event, v.errand.token, v.errand.delivered, w.job.now).0
  {
    hide LogOf, Reported;
  }

  lemma ReportMove(lease: int, w: World, a: Act, e: EventId)
    requires a.Report? && a.c in w.couriers && w.couriers[a.c].errand.Reporting? && e in w.job.db.callbacks
    ensures var w' := DoReport(w, a.c);
            && e in w'.job.db.callbacks && w.tokens <= w'.tokens
            && CallbackMoves(lease, w, a, e, w.job.db.callbacks[e], w'.job.db.callbacks[e])
  {
    hide DoReport, FinishDelivery, Reported, ClaimedDelivery, Due, Passed;
    var v := w.couriers[a.c];
    ReportedRows(w, a.c);
    ReportedRow(w.job.db.callbacks, v.event, v.errand.token, v.errand.delivered, w.job.now, e);
  }

  lemma ReservedAs(w: World, disp: nat, outcome: Sending)
    requires disp in w.rounds && w.rounds[disp].ids != []
    ensures var w', round, rows := DoReserve(w, disp, outcome), w.rounds[disp], w.job.db.callbacks;
            var e := round.ids[0];
            && w'.tokens == w.tokens
            && w'.job.db.callbacks ==
                 if e !in DueRows(rows, round.started) || outcome == Locked || outcome == SendLost then rows
                 else rows[e := if outcome == Sent then Reserved(rows[e], round.started) else Unreserved(rows[e])]
  {
    hide Due, Reserved, Unreserved;
  }

  lemma ReserveMove(lease: int, w: World, a: Act, e: EventId)
    requires a.ReserveNext? && a.disp in w.rounds && w.rounds[a.disp].ids != [] && e in w.job.db.callbacks
    ensures var w' := DoReserve(w, a.disp, a.outcome);
            && e in w'.job.db.callbacks && w.tokens <= w'.tokens
            && CallbackMoves(lease, w, a, e, w.job.db.callbacks[e], w'.job.db.callbacks[e])
  {
    ReservedAs(w, a.disp, a.outcome);
    hide DoReserve, Due, Reserved, Unreserved, Reported, ClaimedDelivery;
  }

  lemma DeliveredStep(cfg: J.Config, lease: int, w: World, a: Act, e: EventId, n: nat)
    requires WorldInv(cfg, lease, w) && Enabled(cfg, w, a) && Delivered(w, e, n)
    ensures Delivered(Step(cfg, lease, w, a), e, n)
  {
    hide WorldInv, Step, Enabled;
    EveryCallbackMove(cfg, lease, w, a, e);
  }

  lemma WorldJob(cfg: J.Config, lease: int, w: World)
    requires WorldInv(cfg, lease, w)
    ensures Inv(cfg, w.job)
  {
    hide Inv, DeliveryInv;
  }

  /** No claim ever follows a recorded delivery: the event stays delivered and its attempt
      counter stops. */
  lemma {:induction false} DeliveredForever(cfg: J.Config, lease: int, w: World, acts: seq<Act>, e: EventId, n: nat)
    requires WorldInv(cfg, lease, w) && Valid(cfg, lease, w, acts) && Delivered(w, e, n)
    ensures Delivered(Run(cfg, lease, w, acts), e, n)
    decreases |acts|
  {
    hide WorldInv, Step, Enabled, Delivered;
    if acts != [] {
      WorldStep(cfg, lease, w, acts[0]);
      DeliveredStep(cfg, lease, w, acts[0], e, n);
      DeliveredForever(cfg, lease, Step(cfg, lease, w, acts[0]), acts[1..], e, n);
    }
  }

  // ----- Stale delivery claims ---------------------------------------------------------------------------------------

  ghost predicate StaleClaim(w: World, e: EventId, t: Token) {
    t in w.tokens && e in w.job.db.callbacks && w.job.db.callbacks[e].claimToken != Some(t)
  }

  lemma StaleClaimStep(cfg: J.Config, lease: int, w: World, a: Act, e: EventId, t: Token)
    requires WorldInv(cfg, lease, w) && Enabled(cfg, w, a) && StaleClaim(w, e, t)
    ensures StaleClaim(Step(cfg, lease, w, a), e, t)
  {
    hide WorldInv, Step, Enabled;
    EveryCallbackMove(cfg, lease, w, a, e);
  }

  /** A delivery claim that was drawn and is not current never becomes current again, and
      reporting under it changes nothing. */
  lemma {:induction false} StaleClaimForever(cfg: J.Config, lease: int, w: World, acts: seq<Act>, e: EventId, t: Token)
    requires WorldInv(cfg, lease, w) && Valid(cfg, lease, w, acts) && StaleClaim(w, e, t)
    ensures var w' := Run(cfg, lease, w, acts);
            && StaleClaim(w', e, t)
            && forall delivered, now :: FinishDelivery(w'.job.db.callbacks, e, t, delivered, now) == (w'.job.db.callbacks, false)
    decreases |acts|
  {
    hide WorldInv, Step, Enabled;
    if acts != [] {
      WorldStep(cfg, lease, w, acts[0]);
      StaleClaimStep(cfg, lease, w, acts[0], e, t);
      StaleClaimForever(cfg, lease, Step(cfg, lease, w, acts[0]), acts[1..], e, t);
    }
  }
}
