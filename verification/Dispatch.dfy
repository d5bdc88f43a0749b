/** What a whole batch of the outbox dispatcher amounts to when nothing interferes, and how
    many batches drain the outbox. */
module Dispatch {
  import opened Common
  import opened Tables
  import opened Transactions
  import opened JobSystem
  import opened TableInvariant

  /** The batch loop: event by event, in order; `fate(e)` says how the transaction of `e` goes. */
  function DispatchEvents(db: Db, ids: seq<EventId>, fate: EventId -> LiveOutcome, now: int): (Db, seq<GenerationId>)
    decreases |ids|
  {
    if ids == [] then (db, [])
    else
      var (before, sent) := DispatchEvents(db, ids[..|ids| - 1], fate, now);
      DispatchOne(before, sent, ids[|ids| - 1], fate, now)
  }

  function DispatchOne(db: Db, sent: seq<GenerationId>, e: EventId, fate: EventId -> LiveOutcome, now: int): (Db, seq<GenerationId>) {
    if e !in db.outbox || db.outbox[e].processedAt.Some? || fate(e) == SkippedLocked then (db, sent)
    else
      (if fate(e) == Published then PublishEvent(db, e, now) else NoteDispatchFailure(db, e),
       if Sends(fate(e)) then sent + [db.outbox[e].generation] else sent)
  }

  lemma DispatchMore(db: Db, ids: seq<EventId>, e: EventId, fate: EventId -> LiveOutcome, now: int)
    ensures var (before, sent) := DispatchEvents(db, ids, fate, now);
            DispatchEvents(db, ids + [e], fate, now) == DispatchOne(before, sent, e, fate, now)
  {
    assert (ids + [e])[..|ids|] == ids;
  }

  /** The generations whose messages the broker accepted, in the order of the batch. */
  function Accepted(outbox: map<EventId, OutboxEvent>, ids: seq<EventId>, fate: EventId -> LiveOutcome): seq<GenerationId>
    decreases |ids|
  {
    if ids == [] then []
    else
      var e := ids[|ids| - 1];
      Accepted(outbox, ids[..|ids| - 1], fate) + if e in outbox && Sends(fate(e)) then [outbox[e].generation] else []
  }

  function EventAfter(event: OutboxEvent, selected: bool, o: LiveOutcome, now: int): OutboxEvent {
    if !selected || o == SkippedLocked then event
    else if o == Published then event.(processedAt := Some(now), attempts := event.attempts + 1)
    else event.(attempts := event.attempts + 1)
  }

  /** Some published event of the batch belongs to `g`. */
  ghost predicate Announces(outbox: map<EventId, OutboxEvent>, ids: seq<EventId>, fate: EventId -> LiveOutcome, g: GenerationId) {
    exists e :: e in ids && e in outbox && fate(e) == Published && outbox[e].generation == g
  }

  ghost predicate AllPending(db: Db, ids: seq<EventId>) {
    NoDup(ids) && forall e :: e in ids ==> e in PendingEvents(db)
  }

  /** A published event is marked processed; an event whose publication or commit fails stays
      pending; both count the attempt.  Locked and other events are left alone. */
  ghost predicate EventsAfter(outbox: map<EventId, OutboxEvent>, ids: seq<EventId>, fate: EventId -> LiveOutcome, now: int,
                              outbox': map<EventId, OutboxEvent>) {
    && outbox'.Keys == outbox.Keys
    && forall e :: e in outbox ==> outbox'[e] == EventAfter(outbox[e], e in ids, fate(e), now)
  }

  /** Exactly the generations of published events leave the status `created`. */
  ghost predicate RowsAfter(db: Db, ids: seq<EventId>, fate: EventId -> LiveOutcome, now: int, gens': map<GenerationId, Generation>) {
    && gens'.Keys == db.generations.Keys
    && forall g :: g in gens' ==>
         gens'[g] == if Announces(db.outbox, ids, fate, g) then Enqueued(db.generations[g], now) else db.generations[g]
  }

  ghost predicate BatchEffect(db: Db, ids: seq<EventId>, fate: EventId -> LiveOutcome, now: int, db': Db, sent: seq<GenerationId>) {
    && db' == db.(outbox := db'.outbox, generations := db'.generations)
    && EventsAfter(db.outbox, ids, fate, now, db'.outbox)
    && RowsAfter(db, ids, fate, now, db'.generations)
    && sent == Accepted(db.outbox, ids, fate)
  }

  lemma AnnouncesMore(outbox: map<EventId, OutboxEvent>, front: seq<EventId>, e: EventId, fate: EventId -> LiveOutcome, g: GenerationId)
    ensures Announces(outbox, front + [e], fate, g) <==>
              Announces(outbox, front, fate, g) || (e in outbox && fate(e) == Published && outbox[e].generation == g)
  {
    if Announces(outbox, front, fate, g) {
      var x :| x in front && x in outbox && fate(x) == Published && outbox[x].generation == g;
      assert x in front + [e];
    }
    if e in outbox && fate(e) == Published && outbox[e].generation == g { assert e in front + [e]; }
  }

  lemma LastEvent(outbox: map<EventId, OutboxEvent>, front: seq<EventId>, e: EventId, fate: EventId -> LiveOutcome, now: int, mid: map<EventId, OutboxEvent>)
    requires EventsAfter(outbox, front, fate, now, mid) && e in outbox && e !in front
    ensures e in mid && mid[e] == outbox[e]
    ensures EventsAfter(outbox, front + [e], fate, now, mid[e := EventAfter(mid[e], true, fate(e), now)])
  {
    assert forall x :: x in front + [e] <==> x in front || x == e;
    hide EventAfter;
  }

  lemma LastRow(db: Db, front: seq<EventId>, e: EventId, fate: EventId -> LiveOutcome, now: int, mid: map<GenerationId, Generation>)
    requires RowsAfter(db, front, fate, now, mid) && e in db.outbox && db.outbox[e].generation in db.generations
    ensures var g := db.outbox[e].generation;
            RowsAfter(db, front + [e], fate, now, if fate(e) == Published then mid[g := Enqueued(mid[g], now)] else mid)
  {
    var g := db.outbox[e].generation;
    forall x ensures Announces(db.outbox, front + [e], fate, x) <==> Announces(db.outbox, front, fate, x) || (fate(e) == Published && x == g) {
      AnnouncesMore(db.outbox, front, e, fate, x);
    }
    hide Announces;
  }

  lemma DispatchOneEffect(mid: Db, sent: seq<GenerationId>, e: EventId, fate: EventId -> LiveOutcome, now: int)
    requires e in PendingEvents(mid) && mid.outbox[e].generation in mid.generations
    ensures var g := mid.outbox[e].generation;
            var (db', sent') := DispatchOne(mid, sent, e, fate, now);
            && db'.outbox == mid.outbox[e := EventAfter(mid.outbox[e], true, fate(e), now)]
            && db'.generations == (if fate(e) == Published then mid.generations[g := Enqueued(mid.generations[g], now)] else mid.generations)
            && db' == mid.(outbox := db'.outbox, generations := db'.generations)
            && sent' == sent + if Sends(fate(e)) then [g] else []
  {
    hide Enqueued;
  }

  lemma AcceptedMore(outbox: map<EventId, OutboxEvent>, front: seq<EventId>, e: EventId, fate: EventId -> LiveOutcome)
    requires e in outbox
    ensures Accepted(outbox, front + [e], fate) == Accepted(outbox, front, fate) + if Sends(fate(e)) then [outbox[e].generation] else []
  {
    assert (front + [e])[..|front|] == front;
  }

  lemma LastEffect(db: Db, front: seq<EventId>, e: EventId, fate: EventId -> LiveOutcome, now: int, mid: Db, sent: seq<GenerationId>)
    requires e !in front && e in PendingEvents(db) && db.outbox[e].generation in db.generations
    requires BatchEffect(db, front, fate, now, mid, sent)
    ensures var (db', sent') := DispatchOne(mid, sent, e, fate, now);
            BatchEffect(db, front + [e], fate, now, db', sent')
  {
    LastEvent(db.outbox, front, e, fate, now, mid.outbox);
    LastRow(db, front, e, fate, now, mid.generations);
    KeysAfter(db, front, fate, now, mid.generations);
    AcceptedMore(db.outbox, front, e, fate);
    hide EventsAfter, RowsAfter, Enqueued, EventAfter, Accepted, DispatchOne;
    assert e in mid.outbox && e in PendingEvents(mid);
    DispatchOneEffect(mid, sent, e, fate, now);
  }

  lemma KeysAfter(db: Db, ids: seq<EventId>, fate: EventId -> LiveOutcome, now: int, gens': map<GenerationId, Generation>)
    requires RowsAfter(db, ids, fate, now, gens')
    ensures gens'.Keys == db.generations.Keys
  {
  }

  /** A batch, read off row by row. */
  lemma {:induction false} DispatchEffect(db: Db, ids: seq<EventId>, fate: EventId -> LiveOutcome, now: int)
    requires OutboxOk(db.generations, db.outbox) && AllPending(db, ids)
    ensures var (db', sent) := DispatchEvents(db, ids, fate, now);
            BatchEffect(db, ids, fate, now, db', sent)
    decreases |ids|
  {
    hide HasOutbox;
    if ids != [] {
      var front, e := ids[..|ids| - 1], ids[|ids| - 1];
      assert ids == front + [e];
      assert e in PendingEvents(db) && e !in front;
      DispatchEffect(db, front, fate, now);
      var (mid, sent) := DispatchEvents(db, front, fate, now);
      LastEffect(db, front, e, fate, now, mid, sent);
      hide BatchEffect, DispatchOne;
    } else {
      assert forall g :: !Announces(db.outbox, ids, fate, g);
    }
  }

  /** A batch over a selection keeps the table constraints. */
  lemma SelectedBatch(db: Db, ids: seq<EventId>, limit: nat, fate: EventId -> LiveOutcome, now: int)
    requires TablesInv(db) && IsBatch(PendingEvents(db), limit, ids)
    ensures var (db', sent) := DispatchEvents(db, ids, fate, now);
            BatchEffect(db, ids, fate, now, db', sent) && TablesInv(db')
  {
    assert AllPending(db, ids);
    hide IsBatch, CallbacksOk;
    DispatchEffect(db, ids, fate, now);
    hide BatchEffect;
    BatchKeepsOutbox(db, ids, fate, now, DispatchEvents(db, ids, fate, now).0, DispatchEvents(db, ids, fate, now).1);
  }

  // ----- Draining ------------------------------------------------------------------------------------

  const AcceptAll: EventId -> LiveOutcome := e => Published

  /** `k` batches of at most `limit` events each, every publication accepted, however ties are
      broken, lead from `db` to `db'`. */
  ghost predicate Batches(db: Db, k: nat, limit: nat, now: int, db': Db)
    decreases k
  {
    if k == 0 then db' == db
    else exists ids :: IsBatch(PendingEvents(db), limit, ids) && Batches(DispatchEvents(db, ids, AcceptAll, now).0, k - 1, limit, now, db')
  }

  lemma PendingLeft(db: Db, ids: seq<EventId>, now: int, db': Db)
    requires EventsAfter(db.outbox, ids, AcceptAll, now, db'.outbox)
    ensures PendingEvents(db').Keys == PendingEvents(db).Keys - set e | e in ids
  {
  }

  lemma BatchShrinks(db: Db, ids: seq<EventId>, now: int, db': Db, sent: seq<GenerationId>)
    requires AllPending(db, ids) && BatchEffect(db, ids, AcceptAll, now, db', sent)
    ensures |PendingEvents(db')| == |PendingEvents(db)| - |ids|
  {
    hide RowsAfter, EventsAfter;
    var taken := set e | e in ids;
    PendingLeft(db, ids, now, db');
    hide BatchEffect;
    NoDupCount(ids, taken);
    ElementsCount(ids, taken);
    assert taken <= PendingEvents(db).Keys;
  }

  lemma BatchKeepsOutbox(db: Db, ids: seq<EventId>, fate: EventId -> LiveOutcome, now: int, db': Db, sent: seq<GenerationId>)
    requires TablesInv(db) && BatchEffect(db, ids, fate, now, db', sent)
    ensures TablesInv(db')
  {
    hide OutboxOk, CallbacksOk, RowsAfter, Announces;
    RowsKept(db, ids, fate, now, db'.generations);
    KeysAfter(db, ids, fate, now, db'.generations);
    RowsKeep(db, db'.generations);
    EventGenerations(db.outbox, ids, fate, now, db'.outbox);
    EventsClosed(db.generations, db.outbox);
    forall e | e in db.outbox && db'.generations[db.outbox[e].generation].status == Created ensures db'.outbox[e].processedAt.None? {
      CreatedStaysPending(db, ids, fate, now, db', sent, e);
    }
    hide EventsAfter;
    OutboxKeeps(db'.generations, db.outbox, db'.outbox);
  }

  lemma EventsClosed(gens: map<GenerationId, Generation>, outbox: map<EventId, OutboxEvent>)
    requires OutboxOk(gens, outbox)
    ensures forall e :: e in outbox ==> outbox[e].generation in gens
  {
  }

  lemma EventGenerations(outbox: map<EventId, OutboxEvent>, ids: seq<EventId>, fate: EventId -> LiveOutcome, now: int, outbox': map<EventId, OutboxEvent>)
    requires EventsAfter(outbox, ids, fate, now, outbox')
    ensures outbox'.Keys == outbox.Keys && forall e :: e in outbox ==> outbox'[e].generation == outbox[e].generation
  {
  }

  lemma CreatedStaysPending(db: Db, ids: seq<EventId>, fate: EventId -> LiveOutcome, now: int, db': Db, sent: seq<GenerationId>, e: EventId)
    requires OutboxOk(db.generations, db.outbox) && BatchEffect(db, ids, fate, now, db', sent) && e in db.outbox
    requires db'.generations[db.outbox[e].generation].status == Created
    ensures db'.outbox[e].processedAt.None?
  {
    hide HasOutbox;
    var g := db.outbox[e].generation;
    assert e in ids && fate(e) == Published ==> Announces(db.outbox, ids, fate, g);
  }

  lemma RowsKept(db: Db, ids: seq<EventId>, fate: EventId -> LiveOutcome, now: int, gens': map<GenerationId, Generation>)
    requires RowsAfter(db, ids, fate, now, gens')
    ensures forall g :: g in gens' ==> SameIdentity(db.generations[g], gens'[g]) && gens'[g].Terminal() == db.generations[g].Terminal()
  {
    hide Announces;
  }

  /** Without failures and new arrivals, n pending events are n - k*limit after k batches, and
      so the outbox is empty exactly from the ceil(n/limit)-th batch on. */
  lemma {:induction false} BatchesDrain(db: Db, k: nat, limit: nat, now: int, db': Db)
    requires TablesInv(db) && Batches(db, k, limit, now, db')
    ensures |PendingEvents(db')| == Max(0, |PendingEvents(db)| - k * limit)
    ensures limit > 0 ==> (PendingEvents(db') == map[] <==> k >= (|PendingEvents(db)| + limit - 1) / limit)
    decreases k
  {
    hide TablesInv, IsBatch, PendingEvents, DispatchEvents;
    var n := |PendingEvents(db)|;
    if k > 0 {
      var ids :| IsBatch(PendingEvents(db), limit, ids) && Batches(DispatchEvents(db, ids, AcceptAll, now).0, k - 1, limit, now, db');
      var db1 := DispatchEvents(db, ids, AcceptAll, now).0;
      OneBatch(db, ids, limit, now);
      BatchesDrain(db1, k - 1, limit, now, db');
      DrainArithmetic(n, k, limit);
    }
    if limit > 0 {
      CeilDiv(n, k, limit);
      assert PendingEvents(db') == map[] <==> |PendingEvents(db')| == 0;
    }
  }

  lemma DrainArithmetic(n: nat, k: nat, limit: nat)
    requires k > 0
    ensures Max(0, n - Min(limit, n) - (k - 1) * limit) == Max(0, n - k * limit)
  {
    assert k * limit == (k - 1) * limit + limit;
    assert (k - 1) * limit >= 0;
  }

  lemma OneBatch(db: Db, ids: seq<EventId>, limit: nat, now: int)
    requires TablesInv(db) && IsBatch(PendingEvents(db), limit, ids)
    ensures var db1 := DispatchEvents(db, ids, AcceptAll, now).0;
            TablesInv(db1) && |PendingEvents(db1)| == |PendingEvents(db)| - Min(limit, |PendingEvents(db)|)
  {
    assert AllPending(db, ids);
    assert |ids| == Min(limit, |PendingEvents(db)|);
    hide IsBatch;
    var (db1, sent) := DispatchEvents(db, ids, AcceptAll, now);
    DispatchEffect(db, ids, AcceptAll, now);
    BatchShrinks(db, ids, now, db1, sent);
    assert forall e :: e in ids ==> e in db.outbox;
    BatchKeepsOutbox(db, ids, AcceptAll, now, db1, sent);
    hide TablesInv, BatchEffect;
  }

  lemma CeilDiv(n: nat, k: nat, limit: nat)
    requires limit > 0
    ensures n <= k * limit <==> k >= (n + limit - 1) / limit
  {
    var q := (n + limit - 1) / limit;
    assert q * limit <= n + limit - 1 < (q + 1) * limit;
    if k >= q { assert k * limit >= q * limit; } else { assert k * limit <= (q - 1) * limit; }
  }
}
