/** The dispatcher's batch as the protocol sees it: without interference, the batch is the run
    that selects the events and handles them one after the other. */
module BatchRuns {
  import opened Common
  import opened Tables
  import opened Transactions
  import opened JobSystem
  import opened Dispatch
  import C = CallbackDelivery

  /** One `DispatchNext` per event. */
  function Handlings(disp: nat, ids: seq<EventId>, fate: EventId -> LiveOutcome): seq<Action>
    decreases |ids|
  {
    if ids == [] then []
    else Handlings(disp, ids[..|ids| - 1], fate) + [DispatchNext(disp, fate(ids[|ids| - 1]))]
  }

  /** The messages of a batch: one fresh `generation.process` per announced generation. */
  function Mail(sent: seq<GenerationId>): multiset<Message>
    decreases |sent|
  {
    if sent == [] then multiset{} else Mail(sent[..|sent| - 1]) + multiset{Process(sent[|sent| - 1], 0)}
  }

  lemma MailBack(sent: seq<GenerationId>, g: GenerationId)
    ensures Mail(sent + [g]) == Mail(sent) + multiset{Process(g, 0)}
  {
    assert (sent + [g])[..|sent|] == sent;
  }

  /** The state once the events `ids` are handled and `rest` remain. */
  function Handled(s: Sys, disp: nat, ids: seq<EventId>, rest: seq<EventId>, fate: EventId -> LiveOutcome): Sys {
    var (db, sent) := DispatchEvents(s.db, ids, fate, s.now);
    s.(db := db, broker := s.broker + Mail(sent), dispatchers := s.dispatchers[disp := rest])
  }

  /** One iteration of the loop is one step of the dispatcher. */
  lemma IterationIsStep(s: Sys, disp: nat, sent: seq<GenerationId>, e: EventId, rest: seq<EventId>, fate: EventId -> LiveOutcome,
                        broker: multiset<Message>)
    requires disp in s.dispatchers && s.dispatchers[disp] == [e] + rest && s.broker == broker + Mail(sent)
    ensures var (db, sent') := DispatchOne(s.db, sent, e, fate, s.now);
            DoDispatch(s, disp, fate(e)) ==
            s.(db := db, broker := broker + Mail(sent'), dispatchers := s.dispatchers[disp := rest])
  {
    hide PublishEvent, NoteDispatchFailure, Mail;
    assert s.dispatchers[disp][0] == e && s.dispatchers[disp][1..] == rest;
    if e in s.db.outbox {
      var m := multiset{Process(s.db.outbox[e].generation, 0)};
      MailBack(sent, s.db.outbox[e].generation);
      assert broker + Mail(sent) + m == broker + (Mail(sent) + m);
    }
  }

  lemma HandleNext(cfg: Config, s: Sys, disp: nat, ids: seq<EventId>, e: EventId, rest: seq<EventId>, fate: EventId -> LiveOutcome)
    ensures var a := DispatchNext(disp, fate(e));
            var before := Handled(s, disp, ids, [e] + rest, fate);
            Enabled(cfg, before, a) && Step(cfg, before, a) == Handled(s, disp, ids + [e], rest, fate)
  {
    hide DoDispatch, DispatchEvents, DispatchOne, Mail, IsBatch;
    var sent := DispatchEvents(s.db, ids, fate, s.now).1;
    DispatchMore(s.db, ids, e, fate, s.now);
    IterationIsStep(Handled(s, disp, ids, [e] + rest, fate), disp, sent, e, rest, fate, s.broker);
    assert s.dispatchers[disp := [e] + rest][disp := rest] == s.dispatchers[disp := rest];
  }

  lemma {:induction false} HandleAll(cfg: Config, s: Sys, disp: nat, ids: seq<EventId>, rest: seq<EventId>, fate: EventId -> LiveOutcome)
    ensures Valid(cfg, Handled(s, disp, [], ids + rest, fate), Handlings(disp, ids, fate))
    ensures Run(cfg, Handled(s, disp, [], ids + rest, fate), Handlings(disp, ids, fate)) == Handled(s, disp, ids, rest, fate)
    decreases |ids|
  {
    hide Enabled, Step, Handled;
    if ids == [] {
      assert ids + rest == rest;
    } else {
      var front, e := ids[..|ids| - 1], ids[|ids| - 1];
      var start := Handled(s, disp, [], ids + rest, fate);
      assert front + ([e] + rest) == ids + rest && front + [e] == ids;
      HandleAll(cfg, s, disp, front, [e] + rest, fate);
      HandleNext(cfg, s, disp, front, e, rest, fate);
      var last := [DispatchNext(disp, fate(e))];
      var mid := Handled(s, disp, front, [e] + rest, fate);
      assert Valid(cfg, Step(cfg, mid, last[0]), last[1..]);
      assert Valid(cfg, mid, last) && Run(cfg, mid, last) == Step(cfg, mid, last[0]);
      RunAppend(cfg, start, Handlings(disp, front, fate), last);
    }
  }

  /** From any state, a batch nobody interferes with is a run of the protocol: it ends with the
      tables of `DispatchEvents` and one message in the broker per accepted event. */
  lemma BatchIsRun(cfg: Config, s: Sys, disp: nat, ids: seq<EventId>, fate: EventId -> LiveOutcome)
    requires disp !in s.dispatchers && IsBatch(PendingEvents(s.db), cfg.batchLimit, ids)
    ensures var acts := [SelectPending(disp, ids)] + Handlings(disp, ids, fate);
            var (db, sent) := DispatchEvents(s.db, ids, fate, s.now);
            Valid(cfg, s, acts) &&
            Run(cfg, s, acts) == s.(db := db, broker := s.broker + Mail(sent), dispatchers := s.dispatchers[disp := []])
  {
    var first := SelectPending(disp, ids);
    var s1 := Step(cfg, s, first);
    assert ids + [] == ids;
    assert s1 == Handled(s, disp, [], ids + [], fate);
    hide IsBatch, DispatchEvents;
    HandleAll(cfg, s, disp, ids, [], fate);
    var acts := [first] + Handlings(disp, ids, fate);
    assert acts[0] == first && acts[1..] == Handlings(disp, ids, fate);
  }

  /** One iteration of the callback dispatcher is one of its steps, under the clock reading of the
      start of its round. */
  lemma CallbackIterationIsStep(w: C.World, disp: nat, sent: seq<EventId>, e: EventId, rest: seq<EventId>, fate: EventId -> C.LiveSending)
    requires disp in w.rounds && w.rounds[disp].ids == [e] + rest
    ensures var started := w.rounds[disp].started;
            var (rows, sent') := C.ReserveOne(w.job.db.callbacks, sent, e, fate, started);
            C.DoReserve(w, disp, fate(e)) ==
            w.(job := w.job.(db := w.job.db.(callbacks := rows)), rounds := w.rounds[disp := C.Round(started, rest)],
               mail := w.mail + if |sent'| > |sent| then multiset{e} else multiset{})
  {
    hide C.Due, C.Passed;
    assert w.rounds[disp].ids[0] == e && w.rounds[disp].ids[1..] == rest;
    assert w.mail + multiset{} == w.mail;
  }
}
