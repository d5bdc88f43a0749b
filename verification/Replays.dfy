/** Idempotency over whole runs: once a payment or a create command has succeeded, every
    replay of it, at any later point of any run, changes nothing and returns what the first
    success returned.  Erasing the replays from a run gives the same final state. */
module Replays {
  import opened Common
  import opened Tables
  import opened Transactions
  import opened JobSystem
  import opened JobInvariant
  import opened TableInvariant
  import opened Fencing
  import opened Ledger

  ghost predicate PaymentSettled(db: Db, x: string, u: UserId, amount: int) {
    x in db.payments && db.payments[x] == Payment(u, amount)
  }

  ghost predicate RequestSettled(db: Db, g: GenerationId, cmd: Command) {
    HoldsKey(db, g, cmd.user, cmd.key) && db.generations[g].request == cmd.request
  }

  /** The action repeats a command that already succeeded.  A replayed create may carry
      another (positive) price: tariffs can change between the two calls. */
  ghost predicate IsReplay(s: Sys, a: Action) {
    || (a.Pay? && PaymentSettled(s.db, a.externalId, a.user, a.amount))
    || (a.Create? && a.cost > 0 && exists g :: RequestSettled(s.db, g, a.cmd))
  }

  // ----- First success, then absorption ------------------------------------------------------------

  lemma PaySettles(db: Db, x: string, u: UserId, amount: int)
    requires ApplyCredit(db, x, u, amount).1.Applied?
    ensures PaymentSettled(ApplyCredit(db, x, u, amount).0, x, u, amount)
  {
  }

  lemma CreateSettles(db: Db, cmd: Command, cost: int, g: GenerationId, e: EventId, now: int)
    requires CreateAndCharge(db, cmd, cost, g, e, now).1.Opened?
    ensures CreateAndCharge(db, cmd, cost, g, e, now).1 == Opened(g)
    ensures RequestSettled(CreateAndCharge(db, cmd, cost, g, e, now).0, g, cmd)
  {
  }

  lemma PayReplayed(db: Db, x: string, u: UserId, amount: int)
    requires TablesInv(db) && PaymentSettled(db, x, u, amount)
    ensures ApplyCredit(db, x, u, amount) == (db, CreditReply.Duplicate(db.balances[u]))
  {
    hide OutboxOk, CallbacksOk, KeysOk;
  }

  /** The replay of a settled create returns the generation of its first success. */
  lemma CreateReplayed(db: Db, cmd: Command, cost: int, first: GenerationId, g: GenerationId, e: EventId, now: int)
    requires TablesInv(db) && RequestSettled(db, first, cmd) && cost > 0
    ensures CreateAndCharge(db, cmd, cost, g, e, now) == (db, Replayed(first))
  {
    hide OutboxOk, CallbacksOk, UsersOk;
    assert HoldsKey(db, first, cmd.user, cmd.key);
    forall x | HoldsKey(db, x, cmd.user, cmd.key) ensures x == first {}
  }

  /** A key in use by a different request is a conflict, and so is an external id in use by a
      different payment; neither changes any table. */
  lemma Conflicts(db: Db, cmd: Command, cost: int, first: GenerationId, g: GenerationId, e: EventId, now: int,
                  x: string, u: UserId, amount: int)
    requires TablesInv(db)
    ensures cost > 0 && HoldsKey(db, first, cmd.user, cmd.key) && db.generations[first].request != cmd.request ==>
              CreateAndCharge(db, cmd, cost, g, e, now) == (db, IdempotencyConflict)
    ensures x in db.payments && db.payments[x] != Payment(u, amount) ==>
              ApplyCredit(db, x, u, amount) == (db, if u !in db.balances then UserNotFound
                                                    else if amount <= 0 then AmountRejected else PaymentConflict)
  {
    hide OutboxOk, CallbacksOk, UsersOk;
    if HoldsKey(db, first, cmd.user, cmd.key) {
      forall y | HoldsKey(db, y, cmd.user, cmd.key) ensures y == first {}
    }
  }

  /** A create succeeds exactly when the price is positive, the key is free and the balance
      suffices.  Then there is a new row for the command as it was given, waiting with a pending
      event since now, and the price is off this balance; nothing else has changed.  Otherwise no
      table has, so the key stays free; the reply tells why. */
  lemma CreateSucceedsExactlyWhen(db: Db, cmd: Command, cost: int, g: GenerationId, e: EventId, now: int)
    requires g !in db.generations && e !in db.outbox
    ensures var (db', reply) := CreateAndCharge(db, cmd, cost, g, e, now);
            var free, known := !KeyUsed(db, cmd.user, cmd.key), cmd.user in db.balances;
            && (reply == Opened(g) <==> cost > 0 && free && known && db.balances[cmd.user] >= cost)
            && (reply == InsufficientBalance <==> cost > 0 && free && known && db.balances[cmd.user] < cost)
            && (reply == RowRejected <==> cost <= 0 || (free && !known))
            && (reply != Opened(g) ==> db' == db)
            && (reply == Opened(g) ==> Bought(db, cmd, cost, g, e, now, db') && KeyUsed(db', cmd.user, cmd.key))
  {
    if CreateAndCharge(db, cmd, cost, g, e, now).1.Opened? {
      CreateSettles(db, cmd, cost, g, e, now);
      assert HoldsKey(CreateAndCharge(db, cmd, cost, g, e, now).0, g, cmd.user, cmd.key);
    }
  }

  /** The tables after a purchase. */
  ghost predicate Bought(db: Db, cmd: Command, cost: int, g: GenerationId, e: EventId, now: int, db': Db) {
    && db' == db.(balances := db'.balances, generations := db'.generations, outbox := db'.outbox)
    && db'.generations - {g} == db.generations && db'.outbox - {e} == db.outbox
    && db'.balances.Keys == db.balances.Keys
    && (forall u :: u in db.balances ==> db'.balances[u] == if u == cmd.user then db.balances[u] - cost else db.balances[u])
    && g in db'.generations && e in db'.outbox && db'.outbox[e].generation == g
    && var row, event := db'.generations[g], db'.outbox[e];
       && row.user == cmd.user && row.key == cmd.key && row.request == cmd.request && row.cost == cost
       && row.status == Created && row.attempts == 0 && row.result.None? && row.requestId.None? && row.provider.None?
       && event.processedAt.None? && event.attempts == 0
       && row.createdAt == row.updatedAt == event.createdAt == now
  }

  /** A payment is applied exactly when the user exists, the amount is positive and the external id
      is free.  Then it is recorded, and the reply tells the balance after it, which is the only one
      to change.  Every other reply leaves the tables as they were. */
  lemma PaymentAppliesExactlyWhen(db: Db, x: string, u: UserId, amount: int)
    ensures var (db', reply) := ApplyCredit(db, x, u, amount);
            var valid := u in db.balances && amount > 0;
            && (reply.Applied? <==> valid && x !in db.payments)
            && (reply.Duplicate? <==> valid && x in db.payments && db.payments[x].user == u && db.payments[x].amount == amount)
            && (reply == PaymentConflict <==> valid && x in db.payments && (db.payments[x].user != u || db.payments[x].amount != amount))
            && (reply == UserNotFound <==> u !in db.balances)
            && (reply == AmountRejected <==> u in db.balances && amount <= 0)
            && (reply.Applied? ==>
                  && db' == db.(balances := db'.balances, payments := db'.payments)
                  && db'.payments - {x} == db.payments && x in db'.payments
                  && db'.payments[x].user == u && db'.payments[x].amount == amount
                  && db'.balances.Keys == db.balances.Keys
                  && (forall v :: v in db.balances && v != u ==> db'.balances[v] == db.balances[v])
                  && reply.balance == db'.balances[u] == db.balances[u] + amount)
            && (reply.Duplicate? ==> reply.balance == db.balances[u])
            && (!reply.Applied? ==> db' == db)
  {
  }

  /** Whether applied now or earlier, the balance a payer is told is what the books say: all
      payments of the account, this one included, less all its charges that were not refunded. */
  lemma PayersAreToldTheBooks(cfg: Config, s: Sys, x: string, u: UserId, amount: int)
    requires Reachable(cfg, s)
    ensures var (db', reply) := ApplyCredit(s.db, x, u, amount);
            (reply.Applied? || reply.Duplicate? ==>
              && PaymentSettled(db', x, u, amount)
              && reply.balance == Total(CreditsOf(db'.payments, {u})) - Total(ChargesOf(db'.generations, {u})))
  {
    var reply := ApplyCredit(s.db, x, u, amount).1;
    if reply.Applied? || reply.Duplicate? {
      ReachableNext(cfg, s, Pay(x, u, amount));
      PayIsCredit(cfg, s, x, u, amount);
      hide Reachable, Step, Enabled;
      AccountBalances(cfg, Step(cfg, s, Pay(x, u, amount)), u);
    }
  }

  lemma PayIsCredit(cfg: Config, s: Sys, x: string, u: UserId, amount: int)
    ensures Enabled(cfg, s, Pay(x, u, amount))
    ensures Step(cfg, s, Pay(x, u, amount)).db == ApplyCredit(s.db, x, u, amount).0
  {
  }

  lemma ReachableNext(cfg: Config, s: Sys, a: Action)
    requires Reachable(cfg, s) && Enabled(cfg, s, a)
    ensures Reachable(cfg, Step(cfg, s, a))
  {
    hide Step, Enabled;
    var acts :| Valid(cfg, Init, acts) && Run(cfg, Init, acts) == s;
    var s' := Step(cfg, s, a);
    assert Valid(cfg, s', []);
    assert [a][1..] == [];
    RunAppend(cfg, Init, acts, [a]);
  }

  // ----- Settled commands stay settled ------------------------------------------------------------------

  lemma SettledRequestStep(cfg: Config, s: Sys, a: Action, g: GenerationId, cmd: Command)
    requires Inv(cfg, s) && Enabled(cfg, s, a) && RequestSettled(s.db, g, cmd)
    ensures RequestSettled(Step(cfg, s, a).db, g, cmd)
  {
    hide Inv, Enabled, Step;
    EveryRowMove(cfg, s, a, g);
  }

  lemma {:induction false} RequestStaysSettled(cfg: Config, s: Sys, acts: seq<Action>, g: GenerationId, cmd: Command)
    requires Inv(cfg, s) && Valid(cfg, s, acts) && RequestSettled(s.db, g, cmd)
    ensures RequestSettled(Run(cfg, s, acts).db, g, cmd)
    decreases |acts|
  {
    hide Inv, Enabled, Step, RequestSettled;
    if acts != [] {
      SettledRequestStep(cfg, s, acts[0], g, cmd);
      InvStep(cfg, s, acts[0]);
      RequestStaysSettled(cfg, Step(cfg, s, acts[0]), acts[1..], g, cmd);
    }
  }

  lemma FailKeepsPayments(cfg: Config, s: Sys, a: Action)
    requires Enabled(cfg, s, a) && a.Fail?
    ensures Step(cfg, s, a).db.payments == s.db.payments
  {
    FailDb(cfg, s, a.w, a.e);
    var v := s.workers[a.w];
    hide FailAndRefund, Step;
    RefundedRows(s.db, v.generation, v.phase.token, v.phase.code, a.e, s.now);
  }

  lemma SettledPaymentStep(cfg: Config, s: Sys, a: Action, x: string, u: UserId, amount: int)
    requires Inv(cfg, s) && Enabled(cfg, s, a) && PaymentSettled(s.db, x, u, amount)
    ensures PaymentSettled(Step(cfg, s, a).db, x, u, amount)
  {
    hide Inv;
    if a.Fail? {
      hide Step, Enabled;
      FailKeepsPayments(cfg, s, a);
    } else if !MovesMoney(a) {
      hide Step, Enabled;
      BooksUntouched(cfg, s, a);
    } else {
      hide TaskStep, TaskEnabled, DispatchStep, DispatchEnabled, EnvironmentStep, EnvironmentEnabled, CreateAndCharge, ApplyCredit, PaymentSettled;
      if a.Pay? { CreditKeepsSettled(s.db, a.externalId, a.user, a.amount, x, u, amount); }
      else if a.Create? { CreateKeepsPayments(s.db, a.cmd, a.cost, a.g, a.e, s.now); SamePayments(s.db, Step(cfg, s, a).db, x, u, amount); }
      else { SamePayments(s.db, Step(cfg, s, a).db, x, u, amount); }
    }
  }

  lemma CreditKeepsSettled(db: Db, x: string, u: UserId, amount: int, y: string, v: UserId, paid: int)
    requires PaymentSettled(db, y, v, paid)
    ensures PaymentSettled(ApplyCredit(db, x, u, amount).0, y, v, paid)
  {
  }

  lemma CreateKeepsPayments(db: Db, cmd: Command, cost: int, g: GenerationId, e: EventId, now: int)
    ensures CreateAndCharge(db, cmd, cost, g, e, now).0.payments == db.payments
  {
    hide KeyUsed;
  }

  lemma SamePayments(db: Db, db': Db, x: string, u: UserId, amount: int)
    requires PaymentSettled(db, x, u, amount) && db'.payments == db.payments
    ensures PaymentSettled(db', x, u, amount)
  {
  }

  lemma {:induction false} PaymentStaysSettled(cfg: Config, s: Sys, acts: seq<Action>, x: string, u: UserId, amount: int)
    requires Inv(cfg, s) && Valid(cfg, s, acts) && PaymentSettled(s.db, x, u, amount)
    ensures PaymentSettled(Run(cfg, s, acts).db, x, u, amount)
    decreases |acts|
  {
    hide Inv, Enabled, Step, PaymentSettled;
    if acts != [] {
      SettledPaymentStep(cfg, s, acts[0], x, u, amount);
      InvStep(cfg, s, acts[0]);
      PaymentStaysSettled(cfg, Step(cfg, s, acts[0]), acts[1..], x, u, amount);
    }
  }

  // ----- The theorems --------------------------------------------------------------------------------------

  /** After a successful create, whatever happens in between, the same command returns the
      same generation and changes nothing. */
  lemma CreateOnce(cfg: Config, s: Sys, cmd: Command, cost: int, g: GenerationId, e: EventId,
                   acts: seq<Action>, cost': int, g': GenerationId, e': EventId)
    requires Inv(cfg, s) && Enabled(cfg, s, Create(cmd, cost, g, e))
    requires CreateAndCharge(s.db, cmd, cost, g, e, s.now).1.Opened?
    requires Valid(cfg, Step(cfg, s, Create(cmd, cost, g, e)), acts) && cost' > 0
    ensures var later := Run(cfg, Step(cfg, s, Create(cmd, cost, g, e)), acts);
            CreateAndCharge(later.db, cmd, cost', g', e', later.now) == (later.db, Replayed(g))
  {
    var s1 := Step(cfg, s, Create(cmd, cost, g, e));
    CreateSettles(s.db, cmd, cost, g, e, s.now);
    assert RequestSettled(s1.db, g, cmd);
    InvStep(cfg, s, Create(cmd, cost, g, e));
    hide Inv, Enabled, Step, CreateAndCharge;
    RequestStaysSettled(cfg, s1, acts, g, cmd);
    RunKeeps(cfg, s1, acts);
    var later := Run(cfg, s1, acts);
    assert TablesInv(later.db) by { TablesPart(cfg, later); }
    CreateReplayed(later.db, cmd, cost', g, g', e', later.now);
  }

  /** A payment event credits the account once, however often it is delivered. */
  lemma PayOnce(cfg: Config, s: Sys, x: string, u: UserId, amount: int, acts: seq<Action>)
    requires Inv(cfg, s) && ApplyCredit(s.db, x, u, amount).1.Applied?
    requires Valid(cfg, Step(cfg, s, Pay(x, u, amount)), acts)
    ensures var later := Run(cfg, Step(cfg, s, Pay(x, u, amount)), acts);
            u in later.db.balances && ApplyCredit(later.db, x, u, amount) == (later.db, CreditReply.Duplicate(later.db.balances[u]))
  {
    var s1 := Step(cfg, s, Pay(x, u, amount));
    PaySettles(s.db, x, u, amount);
    assert PaymentSettled(s1.db, x, u, amount);
    InvStep(cfg, s, Pay(x, u, amount));
    hide Inv, Enabled, Step;
    PaymentStaysSettled(cfg, s1, acts, x, u, amount);
    RunKeeps(cfg, s1, acts);
    TablesPart(cfg, Run(cfg, s1, acts));
    PayerExists(Run(cfg, s1, acts).db, x);
    PayReplayed(Run(cfg, s1, acts).db, x, u, amount);
  }

  lemma PayerExists(db: Db, x: string)
    requires TablesInv(db) && x in db.payments
    ensures db.payments[x].user in db.balances
  {
    hide OutboxOk, CallbacksOk, KeysOk;
  }

  lemma ReplayIsStutter(cfg: Config, s: Sys, a: Action)
    requires Inv(cfg, s) && Enabled(cfg, s, a) && IsReplay(s, a)
    ensures Step(cfg, s, a) == s
  {
    TablesPart(cfg, s);
    hide Inv, TablesInv, TaskStep, DispatchStep, EnvironmentStep, CreateAndCharge;
    if a.Pay? {
      PayerExists(s.db, a.externalId);
      PayReplayed(s.db, a.externalId, a.user, a.amount);
    } else {
      var first :| RequestSettled(s.db, first, a.cmd);
      CreateReplayed(s.db, a.cmd, a.cost, first, a.g, a.e, s.now);
    }
  }

  /** The run without its replays. */
  ghost function EraseReplays(cfg: Config, s: Sys, acts: seq<Action>): seq<Action>
    requires Valid(cfg, s, acts)
    decreases |acts|
  {
    if acts == [] then []
    else
      var rest := EraseReplays(cfg, Step(cfg, s, acts[0]), acts[1..]);
      if IsReplay(s, acts[0]) then rest else [acts[0]] + rest
  }

  /** Replays inserted anywhere after their first success make no difference: the run without
      them is a run too, and ends in the very same state. */
  lemma {:induction false} ReplaysAreAbsorbed(cfg: Config, s: Sys, acts: seq<Action>)
    requires Inv(cfg, s) && Valid(cfg, s, acts)
    ensures Valid(cfg, s, EraseReplays(cfg, s, acts))
    ensures Run(cfg, s, EraseReplays(cfg, s, acts)) == Run(cfg, s, acts)
    decreases |acts|
  {
    hide Inv, Enabled, Step, IsReplay;
    if acts != [] {
      var s' := Step(cfg, s, acts[0]);
      InvStep(cfg, s, acts[0]);
      ReplaysAreAbsorbed(cfg, s', acts[1..]);
      var rest := EraseReplays(cfg, s', acts[1..]);
      if IsReplay(s, acts[0]) {
        ReplayIsStutter(cfg, s, acts[0]);
      } else {
        assert ([acts[0]] + rest)[0] == acts[0] && ([acts[0]] + rest)[1..] == rest;
      }
    }
  }
}
