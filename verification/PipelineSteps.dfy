// Every step of the settlement pipeline keeps the invariant and only lets the
// system grow.
module PipelineSteps {
  import opened Prelude
  import opened Ledger
  import opened Pipeline
  import opened PipelineInvariants

  // ---- steps that leave the shape of the tables alone ----

  /** Same rows with the same contents, up to settlement status, attempts and marks. */
  ghost predicate SameSkeleton(a: Tables, b: Tables)
  {
    b.actions == a.actions && b.payments == a.payments && b.splits == a.splits && b.nextOutbox == a.nextOutbox &&
    b.settlements.Keys == a.settlements.Keys && b.outbox.Keys == a.outbox.Keys &&
    (forall x | x in a.settlements :: b.settlements[x].payment == a.settlements[x].payment) &&
    (forall o | o in a.outbox :: b.outbox[o].transfer == a.outbox[o].transfer)
  }

  lemma {:induction false} SkeletonKeepsRecords(s: Sys, t: Sys)
    requires TablesOk(s.db) && PaymentsAuthorized(s) && SplitsOk(s.db)
    requires SameSkeleton(s.db, t.db) && s.made <= t.made
    ensures TablesOk(t.db) && PaymentsAuthorized(t) && SplitsOk(t.db)
  {
    forall o | o in t.db.outbox
      ensures o < t.db.nextOutbox && Joined(t.db, t.db.outbox[o].transfer)
    {
      assert Joined(s.db, s.db.outbox[o].transfer);
    }
    forall a
      ensures SplitRowsOk(t.db, a)
    {
      assert SplitRowsOk(s.db, a);
    }
  }

  lemma {:induction false} SkeletonKeepsHandlers(s: Sys, t: Sys)
    requires HandlersOk(s) && SameSkeleton(s.db, t.db) && s.made <= t.made
    requires forall i | i in t.handlers :: i in s.handlers && t.handlers[i] == s.handlers[i]
    ensures HandlersOk(t)
  {
  }

  lemma {:induction false} KeepsOnchain(s: Sys, t: Sys)
    requires OnchainOk(s) && Grows(s, t) && t.db.onchain == s.db.onchain
    ensures OnchainOk(t)
  {
  }

  lemma {:induction false} KeepsClosed(s: Sys, t: Sys)
    requires ClosedOk(s) && Grows(s, t) && t.db.outbox.Keys == s.db.outbox.Keys
    requires forall o | o in t.db.outbox && t.db.outbox[o].doneAt.Some? :: s.db.outbox[o].doneAt.Some?
    ensures ClosedOk(t)
  {
  }

  lemma {:induction false} KeepsSettlements(s: Sys, t: Sys)
    requires SettlementsOk(s) && Grows(s, t) && t.db.settlements == s.db.settlements
    ensures SettlementsOk(t)
  {
  }

  /** All workers but at most one are as they were. */
  lemma {:induction false} KeepsWorkers(s: Sys, t: Sys, id: nat)
    requires WorkersOk(s) && Grows(s, t)
    requires forall w | w in t.workers && w != id :: t.workers[w] == s.workers[w]
    requires id in t.workers ==> WorkerOk(t, t.workers[id])
    ensures WorkersOk(t)
  {
    forall w | w in t.workers
      ensures WorkerOk(t, t.workers[w])
    {
      if w != id { WorkerOkGrows(s, t, s.workers[w]); }
    }
  }

  lemma {:induction false} KeepsAllWorkers(s: Sys, t: Sys)
    requires WorkersOk(s) && Grows(s, t) && t.workers == s.workers
    ensures WorkersOk(t)
  {
    forall w | w in t.workers
      ensures WorkerOk(t, t.workers[w])
    {
      WorkerOkGrows(s, t, s.workers[w]);
    }
  }

  lemma {:induction false} KeepsChain(s: Sys, t: Sys)
    requires ChainOk(s) && Grows(s, t) && t.txs == s.txs && t.used == s.used
    ensures ChainOk(t)
  {
  }

  /** The pieces of the invariant put together again after a step. */
  lemma {:induction false} Assemble(s: Sys, t: Sys)
    requires Inv(s) && Grows(s, t) && SameSkeleton(s.db, t.db)
    requires forall i | i in t.handlers :: i in s.handlers && t.handlers[i] == s.handlers[i]
    requires ChainOk(t) && SettlementsOk(t) && WorkersOk(t) && OnchainOk(t) && ClosedOk(t)
    ensures Inv(t)
  {
    hide TablesOk, PaymentsAuthorized, SplitsOk, HandlersOk, ChainOk, SettlementsOk, WorkersOk, OnchainOk, ClosedOk;
    hide DbGrows, TxsGrow, SameSkeleton;
    SkeletonKeepsRecords(s, t);
    SkeletonKeepsHandlers(s, t);
  }

  /** The same when the tables did not change at all. */
  lemma {:induction false} AssembleSameDb(s: Sys, t: Sys)
    requires Inv(s) && Grows(s, t) && t.db == s.db
    requires forall i | i in t.handlers :: i in s.handlers && t.handlers[i] == s.handlers[i]
    requires ChainOk(t) && WorkersOk(t)
    ensures Inv(t)
  {
    hide TablesOk, PaymentsAuthorized, SplitsOk, HandlersOk, ChainOk, SettlementsOk, WorkersOk, OnchainOk, ClosedOk;
    hide DbGrows, TxsGrow, SameSkeleton;
    SameTables(s.db);
    KeepsSettlements(s, t);
    KeepsOnchain(s, t);
    KeepsClosed(s, t);
    Assemble(s, t);
  }

  lemma {:induction false} SameTables(a: Tables)
    ensures SameSkeleton(a, a) && DbGrows(a, a)
  {
  }

  /** Passing time, new signatures and vanishing handlers disturb nothing. */
  lemma {:induction false} QuietStep(s: Sys, t: Sys)
    requires Inv(s) && t.db == s.db && t.txs == s.txs && t.used == s.used && t.tokens == s.tokens && t.workers == s.workers
    requires s.clock <= t.clock && s.made <= t.made
    requires forall i | i in t.handlers :: i in s.handlers && t.handlers[i] == s.handlers[i]
    ensures Inv(t) && Grows(s, t)
  {
    hide TablesOk, PaymentsAuthorized, SplitsOk, HandlersOk, ChainOk, SettlementsOk, WorkersOk, OnchainOk, ClosedOk;
    hide DbGrows, TxsGrow, SameSkeleton;
    SameTables(s.db);
    SameTxs(s.txs);
    KeepsChain(s, t);
    KeepsAllWorkers(s, t);
    AssembleSameDb(s, t);
  }

  lemma {:induction false} SameTxs(a: seq<ChainTx>)
    ensures TxsGrow(a, a)
  {
  }

  lemma {:induction false} ArriveStep(s: Sys, id: nat, req: Request)
    requires Inv(s)
    ensures Inv(Apply(s, Arrive(id, req))) && Grows(s, Apply(s, Arrive(id, req)))
  {
    hide TablesOk, PaymentsAuthorized, SplitsOk, HandlersOk, ChainOk, SettlementsOk, WorkersOk, OnchainOk, ClosedOk;
    hide DbGrows, TxsGrow, SameSkeleton;
    var t := Apply(s, Arrive(id, req));
    QuietStep(s, s);
    if id !in s.handlers {
      var u := t.(handlers := s.handlers);
      NewHandler(s, id, Handler(req, "", CheckNonce, s.clock));
    }
  }

  lemma {:induction false} NewHandler(s: Sys, id: nat, h: Handler)
    requires Inv(s) && id !in s.handlers && h.pc == CheckNonce
    ensures Inv(s.(handlers := s.handlers[id := h]))
  {
    hide TablesOk, PaymentsAuthorized, SplitsOk, ChainOk, SettlementsOk, WorkersOk, OnchainOk, ClosedOk;
    var t := s.(handlers := s.handlers[id := h]);
    forall i | i in t.handlers
      ensures HandlerOk(t, t.handlers[i])
    {
      if i != id { assert HandlerOk(s, s.handlers[i]); }
    }
    IgnoresHandlers(s, t);
  }

  lemma {:induction false} IgnoresHandlers(s: Sys, t: Sys)
    requires t == s.(handlers := t.handlers)
    requires TablesOk(s.db) && PaymentsAuthorized(s) && SplitsOk(s.db) && ChainOk(s) && SettlementsOk(s) && WorkersOk(s) &&
             OnchainOk(s) && ClosedOk(s)
    ensures TablesOk(t.db) && PaymentsAuthorized(t) && SplitsOk(t.db) && ChainOk(t) && SettlementsOk(t) && WorkersOk(t) &&
            OnchainOk(t) && ClosedOk(t)
  {
    hide TablesOk, SplitsOk;
    SameTables(s.db);
    SameTxs(s.txs);
    KeepsChain(s, t);
    KeepsSettlements(s, t);
    KeepsAllWorkers(s, t);
    KeepsOnchain(s, t);
    KeepsClosed(s, t);
  }

  // ---- the chain ----

  lemma {:induction false} AppendTx(s: Sys, t: Sys, tx: ChainTx)
    requires ChainOk(s) && tx.status == InMempool && TxOk(s, tx)
    requires t.txs == s.txs + [tx] && t.used == s.used && t.tokens == s.tokens && t.db == s.db
    ensures ChainOk(t)
  {
  }

  lemma {:induction false} OutsiderKeeps(s: Sys, chain: nat, call: Calldata)
    requires Inv(s)
    ensures Inv(OutsiderStep(s, chain, call)) && Grows(s, OutsiderStep(s, chain, call))
  {
    AppendKeeps(s, ChainTx(chain, Decoded(call), InMempool, None));
  }

  lemma {:induction false} AppendKeeps(s: Sys, tx: ChainTx)
    requires Inv(s) && tx.status == InMempool && TxOk(s, tx)
    ensures var t := s.(txs := s.txs + [tx]); Inv(t) && Grows(s, t)
  {
    hide TablesOk, PaymentsAuthorized, SplitsOk, HandlersOk, ChainOk, SettlementsOk, WorkersOk, OnchainOk, ClosedOk;
    hide DbGrows, TxsGrow, SameSkeleton;
    var t := s.(txs := s.txs + [tx]);
    SameTables(s.db);
    AppendGrows(s.txs, tx);
    AppendTx(s, t, tx);
    KeepsAllWorkers(s, t);
    AssembleSameDb(s, t);
  }

  lemma {:induction false} AppendGrows(a: seq<ChainTx>, tx: ChainTx)
    ensures TxsGrow(a, a + [tx])
  {
  }

  lemma {:induction false} MineKeepsChain(s: Sys, h: TxHash, executes: bool, time: nat)
    requires ChainOk(s)
    ensures ChainOk(MineStep(s, h, executes, time)) && TxsGrow(s.txs, MineStep(s, h, executes, time).txs)
  {
  }

  lemma {:induction false} MineKeeps(s: Sys, h: TxHash, executes: bool, time: nat)
    requires Inv(s)
    ensures Inv(MineStep(s, h, executes, time)) && Grows(s, MineStep(s, h, executes, time))
  {
    hide TablesOk, PaymentsAuthorized, SplitsOk, HandlersOk, ChainOk, SettlementsOk, WorkersOk, OnchainOk, ClosedOk;
    hide DbGrows, TxsGrow, SameSkeleton;
    var t := MineStep(s, h, executes, time);
    MineKeepsChain(s, h, executes, time);
    SameTables(s.db);
    KeepsAllWorkers(s, t);
    AssembleSameDb(s, t);
  }

  // ---- writes to settlements and outbox ----

  /** A write that changes only tables, whose own promises are already known to hold. */
  lemma {:induction false} AssembleWrite(s: Sys, db: Tables)
    requires Inv(s) && SameSkeleton(s.db, db) && DbGrows(s.db, db)
    requires SettlementsOk(s.(db := db)) && OnchainOk(s.(db := db)) && ClosedOk(s.(db := db))
    ensures Inv(s.(db := db)) && Grows(s, s.(db := db))
  {
    hide TablesOk, PaymentsAuthorized, SplitsOk, HandlersOk, ChainOk, SettlementsOk, WorkersOk, OnchainOk, ClosedOk;
    hide DbGrows, TxsGrow, SameSkeleton;
    var t := s.(db := db);
    SameTxs(s.txs);
    KeepsChain(s, t);
    KeepsAllWorkers(s, t);
    Assemble(s, t);
  }

  lemma {:induction false} WriteGrows(s: Sys, db: Tables)
    requires DbGrows(s.db, db)
    ensures Grows(s, s.(db := db))
  {
  }

  /** A write to one settlement row, by a worker or the operator. */
  lemma {:induction false} SettlementWrite(s: Sys, x: Id, row: Settlement)
    requires Inv(s) && x in s.db.settlements && RowMoves(s.db.settlements[x], row)
    requires SettlementOk(s.(db := s.db.(settlements := s.db.settlements[x := row])), x)
    ensures var t := s.(db := s.db.(settlements := s.db.settlements[x := row])); Inv(t) && Grows(s, t)
  {
    hide TablesOk, PaymentsAuthorized, SplitsOk, HandlersOk, ChainOk, SettlementsOk, WorkersOk, OnchainOk, ClosedOk;
    hide DbGrows, TxsGrow, SameSkeleton;
    var db := s.db.(settlements := s.db.settlements[x := row]);
    var t := s.(db := db);
    OneRowMoves(s.db, x, row);
    WriteGrows(s, db);
    KeepsOnchain(s, t);
    KeepsClosed(s, t);
    OtherSettlementsOk(s, x, row);
    AssembleWrite(s, db);
  }

  lemma {:induction false} OneRowMoves(a: Tables, x: Id, row: Settlement)
    requires x in a.settlements && RowMoves(a.settlements[x], row)
    ensures var b := a.(settlements := a.settlements[x := row]); SameSkeleton(a, b) && DbGrows(a, b)
  {
  }

  lemma {:induction false} OtherSettlementsOk(s: Sys, x: Id, row: Settlement)
    requires SettlementsOk(s) && x in s.db.settlements
    requires Grows(s, s.(db := s.db.(settlements := s.db.settlements[x := row])))
    requires SettlementOk(s.(db := s.db.(settlements := s.db.settlements[x := row])), x)
    ensures SettlementsOk(s.(db := s.db.(settlements := s.db.settlements[x := row])))
  {
  }

  lemma {:induction false} SettlementOkOf(s: Sys, x: Id)
    requires Inv(s) && x in s.db.settlements
    ensures SettlementOk(s, x)
  {
  }

  lemma {:induction false} FailKeeps(s: Sys, x: Id)
    requires Inv(s)
    ensures var t := s.(db := s.db.FailSettlement(x)); Inv(t) && Grows(s, t)
  {
    hide TablesOk, PaymentsAuthorized, SplitsOk, HandlersOk, ChainOk, SettlementsOk, WorkersOk, OnchainOk, ClosedOk;
    hide DbGrows, TxsGrow, SameSkeleton;
    if x in s.db.settlements {
      SettlementOkOf(s, x);
      SettlementWrite(s, x, s.db.settlements[x].(status := Failed));
    } else {
      QuietStep(s, s);
    }
  }

  lemma {:induction false} SubmitKeeps(s: Sys, x: Id, h: TxHash)
    requires Inv(s) && SentForSettlement(s, h, x)
    ensures var t := s.(db := s.db.MarkSettlementSubmitted(x, h, s.clock)); Inv(t) && Grows(s, t)
  {
    hide TablesOk, PaymentsAuthorized, SplitsOk, HandlersOk, ChainOk, SettlementsOk, WorkersOk, OnchainOk, ClosedOk;
    hide DbGrows, TxsGrow, SameSkeleton;
    var t := s.(db := s.db.MarkSettlementSubmitted(x, h, s.clock));
    if t.db != s.db {
      SettlementOkOf(s, x);
      SettlementWrite(s, x, t.db.settlements[x]);
    } else {
      QuietStep(s, t);
    }
  }

  lemma {:induction false} PromoteKeeps(s: Sys, x: Id, h: TxHash)
    requires Inv(s) && x in s.db.settlements && SentForSettlement(s, h, x) && Succeeded(s, h)
    ensures var t := s.(db := s.db.PromoteSettlement(x, h, s.clock));
            Inv(t) && Grows(s, t) && t.db.settlements[x].confirmedAt.Some?
  {
    hide TablesOk, PaymentsAuthorized, SplitsOk, HandlersOk, ChainOk, SettlementsOk, WorkersOk, OnchainOk, ClosedOk;
    hide DbGrows, TxsGrow, SameSkeleton;
    var t := s.(db := s.db.PromoteSettlement(x, h, s.clock));
    SettlementOkOf(s, x);
    SettlementWrite(s, x, t.db.settlements[x]);
  }

  lemma {:induction false} LogKeeps(s: Sys, h: TxHash, row: OnchainRow)
    requires Inv(s) && Succeeded(s, h) && s.txs[h].job.Some? && s.txs[h].job.value in s.db.outbox
    requires var t := s.db.outbox[s.txs[h].job.value].transfer;
             row == OnchainRow(s.txs[h].chain, t.from, t.to, t.value)
    ensures var t := s.(db := s.db.LogOnchainTx(h, row)); Inv(t) && Grows(s, t) && h in t.db.onchain
  {
    hide TablesOk, PaymentsAuthorized, SplitsOk, HandlersOk, ChainOk, SettlementsOk, WorkersOk, OnchainOk, ClosedOk;
    hide DbGrows, TxsGrow, SameSkeleton;
    var db := s.db.LogOnchainTx(h, row);
    LogShape(s.db, h, row);
    WriteGrows(s, db);
    LogKeepsOnchain(s, h, row);
    KeepsSettlements(s, s.(db := db));
    KeepsClosed(s, s.(db := db));
    AssembleWrite(s, db);
  }

  lemma {:induction false} LogKeepsOnchain(s: Sys, h: TxHash, row: OnchainRow)
    requires OnchainOk(s) && Succeeded(s, h) && s.txs[h].job.Some? && s.txs[h].job.value in s.db.outbox
    requires var t := s.db.outbox[s.txs[h].job.value].transfer;
             row == OnchainRow(s.txs[h].chain, t.from, t.to, t.value)
    ensures OnchainOk(s.(db := s.db.LogOnchainTx(h, row)))
  {
  }

  lemma {:induction false} LogShape(a: Tables, h: TxHash, row: OnchainRow)
    ensures SameSkeleton(a, a.LogOnchainTx(h, row)) && DbGrows(a, a.LogOnchainTx(h, row))
  {
  }

  lemma {:induction false} OneOutboxRowMoves(a: Tables, o: nat, row: OutboxRow)
    requires o in a.outbox && row.transfer == a.outbox[o].transfer && row.attempts == a.outbox[o].attempts
    requires a.outbox[o].doneAt.Some? ==> row.doneAt.Some?
    ensures SameSkeleton(a, a.(outbox := a.outbox[o := row])) && DbGrows(a, a.(outbox := a.outbox[o := row]))
  {
  }

  /** Marking a row done is safe once its transaction is logged and its settlement promoted. */
  lemma {:induction false} DoneKeeps(s: Sys, o: nat)
    requires Inv(s) && o in s.db.outbox && Closed(s, o)
    ensures var t := s.(db := s.db.MarkOutboxDone(o, s.clock)); Inv(t) && Grows(s, t)
  {
    hide TablesOk, PaymentsAuthorized, SplitsOk, HandlersOk, ChainOk, SettlementsOk, WorkersOk, OnchainOk;
    hide DbGrows, TxsGrow, SameSkeleton;
    var db := s.db.MarkOutboxDone(o, s.clock);
    var t := s.(db := db);
    OneOutboxRowMoves(s.db, o, s.db.outbox[o].(doneAt := Some(s.clock)));
    WriteGrows(s, db);
    KeepsSettlements(s, t);
    KeepsOnchain(s, t);
    forall r | r in t.db.outbox && t.db.outbox[r].doneAt.Some?
      ensures Closed(t, r)
    {
      ClosedGrows(s, t, r);
    }
    AssembleWrite(s, db);
  }

  lemma {:induction false} GiveBackKeeps(s: Sys, o: nat)
    requires Inv(s)
    ensures var t := s.(db := s.db.MarkOutboxFailed(o)); Inv(t) && Grows(s, t)
  {
    hide TablesOk, PaymentsAuthorized, SplitsOk, HandlersOk, ChainOk, SettlementsOk, WorkersOk, OnchainOk, ClosedOk;
    hide DbGrows, TxsGrow, SameSkeleton;
    var db := s.db.MarkOutboxFailed(o);
    if o in s.db.outbox {
      OneOutboxRowMoves(s.db, o, s.db.outbox[o].(pickedAt := None));
    } else {
      SameTables(s.db);
    }
    WriteGrows(s, db);
    KeepsSettlements(s, s.(db := db));
    KeepsOnchain(s, s.(db := db));
    KeepsClosed(s, s.(db := db));
    AssembleWrite(s, db);
  }

  // ---- the worker ----

  lemma {:induction false} WorkerOkOf(s: Sys, id: nat)
    requires Inv(s) && id in s.workers
    ensures WorkerOk(s, s.workers[id])
  {
  }

  /** Replacing one worker's record is all that is left of a step once its effect is accounted for. */
  lemma {:induction false} PutWorkerKeeps(s: Sys, id: nat, w: Worker)
    requires Inv(s) && id in s.workers && WorkerOk(s, w)
    requires w.chain == s.workers[id].chain && w.batch == s.workers[id].batch
    ensures Inv(PutWorker(s, id, w)) && Grows(s, PutWorker(s, id, w))
  {
    hide TablesOk, PaymentsAuthorized, SplitsOk, HandlersOk, ChainOk, SettlementsOk, WorkersOk, OnchainOk, ClosedOk;
    hide DbGrows, TxsGrow, SameSkeleton;
    hide WorkerOk;
    var t := PutWorker(s, id, w);
    SameTables(s.db);
    SameTxs(s.txs);
    KeepsChain(s, t);
    WorkerOkGrows(s, t, w);
    KeepsWorkers(s, t, id);
    AssembleSameDb(s, t);
  }

  lemma {:induction false} NextJobOk(s: Sys, w: Worker)
    requires WorkerOk(s, w)
    ensures WorkerOk(s, NextJob(w)) && WorkerOk(s, Abandon(w))
  {
  }

  lemma {:induction false} ThrowOk(s: Sys, w: Worker)
    requires WorkerOk(s, w) && w.queue != []
    ensures WorkerOk(s, Throw(w))
  {
  }

  lemma {:induction false} ClaimShape(a: Tables, limit: nat, locked: set<nat>, now: nat)
    ensures var (b, jobs) := a.ClaimGatewayOutbox(limit, locked, now);
            SameSkeleton(a, b) && DbGrows(a, b) &&
            (forall o | o in b.outbox && b.outbox[o].doneAt.Some? :: a.outbox[o].doneAt.Some?)
  {
  }

  lemma {:induction false} ClaimedJobsOk(s: Sys, w: Worker, locked: set<nat>)
    requires TablesOk(s.db) && w.pc == Idle
    ensures var (db, jobs) := s.db.ClaimGatewayOutbox(w.batch, locked, s.clock);
            jobs != [] ==> WorkerOk(s.(db := db), w.(queue := jobs, pc := Send))
  {
    var (db, jobs) := s.db.ClaimGatewayOutbox(w.batch, locked, s.clock);
    ClaimHandsOutRows(s.db, w.batch, locked, s.clock);
    forall i | 0 <= i < |jobs|
      ensures JobOk(db, jobs[i])
    {
      ClaimedJobOk(s.db, w.batch, locked, s.clock, i);
    }
  }

  lemma {:induction false} ClaimedJobOk(a: Tables, limit: nat, locked: set<nat>, now: nat, i: nat)
    requires TablesOk(a) && i < |a.ClaimGatewayOutbox(limit, locked, now).1|
    ensures JobOk(a.ClaimGatewayOutbox(limit, locked, now).0, a.ClaimGatewayOutbox(limit, locked, now).1[i])
  {
    ClaimHandsOutRows(a, limit, locked, now);
    var (b, jobs) := a.ClaimGatewayOutbox(limit, locked, now);
    assert Joined(a, a.outbox[jobs[i].id].transfer);
    assert b.outbox[jobs[i].id].attempts == jobs[i].attempts + 1;
  }

  lemma {:induction false} ClaimKeeps(s: Sys, id: nat, locked: set<nat>, out: Outcome)
    requires Inv(s)
    ensures Inv(ClaimStep(s, id, locked, out)) && Grows(s, ClaimStep(s, id, locked, out))
  {
    hide TablesOk, PaymentsAuthorized, SplitsOk, HandlersOk, ChainOk, SettlementsOk, WorkersOk, OnchainOk, ClosedOk;
    hide DbGrows, TxsGrow, SameSkeleton;
    hide WorkerOk;
    QuietStep(s, s);
    if id in s.workers && s.workers[id].pc == Idle && out != Lost {
      var w := s.workers[id];
      var (db, jobs) := s.db.ClaimGatewayOutbox(w.batch, locked, s.clock);
      var m := s.(db := db);
      ClaimShape(s.db, w.batch, locked, s.clock);
      WriteGrows(s, db);
      KeepsSettlements(s, m);
      KeepsOnchain(s, m);
      ClaimKeepsClosed(s, w.batch, locked);
      AssembleWrite(s, db);
      if out == Returned && jobs != [] {
        var w' := w.(queue := jobs, pc := Send);
        ClaimedJobsOk(s, w, locked);
        PutWorkerKeeps(m, id, w');
        GrowsTransitive(s, m, PutWorker(m, id, w'));
      }
    }
  }

  lemma {:induction false} ClaimKeepsClosed(s: Sys, limit: nat, locked: set<nat>)
    requires ClosedOk(s)
    requires Grows(s, s.(db := s.db.ClaimGatewayOutbox(limit, locked, s.clock).0))
    ensures ClosedOk(s.(db := s.db.ClaimGatewayOutbox(limit, locked, s.clock).0))
  {
  }

  lemma {:induction false} SendKeeps(s: Sys, id: nat, out: Outcome)
    requires Inv(s) && id in s.workers && s.workers[id].queue != [] && s.workers[id].pc == Send
    ensures Inv(StepWorker(s, id, out)) && Grows(s, StepWorker(s, id, out))
  {
    hide TablesOk, PaymentsAuthorized, SplitsOk, HandlersOk, ChainOk, SettlementsOk, WorkersOk, OnchainOk, ClosedOk;
    hide DbGrows, TxsGrow, SameSkeleton;
    var w := s.workers[id];
    var job := w.queue[0];
    WorkerOkOf(s, id);
    assert JobOk(s.db, job);
    var tx := ChainTx(w.chain, CalldataOf(job.transfer), InMempool, Some(job.id));
    var m := if out == Lost then s else s.(txs := s.txs + [tx]);
    QuietStep(s, s);
    AppendKeeps(s, tx);
    var w' := if out == Returned then w.(pc := Submit(|s.txs|)) else Throw(w);
    WorkerOkGrows(s, m, w);
    ThrowOk(m, w);
    PutWorkerKeeps(m, id, w');
    GrowsTransitive(s, m, PutWorker(m, id, w'));
  }

  lemma {:induction false} AwaitKeeps(s: Sys, id: nat, out: Outcome)
    requires Inv(s) && id in s.workers && s.workers[id].queue != [] && s.workers[id].pc.Await?
    ensures Inv(StepWorker(s, id, out)) && Grows(s, StepWorker(s, id, out))
  {
    hide TablesOk, PaymentsAuthorized, SplitsOk, HandlersOk, ChainOk, SettlementsOk, WorkersOk, OnchainOk, ClosedOk;
    hide DbGrows, TxsGrow, SameSkeleton;
    var w := s.workers[id];
    WorkerOkOf(s, id);
    assert JobOk(s.db, w.queue[0]);
    ThrowOk(s, w);
    QuietStep(s, s);
    if out != Returned || s.txs[w.pc.hash].status == Reverted {
      PutWorkerKeeps(s, id, Throw(w));
    } else if s.txs[w.pc.hash].status == Success {
      PutWorkerKeeps(s, id, w.(pc := Promote(w.pc.hash)));
    }
  }

  /** The ledger write a worker awaits keeps the invariant. */
  lemma {:induction false} WriteKeeps(s: Sys, id: nat)
    requires Inv(s) && id in s.workers && s.workers[id].queue != []
    ensures var m := s.(db := WorkerWrite(s, s.workers[id])); Inv(m) && Grows(s, m)
    ensures var m := s.(db := WorkerWrite(s, s.workers[id])); WrittenFor(m, s.workers[id])
  {
    hide TablesOk, PaymentsAuthorized, SplitsOk, HandlersOk, ChainOk, SettlementsOk, WorkersOk, OnchainOk, ClosedOk;
    hide DbGrows, TxsGrow, SameSkeleton;
    var w := s.workers[id];
    var job := w.queue[0];
    WorkerOkOf(s, id);
    assert JobOk(s.db, job);
    match w.pc
    case Submit(h) => SubmitKeeps(s, job.transfer.settlement, h);
    case Promote(h) => PromoteKeeps(s, job.transfer.settlement, h);
    case Log(h) => LogKeeps(s, h, OnchainRow(w.chain, job.transfer.from, job.transfer.to, job.transfer.value));
    case Finish(h) =>
      assert h in s.db.onchain && SentFor(s, h, job.id) && Succeeded(s, h);
      DoneKeeps(s, job.id);
    case GiveBack => GiveBackKeeps(s, job.id);
    case HardFail => FailKeeps(s, job.transfer.settlement);
    case _ => QuietStep(s, s);
  }

  /** What a completed write leaves for the worker's next step. */
  predicate WrittenFor(s: Sys, w: Worker)
    requires w.queue != []
  {
    (w.pc.Promote? ==> w.queue[0].transfer.settlement in s.db.settlements &&
                       s.db.settlements[w.queue[0].transfer.settlement].confirmedAt.Some?) &&
    (w.pc.Log? ==> w.pc.hash in s.db.onchain)
  }

  lemma {:induction false} ContinueOk(s: Sys, w: Worker)
    requires WorkerOk(s, w) && w.queue != [] && WrittenFor(s, w) && !w.pc.Send? && !w.pc.Await?
    ensures WorkerOk(s, Continue(w))
  {
    NextJobOk(s, w);
  }

  lemma {:induction false} WorkerStepKeeps(s: Sys, id: nat, out: Outcome)
    requires Inv(s)
    ensures Inv(StepWorker(s, id, out)) && Grows(s, StepWorker(s, id, out))
  {
    hide TablesOk, PaymentsAuthorized, SplitsOk, HandlersOk, ChainOk, SettlementsOk, WorkersOk, OnchainOk, ClosedOk;
    hide DbGrows, TxsGrow, SameSkeleton;
    hide WorkerOk;
    if id !in s.workers || s.workers[id].queue == [] || s.workers[id].pc == Idle {
      QuietStep(s, s);
    } else if s.workers[id].pc == Send {
      SendKeeps(s, id, out);
    } else if s.workers[id].pc.Await? {
      AwaitKeeps(s, id, out);
    } else {
      LedgerCallKeeps(s, id, out);
    }
  }

  lemma {:induction false} LedgerCallKeeps(s: Sys, id: nat, out: Outcome)
    requires Inv(s) && id in s.workers && s.workers[id].queue != []
    requires s.workers[id].pc != Idle && s.workers[id].pc != Send && !s.workers[id].pc.Await?
    ensures Inv(StepWorker(s, id, out)) && Grows(s, StepWorker(s, id, out))
  {
    hide TablesOk, PaymentsAuthorized, SplitsOk, HandlersOk, ChainOk, SettlementsOk, WorkersOk, OnchainOk, ClosedOk;
    hide DbGrows, TxsGrow, SameSkeleton;
    hide WorkerOk, WorkerWrite, Continue, Throw, WrittenFor;
    var w := s.workers[id];
    QuietStep(s, s);
    WriteKeeps(s, id);
    var m := if out == Lost then s else s.(db := WorkerWrite(s, w));
    WorkerOkOf(s, id);
    WorkerOkGrows(s, m, w);
    SameBadge(w);
    if out == Returned {
      ContinueOk(m, w);
      PutWorkerKeeps(m, id, Continue(w));
      GrowsTransitive(s, m, PutWorker(m, id, Continue(w)));
    } else {
      ThrowOk(m, w);
      PutWorkerKeeps(m, id, Throw(w));
      GrowsTransitive(s, m, PutWorker(m, id, Throw(w)));
    }
  }

  /** A worker's chain and batch size are fixed. */
  lemma {:induction false} SameBadge(w: Worker)
    requires w.queue != []
    ensures Continue(w).chain == w.chain && Continue(w).batch == w.batch && Throw(w).chain == w.chain && Throw(w).batch == w.batch
  {
  }
}
