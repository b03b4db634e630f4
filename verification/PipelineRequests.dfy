// Every step of a tollbooth request keeps the pipeline invariant, and with it
// the invariant holds in every reachable state.
module PipelineRequests {
  import opened Prelude
  import opened Splits
  import opened Handshake
  import opened Ledger
  import opened Pipeline
  import opened PipelineInvariants
  import opened PipelineSteps

  // ---- each insert keeps the tables joined ----

  /** What an insert leaves alone: logged transactions, and the status columns of
      existing settlements and outbox rows; new rows start blank. */
  ghost predicate NewRowsBlank(a: Tables, b: Tables)
  {
    b.onchain == a.onchain &&
    (forall x | x in b.settlements ::
       if x in a.settlements then b.settlements[x] == a.settlements[x]
       else b.settlements[x] == Settlement(b.settlements[x].payment, Pending, None, None, None)) &&
    (forall o | o in b.outbox ::
       if o in a.outbox then b.outbox[o] == a.outbox[o] else b.outbox[o].doneAt == None && b.outbox[o].attempts == 0)
  }

  lemma {:induction false} InsertGrows(db: Tables, h: Handler)
    requires TablesOk(db) && HandlerInsert(db, h).Some?
    ensures DbGrows(db, HandlerInsert(db, h).value) && NewRowsBlank(db, HandlerInsert(db, h).value)
  {
    hide TablesOk, DbGrows, SplitRows, SplitsOf;
    SameTables(db);
    match h.pc
    case AddAction => ActionGrows(db, h.req.action, ActionRow(h));
    case AddPayment => PaymentGrows(db, h.req.payment, PaymentRow(h));
    case AddSettlement => SettlementGrows(db, h.req.settlement, h.req.payment);
    case AddOutbox => OutboxGrows(db, TransferRow(h));
    case AddSplits => SplitsGrow(db, HandlerInsert(db, h).value);
    case CheckNonce =>
  }

  lemma {:induction false} ActionGrows(a: Tables, id: Id, row: Action)
    requires a.InsertAction(id, row).Some?
    ensures DbGrows(a, a.InsertAction(id, row).value) && NewRowsBlank(a, a.InsertAction(id, row).value)
  {
  }

  lemma {:induction false} PaymentGrows(a: Tables, id: Id, row: Payment)
    requires a.InsertPayment(id, row).Some?
    ensures DbGrows(a, a.InsertPayment(id, row).value) && NewRowsBlank(a, a.InsertPayment(id, row).value)
  {
  }

  lemma {:induction false} SettlementGrows(a: Tables, id: Id, payment: Id)
    requires a.InsertSettlement(id, payment).Some?
    ensures DbGrows(a, a.InsertSettlement(id, payment).value) && NewRowsBlank(a, a.InsertSettlement(id, payment).value)
  {
  }

  lemma {:induction false} OutboxGrows(a: Tables, t: Transfer)
    requires TablesOk(a) && a.EnqueueGatewayOutbox(t).Some?
    ensures DbGrows(a, a.EnqueueGatewayOutbox(t).value) && NewRowsBlank(a, a.EnqueueGatewayOutbox(t).value)
  {
    assert a.nextOutbox !in a.outbox;
  }

  lemma {:induction false} SplitsGrow(a: Tables, b: Tables)
    requires b == a.(splits := b.splits)
    ensures DbGrows(a, b) && NewRowsBlank(a, b)
  {
  }

  lemma {:induction false} InsertKeepsTables(s: Sys, h: Handler)
    requires TablesOk(s.db) && HandlerOk(s, h) && HandlerInsert(s.db, h).Some?
    ensures TablesOk(HandlerInsert(s.db, h).value)
  {
    hide TablesOk, SplitsOf, SplitRows;
    match h.pc
    case AddAction => ActionKeepsTables(s.db, h.req.action, ActionRow(h));
    case AddPayment => PaymentKeepsTables(s.db, h.req.payment, PaymentRow(h));
    case AddSettlement => SettlementKeepsTables(s.db, h.req.settlement, h.req.payment);
    case AddOutbox => OutboxKeepsTables(s.db, TransferRow(h));
    case AddSplits => SplitsKeepTables(s.db, HandlerInsert(s.db, h).value);
    case CheckNonce =>
  }

  lemma {:induction false} ActionKeepsTables(a: Tables, id: Id, row: Action)
    requires TablesOk(a) && a.InsertAction(id, row).Some?
    ensures TablesOk(a.InsertAction(id, row).value)
  {
    assert forall o | o in a.outbox :: Joined(a, a.outbox[o].transfer);
  }

  lemma {:induction false} PaymentKeepsTables(a: Tables, id: Id, row: Payment)
    requires TablesOk(a) && a.InsertPayment(id, row).Some?
    ensures TablesOk(a.InsertPayment(id, row).value)
  {
    assert forall o | o in a.outbox :: Joined(a, a.outbox[o].transfer);
  }

  lemma {:induction false} SettlementKeepsTables(a: Tables, id: Id, payment: Id)
    requires TablesOk(a) && a.InsertSettlement(id, payment).Some?
    requires forall x | x in a.settlements :: a.settlements[x].payment != payment
    ensures TablesOk(a.InsertSettlement(id, payment).value)
  {
    assert forall o | o in a.outbox :: Joined(a, a.outbox[o].transfer);
  }

  lemma {:induction false} SplitsKeepTables(a: Tables, b: Tables)
    requires TablesOk(a) && b == a.(splits := b.splits)
    ensures TablesOk(b)
  {
  }

  lemma {:induction false} OutboxKeepsTables(a: Tables, t: Transfer)
    requires TablesOk(a) && a.EnqueueGatewayOutbox(t).Some? && Joined(a, t)
    requires forall o | o in a.outbox :: a.outbox[o].transfer.settlement != t.settlement
    ensures TablesOk(a.EnqueueGatewayOutbox(t).value)
  {
    var b := a.EnqueueGatewayOutbox(t).value;
    forall o | o in b.outbox
      ensures o < b.nextOutbox && Joined(b, b.outbox[o].transfer)
    {
      if o in a.outbox && o < a.nextOutbox { assert Joined(a, a.outbox[o].transfer); }
    }
  }

  lemma {:induction false} InsertKeepsPayments(s: Sys, h: Handler)
    requires TablesOk(s.db) && PaymentsAuthorized(s) && HandlerOk(s, h) && HandlerInsert(s.db, h).Some?
    ensures PaymentsAuthorized(s.(db := HandlerInsert(s.db, h).value))
  {
    hide SplitsOf, SplitRows;
  }

  lemma {:induction false} SplitsOfAppend(rows: seq<(Id, SplitRow)>, a: Id, more: seq<(Id, SplitRow)>)
    ensures SplitsOf(rows + more, a) == SplitsOf(rows, a) + SplitsOf(more, a)
    decreases |more|
  {
    if more == [] {
      assert rows + more == rows;
    } else {
      var n := |more| - 1;
      assert (rows + more)[..|rows| + n] == rows + more[..n];
      SplitsOfAppend(rows, a, more[..n]);
    }
  }

  lemma {:induction false} SplitsOfOne(rows: seq<SplitRow>, b: Id, a: Id)
    ensures var tagged := seq(|rows|, i requires 0 <= i < |rows| => (b, rows[i]));
            SplitsOf(tagged, a) == if a == b then rows else []
    decreases |rows|
  {
    var tagged := seq(|rows|, i requires 0 <= i < |rows| => (b, rows[i]));
    if rows != [] {
      var n := |rows| - 1;
      var init := seq(n, i requires 0 <= i < n => (b, rows[..n][i]));
      assert tagged[..n] == init;
      SplitsOfOne(rows[..n], b, a);
      assert rows == rows[..n] + [rows[n]];
    }
  }

  lemma {:induction false} InsertKeepsSplits(s: Sys, h: Handler)
    requires SplitsOk(s.db) && HandlerOk(s, h) && HandlerInsert(s.db, h).Some?
    ensures SplitsOk(HandlerInsert(s.db, h).value)
    ensures forall a | a != h.req.action || h.pc != AddSplits ::
              SplitsOf(HandlerInsert(s.db, h).value.splits, a) == SplitsOf(s.db.splits, a)
  {
    hide SplitRows, SplitsOf, TablesOk;
    var b := HandlerInsert(s.db, h).value;
    var specs := h.req.route.splits;
    if h.pc == AddSplits && specs != [] {
      var rows := SplitRows(PriceOf(h.req), specs);
      forall a
        ensures a != h.req.action ==> SplitsOf(b.splits, a) == SplitsOf(s.db.splits, a)
        ensures SplitRowsOk(b, a)
      {
        assert SplitRowsOk(s.db, a);
        SplitsOfAppend(s.db.splits, a, seq(|rows|, i requires 0 <= i < |rows| => (h.req.action, rows[i])));
        SplitsOfOne(rows, h.req.action, a);
        if rows == [] { assert b.splits == s.db.splits; }
      }
    } else {
      forall a
        ensures SplitRowsOk(b, a)
      {
        assert SplitRowsOk(s.db, a);
      }
    }
  }

  // ---- each insert keeps the requests apart ----

  /** After its own insert returned, a handler is fit for the next one. */
  lemma {:induction false} AdvanceOk(s: Sys, h: Handler, pc: HandlerPc)
    requires TablesOk(s.db) && HandlerOk(s, h) && h.pc != CheckNonce
    requires HandlerInsert(s.db, h).Some? && NextPc(h.req.route, h.pc) == Some(pc)
    requires forall a | a != h.req.action || h.pc != AddSplits ::
               SplitsOf(HandlerInsert(s.db, h).value.splits, a) == SplitsOf(s.db.splits, a)
    requires SplitRowsOk(s.db, h.req.action)
    ensures HandlerOk(s.(db := HandlerInsert(s.db, h).value), h.(pc := pc))
  {
    hide SplitsOf, SplitRows;
  }

  lemma {:induction false} BystanderOk(s: Sys, h: Handler, g: Handler)
    requires TablesOk(s.db) && HandlerOk(s, h) && HandlerOk(s, g) && Apart(g, h) && HandlerInsert(s.db, h).Some?
    requires forall a | a != h.req.action || h.pc != AddSplits ::
               SplitsOf(HandlerInsert(s.db, h).value.splits, a) == SplitsOf(s.db.splits, a)
    ensures HandlerOk(s.(db := HandlerInsert(s.db, h).value), g)
  {
    hide SplitsOf, SplitRows;
  }

  lemma {:induction false} AdvanceApart(s: Sys, h: Handler, g: Handler, pc: HandlerPc)
    requires HandlerOk(s, g) && Apart(g, h) && h.pc != CheckNonce && HandlerInsert(s.db, h).Some?
    requires NextPc(h.req.route, h.pc) == Some(pc)
    ensures Apart(g, h.(pc := pc))
  {
  }

  lemma {:induction false} HandlersAfterInsert(s: Sys, id: nat, t: Sys)
    requires TablesOk(s.db) && SplitsOk(s.db) && HandlersOk(s) && id in s.handlers && s.handlers[id].pc != CheckNonce
    requires HandlerInsert(s.db, s.handlers[id]).Some?
    requires t.db == HandlerInsert(s.db, s.handlers[id]).value && t.made == s.made
    requires var h := s.handlers[id];
             t.handlers == s.handlers - {id} ||
             (NextPc(h.req.route, h.pc).Some? && t.handlers == s.handlers[id := h.(pc := NextPc(h.req.route, h.pc).value)])
    ensures HandlersOk(t)
  {
    hide TablesOk, SplitsOf, SplitsOk, HandlerOk, Apart;
    var h := s.handlers[id];
    assert HandlerOk(s, h);
    var u := s.(db := t.db);
    InsertKeepsSplits(s, h);
    forall i | i in t.handlers
      ensures HandlerOk(t, t.handlers[i])
    {
      if i == id {
        SplitRowsOkOf(s.db, h.req.action);
        AdvanceOk(s, h, t.handlers[i].pc);
        SameForHandlers(u, t, t.handlers[i]);
      } else {
        assert HandlerOk(s, s.handlers[i]) && Apart(s.handlers[i], h);
        BystanderOk(s, h, s.handlers[i]);
        SameForHandlers(u, t, t.handlers[i]);
      }
    }
    forall i, j | i in t.handlers && j in t.handlers && i != j
      ensures Apart(t.handlers[i], t.handlers[j])
    {
      assert Apart(s.handlers[i], s.handlers[j]) && HandlerOk(s, s.handlers[i]) && HandlerOk(s, s.handlers[j]);
      if i == id {
        assert Apart(s.handlers[j], h);
        AdvanceApart(s, h, s.handlers[j], t.handlers[i].pc);
        ApartSymmetric(s.handlers[j], t.handlers[i]);
      } else if j == id {
        AdvanceApart(s, h, s.handlers[i], t.handlers[j].pc);
      }
    }
  }

  lemma {:induction false} SplitRowsOkOf(db: Tables, a: Id)
    requires SplitsOk(db)
    ensures SplitRowsOk(db, a)
  {
  }

  lemma {:induction false} SameForHandlers(s: Sys, t: Sys, h: Handler)
    requires HandlerOk(s, h) && t.db == s.db && t.made == s.made
    ensures HandlerOk(t, h)
  {
  }

  lemma {:induction false} ApartSymmetric(g: Handler, h: Handler)
    requires Apart(g, h)
    ensures Apart(h, g)
  {
  }

  // ---- each insert leaves workers, chain and settlements in order ----

  lemma {:induction false} InsertKeepsChain(s: Sys, db: Tables)
    requires ChainOk(s) && DbGrows(s.db, db)
    ensures ChainOk(s.(db := db))
  {
  }

  lemma {:induction false} InsertKeepsSettlements(s: Sys, h: Handler)
    requires TablesOk(s.db) && SettlementsOk(s) && HandlerInsert(s.db, h).Some?
    ensures SettlementsOk(s.(db := HandlerInsert(s.db, h).value))
  {
    hide TablesOk, HandlerInsert, DbGrows, TxsGrow;
    var t := s.(db := HandlerInsert(s.db, h).value);
    InsertGrows(s.db, h);
    SameTxs(s.txs);
    forall x | x in t.db.settlements
      ensures SettlementOk(t, x)
    {
      if x in s.db.settlements { SettlementOkGrows(s, t, x); }
    }
  }

  lemma {:induction false} InsertKeepsClosed(s: Sys, h: Handler)
    requires TablesOk(s.db) && ClosedOk(s) && HandlerInsert(s.db, h).Some?
    ensures ClosedOk(s.(db := HandlerInsert(s.db, h).value))
  {
    hide TablesOk, HandlerInsert, DbGrows, TxsGrow, Closed;
    var t := s.(db := HandlerInsert(s.db, h).value);
    InsertGrows(s.db, h);
    SameTxs(s.txs);
    forall o | o in t.db.outbox && t.db.outbox[o].doneAt.Some?
      ensures Closed(t, o)
    {
      ClosedGrows(s, t, o);
    }
  }

  lemma {:induction false} InsertKeepsOnchain(s: Sys, h: Handler)
    requires TablesOk(s.db) && OnchainOk(s) && HandlerInsert(s.db, h).Some?
    ensures OnchainOk(s.(db := HandlerInsert(s.db, h).value))
  {
    hide TablesOk, HandlerInsert, DbGrows, TxsGrow;
    var t := s.(db := HandlerInsert(s.db, h).value);
    InsertGrows(s.db, h);
    SameTxs(s.txs);
    KeepsOnchain(s, t);
  }

  /** An insert took effect; its handler went on or ended. */
  lemma {:induction false} InsertStepKeeps(s: Sys, id: nat, t: Sys)
    requires Inv(s) && id in s.handlers && s.handlers[id].pc != CheckNonce && HandlerInsert(s.db, s.handlers[id]).Some?
    requires t == s.(db := HandlerInsert(s.db, s.handlers[id]).value, handlers := t.handlers)
    requires var h := s.handlers[id];
             t.handlers == s.handlers - {id} ||
             (NextPc(h.req.route, h.pc).Some? && t.handlers == s.handlers[id := h.(pc := NextPc(h.req.route, h.pc).value)])
    ensures Inv(t) && Grows(s, t)
  {
    hide TablesOk, PaymentsAuthorized, SplitsOk, ChainOk, SettlementsOk, WorkersOk, OnchainOk, ClosedOk, HandlerOk, Apart;
    hide DbGrows, TxsGrow, SameSkeleton;
    var h := s.handlers[id];
    var m := s.(db := t.db);
    assert HandlerOk(s, h);
    InsertGrows(s.db, h);
    SameTxs(s.txs);
    InsertKeepsTables(s, h);
    InsertKeepsPayments(s, h);
    InsertKeepsSplits(s, h);
    InsertKeepsChain(s, t.db);
    InsertKeepsSettlements(s, h);
    KeepsAllWorkers(s, m);
    InsertKeepsOnchain(s, h);
    InsertKeepsClosed(s, h);
    IgnoresHandlers(m, t);
    HandlersAfterInsert(s, id, t);
  }

  /** The freshness check and signature check admit a request. */
  lemma {:induction false} AdmitKeeps(s: Sys, id: nat, buyer: string)
    requires Inv(s) && id in s.handlers && s.handlers[id].pc == CheckNonce
    requires var h := s.handlers[id];
             Accept(h.req.route, h.req.signed, h.seenAt, !s.db.NonceSeen(h.req.signed.nonce), s.made) == Some(buyer)
    ensures var t := s.(handlers := s.handlers[id := s.handlers[id].(buyer := buyer, pc := AddAction)]); Inv(t) && Grows(s, t)
  {
    hide TablesOk, PaymentsAuthorized, SplitsOk, ChainOk, SettlementsOk, WorkersOk, OnchainOk, ClosedOk;
    hide DbGrows, TxsGrow, SameSkeleton, SplitsOf;
    var h := s.handlers[id];
    var t := s.(handlers := s.handlers[id := h.(buyer := buyer, pc := AddAction)]);
    QuietStep(s, s);
    IgnoresHandlers(s, t);
    AcceptedExactly(h.req.route, h.req.signed, h.seenAt, !s.db.NonceSeen(h.req.signed.nonce), s.made, buyer);
    AdmittedAuthorized(s, h, buyer);
    forall i | i in t.handlers
      ensures HandlerOk(t, t.handlers[i])
    {
      if i != id { assert HandlerOk(s, s.handlers[i]); }
    }
    forall i, j | i in t.handlers && j in t.handlers && i != j
      ensures Apart(t.handlers[i], t.handlers[j])
    {
      assert Apart(s.handlers[i], s.handlers[j]);
    }
  }

  lemma {:induction false} AdmittedAuthorized(s: Sys, h: Handler, buyer: string)
    requires GoodRoute(h.req.route) && Lower(buyer) == Lower(h.req.signed.from)
    requires h.req.signed.signature == ByKey(buyer, Expected(h.req.route, h.req.signed)) && h.req.signed.signature in s.made
    ensures var g := h.(buyer := buyer); Authorized(s.made, ActionRow(g), PaymentRow(g))
  {
  }

  lemma {:induction false} HandlerStepKeeps(s: Sys, id: nat, out: Outcome)
    requires Inv(s)
    ensures Inv(StepHandler(s, id, out)) && Grows(s, StepHandler(s, id, out))
  {
    hide TablesOk, PaymentsAuthorized, SplitsOk, HandlersOk, ChainOk, SettlementsOk, WorkersOk, OnchainOk, ClosedOk;
    hide DbGrows, TxsGrow, SameSkeleton, Accept, HandlerInsert;
    QuietStep(s, s);
    QuietStep(s, EndHandler(s, id));
    if id in s.handlers {
      var h := s.handlers[id];
      if h.pc == CheckNonce {
        var verdict := Accept(h.req.route, h.req.signed, h.seenAt, !s.db.NonceSeen(h.req.signed.nonce), s.made);
        if out == Returned && verdict.Some? { AdmitKeeps(s, id, verdict.value); }
      } else if HandlerInsert(s.db, h).Some? && out != Lost {
        InsertStepKeeps(s, id, StepHandler(s, id, out));
      }
    }
  }

  // ---- every reachable state ----

  lemma {:induction false} StepKeeps(s: Sys, e: Event)
    requires Inv(s)
    ensures Inv(Apply(s, e)) && Grows(s, Apply(s, e))
  {
    hide Inv, Grows, StepHandler, StepWorker, ClaimStep, MineStep, OutsiderStep;
    match e
    case Elapse(_) => QuietStep(s, Apply(s, e));
    case MakeSignature(_) => QuietStep(s, Apply(s, e));
    case Arrive(id, req) => ArriveStep(s, id, req);
    case HandlerStep(id, out) => HandlerStepKeeps(s, id, out);
    case HandlerCrash(_) => QuietStep(s, Apply(s, e));
    case Claim(w, locked, out) => ClaimKeeps(s, w, locked, out);
    case WorkerStep(w, out) => WorkerStepKeeps(s, w, out);
    case WorkerCrash(w) => CrashKeeps(s, w);
    case Mine(h, executes, time) => MineKeeps(s, h, executes, time);
    case Outsider(chain, call) => OutsiderKeeps(s, chain, call);
    case RefundMark(id, out) =>
      QuietStep(s, s);
      FailKeeps(s, id);
  }

  lemma {:induction false} CrashKeeps(s: Sys, id: nat)
    requires Inv(s)
    ensures Inv(Apply(s, WorkerCrash(id))) && Grows(s, Apply(s, WorkerCrash(id)))
  {
    hide TablesOk, PaymentsAuthorized, SplitsOk, HandlersOk, ChainOk, SettlementsOk, WorkersOk, OnchainOk, ClosedOk;
    hide DbGrows, TxsGrow;
    QuietStep(s, s);
    if id in s.workers {
      WorkerOkOf(s, id);
      NextJobOk(s, s.workers[id]);
      PutWorkerKeeps(s, id, Abandon(s.workers[id]));
    }
  }

  lemma {:induction false} InitialInv(s: Sys)
    requires Initial(s)
    ensures Inv(s)
  {
  }

  /** The invariant holds in every reachable state. */
  lemma {:induction false} Reachable(s: Sys, es: seq<Event>)
    requires Initial(s)
    ensures Inv(Run(s, es)) && Grows(s, Run(s, es))
    decreases |es|
  {
    hide Inv, Grows, Apply;
    InitialInv(s);
    if es == [] {
      GrowsReflexive(s);
    } else {
      var before := Run(s, es[..|es| - 1]);
      Reachable(s, es[..|es| - 1]);
      StepKeeps(before, es[|es| - 1]);
      GrowsTransitive(s, before, Run(s, es));
    }
  }

  lemma {:induction false} GrowsReflexive(s: Sys)
    ensures Grows(s, s)
  {
  }

  /** From any reachable state on, the system only grows. */
  lemma {:induction false} GrowsOnward(s: Sys, es: seq<Event>)
    requires Inv(s)
    ensures Inv(Run(s, es)) && Grows(s, Run(s, es))
    decreases |es|
  {
    hide Inv, Grows, Apply;
    if es == [] {
      GrowsReflexive(s);
    } else {
      var before := Run(s, es[..|es| - 1]);
      GrowsOnward(s, es[..|es| - 1]);
      StepKeeps(before, es[|es| - 1]);
      GrowsTransitive(s, before, Run(s, es));
    }
  }
}
