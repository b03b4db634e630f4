// What the ledger holds of a request whose writes all went through.
module PipelineRecords {
  import opened Prelude
  import opened Splits
  import opened Handshake
  import opened Ledger
  import opened Pipeline
  import opened PipelineInvariants
  import opened PipelineRequests

  /** An outbox row with the request's transfer exactly if the route settles in batches. */
  ghost predicate EnqueuedAsMode(db: Tables, h: Handler)
  {
    if h.req.route.batch then exists o :: o in db.outbox && db.outbox[o].transfer == TransferRow(h)
    else forall o | o in db.outbox :: db.outbox[o].transfer.settlement != h.req.settlement
  }

  /** Everything a request owes the ledger, and nothing else of its own. */
  ghost predicate FullyRecorded(db: Tables, h: Handler)
  {
    h.req.action in db.actions && db.actions[h.req.action] == ActionRow(h) &&
    h.req.payment in db.payments && db.payments[h.req.payment] == PaymentRow(h) &&
    h.req.settlement in db.settlements && db.settlements[h.req.settlement].payment == h.req.payment &&
    EnqueuedAsMode(db, h) && SplitsRecorded(db, h)
  }

  predicate SplitsRecorded(db: Tables, h: Handler)
  {
    SplitsOf(db.splits, h.req.action) ==
      if h.req.route.splits == [] then [] else SplitRows(PriceOf(h.req), h.req.route.splits)
  }

  /** By the time a request records splits its outbox row is where its mode wants it. */
  ghost predicate Ready(db: Tables, h: Handler)
  {
    (h.pc == AddOutbox ==> h.req.route.batch) && (h.pc == AddSplits ==> EnqueuedAsMode(db, h))
  }

  ghost predicate AllReady(s: Sys) { forall i | i in s.handlers :: Ready(s.db, s.handlers[i]) }

  ghost predicate SameOutbox(a: Tables, b: Tables)
  {
    b.outbox.Keys == a.outbox.Keys && forall o | o in a.outbox :: b.outbox[o].transfer == a.outbox[o].transfer
  }

  lemma {:induction false} ReadyKept(a: Tables, b: Tables, h: Handler)
    requires Ready(a, h) && SameOutbox(a, b)
    ensures Ready(b, h)
  {
    if h.pc == AddSplits && h.req.route.batch {
      var o :| o in a.outbox && a.outbox[o].transfer == TransferRow(h);
      assert o in b.outbox && b.outbox[o].transfer == TransferRow(h);
    }
  }

  lemma {:induction false} WriteKeepsOutbox(s: Sys, w: Worker)
    requires w.queue != []
    ensures SameOutbox(s.db, WorkerWrite(s, w))
  {
    var o := w.queue[0].id;
    if w.pc.Finish? {
      assert WorkerWrite(s, w) == s.db.MarkOutboxDone(o, s.clock);
    } else if w.pc == GiveBack {
      assert WorkerWrite(s, w) == s.db.MarkOutboxFailed(o);
    } else {
      assert WorkerWrite(s, w).outbox == s.db.outbox;
    }
  }

  lemma {:induction false} ReadyWorker(s: Sys, w: nat, out: Outcome)
    requires AllReady(s)
    ensures AllReady(StepWorker(s, w, out))
  {
    hide WorkerWrite, Continue, Throw, Ready;
    if w in s.workers && s.workers[w].queue != [] {
      WriteKeepsOutbox(s, s.workers[w]);
      ReadyElse(s, StepWorker(s, w, out));
    }
  }

  lemma {:induction false} ReadyElse(s: Sys, t: Sys)
    requires AllReady(s) && SameOutbox(s.db, t.db)
    requires forall i | i in t.handlers :: t.handlers[i].pc == CheckNonce || (i in s.handlers && t.handlers[i] == s.handlers[i])
    ensures AllReady(t)
  {
    hide EnqueuedAsMode;
    forall i | i in t.handlers && t.handlers[i].pc != CheckNonce
      ensures Ready(t.db, t.handlers[i])
    {
      ReadyKept(s.db, t.db, s.handlers[i]);
    }
  }

  /** A request's insert leaves the others ready. */
  lemma {:induction false} ReadyBystander(s: Sys, h: Handler, g: Handler)
    requires TablesOk(s.db) && HandlerOk(s, h) && HandlerInsert(s.db, h).Some? && Apart(g, h) && Ready(s.db, g)
    ensures Ready(HandlerInsert(s.db, h).value, g)
  {
    hide SplitsOf, SplitRows, PriceOf, Tables.NonceSeen;
    var b := HandlerInsert(s.db, h).value;
    if g.pc == AddSplits && g.req.route.batch {
      var o :| o in s.db.outbox && s.db.outbox[o].transfer == TransferRow(g);
      assert o in b.outbox && b.outbox[o].transfer == TransferRow(g);
    }
  }

  lemma {:induction false} ReadyAdvance(s: Sys, h: Handler, pc: HandlerPc)
    requires TablesOk(s.db) && HandlerInsert(s.db, h).Some? && NextPc(h.req.route, h.pc) == Some(pc) && Ready(s.db, h)
    ensures Ready(HandlerInsert(s.db, h).value, h.(pc := pc))
  {
    hide SplitsOf, SplitRows, PriceOf;
    var b := HandlerInsert(s.db, h).value;
    if h.pc == AddOutbox {
      assert s.db.nextOutbox in b.outbox && b.outbox[s.db.nextOutbox].transfer == TransferRow(h.(pc := pc));
    }
    if h.pc == AddSettlement {
      forall o | o in b.outbox
        ensures b.outbox[o].transfer.settlement != h.req.settlement
      {
        assert Joined(s.db, s.db.outbox[o].transfer);
      }
    }
  }

  lemma {:induction false} ReadyHandler(s: Sys, id: nat, out: Outcome)
    requires Inv(s) && AllReady(s)
    ensures AllReady(StepHandler(s, id, out))
  {
    hide TablesOk, PaymentsAuthorized, SplitsOk, ChainOk, SettlementsOk, WorkersOk, OnchainOk, ClosedOk;
    hide HandlerOk, Apart, Ready, HandlerInsert, Accept;
    var t := StepHandler(s, id, out);
    if id in s.handlers {
      var h := s.handlers[id];
      forall i | i in t.handlers
        ensures Ready(t.db, t.handlers[i])
      {
        if h.pc == CheckNonce {
          ReadyStart(s.db, t.handlers[i], s.handlers[i]);
        } else if HandlerInsert(s.db, h).Some? {
          assert HandlerOk(s, h) && Ready(s.db, s.handlers[i]);
          if i != id {
            assert Apart(s.handlers[i], h);
            ReadyBystander(s, h, s.handlers[i]);
          } else {
            ReadyAdvance(s, h, t.handlers[i].pc);
          }
        }
      }
    }
  }

  lemma {:induction false} ReadyStart(db: Tables, h: Handler, before: Handler)
    requires Ready(db, before) && (h == before || h.pc == AddAction)
    ensures Ready(db, h)
  {
  }

  lemma {:induction false} ReadyStep(s: Sys, e: Event)
    requires Inv(s) && AllReady(s)
    ensures AllReady(Apply(s, e))
  {
    hide Inv, AllReady, StepHandler, StepWorker, WorkerWrite, Tables.SelectUndone;
    match e
    case HandlerStep(id, out) => ReadyHandler(s, id, out);
    case WorkerStep(w, out) => ReadyWorker(s, w, out);
    case _ => ReadyElse(s, Apply(s, e));
  }

  lemma {:induction false} RequestsStayReady(s: Sys, es: seq<Event>)
    requires Initial(s)
    ensures Inv(Run(s, es)) && AllReady(Run(s, es))
    decreases |es|
  {
    hide Inv, Grows, Apply, Ready;
    Reachable(s, es);
    if es != [] {
      RequestsStayReady(s, es[..|es| - 1]);
      ReadyStep(Run(s, es[..|es| - 1]), es[|es| - 1]);
    }
  }

  /** When the last write of a request takes effect, whatever others did since its
      first, the ledger holds all of the request: action, payment, settlement, an
      outbox row exactly in batch mode, and exactly its split rows. */
  lemma {:induction false} LastWriteRecordsAll(s: Sys, es: seq<Event>, id: nat, out: Outcome)
    requires Initial(s) && id in Run(s, es).handlers && out != Lost
    requires var t := Run(s, es); var h := t.handlers[id];
             h.pc != CheckNonce && NextPc(h.req.route, h.pc) == None && HandlerInsert(t.db, h).Some?
    ensures FullyRecorded(Run(s, es + [HandlerStep(id, out)]).db, Run(s, es).handlers[id])
  {
    hide Inv, Run, HandlerInsert, FullyRecorded;
    RequestsStayReady(s, es);
    var t := Run(s, es);
    RunSnoc(s, es, HandlerStep(id, out));
    LastInsert(t, t.handlers[id], id);
  }

  lemma {:induction false} RunSnoc(s: Sys, es: seq<Event>, e: Event)
    ensures Run(s, es + [e]) == Apply(Run(s, es), e)
  {
    assert (es + [e])[..|es|] == es;
  }

  lemma {:induction false} LastInsert(s: Sys, h: Handler, id: nat)
    requires Inv(s) && AllReady(s) && id in s.handlers && h == s.handlers[id]
    requires h.pc != CheckNonce && NextPc(h.req.route, h.pc) == None && HandlerInsert(s.db, h).Some?
    ensures FullyRecorded(HandlerInsert(s.db, h).value, h)
  {
    hide PaymentsAuthorized, SplitsOk, ChainOk, SettlementsOk, WorkersOk, OnchainOk, ClosedOk, SplitsOf, SplitsRecorded;
    assert HandlerOk(s, h) && Ready(s.db, h);
    LastInsertSplits(s, h);
    LastInsertEnqueued(s.db, h);
    InsertGrows(s.db, h);
  }

  lemma {:induction false} LastInsertEnqueued(db: Tables, h: Handler)
    requires TablesOk(db) && Ready(db, h) && h.pc != CheckNonce
    requires NextPc(h.req.route, h.pc) == None && HandlerInsert(db, h).Some?
    ensures EnqueuedAsMode(HandlerInsert(db, h).value, h)
  {
    hide SplitRows, PriceOf;
    var b := HandlerInsert(db, h).value;
    if h.pc == AddOutbox {
      assert b.outbox[db.nextOutbox].transfer == TransferRow(h);
    } else if h.pc == AddSettlement {
      assert forall o | o in db.outbox :: Joined(db, db.outbox[o].transfer);
    }
  }

  lemma {:induction false} LastInsertSplits(s: Sys, h: Handler)
    requires HandlerOk(s, h) && h.pc != CheckNonce && NextPc(h.req.route, h.pc) == None && HandlerInsert(s.db, h).Some?
    ensures SplitsRecorded(HandlerInsert(s.db, h).value, h)
  {
    hide SplitsOf, SplitRows;
    if h.pc == AddSplits && h.req.route.splits != [] {
      LastSplits(s.db.splits, h);
      if SplitRows(PriceOf(h.req), h.req.route.splits) == [] { assert HandlerInsert(s.db, h).value.splits == s.db.splits; }
    }
  }

  lemma {:induction false} LastSplits(rows: seq<(Id, SplitRow)>, h: Handler)
    requires h.req.route.splits != []
    ensures var more := SplitRows(PriceOf(h.req), h.req.route.splits);
            SplitsOf(rows + seq(|more|, i requires 0 <= i < |more| => (h.req.action, more[i])), h.req.action) ==
            SplitsOf(rows, h.req.action) + more
  {
    hide SplitRows, SplitsOf;
    var more := SplitRows(PriceOf(h.req), h.req.route.splits);
    SplitsOfAppend(rows, h.req.action, seq(|more|, i requires 0 <= i < |more| => (h.req.action, more[i])));
    SplitsOfOne(more, h.req.action, h.req.action);
  }
}
