// When "done" can be trusted to mean "settled": what revokes a settled status,
// and the single-worker deployment in which nothing does.
module PipelineSolo {
  import opened Prelude
  import opened Handshake
  import opened Ledger
  import opened Pipeline
  import opened PipelineInvariants
  import opened PipelineSteps
  import opened PipelineRequests
  import opened PipelineTheorems

  /** The two writes that set a settlement to failed. */
  predicate Revokes(s: Sys, e: Event, x: Id)
  {
    (e.RefundMark? && e.settlement == x && e.out != Lost) ||
    (e.WorkerStep? && e.out != Lost && e.worker in s.workers && s.workers[e.worker].queue != [] &&
     s.workers[e.worker].pc == HardFail && s.workers[e.worker].queue[0].transfer.settlement == x)
  }

  /** Whatever happens, a settled row stops being settled in a step exactly when
      the step is a refund mark on it or a worker's hard fail of it. */
  lemma {:induction false} SettledIsRevokedExactly(s: Sys, e: Event, x: Id)
    requires Inv(s) && x in s.db.settlements && s.db.settlements[x].status == Settled
    ensures x in Apply(s, e).db.settlements
    ensures Apply(s, e).db.settlements[x].status != Settled <==> Revokes(s, e, x)
  {
    hide Inv, StepHandler, StepWorker, ClaimStep;
    match e
    case HandlerStep(id, out) => HandlerLeavesSettlements(s, id, out, x);
    case WorkerStep(w, out) => WorkerVerdict(s, w, out, x);
    case Claim(w, locked, out) => ClaimLeavesSettlements(s, w, locked, out);
    case _ =>
  }

  lemma {:induction false} HandlerLeavesSettlements(s: Sys, id: nat, out: Outcome, x: Id)
    requires Inv(s) && x in s.db.settlements
    ensures x in StepHandler(s, id, out).db.settlements && StepHandler(s, id, out).db.settlements[x] == s.db.settlements[x]
  {
    hide Inv, HandlerInsert, Accept, TablesOk, DbGrows, NewRowsBlank;
    InvTables(s);
    if id in s.handlers && HandlerInsert(s.db, s.handlers[id]).Some? {
      InsertGrows(s.db, s.handlers[id]);
      BlankLeavesSettlements(s.db, HandlerInsert(s.db, s.handlers[id]).value, x);
    }
  }

  lemma {:induction false} BlankLeavesSettlements(a: Tables, b: Tables, x: Id)
    requires DbGrows(a, b) && NewRowsBlank(a, b) && x in a.settlements
    ensures x in b.settlements && b.settlements[x] == a.settlements[x]
  {
  }

  lemma {:induction false} ClaimLeavesSettlements(s: Sys, w: nat, locked: set<nat>, out: Outcome)
    ensures ClaimStep(s, w, locked, out).db.settlements == s.db.settlements
  {
  }

  lemma {:induction false} WorkerVerdict(s: Sys, w: nat, out: Outcome, x: Id)
    requires x in s.db.settlements && s.db.settlements[x].status == Settled
    ensures x in StepWorker(s, w, out).db.settlements
    ensures StepWorker(s, w, out).db.settlements[x].status != Settled <==> Revokes(s, WorkerStep(w, out), x)
  {
    hide Continue, Throw, NextJob, WorkerWrite;
    if w in s.workers && s.workers[w].queue != [] { WriteVerdict(s, s.workers[w], x); }
  }

  lemma {:induction false} WriteVerdict(s: Sys, w: Worker, x: Id)
    requires w.queue != [] && x in s.db.settlements && s.db.settlements[x].status == Settled
    ensures x in WorkerWrite(s, w).settlements
    ensures WorkerWrite(s, w).settlements[x].status != Settled <==> w.pc == HardFail && w.queue[0].transfer.settlement == x
  {
    var y := w.queue[0].transfer.settlement;
    match w.pc
    case Submit(h) => assert WorkerWrite(s, w) == s.db.MarkSettlementSubmitted(y, h, s.clock);
    case Promote(h) => assert WorkerWrite(s, w) == s.db.PromoteSettlement(y, h, s.clock);
    case HardFail => assert WorkerWrite(s, w) == s.db.FailSettlement(y);
    case _ => assert WorkerWrite(s, w).settlements == s.db.settlements;
  }

  /** Failed does not mean unpaid: a refund mark fails any settled row and leaves it
      naming the successful transaction that paid it. */
  lemma {:induction false} FailedMayBePaid(s: Sys, es: seq<Event>, x: Id)
    requires Initial(s) && x in Run(s, es).db.settlements && Run(s, es).db.settlements[x].status == Settled
    ensures var t := Run(s, es + [RefundMark(x, Returned)]);
            x in t.db.settlements && t.db.settlements[x].status == Failed &&
            t.db.settlements[x].txHash.Some? && Succeeded(t, t.db.settlements[x].txHash.value)
  {
    hide Inv, Grows;
    SettledIsPaid(s, es, x);
    assert (es + [RefundMark(x, Returned)])[..|es|] == es;
  }

  /** A promotion that takes effect on the settlement. */
  predicate Promotes(s: Sys, e: Event, x: Id)
  {
    e.WorkerStep? && e.out != Lost && e.worker in s.workers && s.workers[e.worker].queue != [] &&
    s.workers[e.worker].pc.Promote? && s.workers[e.worker].queue[0].transfer.settlement == x
  }

  /** Failed is not final: a failed row stops being failed in a step exactly when the
      step is a promotion of it, and is then settled with the hash the worker waited
      for. */
  lemma {:induction false} FailedIsLeftExactly(s: Sys, e: Event, x: Id)
    requires Inv(s) && x in s.db.settlements && s.db.settlements[x].status == Failed
    ensures var t := Apply(s, e);
            x in t.db.settlements && (t.db.settlements[x].status != Failed <==> Promotes(s, e, x)) &&
            (Promotes(s, e, x) ==> t.db.settlements[x].status == Settled &&
                                   t.db.settlements[x].txHash == Some(s.workers[e.worker].pc.hash))
  {
    hide Inv, StepHandler, StepWorker, ClaimStep, Payable;
    match e
    case HandlerStep(id, out) => HandlerLeavesSettlements(s, id, out, x);
    case WorkerStep(w, out) => WorkerOnFailed(s, w, out, x);
    case Claim(w, locked, out) => ClaimLeavesSettlements(s, w, locked, out);
    case _ =>
  }

  lemma {:induction false} WorkerOnFailed(s: Sys, w: nat, out: Outcome, x: Id)
    requires x in s.db.settlements && s.db.settlements[x].status == Failed
    ensures var e, t := WorkerStep(w, out), StepWorker(s, w, out);
            x in t.db.settlements && (t.db.settlements[x].status != Failed <==> Promotes(s, e, x)) &&
            (Promotes(s, e, x) ==> t.db.settlements[x].status == Settled &&
                                   t.db.settlements[x].txHash == Some(s.workers[w].pc.hash))
  {
    hide Continue, Throw, NextJob, WorkerWrite;
    if w in s.workers && s.workers[w].queue != [] { WriteOnFailed(s, s.workers[w], x); }
  }

  lemma {:induction false} WriteOnFailed(s: Sys, w: Worker, x: Id)
    requires w.queue != [] && x in s.db.settlements && s.db.settlements[x].status == Failed
    ensures var t := WorkerWrite(s, w);
            x in t.settlements &&
            (t.settlements[x].status != Failed <==> w.pc.Promote? && w.queue[0].transfer.settlement == x) &&
            (w.pc.Promote? && w.queue[0].transfer.settlement == x ==>
               t.settlements[x].status == Settled && t.settlements[x].txHash == Some(w.pc.hash))
  {
    var y := w.queue[0].transfer.settlement;
    match w.pc
    case Submit(h) => assert WorkerWrite(s, w) == s.db.MarkSettlementSubmitted(y, h, s.clock);
    case Promote(h) => assert WorkerWrite(s, w) == s.db.PromoteSettlement(y, h, s.clock);
    case HardFail => assert WorkerWrite(s, w) == s.db.FailSettlement(y);
    case _ => assert WorkerWrite(s, w).settlements == s.db.settlements;
  }

  predicate SettledBy(t: Sys, x: Id, hash: TxHash)
  {
    x in t.db.settlements && t.db.settlements[x].status == Settled && t.db.settlements[x].txHash == Some(hash) && Succeeded(t, hash)
  }

  /** In a reachable state that transaction succeeded: whatever the row's status, a
      promotion that returns settles it by a successful transaction. */
  lemma {:induction false} PromotionOverridesFailure(s: Sys, w: nat, hash: TxHash)
    requires Inv(s) && w in s.workers && s.workers[w].queue != [] && s.workers[w].pc == Promote(hash)
    ensures SettledBy(StepWorker(s, w, Returned), s.workers[w].queue[0].transfer.settlement, hash)
  {
    hide TablesOk, PaymentsAuthorized, SplitsOk, HandlersOk, ChainOk, SettlementsOk, OnchainOk, ClosedOk, WorkersOk;
    WorkerOkOf(s, w);
    assert JobOk(s.db, s.workers[w].queue[0]);
  }

  /** The worker after its promotion threw without effect, the row was given back,
      and the settlement failed. */
  function AfterFailedPromotion(s: Sys, w: nat): Sys
  {
    StepWorker(StepWorker(StepWorker(s, w, Lost), w, Returned), w, Returned)
  }

  /** Failed, never confirmed by this, and paid all the same by a transaction of the row. */
  predicate FailedThoughPaid(s: Sys, t: Sys, job: Job, hash: TxHash)
  {
    var x := job.transfer.settlement;
    x in s.db.settlements && x in t.db.settlements && t.db.settlements[x].status == Failed &&
    t.db.settlements[x].confirmedAt == s.db.settlements[x].confirmedAt &&
    Succeeded(t, hash) && SentFor(t, hash, job.id)
  }

  /** The program's own path to failed but paid: on the fifth attempt or later the
      promotion throws after the transfer was mined. */
  lemma {:induction false} ThrowingPromotionFailsPaid(s: Sys, w: nat, hash: TxHash)
    requires Inv(s) && w in s.workers && s.workers[w].queue != [] && s.workers[w].pc == Promote(hash)
    requires s.workers[w].queue[0].attempts + 1 >= 5
    ensures FailedThoughPaid(s, AfterFailedPromotion(s, w), s.workers[w].queue[0], hash)
  {
    hide TablesOk, PaymentsAuthorized, SplitsOk, HandlersOk, ChainOk, SettlementsOk, OnchainOk, ClosedOk, WorkersOk;
    WorkerOkOf(s, w);
    var wk := s.workers[w];
    assert JobOk(s.db, wk.queue[0]);
    var a := StepWorker(s, w, Lost);
    assert a == s.(workers := s.workers[w := wk.(pc := GiveBack)]);
    var b := StepWorker(a, w, Returned);
    assert b == a.(db := a.db.MarkOutboxFailed(wk.queue[0].id), workers := a.workers[w := wk.(pc := HardFail)]);
    assert AfterFailedPromotion(s, w).db == b.db.FailSettlement(wk.queue[0].transfer.settlement);
  }

  /** The state after `markOutboxDone` took effect but threw, and the catch block
      gave the row back. */
  function AfterThrowingFinish(s: Sys, w: nat): Sys { StepWorker(StepWorker(s, w, Ambiguous), w, Returned) }

  /** Then the row is done and still settled; but on the fifth attempt or later the
      worker goes on to fail it, and only then. */
  lemma {:induction false} ThrowingFinish(s: Sys, w: nat)
    requires Inv(s) && w in s.workers && s.workers[w].queue != [] && s.workers[w].pc.Finish?
    ensures var job, t := s.workers[w].queue[0], AfterThrowingFinish(s, w);
            job.id in t.db.outbox && t.db.outbox[job.id].doneAt.Some? && t.db.settlements == s.db.settlements &&
            w in t.workers && (t.workers[w].pc == HardFail <==> job.attempts + 1 >= 5)
    ensures var job, u := s.workers[w].queue[0], StepWorker(AfterThrowingFinish(s, w), w, Returned);
            job.attempts + 1 >= 5 ==>
              job.id in u.db.outbox && u.db.outbox[job.id].doneAt.Some? &&
              job.transfer.settlement in u.db.settlements && u.db.settlements[job.transfer.settlement].status == Failed
  {
    hide TablesOk, PaymentsAuthorized, SplitsOk, HandlersOk, ChainOk, SettlementsOk, OnchainOk, ClosedOk, WorkersOk;
    WorkerOkOf(s, w);
    var wk, job := s.workers[w], s.workers[w].queue[0];
    assert JobOk(s.db, job);
    var a := StepWorker(s, w, Ambiguous);
    assert a.workers[w] == wk.(pc := GiveBack) && a.db.outbox[job.id].doneAt.Some?;
    assert AfterThrowingFinish(s, w).workers[w] == Continue(wk.(pc := GiveBack));
  }

  // ---- one worker ----

  /** No operator marks a refund, and the worker's failed ledger calls have no effect. */
  predicate Tame(s: Sys, e: Event)
  {
    (e.RefundMark? ==> e.out == Lost) &&
    (e.WorkerStep? && e.worker in s.workers && s.workers[e.worker].pc != Send ==> e.out != Ambiguous)
  }

  ghost predicate TameRun(s: Sys, es: seq<Event>)
  {
    forall i | 0 <= i < |es| :: Tame(Run(s, es[..i]), es[i])
  }

  /** The row's settlement is settled and names a logged transaction sent for this very row. */
  predicate SettledByOwnTx(s: Sys, o: nat)
    requires o in s.db.outbox
  {
    var x := s.db.outbox[o].transfer.settlement;
    x in s.db.settlements && s.db.settlements[x].status == Settled && s.db.settlements[x].txHash.Some? &&
    s.db.settlements[x].txHash.value in s.db.onchain && SentFor(s, s.db.settlements[x].txHash.value, o)
  }

  /** Done rows are settled by their own transaction; the worker holds only undone
      rows, and between promoting a row and finishing it the row is settled with the
      hash the worker holds. */
  ghost predicate SoloOk(s: Sys, w: nat)
  {
    s.workers.Keys == {w} &&
    (forall o | o in s.db.outbox && s.db.outbox[o].doneAt.Some? :: SettledByOwnTx(s, o)) &&
    (forall i | 0 <= i < |s.workers[w].queue| :: s.db.Claimable(s.workers[w].queue[i].id)) &&
    (s.workers[w].queue != [] && (s.workers[w].pc.Log? || s.workers[w].pc.Finish?) ==>
       s.workers[w].queue[0].transfer.settlement in s.db.settlements &&
       s.db.settlements[s.workers[w].queue[0].transfer.settlement].status == Settled &&
       s.db.settlements[s.workers[w].queue[0].transfer.settlement].txHash == Some(s.workers[w].pc.hash))
  }

  lemma {:induction false} SoloStep(s: Sys, e: Event, w: nat)
    requires Inv(s) && SoloOk(s, w) && Tame(s, e)
    ensures SoloOk(Apply(s, e), w)
  {
    hide Inv, StepHandler, StepWorker, ClaimStep, MineStep, OutsiderStep, SoloOk;
    InvTables(s);
    match e
    case HandlerStep(id, out) => SoloHandler(s, id, out, w);
    case Claim(v, locked, out) => SoloClaim(s, v, locked, out, w);
    case WorkerStep(v, out) => SoloWorker(s, v, out, w);
    case WorkerCrash(v) => SoloElse(s, e, w);
    case _ => SoloElse(s, e, w);
  }

  lemma {:induction false} SoloElse(s: Sys, e: Event, w: nat)
    requires SoloOk(s, w) && Tame(s, e) && !e.HandlerStep? && !e.Claim? && !e.WorkerStep?
    ensures SoloOk(Apply(s, e), w)
  {
  }

  lemma {:induction false} SoloHandler(s: Sys, id: nat, out: Outcome, w: nat)
    requires Inv(s) && SoloOk(s, w)
    ensures SoloOk(StepHandler(s, id, out), w)
  {
    hide Inv, HandlerInsert, Accept, TablesOk, DbGrows, NewRowsBlank, SoloOk;
    InvTables(s);
    if id in s.handlers {
      HandlerLeavesWorkers(s, id, out);
      SoloTables(s, StepHandler(s, id, out), w);
    }
    if id in s.handlers && HandlerInsert(s.db, s.handlers[id]).Some? {
      var db := HandlerInsert(s.db, s.handlers[id]).value;
      InsertGrows(s.db, s.handlers[id]);
      SoloInsert(s, db, w);
      SoloTables(s.(db := db), StepHandler(s, id, out), w);
    }
  }

  lemma {:induction false} HandlerLeavesWorkers(s: Sys, id: nat, out: Outcome)
    ensures StepHandler(s, id, out).workers == s.workers && StepHandler(s, id, out).txs == s.txs
    ensures id in s.handlers && HandlerInsert(s.db, s.handlers[id]).Some? ==>
              StepHandler(s, id, out).db in {s.db, HandlerInsert(s.db, s.handlers[id]).value}
    ensures id in s.handlers && HandlerInsert(s.db, s.handlers[id]).None? ==> StepHandler(s, id, out).db == s.db
  {
    hide HandlerInsert, Accept;
  }

  lemma {:induction false} SoloInsert(s: Sys, db: Tables, w: nat)
    requires SoloOk(s, w) && DbGrows(s.db, db) && NewRowsBlank(s.db, db)
    ensures SoloOk(s.(db := db), w)
  {
  }

  lemma {:induction false} SoloTables(s: Sys, t: Sys, w: nat)
    requires SoloOk(s, w) && t.workers == s.workers && t.txs == s.txs
    ensures t.db == s.db ==> SoloOk(t, w)
  {
  }

  lemma {:induction false} SoloClaim(s: Sys, v: nat, locked: set<nat>, out: Outcome, w: nat)
    requires SoloOk(s, w)
    ensures SoloOk(ClaimStep(s, v, locked, out), w)
  {
  }

  /** The settlement of a done row is not the one the worker is busy with. */
  lemma {:induction false} BusyRowIsNotDone(s: Sys, w: nat, o: nat)
    requires Inv(s) && SoloOk(s, w) && s.workers[w].queue != [] && o in s.db.outbox && s.db.outbox[o].doneAt.Some?
    ensures s.workers[w].queue[0].id in s.db.outbox && s.workers[w].queue[0].transfer.settlement in s.db.settlements
    ensures s.db.outbox[s.workers[w].queue[0].id].transfer == s.workers[w].queue[0].transfer
    ensures s.db.outbox[o].transfer.settlement != s.workers[w].queue[0].transfer.settlement
  {
    hide PaymentsAuthorized, SplitsOk, HandlersOk, ChainOk, SettlementsOk, OnchainOk, ClosedOk;
    assert WorkerOk(s, s.workers[w]) && JobOk(s.db, s.workers[w].queue[0]);
  }

  lemma {:induction false} SoloWorker(s: Sys, v: nat, out: Outcome, w: nat)
    requires Inv(s) && SoloOk(s, w) && Tame(s, WorkerStep(v, out))
    ensures SoloOk(StepWorker(s, v, out), w)
  {
    hide Inv, Continue, Throw, WorkerWrite, SoloOk;
    if v in s.workers && s.workers[v].queue != [] && s.workers[v].pc != Idle {
      SoloKey(s, v, w);
      if s.workers[w].pc == Send || s.workers[w].pc.Await? {
        SoloChainCall(s, out, w);
      } else if out == Returned {
        SoloReturned(s, w);
      } else {
        SoloThrew(s, w);
      }
    }
  }

  lemma {:induction false} SoloKey(s: Sys, v: nat, w: nat)
    requires SoloOk(s, w) && v in s.workers
    ensures v == w
  {
  }

  lemma {:induction false} SoloChainCall(s: Sys, out: Outcome, w: nat)
    requires SoloOk(s, w) && s.workers[w].queue != [] && (s.workers[w].pc == Send || s.workers[w].pc.Await?)
    ensures SoloOk(StepWorker(s, w, out), w)
  {
  }

  lemma {:induction false} SoloThrew(s: Sys, w: nat)
    requires SoloOk(s, w) && s.workers[w].queue != []
    requires s.workers[w].pc != Idle && s.workers[w].pc != Send && !s.workers[w].pc.Await?
    ensures SoloOk(StepWorker(s, w, Lost), w)
  {
  }

  /** A ledger call of the only worker took effect and returned. */
  lemma {:induction false} SoloReturned(s: Sys, w: nat)
    requires Inv(s) && SoloOk(s, w) && s.workers[w].queue != []
    requires s.workers[w].pc != Idle && s.workers[w].pc != Send && !s.workers[w].pc.Await?
    ensures SoloOk(StepWorker(s, w, Returned), w)
  {
    hide TablesOk, PaymentsAuthorized, SplitsOk, HandlersOk, ChainOk, SettlementsOk, OnchainOk, ClosedOk, WorkersOk;
    var wk := s.workers[w];
    var job := wk.queue[0];
    WorkerOkOf(s, w);
    assert JobOk(s.db, job);
    var t := StepWorker(s, w, Returned);
    forall o | o in t.db.outbox && t.db.outbox[o].doneAt.Some?
      ensures SettledByOwnTx(t, o)
    {
      if s.db.outbox[o].doneAt.Some? {
        BusyRowIsNotDone(s, w, o);
      }
    }
  }

  // ---- done is settled for good ----

  lemma {:induction false} WriteLeavesOthers(s: Sys, w: Worker, x: Id)
    requires w.queue != [] && x in s.db.settlements && x != w.queue[0].transfer.settlement
    ensures x in WorkerWrite(s, w).settlements && WorkerWrite(s, w).settlements[x] == s.db.settlements[x]
  {
    var y := w.queue[0].transfer.settlement;
    match w.pc
    case Submit(h) => assert WorkerWrite(s, w) == s.db.MarkSettlementSubmitted(y, h, s.clock);
    case Promote(h) => assert WorkerWrite(s, w) == s.db.PromoteSettlement(y, h, s.clock);
    case HardFail => assert WorkerWrite(s, w) == s.db.FailSettlement(y);
    case _ => assert WorkerWrite(s, w).settlements == s.db.settlements;
  }

  /** No event changes the settlement of a done row. */
  lemma {:induction false} DoneRowStays(s: Sys, e: Event, w: nat, o: nat)
    requires Inv(s) && SoloOk(s, w) && Tame(s, e) && o in s.db.outbox && s.db.outbox[o].doneAt.Some?
    ensures var x := s.db.outbox[o].transfer.settlement;
            x in s.db.settlements && x in Apply(s, e).db.settlements && Apply(s, e).db.settlements[x] == s.db.settlements[x]
  {
    hide Inv, StepHandler, StepWorker, ClaimStep, Payable, WorkerWrite;
    var x := s.db.outbox[o].transfer.settlement;
    assert SettledByOwnTx(s, o);
    match e
    case HandlerStep(id, out) => HandlerLeavesSettlements(s, id, out, x);
    case Claim(v, locked, out) => ClaimLeavesSettlements(s, v, locked, out);
    case WorkerStep(v, out) => DoneRowStaysWorker(s, v, out, w, o);
    case _ =>
  }

  lemma {:induction false} DoneRowStaysWorker(s: Sys, v: nat, out: Outcome, w: nat, o: nat)
    requires Inv(s) && SoloOk(s, w) && o in s.db.outbox && s.db.outbox[o].doneAt.Some?
    ensures var x, t := s.db.outbox[o].transfer.settlement, StepWorker(s, v, out);
            x in s.db.settlements && x in t.db.settlements && t.db.settlements[x] == s.db.settlements[x]
  {
    hide Inv, WorkerWrite, Continue, Throw;
    assert SettledByOwnTx(s, o);
    if v in s.workers && s.workers[v].queue != [] {
      BusyRowIsNotDone(s, w, o);
      WriteLeavesOthers(s, s.workers[v], s.db.outbox[o].transfer.settlement);
    }
  }

  lemma {:induction false} TamePrefix(s: Sys, es: seq<Event>, n: nat)
    requires TameRun(s, es) && n <= |es|
    ensures TameRun(s, es[..n])
  {
    hide Tame, Run;
    assert forall i | 0 <= i < n :: es[..n][..i] == es[..i] && es[..n][i] == es[i];
  }

  /** With one worker, no refund mark and no ledger call that takes effect while
      throwing, every done row is settled by a logged transaction of its own. */
  lemma {:induction false} SoloDoneIsSettled(s: Sys, es: seq<Event>, w: nat)
    requires Initial(s) && s.workers.Keys == {w} && TameRun(s, es)
    ensures Inv(Run(s, es)) && SoloOk(Run(s, es), w)
    ensures forall o | o in Run(s, es).db.outbox && Run(s, es).db.outbox[o].doneAt.Some? :: SettledByOwnTx(Run(s, es), o)
    decreases |es|
  {
    hide Inv, Grows, Apply, Tame;
    Reachable(s, es);
    if es != [] {
      var n := |es| - 1;
      TamePrefix(s, es, n);
      SoloDoneIsSettled(s, es[..n], w);
      assert Tame(Run(s, es[..n]), es[n]);
      SoloStep(Run(s, es[..n]), es[n], w);
    }
  }

  /** In the same deployment, whatever the asset and chain: once a row is done its
      settlement is settled with the same hash in every later state. */
  lemma {:induction false} SoloDoneIsForever(s: Sys, es: seq<Event>, w: nat, n: nat, o: nat)
    requires Initial(s) && s.workers.Keys == {w} && TameRun(s, es) && n <= |es|
    requires o in Run(s, es[..n]).db.outbox && Run(s, es[..n]).db.outbox[o].doneAt.Some?
    ensures var t, u := Run(s, es[..n]), Run(s, es);
            var x := t.db.outbox[o].transfer.settlement;
            o in u.db.outbox && u.db.outbox[o].doneAt.Some? && u.db.outbox[o].transfer == t.db.outbox[o].transfer &&
            SettledByOwnTx(u, o) && x in t.db.settlements && u.db.settlements[x] == t.db.settlements[x]
    decreases |es|
  {
    hide Inv, Run, Apply, Tame, SoloOk;
    SoloDoneIsSettled(s, es, w);
    if n == |es| {
      assert es[..n] == es;
    } else {
      var m := |es| - 1;
      var prefix := es[..m];
      assert prefix[..n] == es[..n];
      TamePrefix(s, es, m);
      SoloDoneIsForever(s, prefix, w, n, o);
      SoloDoneIsSettled(s, prefix, w);
      LastIsTame(s, es);
      RunLast(s, es);
      DoneRowStays(Run(s, prefix), es[m], w, o);
      StepKeeps(Run(s, prefix), es[m]);
      OutboxStays(Run(s, prefix), Run(s, es), o);
    }
  }

  lemma {:induction false} LastIsTame(s: Sys, es: seq<Event>)
    requires TameRun(s, es) && es != []
    ensures Tame(Run(s, es[..|es| - 1]), es[|es| - 1])
  {
    hide Tame, Run;
  }

  lemma {:induction false} RunLast(s: Sys, es: seq<Event>)
    requires es != []
    ensures Run(s, es) == Apply(Run(s, es[..|es| - 1]), es[|es| - 1])
  {
  }

  lemma {:induction false} OutboxStays(a: Sys, b: Sys, o: nat)
    requires Grows(a, b) && o in a.db.outbox && a.db.outbox[o].doneAt.Some?
    ensures o in b.db.outbox && b.db.outbox[o].doneAt.Some? && b.db.outbox[o].transfer == a.db.outbox[o].transfer
  {
  }
}
