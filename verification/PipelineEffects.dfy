// What a worker's ledger calls leave in the tables, read off the rows: which call is
// made where a worker stands, and what it writes when it takes effect.
module PipelineEffects {
  import opened Prelude
  import opened Ledger
  import opened Pipeline
  import opened PipelineInvariants
  import opened PipelineSteps

  /** The worker awaits a call for the job at the head of its queue. */
  predicate AtCall(s: Sys, w: nat) { w in s.workers && s.workers[w].queue != [] && s.workers[w].pc != Idle }

  /** Only the settlements differ, and among them only that of the head job. */
  ghost predicate OnlyItsSettlement(s: Sys, t: Sys, w: nat)
    requires AtCall(s, w)
  {
    var x := s.workers[w].queue[0].transfer.settlement;
    t.db == s.db.(settlements := t.db.settlements) && t.db.settlements.Keys == s.db.settlements.Keys && x in s.db.settlements &&
    forall y | y in s.db.settlements && y != x :: t.db.settlements[y] == s.db.settlements[y]
  }

  /** Only the outbox differs, and in it only the row of the head job. */
  ghost predicate OnlyItsRow(s: Sys, t: Sys, w: nat)
    requires AtCall(s, w)
  {
    var o := s.workers[w].queue[0].id;
    t.db == s.db.(outbox := t.db.outbox) && t.db.outbox.Keys == s.db.outbox.Keys && o in s.db.outbox &&
    forall q | q in s.db.outbox && q != o :: t.db.outbox[q] == s.db.outbox[q]
  }

  lemma {:induction false} HeadIsRecorded(s: Sys, w: nat)
    requires Inv(s) && AtCall(s, w)
    ensures s.workers[w].queue[0].id in s.db.outbox && s.workers[w].queue[0].transfer.settlement in s.db.settlements
    ensures s.db.outbox[s.workers[w].queue[0].id].transfer == s.workers[w].queue[0].transfer
  {
    hide TablesOk, PaymentsAuthorized, SplitsOk, HandlersOk, ChainOk, SettlementsOk, OnchainOk, ClosedOk;
    WorkerOkOf(s, w);
    assert JobOk(s.db, s.workers[w].queue[0]);
  }

  /** A submit mark that takes effect makes a pending or submitted row submitted, with
      the hash just sent and the time of the first mark, and leaves a settled or failed
      row as it was. */
  lemma {:induction false} SubmitIsRecorded(s: Sys, w: nat, h: TxHash, out: Outcome)
    requires Inv(s) && AtCall(s, w) && s.workers[w].pc == Submit(h) && out != Lost
    ensures var t, x := StepWorker(s, w, out), s.workers[w].queue[0].transfer.settlement;
            OnlyItsSettlement(s, t, w) &&
            var a := s.db.settlements[x];
            t.db.settlements[x] ==
              if a.status == Settled || a.status == Failed then a
              else Settlement(a.payment, Submitted, Some(h), Some(if a.submittedAt.Some? then a.submittedAt.value else s.clock), a.confirmedAt)
  {
    hide Inv, Continue, Throw;
    HeadIsRecorded(s, w);
  }

  /** A promotion that takes effect settles the row, from any status, with the hash
      waited for and the time of the first promotion. */
  lemma {:induction false} PromotionIsRecorded(s: Sys, w: nat, h: TxHash, out: Outcome)
    requires Inv(s) && AtCall(s, w) && s.workers[w].pc == Promote(h) && out != Lost
    ensures var t, x := StepWorker(s, w, out), s.workers[w].queue[0].transfer.settlement;
            OnlyItsSettlement(s, t, w) &&
            var a := s.db.settlements[x];
            t.db.settlements[x] ==
              Settlement(a.payment, Settled, Some(h), a.submittedAt, Some(if a.confirmedAt.Some? then a.confirmedAt.value else s.clock))
  {
    hide Inv, Continue, Throw;
    HeadIsRecorded(s, w);
  }

  /** Logging keeps the first row of a hash; a new one names the worker's chain and the
      recorded payer, payee and amount. */
  lemma {:induction false} TransferIsLogged(s: Sys, w: nat, h: TxHash, out: Outcome)
    requires Inv(s) && AtCall(s, w) && s.workers[w].pc == Log(h) && out != Lost
    ensures var t, job := StepWorker(s, w, out), s.workers[w].queue[0];
            job.id in s.db.outbox && t.db == s.db.(onchain := t.db.onchain) && h in t.db.onchain &&
            (forall g | g in s.db.onchain :: g in t.db.onchain && t.db.onchain[g] == s.db.onchain[g]) &&
            (forall g | g in t.db.onchain && g != h :: g in s.db.onchain) &&
            var row := s.db.outbox[job.id].transfer;
            h !in s.db.onchain ==> t.db.onchain[h] == OnchainRow(s.workers[w].chain, row.from, row.to, row.value)
  {
    hide Inv, Continue, Throw;
    HeadIsRecorded(s, w);
  }

  /** Closing a row stamps it with the present time and changes nothing else of it. */
  lemma {:induction false} RowIsClosed(s: Sys, w: nat, h: TxHash, out: Outcome)
    requires Inv(s) && AtCall(s, w) && s.workers[w].pc == Finish(h) && out != Lost
    ensures var t, o := StepWorker(s, w, out), s.workers[w].queue[0].id;
            OnlyItsRow(s, t, w) &&
            var a := s.db.outbox[o]; t.db.outbox[o] == OutboxRow(a.transfer, a.attempts, a.pickedAt, Some(s.clock))
  {
    hide Inv, Continue, Throw;
    HeadIsRecorded(s, w);
  }

  /** Giving a row back clears its pick stamp, keeps its attempts and leaves it undone if
      it was; the worker then fails the settlement exactly from the fifth attempt on. */
  lemma {:induction false} RowIsGivenBack(s: Sys, w: nat, out: Outcome)
    requires Inv(s) && AtCall(s, w) && s.workers[w].pc == GiveBack && out != Lost
    ensures var t, o := StepWorker(s, w, out), s.workers[w].queue[0].id;
            OnlyItsRow(s, t, w) &&
            (var a := s.db.outbox[o]; t.db.outbox[o] == OutboxRow(a.transfer, a.attempts, None, a.doneAt)) &&
            w in t.workers && (t.workers[w].pc == HardFail <==> out == Returned && s.workers[w].queue[0].attempts >= 4)
  {
    hide Inv;
    HeadIsRecorded(s, w);
  }

  /** A hard fail marks the row failed and keeps its hash and timestamps. */
  lemma {:induction false} SettlementIsFailed(s: Sys, w: nat, out: Outcome)
    requires Inv(s) && AtCall(s, w) && s.workers[w].pc == HardFail && out != Lost
    ensures var t, x := StepWorker(s, w, out), s.workers[w].queue[0].transfer.settlement;
            OnlyItsSettlement(s, t, w) &&
            var a := s.db.settlements[x];
            t.db.settlements[x] == Settlement(a.payment, Failed, a.txHash, a.submittedAt, a.confirmedAt)
  {
    hide Inv, Continue, Throw;
    HeadIsRecorded(s, w);
  }

  /** A call that throws without effect leaves the tables alone, and so do sending and
      waiting; a throw leads to the catch block, and one in it ends the tick. */
  lemma {:induction false} ThrownCalls(s: Sys, w: nat, out: Outcome)
    requires AtCall(s, w) && out != Returned
    ensures var t, wk := StepWorker(s, w, out), s.workers[w];
            (out == Lost || wk.pc == Send || wk.pc.Await? ==> t.db == s.db) && w in t.workers &&
            t.workers[w] == if wk.pc == GiveBack || wk.pc == HardFail then wk.(queue := [], pc := Idle) else wk.(pc := GiveBack)
  {
    hide WorkerWrite;
  }
}
