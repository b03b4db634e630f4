// What every step of the settlement pipeline keeps.
module PipelineInvariants {
  import opened Prelude
  import opened Splits
  import opened Handshake
  import opened Ledger
  import opened Pipeline

  // ---- growth: what no step ever takes back ----

  /** The status machine of one settlement row. */
  predicate RowMoves(a: Settlement, b: Settlement)
  {
    b.payment == a.payment &&
    (b.status == Pending ==> a.status == Pending) &&
    (b.status == Submitted ==> a.status == Pending || a.status == Submitted) &&
    (a.submittedAt.Some? ==> b.submittedAt == a.submittedAt) &&
    (a.confirmedAt.Some? ==> b.confirmedAt == a.confirmedAt) &&
    (a.txHash.Some? ==> b.txHash.Some?)
  }

  ghost predicate DbGrows(a: Tables, b: Tables)
  {
    a.nextOutbox <= b.nextOutbox &&
    (forall x | x in a.actions :: x in b.actions && b.actions[x] == a.actions[x]) &&
    (forall x | x in a.payments :: x in b.payments && b.payments[x] == a.payments[x]) &&
    (forall x | x in a.settlements :: x in b.settlements && RowMoves(a.settlements[x], b.settlements[x])) &&
    (forall o | o in a.outbox :: o in b.outbox && b.outbox[o].transfer == a.outbox[o].transfer &&
       a.outbox[o].attempts <= b.outbox[o].attempts && (a.outbox[o].doneAt.Some? ==> b.outbox[o].doneAt.Some?)) &&
    (forall h | h in a.onchain :: h in b.onchain && b.onchain[h] == a.onchain[h])
  }

  ghost predicate TxsGrow(a: seq<ChainTx>, b: seq<ChainTx>)
  {
    |a| <= |b| &&
    forall i | 0 <= i < |a| :: b[i].(status := a[i].status) == a[i] && (a[i].status != InMempool ==> b[i] == a[i])
  }

  ghost predicate Grows(s: Sys, t: Sys)
  {
    s.clock <= t.clock && DbGrows(s.db, t.db) && TxsGrow(s.txs, t.txs) && s.used <= t.used && s.made <= t.made &&
    t.tokens == s.tokens && t.workers.Keys == s.workers.Keys &&
    forall w | w in s.workers :: t.workers[w].chain == s.workers[w].chain && t.workers[w].batch == s.workers[w].batch
  }

  lemma {:induction false} GrowsTransitive(a: Sys, b: Sys, c: Sys)
    requires Grows(a, b) && Grows(b, c)
    ensures Grows(a, c)
  {
  }

  // ---- the tables ----

  /** An outbox row agrees with the settlement, payment and action it names. */
  predicate Joined(db: Tables, t: Transfer)
  {
    t.settlement in db.settlements && db.settlements[t.settlement].payment == t.payment &&
    t.payment in db.payments && db.payments[t.payment] == Payment(t.action, t.nonce, t.signature, t.validAfter, t.validBefore) &&
    t.action in db.actions && db.actions[t.action] == Action(t.from, t.to, t.value, t.asset, t.network)
  }

  ghost predicate TablesOk(db: Tables)
  {
    (forall p | p in db.payments :: db.payments[p].action in db.actions) &&
    (forall x | x in db.settlements :: db.settlements[x].payment in db.payments) &&
    (forall o | o in db.outbox :: o < db.nextOutbox && Joined(db, db.outbox[o].transfer)) &&
    (forall p, q | p in db.payments && q in db.payments && db.payments[p].nonce == db.payments[q].nonce :: p == q) &&
    (forall x, y | x in db.settlements && y in db.settlements && db.settlements[x].payment == db.settlements[y].payment :: x == y) &&
    (forall o, r | o in db.outbox && r in db.outbox && db.outbox[o].transfer.settlement == db.outbox[r].transfer.settlement :: o == r)
  }

  /** The buyer of record signed exactly what the payment and its action say. */
  predicate Authorized(made: set<Signature>, a: Action, p: Payment)
  {
    p.signature in made &&
    p.signature == ByKey(a.buyer, DigestOf(Domain("USD Coin", "2", a.network, a.asset), a.buyer, a.seller, a.price,
                                           p.validAfter, p.validBefore, p.nonce))
  }

  ghost predicate PaymentsAuthorized(s: Sys)
  {
    forall p | p in s.db.payments && s.db.payments[p].action in s.db.actions ::
      Authorized(s.made, s.db.actions[s.db.payments[p].action], s.db.payments[p])
  }

  /** The split rows recorded for an action. */
  function SplitsOf(rows: seq<(Id, SplitRow)>, a: Id): seq<SplitRow>
  {
    if rows == [] then []
    else SplitsOf(rows[..|rows| - 1], a) + if rows[|rows| - 1].0 == a then [rows[|rows| - 1].1] else []
  }

  ghost predicate SplitRowsOk(db: Tables, a: Id)
  {
    SplitsOf(db.splits, a) == [] ||
    (a in db.actions &&
     exists specs :: specs != [] && SumBps(specs) == TEN_THOUSAND && SplitsOf(db.splits, a) == SplitRows(db.actions[a].price, specs))
  }

  ghost predicate SplitsOk(db: Tables) { forall a :: SplitRowsOk(db, a) }

  // ---- handlers ----

  function Rank(pc: HandlerPc): nat
  {
    match pc
    case CheckNonce => 0
    case AddAction => 1
    case AddPayment => 2
    case AddSettlement => 3
    case AddOutbox => 4
    case AddSplits => 5
  }

  /** What a handler has secured by the time it issues its next insert. */
  ghost predicate HandlerOk(s: Sys, h: Handler)
  {
    var r, db := Rank(h.pc), s.db;
    (r >= 1 ==> GoodRoute(h.req.route) && Authorized(s.made, ActionRow(h), PaymentRow(h))) &&
    (r >= 2 ==> h.req.action in db.actions && db.actions[h.req.action] == ActionRow(h) && SplitsOf(db.splits, h.req.action) == []) &&
    (r >= 3 ==> h.req.payment in db.payments && db.payments[h.req.payment] == PaymentRow(h)) &&
    (r == 3 ==> forall x | x in db.settlements :: db.settlements[x].payment != h.req.payment) &&
    (r >= 4 ==> h.req.settlement in db.settlements && db.settlements[h.req.settlement].payment == h.req.payment) &&
    (r == 4 ==> forall o | o in db.outbox :: db.outbox[o].transfer.settlement != h.req.settlement)
  }

  /** Two requests never work on the same rows. */
  predicate Apart(g: Handler, h: Handler)
  {
    (Rank(g.pc) >= 2 && Rank(h.pc) >= 2 ==> g.req.action != h.req.action) &&
    (Rank(g.pc) >= 3 && Rank(h.pc) >= 3 ==> g.req.payment != h.req.payment) &&
    (Rank(g.pc) >= 4 && Rank(h.pc) >= 4 ==> g.req.settlement != h.req.settlement)
  }

  ghost predicate HandlersOk(s: Sys)
  {
    (forall i | i in s.handlers :: HandlerOk(s, s.handlers[i])) &&
    (forall i, j | i in s.handlers && j in s.handlers && i != j :: Apart(s.handlers[i], s.handlers[j]))
  }

  // ---- transactions, settlements, workers ----

  ghost predicate TxOk(s: Sys, t: ChainTx)
  {
    t.job.Some? ==> t.job.value in s.db.outbox && t.call == CalldataOf(s.db.outbox[t.job.value].transfer)
  }

  ghost predicate ChainOk(s: Sys)
  {
    (forall i | 0 <= i < |s.txs| :: TxOk(s, s.txs[i])) &&
    (forall i | 0 <= i < |s.txs| && s.txs[i].status == Success && s.IsToken(s.txs[i]) ::
       KeyOf(s.txs[i].chain, s.txs[i].call) in s.used) &&
    (forall i, j | 0 <= i < j < |s.txs| && s.txs[i].status == s.txs[j].status == Success && s.IsToken(s.txs[i]) && s.IsToken(s.txs[j]) ::
       KeyOf(s.txs[i].chain, s.txs[i].call) != KeyOf(s.txs[j].chain, s.txs[j].call))
  }

  /** Transaction `h` was sent for outbox row `o`. */
  predicate SentFor(s: Sys, h: TxHash, o: nat) { h < |s.txs| && s.txs[h].job == Some(o) }

  predicate Succeeded(s: Sys, h: TxHash) { h < |s.txs| && s.txs[h].status == Success }

  predicate SettlementOk(s: Sys, x: Id)
    requires x in s.db.settlements
  {
    var row := s.db.settlements[x];
    (row.status == Pending ==> row == Settlement(row.payment, Pending, None, None, None)) &&
    (row.status == Submitted ==> row.txHash.Some? && row.submittedAt.Some? && row.confirmedAt == None) &&
    (row.status == Settled ==> row.confirmedAt.Some?) &&
    (row.confirmedAt.Some? ==> ConfirmedOk(s, row)) &&
    (row.submittedAt.Some? ==> row.submittedAt.value <= s.clock) &&
    (row.submittedAt.Some? && row.confirmedAt.Some? ==> row.submittedAt.value <= row.confirmedAt.value) &&
    (row.txHash.Some? ==> SentForSettlement(s, row.txHash.value, x))
  }

  /** A confirmed settlement is settled or failed and names a successful transaction. */
  predicate ConfirmedOk(s: Sys, row: Settlement)
    requires row.confirmedAt.Some?
  {
    (row.status == Settled || row.status == Failed) && row.txHash.Some? && Succeeded(s, row.txHash.value) &&
    row.confirmedAt.value <= s.clock
  }

  predicate SentForSettlement(s: Sys, h: TxHash, x: Id)
  {
    h < |s.txs| && s.txs[h].job.Some? && s.txs[h].job.value in s.db.outbox &&
    s.db.outbox[s.txs[h].job.value].transfer.settlement == x
  }

  ghost predicate SettlementsOk(s: Sys) { forall x | x in s.db.settlements :: SettlementOk(s, x) }

  predicate JobOk(db: Tables, j: Job)
  {
    j.id in db.outbox && db.outbox[j.id].transfer == j.transfer && j.attempts + 1 <= db.outbox[j.id].attempts &&
    j.transfer.settlement in db.settlements
  }

  predicate HasHash(pc: WorkerPc) { pc.Submit? || pc.Await? || pc.Promote? || pc.Log? || pc.Finish? }

  predicate PcOk(s: Sys, w: Worker)
  {
    (w.pc == Idle <==> w.queue == []) &&
    (w.queue != [] && JobOk(s.db, w.queue[0]) ==>
       (HasHash(w.pc) ==> SentFor(s, w.pc.hash, w.queue[0].id) && s.txs[w.pc.hash].chain == w.chain) &&
       (w.pc.Promote? || w.pc.Log? || w.pc.Finish? ==> Succeeded(s, w.pc.hash)) &&
       (w.pc.Log? || w.pc.Finish? ==> s.db.settlements[w.queue[0].transfer.settlement].confirmedAt.Some?) &&
       (w.pc.Finish? ==> w.pc.hash in s.db.onchain) &&
       (w.pc == HardFail ==> w.queue[0].attempts + 1 >= MAX_ATTEMPTS))
  }

  ghost predicate WorkerOk(s: Sys, w: Worker)
  {
    (forall i | 0 <= i < |w.queue| :: JobOk(s.db, w.queue[i])) &&
    (forall i, j | 0 <= i < j < |w.queue| :: w.queue[i].id < w.queue[j].id) &&
    PcOk(s, w)
  }

  ghost predicate WorkersOk(s: Sys) { forall w | w in s.workers :: WorkerOk(s, s.workers[w]) }

  /** A logged transaction is a successful one sent for a row with these fields. */
  ghost predicate OnchainOk(s: Sys)
  {
    forall h | h in s.db.onchain :: Succeeded(s, h) && s.txs[h].job.Some? && s.txs[h].job.value in s.db.outbox &&
      var t := s.db.outbox[s.txs[h].job.value].transfer;
      s.db.onchain[h] == OnchainRow(s.txs[h].chain, t.from, t.to, t.value)
  }

  /** A row is closed only on the strength of a logged, successful transaction of
      its own and a promoted settlement. */
  ghost predicate Closed(s: Sys, o: nat)
    requires o in s.db.outbox
  {
    var x := s.db.outbox[o].transfer.settlement;
    x in s.db.settlements && s.db.settlements[x].confirmedAt.Some? &&
    exists h :: h in s.db.onchain && SentFor(s, h, o) && Succeeded(s, h)
  }

  ghost predicate ClosedOk(s: Sys) { forall o | o in s.db.outbox && s.db.outbox[o].doneAt.Some? :: Closed(s, o) }

  ghost predicate Inv(s: Sys)
  {
    TablesOk(s.db) && PaymentsAuthorized(s) && SplitsOk(s.db) && HandlersOk(s) && ChainOk(s) && SettlementsOk(s) &&
    WorkersOk(s) && OnchainOk(s) && ClosedOk(s)
  }

  // ---- facts that survive growth ----

  lemma {:induction false} WorkerOkGrows(s: Sys, t: Sys, w: Worker)
    requires Grows(s, t) && WorkerOk(s, w)
    ensures WorkerOk(t, w)
  {
  }

  lemma {:induction false} ClosedGrows(s: Sys, t: Sys, o: nat)
    requires Grows(s, t) && o in s.db.outbox && Closed(s, o)
    ensures Closed(t, o)
  {
  }

  /** Rows the ledger, chain and other workers rely on, when only growth happened
      and no settlement changed. */
  lemma {:induction false} SettlementOkGrows(s: Sys, t: Sys, x: Id)
    requires Grows(s, t) && x in s.db.settlements && SettlementOk(s, x)
    requires t.db.settlements[x] == s.db.settlements[x]
    ensures SettlementOk(t, x)
  {
  }
}
