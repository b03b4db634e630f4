// What the settlement pipeline guarantees over every run, whatever the
// interleaving, the failures and the number of handlers and workers.
module PipelineTheorems {
  import opened Prelude
  import opened Splits
  import opened Handshake
  import opened Ledger
  import opened Pipeline
  import opened PipelineInvariants
  import opened PipelineSteps
  import opened PipelineRequests

  // ---- settled means paid ----

  /** The action a settlement is for. */
  function ActionOf(db: Tables, x: Id): Action
    requires x in db.settlements && db.settlements[x].payment in db.payments
    requires db.payments[db.settlements[x].payment].action in db.actions
  {
    db.actions[db.payments[db.settlements[x].payment].action]
  }

  function NonceOf(db: Tables, x: Id): string
    requires x in db.settlements && db.settlements[x].payment in db.payments
  {
    db.payments[db.settlements[x].payment].nonce
  }

  predicate IsRecorded(db: Tables, x: Id)
  {
    x in db.settlements && db.settlements[x].payment in db.payments && db.payments[db.settlements[x].payment].action in db.actions
  }

  /** A settled row names a successful transaction that calls exactly this
      payment's transfer. */
  lemma {:induction false} SettledIsPaid(s: Sys, es: seq<Event>, x: Id)
    requires Initial(s) && x in Run(s, es).db.settlements && Run(s, es).db.settlements[x].status == Settled
    ensures var t := Run(s, es);
            IsRecorded(t.db, x) && t.db.settlements[x].txHash.Some? &&
            var h, a, p := t.db.settlements[x].txHash.value, ActionOf(t.db, x), t.db.payments[t.db.settlements[x].payment];
            Succeeded(t, h) &&
            t.txs[h].call == Calldata(Lower(a.asset), Lower(a.buyer), Lower(a.seller), a.price, p.validAfter, p.validBefore, Lower(p.nonce),
                                      p.signature)
  {
    Reachable(s, es);
    SettledFact(Run(s, es), x);
  }

  lemma {:induction false} SettledFact(t: Sys, x: Id)
    requires Inv(t) && x in t.db.settlements && t.db.settlements[x].confirmedAt.Some?
    ensures IsRecorded(t.db, x) && t.db.settlements[x].txHash.Some?
    ensures var h, a, p := t.db.settlements[x].txHash.value, ActionOf(t.db, x), t.db.payments[t.db.settlements[x].payment];
            Succeeded(t, h) && SentForSettlement(t, h, x) &&
            t.txs[h].call == Calldata(Lower(a.asset), Lower(a.buyer), Lower(a.seller), a.price, p.validAfter, p.validBefore, Lower(p.nonce),
                                      p.signature)
  {
    hide PaymentsAuthorized, SplitsOk, HandlersOk, WorkersOk, OnchainOk, ClosedOk;
    SettlementOkOf(t, x);
    var h := t.db.settlements[x].txHash.value;
    assert TxOk(t, t.txs[h]);
    assert Joined(t.db, t.db.outbox[t.txs[h].job.value].transfer);
  }

  /** Settled rows that moved a known token on `chain`. */
  ghost function SettledOn(s: Sys, chain: nat): set<Id>
  {
    set x | x in s.db.settlements && s.db.settlements[x].status == Settled && IsRecorded(s.db, x) &&
            (chain, Lower(ActionOf(s.db, x).asset)) in s.tokens &&
            s.db.settlements[x].txHash.Some? && s.db.settlements[x].txHash.value < |s.txs| &&
            s.txs[s.db.settlements[x].txHash.value].chain == chain
  }

  function Prices(db: Tables): map<Id, nat>
  {
    map x | x in db.settlements :: if IsRecorded(db, x) then ActionOf(db, x).price else 0
  }

  ghost function TransfersOn(s: Sys, chain: nat): set<TxHash>
  {
    set i | 0 <= i < |s.txs| && s.txs[i].status == Success && s.IsToken(s.txs[i]) && s.txs[i].chain == chain
  }

  function Values(txs: seq<ChainTx>): map<TxHash, nat> { map i: nat | 0 <= i < |txs| :: txs[i].call.value }

  /** What the ledger reports as settled on a chain. */
  ghost function Revenue(s: Sys, chain: nat): nat
  {
    SumOver(SettledOn(s, chain), Prices(s.db))
  }

  /** What the token contracts on that chain really moved. */
  ghost function Moved(s: Sys, chain: nat): nat
  {
    SumOver(TransfersOn(s, chain), Values(s.txs))
  }

  /** Distinct confirmed settlements name distinct transactions. */
  lemma {:induction false} HashesAreDistinct(t: Sys, x: Id, y: Id)
    requires Inv(t) && x in t.db.settlements && y in t.db.settlements
    requires t.db.settlements[x].txHash.Some? && t.db.settlements[x].txHash == t.db.settlements[y].txHash
    ensures x == y
  {
  }

  /** The ledger never over-reports revenue: in every reachable state the settled
      payments on a chain sum to at most what its tokens moved, by an injection
      into transfers of the same value. */
  lemma {:induction false} RevenueIsBacked(s: Sys, es: seq<Event>, chain: nat)
    requires Initial(s)
    ensures Revenue(Run(s, es), chain) <= Moved(Run(s, es), chain)
  {
    hide Inv;
    Reachable(s, es);
    var t := Run(s, es);
    var keys := SettledOn(t, chain);
    var inj := map x | x in keys :: t.db.settlements[x].txHash.value;
    forall x | x in keys
      ensures inj[x] in TransfersOn(t, chain) && Values(t.txs)[inj[x]] == Prices(t.db)[x]
    {
      SettlementOkOf(t, x);
      SettledFact(t, x);
    }
    forall x, y | x in keys && y in keys && inj[x] == inj[y]
      ensures x == y
    {
      HashesAreDistinct(t, x, y);
    }
    SumUnderInjection(keys, Prices(t.db), TransfersOn(t, chain), Values(t.txs), inj);
  }

  /** Each relayed transaction went out on the chain the whole fleet is set to. */
  ghost predicate FleetOn(s: Sys, chain: nat)
  {
    (forall w | w in s.workers :: s.workers[w].chain == chain) &&
    (forall i | 0 <= i < |s.txs| && s.txs[i].job.Some? :: s.txs[i].chain == chain)
  }

  lemma {:induction false} FleetStep(s: Sys, e: Event, chain: nat)
    requires Inv(s) && FleetOn(s, chain)
    ensures FleetOn(Apply(s, e), chain)
  {
    hide Inv, DbGrows;
    StepKeeps(s, e);
    var t := Apply(s, e);
    if e.WorkerStep? && e.worker in s.workers && s.workers[e.worker].queue != [] && s.workers[e.worker].pc == Send {
    } else if e.Outsider? {
    } else {
      NothingSent(s, e);
    }
  }

  lemma {:induction false} NothingSent(s: Sys, e: Event)
    requires !e.Outsider?
    requires e.WorkerStep? && e.worker in s.workers && s.workers[e.worker].queue != [] ==> s.workers[e.worker].pc != Send
    ensures |Apply(s, e).txs| == |s.txs|
  {
  }

  lemma {:induction false} FleetStays(s: Sys, es: seq<Event>, chain: nat)
    requires Initial(s) && forall w | w in s.workers :: s.workers[w].chain == chain
    ensures FleetOn(Run(s, es), chain)
    decreases |es|
  {
    hide Inv, Grows, Apply;
    if es != [] {
      FleetStays(s, es[..|es| - 1], chain);
      Reachable(s, es[..|es| - 1]);
      FleetStep(Run(s, es[..|es| - 1]), es[|es| - 1], chain);
    }
  }

  /** With every worker on one chain, every settled row whose asset is a token of
      that chain is counted, so all of its reported revenue is backed. */
  lemma {:induction false} FleetRevenueIsBacked(s: Sys, es: seq<Event>, chain: nat)
    requires Initial(s) && forall w | w in s.workers :: s.workers[w].chain == chain
    ensures var t := Run(s, es);
            SettledOn(t, chain) ==
            set x | x in t.db.settlements && t.db.settlements[x].status == Settled && IsRecorded(t.db, x) &&
                    (chain, Lower(ActionOf(t.db, x).asset)) in t.tokens
    ensures Revenue(Run(s, es), chain) <= Moved(Run(s, es), chain)
  {
    hide Inv, Grows, Apply;
    Reachable(s, es);
    FleetStays(s, es, chain);
    RevenueIsBacked(s, es, chain);
    var t := Run(s, es);
    forall x | x in t.db.settlements && t.db.settlements[x].status == Settled
      ensures t.db.settlements[x].txHash.Some? && t.db.settlements[x].txHash.value < |t.txs| &&
              t.txs[t.db.settlements[x].txHash.value].chain == chain
    {
      SettlementOkOf(t, x);
      SettledFact(t, x);
    }
  }

  /** One on-chain authorization settles at most once, however its nonce was
      spelled in the ledger. */
  lemma {:induction false} OneSettlementPerAuthorization(s: Sys, es: seq<Event>, chain: nat, x: Id, y: Id)
    requires Initial(s) && x in SettledOn(Run(s, es), chain) && y in SettledOn(Run(s, es), chain)
    requires var db := Run(s, es).db;
             Lower(ActionOf(db, x).asset) == Lower(ActionOf(db, y).asset) &&
             Lower(ActionOf(db, x).buyer) == Lower(ActionOf(db, y).buyer) && Lower(NonceOf(db, x)) == Lower(NonceOf(db, y))
    ensures x == y
  {
    hide TablesOk, PaymentsAuthorized, SplitsOk, HandlersOk, WorkersOk, OnchainOk, ClosedOk, SettlementsOk;
    Reachable(s, es);
    var t := Run(s, es);
    SettlementOkOf(t, x);
    SettlementOkOf(t, y);
    SettledFact(t, x);
    SettledFact(t, y);
    var i, j := t.db.settlements[x].txHash.value, t.db.settlements[y].txHash.value;
    assert KeyOf(chain, t.txs[i].call) == KeyOf(chain, t.txs[j].call);
    assert i == j;
    HashesAreDistinct(t, x, y);
  }

  // ---- one nonce, one chain of rows ----

  /** Under any interleaving of requests a nonce text has at most one payment, one
      settlement and one outbox row, and an outbox row agrees with the settlement,
      payment and action it names on ids, nonce, parties and price. */
  lemma {:induction false} OneRowPerNonce(s: Sys, es: seq<Event>)
    requires Initial(s)
    ensures var db := Run(s, es).db;
            (forall p, q | p in db.payments && q in db.payments && db.payments[p].nonce == db.payments[q].nonce :: p == q) &&
            (forall x, y | x in db.settlements && y in db.settlements && IsRecorded(db, x) && IsRecorded(db, y) &&
                           NonceOf(db, x) == NonceOf(db, y) :: x == y) &&
            (forall x | x in db.settlements :: IsRecorded(db, x)) &&
            (forall o | o in db.outbox :: Joined(db, db.outbox[o].transfer)) &&
            (forall o, r | o in db.outbox && r in db.outbox && db.outbox[o].transfer.nonce == db.outbox[r].transfer.nonce :: o == r)
  {
    hide PaymentsAuthorized, SplitsOk, HandlersOk, ChainOk, SettlementsOk, WorkersOk, OnchainOk, ClosedOk, DbGrows, TxsGrow, Apply;
    Reachable(s, es);
    NoncesAreUnique(Run(s, es).db);
  }

  lemma {:induction false} NoncesAreUnique(db: Tables)
    requires TablesOk(db)
    ensures forall x, y | x in db.settlements && y in db.settlements && NonceOf(db, x) == NonceOf(db, y) :: x == y
    ensures forall o, r | o in db.outbox && r in db.outbox && db.outbox[o].transfer.nonce == db.outbox[r].transfer.nonce :: o == r
  {
  }

  /** Every recorded payment was signed by the recorded buyer over exactly the
      recorded payee, price, time window, nonce and token domain. */
  lemma {:induction false} PaymentsWereSigned(s: Sys, es: seq<Event>, p: Id)
    requires Initial(s) && p in Run(s, es).db.payments
    ensures var t := Run(s, es);
            t.db.payments[p].action in t.db.actions &&
            Authorized(t.made, t.db.actions[t.db.payments[p].action], t.db.payments[p])
  {
    hide SplitsOk, HandlersOk, ChainOk, SettlementsOk, WorkersOk, OnchainOk, ClosedOk, DbGrows, TxsGrow, Apply;
    Reachable(s, es);
  }

  /** The split rows of an action are all there or not at all, and sum to its price. */
  lemma {:induction false} SplitRowsSumToPrice(s: Sys, es: seq<Event>, a: Id)
    requires Initial(s)
    ensures var db := Run(s, es).db;
            SplitsOf(db.splits, a) == [] || (a in db.actions && SumRows(SplitsOf(db.splits, a)) == db.actions[a].price)
  {
    hide TablesOk, PaymentsAuthorized, HandlersOk, ChainOk, SettlementsOk, WorkersOk, OnchainOk, ClosedOk, DbGrows, TxsGrow, Apply;
    Reachable(s, es);
    var db := Run(s, es).db;
    assert SplitRowsOk(db, a);
    if SplitsOf(db.splits, a) != [] {
      var specs :| specs != [] && SumBps(specs) == TEN_THOUSAND && SplitsOf(db.splits, a) == SplitRows(db.actions[a].price, specs);
      SharesAddUp(db.actions[a].price, specs);
      SumOfRows(specs, Shares(db.actions[a].price, specs));
    }
  }

  function SumRows(rows: seq<SplitRow>): int
  {
    if rows == [] then 0 else SumRows(rows[..|rows| - 1]) + rows[|rows| - 1].amount
  }

  lemma {:induction false} SumOfRows(specs: seq<SplitSpec>, shares: seq<Share>)
    requires |shares| == |specs| && forall i | 0 <= i < |specs| :: shares[i].addr == specs[i].addr
    ensures SumRows(RowsOf(specs, shares)) == SumAmounts(shares)
  {
    SumOfAmounts(RowsOf(specs, shares), shares);
  }

  lemma {:induction false} SumOfAmounts(rows: seq<SplitRow>, shares: seq<Share>)
    requires |rows| == |shares| && forall i | 0 <= i < |rows| :: rows[i].amount == shares[i].amount
    ensures SumRows(rows) == SumAmounts(shares)
    decreases |rows|
  {
    if rows != [] { SumOfAmounts(rows[..|rows| - 1], shares[..|shares| - 1]); }
  }

  // ---- the status machine ----

  /** Between any two moments of a run a settlement only moves forward: never back
      to pending; to submitted only from pending or submitted; each timestamp is
      written once and they are in order; settled always names a successful transaction. */
  lemma {:induction false} StatusMachine(s: Sys, es: seq<Event>, more: seq<Event>, x: Id)
    requires Initial(s) && x in Run(s, es).db.settlements
    ensures x in Run(s, es + more).db.settlements
    ensures var a, b := Run(s, es).db.settlements[x], Run(s, es + more).db.settlements[x];
            (b.status == Pending ==> a.status == Pending) &&
            (b.status == Submitted ==> a.status == Pending || a.status == Submitted) &&
            (a.submittedAt.Some? ==> b.submittedAt == a.submittedAt) &&
            (a.confirmedAt.Some? ==> b.confirmedAt == a.confirmedAt) &&
            (b.submittedAt.Some? && b.confirmedAt.Some? ==> b.submittedAt.value <= b.confirmedAt.value) &&
            (b.status == Settled ==> b.confirmedAt.Some? && b.txHash.Some? && Succeeded(Run(s, es + more), b.txHash.value))
  {
    hide TablesOk, PaymentsAuthorized, SplitsOk, HandlersOk, ChainOk, SettlementsOk, WorkersOk, OnchainOk, ClosedOk, TxsGrow, Apply;
    Reachable(s, es);
    RunConcat(s, es, more);
    GrowsOnward(Run(s, es), more);
    SettlementOkOf(Run(s, es + more), x);
  }

  // ---- no job is lost ----

  /** The settlement of row `o` is confirmed and names a successful transaction of this very row. */
  predicate ConfirmedByOwnTx(t: Sys, o: nat)
    requires o in t.db.outbox
  {
    var x := t.db.outbox[o].transfer.settlement;
    x in t.db.settlements && t.db.settlements[x].confirmedAt.Some? && t.db.settlements[x].txHash.Some? &&
    Succeeded(t, t.db.settlements[x].txHash.value) && SentFor(t, t.db.settlements[x].txHash.value, o)
  }

  lemma {:induction false} ClosedIsConfirmed(t: Sys, o: nat)
    requires Inv(t) && o in t.db.outbox && Closed(t, o)
    ensures ConfirmedByOwnTx(t, o)
  {
    hide PaymentsAuthorized, SplitsOk, HandlersOk, WorkersOk, OnchainOk, SettlementsOk, ChainOk;
    SettlementOkOf(t, t.db.outbox[o].transfer.settlement);
  }

  /** A row that left the claimable set stays out of it. At every later moment it
      stands on a logged successful transaction of its own, and its settlement was
      promoted and names a successful transaction of its own. */
  lemma {:induction false} DoneIsFinal(s: Sys, es: seq<Event>, more: seq<Event>, o: nat)
    requires Initial(s) && o in Run(s, es).db.outbox && Run(s, es).db.outbox[o].doneAt.Some?
    ensures var t := Run(s, es + more);
            o in t.db.outbox && !t.db.Claimable(o) && Closed(t, o) && ConfirmedByOwnTx(t, o) &&
            t.db.outbox[o].transfer == Run(s, es).db.outbox[o].transfer
  {
    hide TablesOk, PaymentsAuthorized, SplitsOk, HandlersOk, ChainOk, SettlementsOk, WorkersOk, OnchainOk, TxsGrow, Apply;
    Reachable(s, es);
    RunConcat(s, es, more);
    GrowsOnward(Run(s, es), more);
    ClosedIsConfirmed(Run(s, es + more), o);
  }

  /** An outbox row is never removed: until it is done it stays claimable. */
  lemma {:induction false} UndoneStaysClaimable(s: Sys, es: seq<Event>, more: seq<Event>, o: nat)
    requires Initial(s) && o in Run(s, es).db.outbox
    ensures var t := Run(s, es + more);
            o in t.db.outbox && (t.db.Claimable(o) || Closed(t, o))
  {
    hide TablesOk, PaymentsAuthorized, SplitsOk, HandlersOk, ChainOk, SettlementsOk, WorkersOk, OnchainOk, TxsGrow, Apply;
    Reachable(s, es);
    RunConcat(s, es, more);
    GrowsOnward(Run(s, es), more);
  }

  /** For a token payment on the fleet's chain, the settlement of a done row names,
      now and ever after, the one successful transaction of that row. */
  lemma {:induction false} DoneHashIsFinal(s: Sys, es: seq<Event>, more: seq<Event>, chain: nat, o: nat)
    requires Initial(s) && forall w | w in s.workers :: s.workers[w].chain == chain
    requires o in Run(s, es).db.outbox && Run(s, es).db.outbox[o].doneAt.Some?
    requires (chain, Lower(Run(s, es).db.outbox[o].transfer.asset)) in s.tokens
    ensures var t, u := Run(s, es), Run(s, es + more);
            var x := t.db.outbox[o].transfer.settlement;
            x in t.db.settlements && x in u.db.settlements && t.db.settlements[x].txHash.Some? &&
            u.db.settlements[x].txHash == t.db.settlements[x].txHash &&
            t.db.settlements[x].txHash.value in t.db.onchain && SentFor(t, t.db.settlements[x].txHash.value, o)
  {
    hide Inv, Grows, Apply;
    Reachable(s, es);
    FleetStays(s, es, chain);
    RunConcat(s, es, more);
    GrowsOnward(Run(s, es), more);
    FleetStays(s, es + more, chain);
    TokensFixed(s, Run(s, es));
    TokensFixed(Run(s, es), Run(s, es + more));
    ConfirmedHashIsUnique(Run(s, es), chain, o);
    DoneIsFinal(s, es, more, o);
    ConfirmedHashIsUnique(Run(s, es + more), chain, o);
    SameTx(Run(s, es), Run(s, es + more), Run(s, es).db.settlements[Run(s, es).db.outbox[o].transfer.settlement].txHash.value, o, chain);
  }

  lemma {:induction false} TokensFixed(s: Sys, t: Sys)
    requires Grows(s, t)
    ensures t.tokens == s.tokens
  {
  }

  lemma {:induction false} ConfirmedHashIsUnique(t: Sys, chain: nat, o: nat)
    requires Inv(t) && FleetOn(t, chain) && o in t.db.outbox && (t.db.outbox[o].doneAt.Some? || Closed(t, o))
    requires (chain, Lower(t.db.outbox[o].transfer.asset)) in t.tokens
    ensures var x := t.db.outbox[o].transfer.settlement;
            x in t.db.settlements && t.db.settlements[x].txHash.Some? &&
            var h := t.db.settlements[x].txHash.value;
            h in t.db.onchain && SentFor(t, h, o) && Succeeded(t, h)
  {
    hide PaymentsAuthorized, SplitsOk, HandlersOk, WorkersOk, OnchainOk, SettlementsOk;
    var x := t.db.outbox[o].transfer.settlement;
    assert Closed(t, o);
    var g :| g in t.db.onchain && SentFor(t, g, o) && Succeeded(t, g);
    SettlementOkOf(t, x);
    var h := t.db.settlements[x].txHash.value;
    assert TxOk(t, t.txs[g]) && TxOk(t, t.txs[h]);
    assert t.txs[h].job == Some(o);
    assert KeyOf(chain, t.txs[g].call) == KeyOf(chain, t.txs[h].call);
    assert g == h;
  }

  /** Two successful token transactions of one row are one transaction. */
  lemma {:induction false} SameTx(t: Sys, u: Sys, h: TxHash, o: nat, chain: nat)
    requires Grows(t, u) && Inv(u) && FleetOn(u, chain)
    requires o in u.db.outbox && (chain, Lower(u.db.outbox[o].transfer.asset)) in u.tokens
    requires SentFor(t, h, o) && Succeeded(t, h)
    ensures forall g: nat | SentFor(u, g, o) && Succeeded(u, g) :: g == h
  {
  }

  // ---- outbox accounting ----

  /** Whether an event hands out (and so counts an attempt on) row `o`. */
  predicate Claims(s: Sys, e: Event, o: nat)
  {
    e.Claim? && e.out != Lost && e.worker in s.workers && s.workers[e.worker].pc == Idle &&
    o in s.db.SelectUndone(0, e.locked, s.workers[e.worker].batch)
  }

  function CountClaims(s: Sys, es: seq<Event>, o: nat): nat
  {
    if es == [] then 0
    else CountClaims(s, es[..|es| - 1], o) + if Claims(Run(s, es[..|es| - 1]), es[|es| - 1], o) then 1 else 0
  }

  /** `attempts` is the number of times the row was claimed. */
  lemma {:induction false} AttemptsCountClaims(s: Sys, es: seq<Event>, o: nat)
    requires Initial(s)
    ensures o in Run(s, es).db.outbox ==> Run(s, es).db.outbox[o].attempts == CountClaims(s, es, o)
    ensures o !in Run(s, es).db.outbox ==> CountClaims(s, es, o) == 0
    decreases |es|
  {
    hide Inv, Grows, Apply, Claims;
    if es != [] {
      var before, e := Run(s, es[..|es| - 1]), es[|es| - 1];
      AttemptsCountClaims(s, es[..|es| - 1], o);
      Reachable(s, es[..|es| - 1]);
      AttemptsStep(before, e, o);
    }
  }

  /** The attempts of row `o` grew by `n`; a row not there before starts from zero. */
  predicate AttemptsGrow(a: Tables, b: Tables, o: nat, n: nat)
  {
    (o in a.outbox ==> o in b.outbox) &&
    (o in b.outbox ==> b.outbox[o].attempts == (if o in a.outbox then a.outbox[o].attempts else 0) + n)
  }

  lemma {:induction false} AttemptsStep(s: Sys, e: Event, o: nat)
    requires Inv(s)
    ensures AttemptsGrow(s.db, Apply(s, e).db, o, if Claims(s, e, o) then 1 else 0)
    ensures o !in s.db.outbox ==> !Claims(s, e, o)
  {
    hide Inv, StepHandler, StepWorker;
    match e
    case Claim(w, locked, _) =>
      if w in s.workers { ClaimAttempts(s.db, s.workers[w].batch, locked, s.clock, o); }
    case HandlerStep(id, out) => HandlerAttempts(s, id, out, o);
    case WorkerStep(w, out) => WorkerAttempts(s, w, out, o);
    case _ =>
  }

  lemma {:induction false} HandlerAttempts(s: Sys, id: nat, out: Outcome, o: nat)
    requires Inv(s)
    ensures AttemptsGrow(s.db, StepHandler(s, id, out).db, o, 0)
  {
    hide Inv, HandlerInsert, Accept, TablesOk, DbGrows;
    InvTables(s);
    if id in s.handlers && HandlerInsert(s.db, s.handlers[id]).Some? {
      InsertGrows(s.db, s.handlers[id]);
      InsertAttempts(s.db, HandlerInsert(s.db, s.handlers[id]).value, o);
    }
  }

  lemma {:induction false} InsertAttempts(a: Tables, b: Tables, o: nat)
    requires DbGrows(a, b) && NewRowsBlank(a, b)
    ensures AttemptsGrow(a, b, o, 0)
  {
  }

  lemma {:induction false} WorkerAttempts(s: Sys, w: nat, out: Outcome, o: nat)
    ensures AttemptsGrow(s.db, StepWorker(s, w, out).db, o, 0)
  {
    hide WorkerWrite, Continue, Throw;
    if w in s.workers && s.workers[w].queue != [] { WriteAttempts(s, s.workers[w], o); }
  }

  lemma {:induction false} InvTables(s: Sys)
    requires Inv(s)
    ensures TablesOk(s.db)
  {
  }

  lemma {:induction false} WriteAttempts(s: Sys, w: Worker, o: nat)
    requires w.queue != []
    ensures var t := WorkerWrite(s, w);
            (o in t.outbox <==> o in s.db.outbox) && (o in s.db.outbox ==> t.outbox[o].attempts == s.db.outbox[o].attempts)
  {
  }

  lemma {:induction false} ClaimAttempts(a: Tables, limit: nat, locked: set<nat>, now: nat, o: nat)
    ensures var b := a.ClaimGatewayOutbox(limit, locked, now).0;
            (o in b.outbox <==> o in a.outbox) &&
            (o in a.outbox ==> b.outbox[o].attempts == a.outbox[o].attempts + if o in a.SelectUndone(0, locked, limit) then 1 else 0) &&
            (o in a.SelectUndone(0, locked, limit) ==> o in a.outbox)
  {
  }

  /** A worker reaches `failSettlement` for a row only after at least five claims of it. */
  lemma {:induction false} HardFailNeedsFiveClaims(s: Sys, es: seq<Event>, w: nat)
    requires Initial(s) && w in Run(s, es).workers && Run(s, es).workers[w].pc == HardFail
    ensures Run(s, es).workers[w].queue != [] && CountClaims(s, es, Run(s, es).workers[w].queue[0].id) >= 5
  {
    hide Inv, Grows, Apply;
    Reachable(s, es);
    var t := Run(s, es);
    WorkerOkOf(t, w);
    var job := t.workers[w].queue[0];
    assert JobOk(t.db, job);
    AttemptsCountClaims(s, es, job.id);
  }
}
