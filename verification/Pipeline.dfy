// The settlement pipeline as a transition system: any number of tollbooth
// request handlers and gateway workers, one shared ledger, the chains, and an
// operator, interleaved step by step. Every await of the program is a step
// boundary; every call may fail with or without effect.
module Pipeline {
  import opened Prelude
  import opened Prices
  import opened Splits
  import opened Handshake
  import opened Ledger

  // ---- the chains ----

  /** `transferWithAuthorization` as the chain decodes it: addresses and nonce are bytes. */
  datatype Calldata = Calldata(asset: string, from: string, to: string, value: nat,
                               validAfter: nat, validBefore: nat, nonce: string, signature: Signature)

  datatype TxStatus = InMempool | Success | Reverted

  /** `job` is the outbox row a relayer sent the transaction for; None for anyone else's. */
  datatype ChainTx = ChainTx(chain: nat, call: Calldata, status: TxStatus, job: Option<nat>)

  /** EIP-3009: one authorization state per token, authorizer and nonce. */
  datatype AuthKey = AuthKey(chain: nat, asset: string, from: string, nonce: string)

  function CalldataOf(t: Transfer): Calldata
  {
    Calldata(Lower(t.asset), Lower(t.from), Lower(t.to), t.value, t.validAfter, t.validBefore, Lower(t.nonce),
             t.signature)
  }

  /** Addresses and nonce as the bytes they denote. */
  function Decoded(c: Calldata): Calldata
  {
    c.(asset := Lower(c.asset), from := Lower(c.from), to := Lower(c.to), nonce := Lower(c.nonce))
  }

  function KeyOf(chain: nat, c: Calldata): AuthKey { AuthKey(chain, c.asset, c.from, c.nonce) }

  // ---- handlers and workers ----

  datatype Request = Request(action: Id, payment: Id, settlement: Id, signed: SignedPayment, route: Route)

  /** Where a tollbooth request stands: the ledger call it awaits. */
  datatype HandlerPc = CheckNonce | AddAction | AddPayment | AddSettlement | AddOutbox | AddSplits

  /** `seenAt` is the clock when the header was checked, before the first await. */
  datatype Handler = Handler(req: Request, buyer: string, pc: HandlerPc, seenAt: nat)

  /** Where a worker's tick stands. The current job is `queue[0]`. */
  datatype WorkerPc =
    | Idle
    | Send
    | Submit(hash: TxHash)
    | Await(hash: TxHash)
    | Promote(hash: TxHash)
    | Log(hash: TxHash)
    | Finish(hash: TxHash)
    | GiveBack      // markOutboxFailed, in the catch block
    | HardFail      // failSettlement, after the fifth attempt

  datatype Worker = Worker(chain: nat, batch: nat, queue: seq<Job>, pc: WorkerPc)

  const MAX_ATTEMPTS := 5

  datatype Sys = Sys(clock: nat, db: Tables, txs: seq<ChainTx>, used: set<AuthKey>, tokens: set<(nat, string)>,
                     made: set<Signature>, handlers: map<nat, Handler>, workers: map<nat, Worker>)
  {
    predicate IsToken(t: ChainTx) { (t.chain, t.call.asset) in tokens }
  }

  /** How an awaited call ends: it took effect and returned, it threw without
      effect, or it took effect and threw all the same. */
  datatype Outcome = Returned | Lost | Ambiguous

  datatype Event =
    | Elapse(seconds: nat)
    | MakeSignature(sig: Signature)
    | Arrive(id: nat, req: Request)
    | HandlerStep(id: nat, out: Outcome)
    | HandlerCrash(id: nat)
    | Claim(worker: nat, locked: set<nat>, out: Outcome)
    | WorkerStep(worker: nat, out: Outcome)
    | WorkerCrash(worker: nat)
    | Mine(hash: TxHash, executes: bool, time: nat)
    | Outsider(chain: nat, call: Calldata)
    | RefundMark(settlement: Id, out: Outcome)

  // ---- the tollbooth handler ----

  function PriceOf(r: Request): nat
  {
    match PriceToAtomic(r.route.price, USDC_DECIMALS)
    case Some(v) => v
    case None => 0  // no such request gets past CheckNonce
  }

  function ActionRow(h: Handler): Action
  {
    Action(h.buyer, h.req.route.to, PriceOf(h.req), h.req.route.asset, h.req.route.network)
  }

  function PaymentRow(h: Handler): Payment
  {
    Payment(h.req.action, h.req.signed.nonce, h.req.signed.signature, h.req.signed.validAfter, h.req.signed.validBefore)
  }

  function TransferRow(h: Handler): Transfer
  {
    Transfer(h.req.settlement, h.req.payment, h.req.action, h.req.route.asset, h.req.route.network, h.buyer, h.req.route.to,
             PriceOf(h.req), h.req.signed.validAfter, h.req.signed.validBefore, h.req.signed.nonce, h.req.signed.signature)
  }

  /** The insert a handler is about to issue; None is a constraint violation. */
  function HandlerInsert(db: Tables, h: Handler): Option<Tables>
  {
    match h.pc
    case CheckNonce => Some(db)
    case AddAction => db.InsertAction(h.req.action, ActionRow(h))
    case AddPayment => db.InsertPayment(h.req.payment, PaymentRow(h))
    case AddSettlement => db.InsertSettlement(h.req.settlement, h.req.payment)
    case AddOutbox => db.EnqueueGatewayOutbox(TransferRow(h))
    case AddSplits =>
      if h.req.route.splits == [] then Some(db)
      else db.InsertSplits(h.req.action, SplitRows(PriceOf(h.req), h.req.route.splits))
  }

  /** The next insert after one that returned; None when the last one is done. */
  function NextPc(r: Route, pc: HandlerPc): Option<HandlerPc>
  {
    match pc
    case CheckNonce => Some(AddAction)
    case AddAction => Some(AddPayment)
    case AddPayment => Some(AddSettlement)
    case AddSettlement => if r.batch then Some(AddOutbox) else if r.splits != [] then Some(AddSplits) else None
    case AddOutbox => if r.splits != [] then Some(AddSplits) else None
    case AddSplits => None
  }

  function EndHandler(s: Sys, id: nat): Sys { s.(handlers := s.handlers - {id}) }

  function StepHandler(s: Sys, id: nat, out: Outcome): Sys
  {
    if id !in s.handlers then s
    else
      var h := s.handlers[id];
      if h.pc == CheckNonce then
        if out != Returned then EndHandler(s, id)
        else
          match Accept(h.req.route, h.req.signed, h.seenAt, !s.db.NonceSeen(h.req.signed.nonce), s.made)
          case None => EndHandler(s, id)
          case Some(buyer) => s.(handlers := s.handlers[id := h.(buyer := buyer, pc := AddAction)])
      else
        match HandlerInsert(s.db, h)
        case None => EndHandler(s, id)
        case Some(db) =>
          var s1 := if out == Lost then s else s.(db := db);
          match NextPc(h.req.route, h.pc)
          case Some(pc) =>
            if out == Returned then s1.(handlers := s.handlers[id := h.(pc := pc)]) else EndHandler(s1, id)
          case None => EndHandler(s1, id)
  }

  // ---- the gateway worker ----

  /** The next claimed job, or the end of the tick. */
  function NextJob(w: Worker): Worker
  {
    if |w.queue| <= 1 then w.(queue := [], pc := Idle) else w.(queue := w.queue[1..], pc := Send)
  }

  /** An exception outside the per-job `try` ends the tick. */
  function Abandon(w: Worker): Worker { w.(queue := [], pc := Idle) }

  function PutWorker(s: Sys, id: nat, w: Worker): Sys { s.(workers := s.workers[id := w]) }

  function ClaimStep(s: Sys, id: nat, locked: set<nat>, out: Outcome): Sys
  {
    if id !in s.workers || s.workers[id].pc != Idle || out == Lost then s
    else
      var w := s.workers[id];
      var (db, jobs) := s.db.ClaimGatewayOutbox(w.batch, locked, s.clock);
      if out == Ambiguous || jobs == [] then s.(db := db)
      else PutWorker(s.(db := db), id, w.(queue := jobs, pc := Send))
  }

  /** The ledger statement a worker awaits, as an effect on the tables. */
  function WorkerWrite(s: Sys, w: Worker): Tables
    requires w.queue != []
  {
    var job := w.queue[0];
    match w.pc
    case Submit(h) => s.db.MarkSettlementSubmitted(job.transfer.settlement, h, s.clock)
    case Promote(h) => s.db.PromoteSettlement(job.transfer.settlement, h, s.clock)
    case Log(h) =>
      s.db.LogOnchainTx(h, OnchainRow(w.chain, job.transfer.from, job.transfer.to, job.transfer.value))
    case Finish(h) => s.db.MarkOutboxDone(job.id, s.clock)
    case GiveBack => s.db.MarkOutboxFailed(job.id)
    case HardFail => s.db.FailSettlement(job.transfer.settlement)
    case _ => s.db
  }

  /** Where a worker goes when the call it awaits returns. */
  function Continue(w: Worker): Worker
    requires w.queue != []
  {
    match w.pc
    case Submit(h) => w.(pc := Await(h))
    case Promote(h) => w.(pc := Log(h))
    case Log(h) => w.(pc := Finish(h))
    case Finish(_) => NextJob(w)
    case GiveBack => if w.queue[0].attempts + 1 >= MAX_ATTEMPTS then w.(pc := HardFail) else NextJob(w)
    case HardFail => NextJob(w)
    case _ => w
  }

  /** Where it goes when that call throws. */
  function Throw(w: Worker): Worker
  {
    if w.pc == GiveBack || w.pc == HardFail then Abandon(w) else w.(pc := GiveBack)
  }

  function StepWorker(s: Sys, id: nat, out: Outcome): Sys
  {
    if id !in s.workers || s.workers[id].queue == [] || s.workers[id].pc == Idle then s
    else
      var w := s.workers[id];
      match w.pc
      case Send =>
        var tx := ChainTx(w.chain, CalldataOf(w.queue[0].transfer), InMempool, Some(w.queue[0].id));
        var s1 := if out == Lost then s else s.(txs := s.txs + [tx]);
        PutWorker(s1, id, if out == Returned then w.(pc := Submit(|s.txs|)) else Throw(w))
      case Await(h) =>
        if out != Returned || h >= |s.txs| || s.txs[h].status == Reverted then PutWorker(s, id, Throw(w))
        else if s.txs[h].status == Success then PutWorker(s, id, w.(pc := Promote(h)))
        else s
      case _ =>
        var s1 := if out == Lost then s else s.(db := WorkerWrite(s, w));
        PutWorker(s1, id, if out == Returned then Continue(w) else Throw(w))
  }

  // ---- the chain and everyone else ----

  /** The payer signed exactly this call for this chain's token. */
  predicate SignedCall(made: set<Signature>, chain: nat, c: Calldata)
  {
    c.signature in made && c.signature.ByKey? && Lower(c.signature.signer) == c.from &&
    c.signature.digest == DigestOf(Domain("USD Coin", "2", chain, c.asset), c.from, c.to, c.value, c.validAfter,
                                   c.validBefore, c.nonce)
  }

  /** EIP-3009's time window; both bounds are strict. */
  predicate WindowOpen(c: Calldata, time: nat) { c.validAfter < time < c.validBefore }

  /** What EIP-3009 demands of a call in a block at `time`. */
  predicate Payable(s: Sys, chain: nat, c: Calldata, time: nat)
  {
    (chain, c.asset) in s.tokens ==> KeyOf(chain, c) !in s.used && WindowOpen(c, time) && SignedCall(s.made, chain, c)
  }

  function MineStep(s: Sys, h: TxHash, executes: bool, time: nat): Sys
  {
    if h >= |s.txs| || s.txs[h].status != InMempool then s
    else
      var t := s.txs[h];
      if executes && Payable(s, t.chain, t.call, time) then
        s.(txs := s.txs[h := t.(status := Success)], used := if s.IsToken(t) then s.used + {KeyOf(t.chain, t.call)} else s.used)
      else s.(txs := s.txs[h := t.(status := Reverted)])
  }

  function OutsiderStep(s: Sys, chain: nat, call: Calldata): Sys
  {
    s.(txs := s.txs + [ChainTx(chain, Decoded(call), InMempool, None)])
  }

  /** The whole system takes one step; an event that is not enabled changes nothing. */
  function Apply(s: Sys, e: Event): Sys
  {
    match e
    case Elapse(d) => s.(clock := s.clock + d)
    case MakeSignature(sig) => s.(made := s.made + {sig})
    case Arrive(id, req) =>
      if id in s.handlers then s else s.(handlers := s.handlers[id := Handler(req, "", CheckNonce, s.clock)])
    case HandlerStep(id, out) => StepHandler(s, id, out)
    case HandlerCrash(id) => EndHandler(s, id)
    case Claim(w, locked, out) => ClaimStep(s, w, locked, out)
    case WorkerStep(w, out) => StepWorker(s, w, out)
    case WorkerCrash(w) => if w in s.workers then PutWorker(s, w, Abandon(s.workers[w])) else s
    case Mine(h, executes, time) => MineStep(s, h, executes, time)
    case Outsider(chain, call) => OutsiderStep(s, chain, call)
    case RefundMark(id, out) => if out == Lost then s else s.(db := s.db.FailSettlement(id))
  }

  /** Nothing recorded, nothing on chain, workers idle. */
  predicate Initial(s: Sys)
  {
    s.db == EMPTY_TABLES && s.txs == [] && s.used == {} && s.made == {} && s.handlers == map[] &&
    forall w | w in s.workers :: s.workers[w].queue == [] && s.workers[w].pc == Idle
  }

  function Run(s: Sys, es: seq<Event>): Sys
  {
    if es == [] then s else Apply(Run(s, es[..|es| - 1]), es[|es| - 1])
  }

  /** No block is stamped earlier than the clock at the time it is made. */
  ghost predicate OnTime(s: Sys, es: seq<Event>)
  {
    forall i | 0 <= i < |es| && es[i].Mine? :: Run(s, es[..i]).clock <= es[i].time
  }

  lemma {:induction false} RunConcat(s: Sys, a: seq<Event>, b: seq<Event>)
    ensures Run(s, a + b) == Run(Run(s, a), b)
    decreases |b|
  {
    if b == [] {
      assert a + b == a;
    } else {
      var c := a + b;
      assert c[..|c| - 1] == a + b[..|b| - 1] && c[|c| - 1] == b[|b| - 1];
      RunConcat(s, a, b[..|b| - 1]);
    }
  }
}
