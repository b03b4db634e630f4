// The tollbooth request handler as a method: the 402 branch, the rebuilt
// challenge and its verification, and the ordered ledger writes whose failures it
// swallows, interleaved with everybody else at every await. Each request is proved
// to be a run of the pipeline's transition system.
module Tollbooth {
  import opened Prelude
  import opened Prices
  import opened Splits
  import opened Handshake
  import opened Ledger
  import opened Pipeline
  import opened PipelineRecords
  import opened Surroundings

  datatype Header = Absent | Malformed | Signed(payment: SignedPayment)

  datatype Response =
    | Threw                          // an exception outside the handler's try blocks
    | PaymentRequired(challenge: Challenge)
    | Rejected                       // 402, invalid payment
    | Served(buyer: string, action: Id, splits: seq<Share>)

  /** What `resolveChain` picks for a request, where one is configured. */
  datatype Chain = Chain(network: nat, asset: string)

  function RouteFor(config: Route, resolved: Option<Chain>): Route
  {
    match resolved
    case None => config
    case Some(c) => config.(network := c.network, asset := c.asset)
  }

  predicate ByHandler(e: Event, id: nat)
  {
    (e.Arrive? && e.id == id) || (e.HandlerStep? && e.id == id) || (e.HandlerCrash? && e.id == id)
  }

  ghost predicate NotOurs(es: seq<Event>, id: nat) { forall i | 0 <= i < |es| :: !ByHandler(es[i], id) }

  /** Nobody else moves, starts or ends a request. */
  lemma {:induction false} OthersLeaveHandler(s: Sys, es: seq<Event>, id: nat)
    requires NotOurs(es, id)
    ensures id in Run(s, es).handlers <==> id in s.handlers
    ensures id in s.handlers ==> Run(s, es).handlers[id] == s.handlers[id]
    decreases |es|
  {
    hide Apply;
    if es != [] {
      OthersLeaveHandler(s, es[..|es| - 1], id);
      OtherRequestStep(Run(s, es[..|es| - 1]), es[|es| - 1], id);
    }
  }

  lemma {:induction false} OtherRequestStep(s: Sys, e: Event, id: nat)
    requires !ByHandler(e, id)
    ensures id in Apply(s, e).handlers <==> id in s.handlers
    ensures id in s.handlers ==> Apply(s, e).handlers[id] == s.handlers[id]
  {
    hide HandlerInsert, Accept, WorkerWrite, Continue, Throw;
  }

  lemma {:induction false} AcceptNeedsSplits(r: Route, p: SignedPayment, now: nat, unseen: bool, made: set<Signature>)
    requires Accept(r, p, now, unseen, made).Some?
    ensures r.splits == [] || SumBps(r.splits) == TEN_THOUSAND
  {
  }

  lemma {:induction false} RecordedAtAnyPoint(db: Tables, h: Handler, pc: HandlerPc)
    ensures FullyRecorded(db, h.(pc := pc)) ==> FullyRecorded(db, h)
  {
  }

  // ---- the writes of a request, told by its awaits alone ----

  /** The writes a route calls for, in order; the i-th, from 0, meets await i + 1. */
  function WritesOf(r: Route): (pcs: seq<HandlerPc>)
    ensures |pcs| >= 3
  {
    [HandlerPc.AddAction, HandlerPc.AddPayment, HandlerPc.AddSettlement] +
    (if r.batch then [HandlerPc.AddOutbox] else []) + (if r.splits != [] then [HandlerPc.AddSplits] else [])
  }

  /** A constraint stands in the way of a write: its id or nonce is taken, or a row it
      refers to is missing. */
  predicate Blocked(db: Tables, h: Handler, pc: HandlerPc)
  {
    match pc
    case CheckNonce => false
    case AddAction => h.req.action in db.actions
    case AddPayment =>
      h.req.payment in db.payments || h.req.action !in db.actions ||
      exists p | p in db.payments :: db.payments[p].nonce == h.req.signed.nonce
    case AddSettlement => h.req.settlement in db.settlements || h.req.payment !in db.payments
    case AddOutbox =>
      h.req.settlement !in db.settlements || h.req.payment !in db.payments || h.req.action !in db.actions
    case AddSplits => h.req.action !in db.actions
  }

  /** The history after the first `n` writes, with what the others did before each. */
  function Written(h: seq<Event>, id: nat, oracle: nat -> Moment, n: nat): seq<Event>
  {
    if n == 0 then h else Written(h, id, oracle, n - 1) + oracle(n).before + [HandlerStep(id, oracle(n).out)]
  }

  /** The i-th write throws: the call fails, or a constraint of that moment does. */
  predicate WriteFails(origin: Sys, h: seq<Event>, id: nat, hd: Handler, oracle: nat -> Moment, i: nat)
    requires i < |WritesOf(hd.req.route)|
  {
    oracle(i + 1).out != Returned ||
    Blocked(Run(origin, Written(h, id, oracle, i) + oracle(i + 1).before).db, hd, WritesOf(hd.req.route)[i])
  }

  /** Between two histories a request issued its first `n` writes and nothing else:
      the first that throws is the last issued, and all are issued if none throws. */
  ghost predicate Wrote(origin: Sys, h: seq<Event>, id: nat, hd: Handler, oracle: nat -> Moment, n: nat, ok: bool, now: seq<Event>)
  {
    1 <= n <= |WritesOf(hd.req.route)| && now == Written(h, id, oracle, n) &&
    (forall i | 0 <= i < n - 1 :: !WriteFails(origin, h, id, hd, oracle, i)) &&
    ok == !WriteFails(origin, h, id, hd, oracle, n - 1) && (ok ==> n == |WritesOf(hd.req.route)|)
  }

  /** The first `n` writes returned. */
  ghost predicate WroteSome(origin: Sys, h: seq<Event>, id: nat, hd: Handler, oracle: nat -> Moment, n: nat, now: seq<Event>)
  {
    n <= |WritesOf(hd.req.route)| && now == Written(h, id, oracle, n) &&
    forall i | 0 <= i < n :: !WriteFails(origin, h, id, hd, oracle, i)
  }

  lemma {:induction false} NextWrite(origin: Sys, h: seq<Event>, id: nat, hd: Handler, oracle: nat -> Moment, n: nat, ok: bool,
                                     mid: seq<Event>, now: seq<Event>)
    requires WroteSome(origin, h, id, hd, oracle, n, mid) && n < |WritesOf(hd.req.route)|
    requires now == mid + oracle(n + 1).before + [HandlerStep(id, oracle(n + 1).out)]
    requires ok == (oracle(n + 1).out == Returned &&
                    !Blocked(Run(origin, mid + oracle(n + 1).before).db, hd, WritesOf(hd.req.route)[n]))
    ensures mid <= now
    ensures if ok then WroteSome(origin, h, id, hd, oracle, n + 1, now) else Wrote(origin, h, id, hd, oracle, n + 1, false, now)
  {
    hide Run, Blocked, WritesOf;
  }

  lemma {:induction false} AllWritten(origin: Sys, h: seq<Event>, id: nat, hd: Handler, oracle: nat -> Moment, n: nat, now: seq<Event>)
    requires WroteSome(origin, h, id, hd, oracle, n, now) && n == |WritesOf(hd.req.route)|
    ensures Wrote(origin, h, id, hd, oracle, n, true, now)
  {
    hide WriteFails;
  }

  lemma {:induction false} NonceSeenMeans(db: Tables, nonce: string)
    ensures db.NonceSeen(nonce) <==> exists p | p in db.payments :: db.payments[p].nonce == nonce
  {
  }

  /** Which constraints apply does not depend on where the request stands. */
  lemma {:induction false} BlockedAtAnyPoint(db: Tables, h: Handler, at: HandlerPc, pc: HandlerPc)
    ensures Blocked(db, h.(pc := at), pc) == Blocked(db, h, pc)
  {
  }

  class Tollbooth {
    const world: World
    /** The configuration with its default chain. */
    const config: Route
    /** Splits are configured, but as an empty list. */
    const emptySplits: bool

    /** Without a validity window its challenges are valid for 300 seconds. */
    constructor (w: World, r: Route, window: Option<nat>, empty: bool)
      ensures world == w && emptySplits == empty && config == r.(windowSec := match window case Some(sec) => sec case None => 300)
    {
      world, emptySplits := w, empty;
      config := r.(windowSec := if window.Some? then window.value else DEFAULT_WINDOW_SEC);
    }

    ghost predicate At(id: nat, h: Handler)
      reads world
    {
      id in world.handlers && world.handlers[id] == h
    }

    /** Where a request stands after a write that returned. */
    ghost predicate AtNext(id: nat, h: Handler)
      reads world
    {
      match NextPc(h.req.route, h.pc)
      case Some(pc) => At(id, h.(pc := pc))
      case None => id !in world.handlers
    }

    method AwaitOthers(id: nat, m: Moment)
      requires world.Valid() && NotOurs(m.before, id) && id in world.handlers
      modifies world, world.ledger
      ensures world.Valid() && world.origin == old(world.origin)
      ensures id in world.handlers && world.handlers[id] == old(world.handlers[id])
      ensures world.history == old(world.history) + m.before
      ensures world.Now() == Run(old(world.Now()), m.before)
    {
      OthersLeaveHandler(world.Now(), m.before, id);
      world.Others(m.before);
    }

    method AddAction(id: nat, h: Handler, m: Moment) returns (ok: bool)
      requires world.Valid() && NotOurs(m.before, id) && At(id, h) && h.pc == HandlerPc.AddAction
      modifies world, world.ledger
      ensures world.Valid() && world.origin == old(world.origin)
      ensures world.history == old(world.history) + m.before + [HandlerStep(id, m.out)]
      ensures ok == (m.out == Returned && !Blocked(Run(world.origin, old(world.history) + m.before).db, h, HandlerPc.AddAction))
      ensures if ok then AtNext(id, h) else id !in world.handlers
    {
      hide Run, StepWorker, ClaimStep, MineStep, PriceToAtomic, Accept, OutsiderStep;
      AwaitOthers(id, m);
      ghost var before := world.Now();
      ok := m.out == Returned;
      if m.out != Lost {
        var stored := world.ledger.InsertAction(h.req.action, ActionRow(h));
        ok := ok && stored;
      }
      world.handlers := if ok then world.handlers[id := h.(pc := HandlerPc.AddPayment)] else world.handlers - {id};
      world.Record(HandlerStep(id, m.out), before);
    }

    method AddPayment(id: nat, h: Handler, m: Moment) returns (ok: bool)
      requires world.Valid() && NotOurs(m.before, id) && At(id, h) && h.pc == HandlerPc.AddPayment
      modifies world, world.ledger
      ensures world.Valid() && world.origin == old(world.origin)
      ensures world.history == old(world.history) + m.before + [HandlerStep(id, m.out)]
      ensures ok == (m.out == Returned && !Blocked(Run(world.origin, old(world.history) + m.before).db, h, HandlerPc.AddPayment))
      ensures if ok then AtNext(id, h) else id !in world.handlers
    {
      hide Run, StepWorker, ClaimStep, MineStep, Tables.NonceSeen;
      AwaitOthers(id, m);
      ghost var before := world.Now();
      ok := m.out == Returned;
      if m.out != Lost {
        var stored := world.ledger.InsertPayment(h.req.payment, PaymentRow(h));
        ok := ok && stored;
      }
      world.handlers := if ok then world.handlers[id := h.(pc := HandlerPc.AddSettlement)] else world.handlers - {id};
      NonceSeenMeans(before.db, h.req.signed.nonce);
      world.Record(HandlerStep(id, m.out), before);
    }

    method AddSettlement(id: nat, h: Handler, m: Moment) returns (ok: bool)
      requires world.Valid() && NotOurs(m.before, id) && At(id, h) && h.pc == HandlerPc.AddSettlement
      modifies world, world.ledger
      ensures world.Valid() && world.origin == old(world.origin)
      ensures world.history == old(world.history) + m.before + [HandlerStep(id, m.out)]
      ensures ok == (m.out == Returned && !Blocked(Run(world.origin, old(world.history) + m.before).db, h, HandlerPc.AddSettlement))
      ensures if ok then AtNext(id, h) else id !in world.handlers
      ensures ok && NextPc(h.req.route, h.pc) == None && Initial(world.origin) ==> FullyRecorded(world.ledger.State(), h)
    {
      hide Run, Initial, FullyRecorded, StepWorker, ClaimStep, MineStep, PriceToAtomic, Accept, OutsiderStep;
      AwaitOthers(id, m);
      ghost var before := world.Now();
      ok := m.out == Returned;
      if m.out != Lost {
        var stored := world.ledger.InsertSettlement(h.req.settlement, h.req.payment, Some(Pending), None);
        ok := ok && stored;
      }
      if ok && h.req.route.batch {
        world.handlers := world.handlers[id := h.(pc := HandlerPc.AddOutbox)];
      } else if ok && h.req.route.splits != [] {
        world.handlers := world.handlers[id := h.(pc := HandlerPc.AddSplits)];
      } else {
        world.handlers := world.handlers - {id};
      }
      if ok && NextPc(h.req.route, h.pc) == None && Initial(world.origin) {
        LastWriteRecordsAll(world.origin, world.history, id, m.out);
      }
      world.Record(HandlerStep(id, m.out), before);
    }

    method AddOutbox(id: nat, h: Handler, m: Moment) returns (ok: bool)
      requires world.Valid() && NotOurs(m.before, id) && At(id, h) && h.pc == HandlerPc.AddOutbox
      modifies world, world.ledger
      ensures world.Valid() && world.origin == old(world.origin)
      ensures world.history == old(world.history) + m.before + [HandlerStep(id, m.out)]
      ensures ok == (m.out == Returned && !Blocked(Run(world.origin, old(world.history) + m.before).db, h, HandlerPc.AddOutbox))
      ensures if ok then AtNext(id, h) else id !in world.handlers
      ensures ok && NextPc(h.req.route, h.pc) == None && Initial(world.origin) ==> FullyRecorded(world.ledger.State(), h)
    {
      hide Run, Initial, FullyRecorded, StepWorker, ClaimStep, MineStep, PriceToAtomic, Accept, OutsiderStep;
      AwaitOthers(id, m);
      ghost var before := world.Now();
      ok := m.out == Returned;
      if m.out != Lost {
        var stored := world.ledger.EnqueueGatewayOutbox(TransferRow(h));
        ok := ok && stored;
      }
      world.handlers := if ok && h.req.route.splits != [] then world.handlers[id := h.(pc := HandlerPc.AddSplits)]
                        else world.handlers - {id};
      if ok && NextPc(h.req.route, h.pc) == None && Initial(world.origin) {
        LastWriteRecordsAll(world.origin, world.history, id, m.out);
      }
      world.Record(HandlerStep(id, m.out), before);
    }

    method AddSplits(id: nat, h: Handler, m: Moment) returns (ok: bool)
      requires world.Valid() && NotOurs(m.before, id) && At(id, h) && h.pc == HandlerPc.AddSplits
      requires h.req.route.splits != [] && SumBps(h.req.route.splits) == TEN_THOUSAND
      modifies world, world.ledger
      ensures world.Valid() && world.origin == old(world.origin)
      ensures world.history == old(world.history) + m.before + [HandlerStep(id, m.out)]
      ensures ok == (m.out == Returned && !Blocked(Run(world.origin, old(world.history) + m.before).db, h, HandlerPc.AddSplits))
      ensures id !in world.handlers
      ensures ok && NextPc(h.req.route, h.pc) == None && Initial(world.origin) ==> FullyRecorded(world.ledger.State(), h)
    {
      hide Run, Initial, FullyRecorded, StepWorker, ClaimStep, MineStep, PriceToAtomic, Accept, OutsiderStep, PriceOf, SumBps;
      AwaitOthers(id, m);
      ghost var before := world.Now();
      ok := m.out == Returned;
      var shares := ComputeSplits(PriceOf(h.req), h.req.route.splits);
      if m.out != Lost {
        var stored := world.ledger.InsertSplits(h.req.action, RowsOf(h.req.route.splits, shares.value));
        ok := ok && stored;
      }
      world.handlers := world.handlers - {id};
      if ok && NextPc(h.req.route, h.pc) == None && Initial(world.origin) {
        LastWriteRecordsAll(world.origin, world.history, id, m.out);
      }
      world.Record(HandlerStep(id, m.out), before);
    }

    /** The ordered ledger writes; the first that throws ends them. */
    method WriteLedger(id: nat, h: Handler, oracle: nat -> Moment) returns (ok: bool, ghost n: nat)
      requires world.Valid() && At(id, h) && h.pc == HandlerPc.AddAction
      requires h.req.route.splits != [] ==> SumBps(h.req.route.splits) == TEN_THOUSAND
      requires forall i :: NotOurs(oracle(i).before, id)
      modifies world, world.ledger
      ensures world.Valid() && world.origin == old(world.origin) && old(world.history) <= world.history
      ensures id !in world.handlers
      ensures Wrote(world.origin, old(world.history), id, h, oracle, n, ok, world.history)
      ensures ok && Initial(world.origin) ==> FullyRecorded(world.ledger.State(), h)
    {
      hide Run, Apply, World.Valid, World.Now, NotOurs, SumBps, Initial, FullyRecorded, Blocked, Wrote, WroteSome;
      ghost var origin, h0, mid := world.origin, world.history, world.history;
      NoneWritten(origin, h0, id, h, oracle);
      n := 1;
      ok := AddAction(id, h, oracle(1));
      NextWrite(origin, h0, id, h, oracle, 0, ok, mid, world.history);
      if !ok { return; }
      mid, n := world.history, 2;
      ok := AddPayment(id, h.(pc := HandlerPc.AddPayment), oracle(2));
      BlockedAtAnyPoint(Run(origin, mid + oracle(2).before).db, h, HandlerPc.AddPayment, HandlerPc.AddPayment);
      NextWrite(origin, h0, id, h, oracle, 1, ok, mid, world.history);
      if !ok { return; }
      mid, n := world.history, 3;
      ok := AddSettlement(id, h.(pc := HandlerPc.AddSettlement), oracle(3));
      BlockedAtAnyPoint(Run(origin, mid + oracle(3).before).db, h, HandlerPc.AddSettlement, HandlerPc.AddSettlement);
      NextWrite(origin, h0, id, h, oracle, 2, ok, mid, world.history);
      if !ok { return; }
      RecordedAtAnyPoint(world.ledger.State(), h, HandlerPc.AddSettlement);
      ok, n := WriteOutboxAndSplits(id, h, oracle, h0);
    }

    lemma {:induction false} NoneWritten(origin: Sys, h: seq<Event>, id: nat, hd: Handler, oracle: nat -> Moment)
      ensures WroteSome(origin, h, id, hd, oracle, 0, h)
    {
    }

    method WriteOutboxAndSplits(id: nat, h: Handler, oracle: nat -> Moment, ghost h0: seq<Event>) returns (ok: bool, ghost n: nat)
      requires world.Valid() && AtNext(id, h.(pc := HandlerPc.AddSettlement))
      requires h.req.route.splits != [] ==> SumBps(h.req.route.splits) == TEN_THOUSAND
      requires NextPc(h.req.route, HandlerPc.AddSettlement) == None && Initial(world.origin) ==>
                 FullyRecorded(world.ledger.State(), h)
      requires forall i :: NotOurs(oracle(i).before, id)
      requires WroteSome(world.origin, h0, id, h, oracle, 3, world.history)
      modifies world, world.ledger
      ensures world.Valid() && world.origin == old(world.origin) && old(world.history) <= world.history
      ensures id !in world.handlers
      ensures Wrote(world.origin, h0, id, h, oracle, n, ok, world.history)
      ensures ok && Initial(world.origin) ==> FullyRecorded(world.ledger.State(), h)
    {
      hide Run, Apply, World.Valid, World.Now, NotOurs, SumBps, Initial, FullyRecorded, Blocked, Wrote, WroteSome;
      var r := h.req.route;
      ghost var origin, mid := world.origin, world.history;
      ok, n := true, 3;
      if r.batch {
        ok := AddOutbox(id, h.(pc := HandlerPc.AddOutbox), oracle(4));
        BlockedAtAnyPoint(Run(origin, mid + oracle(4).before).db, h, HandlerPc.AddOutbox, HandlerPc.AddOutbox);
        NextWrite(origin, h0, id, h, oracle, 3, ok, mid, world.history);
        mid, n := world.history, 4;
        if !ok { return; }
        RecordedAtAnyPoint(world.ledger.State(), h, HandlerPc.AddOutbox);
      }
      if r.splits != [] {
        var k := if r.batch then 5 else 4;
        ok := AddSplits(id, h.(pc := HandlerPc.AddSplits), oracle(k));
        BlockedAtAnyPoint(Run(origin, mid + oracle(k).before).db, h, HandlerPc.AddSplits, HandlerPc.AddSplits);
        NextWrite(origin, h0, id, h, oracle, k - 1, ok, mid, world.history);
        n := k;
        if !ok { return; }
        RecordedAtAnyPoint(world.ledger.State(), h, HandlerPc.AddSplits);
      }
      AllWritten(origin, h0, id, h, oracle, n, world.history);
    }

    /** Rebuild the challenge from the route's own terms and the buyer's nonce and
        window at the clock on entry, wait for the freshness SELECT, and verify the
        payment; None is the catch block. */
    method CheckPayment(id: nat, req: Request, m: Moment) returns (buyer: Option<string>)
      requires world.Valid() && NotOurs(m.before, id) && At(id, Handler(req, "", CheckNonce, world.clock))
      modifies world, world.ledger
      ensures world.Valid() && world.origin == old(world.origin)
      ensures world.history == old(world.history) + m.before + [HandlerStep(id, m.out)]
      ensures var at := Run(old(world.Now()), m.before);
              buyer == (if m.out == Returned
                        then Accept(req.route, req.signed, old(world.clock), !at.db.NonceSeen(req.signed.nonce), at.made)
                        else None) &&
              world.ledger.State() == at.db
      ensures if buyer.Some? then At(id, Handler(req, buyer.value, HandlerPc.AddAction, old(world.clock)))
              else id !in world.handlers
    {
      hide Run, StepWorker, ClaimStep, MineStep, SchemaOk, GoodRoute, Recover, PriceToAtomic, Tables.NonceSeen;
      var signed, now := req.signed, world.clock;
      var built := BuildChallenge(req.route, DEFAULT_WINDOW_SEC, "0x" + Decimal.Zeros(64), now);
      AwaitOthers(id, m);
      ghost var before := world.Now();
      buyer := None;
      if m.out == Returned && built.Some? {
        var challenge := built.value;
        challenge := challenge.(nonce := signed.nonce, validAfter := signed.validAfter, validBefore := signed.validBefore);
        var unseen := !world.ledger.State().NonceSeen(signed.nonce);
        var verdict := VerifyPayment(challenge, signed, now, unseen, world.made);
        if verdict.Ok? { buyer := Some(verdict.value); }
      }
      world.handlers := if buyer.Some? then world.handlers[id := Handler(req, buyer.value, HandlerPc.AddAction, now)]
                        else world.handlers - {id};
      world.Record(HandlerStep(id, m.out), before);
    }

    /** The history when a request's check is over. */
    function CheckedHistory(h: seq<Event>, id: nat, action: Id, payment: Id, settlement: Id, p: SignedPayment,
                            resolved: Option<Chain>, m: Moment): seq<Event>
    {
      h + [Arrive(id, Request(action, payment, settlement, p, RouteFor(config, resolved)))] + m.before + [HandlerStep(id, m.out)]
    }

    /** One request, on the chain its resolver picks. Without a header it answers a challenge and changes nothing;
        with one it serves exactly the payments `Accept` admits: the window is read on
        arrival, the nonce's freshness when the SELECT runs. A rejected payment leaves no trace in the ledger.
        An admitted one issues its writes in order, up to the first that throws, which is
        logged; if none throws it is recorded in full. With an empty list of
        splits the response then throws, after the payment was recorded. */
    method Handle(id: nat, header: Header, action: Id, payment: Id, settlement: Id, nonce: string,
                  resolved: Option<Chain>, oracle: nat -> Moment)
      returns (r: Response, logged: bool, ghost n: nat)
      requires world.Valid() && id !in world.handlers && IsNonce(nonce) && forall i :: NotOurs(oracle(i).before, id)
      modifies world, world.ledger
      ensures world.Valid() && world.origin == old(world.origin) && old(world.history) <= world.history
      ensures id !in world.handlers
      ensures !header.Signed? ==> world.Now() == old(world.Now()) && world.history == old(world.history)
      ensures header.Absent? ==>
                r == match BuildChallenge(RouteFor(config, resolved), RouteFor(config, resolved).windowSec, nonce, old(world.clock))
                     case None => Threw
                     case Some(ch) => PaymentRequired(ch)
      ensures header.Malformed? ==> r == Rejected
      ensures header.Signed? ==>
                old(world.history) + [Arrive(id, Request(action, payment, settlement, header.payment, RouteFor(config, resolved)))] + oracle(0).before
                  <= world.history
      ensures header.Signed? ==>
                var at := Run(Apply(old(world.Now()), Arrive(id, Request(action, payment, settlement, header.payment, RouteFor(config, resolved)))),
                              oracle(0).before);
                var verdict := Accept(RouteFor(config, resolved), header.payment, old(world.clock), !at.db.NonceSeen(header.payment.nonce), at.made);
                if oracle(0).out != Returned || verdict.None?
                then r == Rejected && !logged && world.ledger.State() == at.db &&
                     world.history == CheckedHistory(old(world.history), id, action, payment, settlement, header.payment, resolved, oracle(0))
                else
                  var req := Request(action, payment, settlement, header.payment, RouteFor(config, resolved));
                  Wrote(world.origin, CheckedHistory(old(world.history), id, action, payment, settlement, header.payment, resolved, oracle(0)),
                        id, Handler(req, verdict.value, HandlerPc.AddAction, old(world.clock)), oracle, n, !logged, world.history) &&
                  (!logged && Initial(world.origin) ==>
                     FullyRecorded(world.ledger.State(), Handler(req, verdict.value, HandlerPc.AddAction, old(world.clock)))) &&
                  if RouteFor(config, resolved).splits == [] && emptySplits then r == Threw
                  else r == Served(verdict.value, action, if config.splits == [] then [] else Shares(PriceOf(req), config.splits)) &&
                       (config.splits != [] ==> SumAmounts(r.splits) == PriceOf(req))
    {
      hide Run, Accept, PriceOf, Shares, GoodRoute, Tables.NonceSeen, BuildChallenge, Initial, FullyRecorded, Wrote, SumBps, SumAmounts, WritesOf, Written, Blocked, StepWorker, StepHandler;
      logged, n := false, 0;
      var route := RouteFor(config, resolved);
      if header.Absent? {
        var built := BuildChallenge(route, route.windowSec, nonce, world.clock);
        return if built.Some? then PaymentRequired(built.value) else Threw, false, 0;
      }
      if header.Malformed? { return Rejected, false, 0; }
      var req := Request(action, payment, settlement, header.payment, route);
      ghost var before := world.Now();
      var now := world.clock;
      world.handlers := world.handlers[id := Handler(req, "", CheckNonce, now)];
      world.Record(Arrive(id, req), before);
      ghost var at := Run(world.Now(), oracle(0).before);
      var buyer := CheckPayment(id, req, oracle(0));
      if buyer.None? { return Rejected, false, 0; }
      AcceptNeedsSplits(route, header.payment, now, !at.db.NonceSeen(header.payment.nonce), at.made);
      var ok;
      ok, n := WriteLedger(id, Handler(req, buyer.value, HandlerPc.AddAction, now), oracle);
      logged := !ok;
      var proof := [];
      if route.splits != [] || emptySplits {
        var shares := ComputeSplits(PriceOf(req), route.splits);
        if shares.None? { return Threw, logged, n; }
        SharesAddUp(PriceOf(req), route.splits);
        proof := shares.value;
      }
      r := Served(buyer.value, action, proof);
    }
  }
}
