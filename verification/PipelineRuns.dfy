// Runs that record a paid request, from any state in which the tollbooth would
// admit it, and in particular from empty tables.
module PipelineRuns {
  import opened Prelude
  import opened Prices
  import opened Handshake
  import opened Ledger
  import opened Pipeline

  // ---- one request ----

  /** The tollbooth would admit the payment now, and nothing stands in its rows' way. */
  ghost predicate Admissible(t: Sys, k: Id, r: Route, address: string, p: SignedPayment)
  {
    t.handlers == map[] && k !in t.db.actions && k !in t.db.payments && k !in t.db.settlements && !t.db.NonceSeen(p.nonce) &&
    Accept(r, p, t.clock, true, t.made) == Some(address) && WellFormed(r.price) && r.batch && r.splits == []
  }

  /** The tables with the request's action, payment, pending settlement and outbox row, all under id `k`. */
  function WithRow(db: Tables, k: Id, r: Route, address: string, p: SignedPayment): Tables
    requires WellFormed(r.price)
  {
    var price := PriceToAtomic(r.price, USDC_DECIMALS).value;
    var t := Transfer(k, k, k, r.asset, r.network, address, r.to, price, p.validAfter, p.validBefore, p.nonce, p.signature);
    db.(actions := db.actions[k := Action(address, r.to, price, r.asset, r.network)],
        payments := db.payments[k := Payment(k, p.nonce, p.signature, p.validAfter, p.validBefore)],
        settlements := db.settlements[k := Settlement(k, Pending, None, None, None)],
        outbox := db.outbox[db.nextOutbox := OutboxRow(t, 0, None, None)],
        nextOutbox := db.nextOutbox + 1)
  }

  function RequestEvents(k: Id, r: Route, p: SignedPayment): seq<Event>
  {
    var step := HandlerStep(0, Returned);
    [Arrive(0, Request(k, k, k, p, r)), step, step, step, step, step]
  }

  /** An admissible request whose calls all return is recorded in full. */
  lemma {:induction false} RequestRuns(t: Sys, k: Id, r: Route, address: string, p: SignedPayment)
    requires Admissible(t, k, r, address, p)
    ensures Run(t, RequestEvents(k, r, p)) == t.(db := WithRow(t.db, k, r, address, p))
  {
    hide Run, Apply;
    Admits(t, k, r, address, p);
    Writes(t, k, r, address, p);
    RunsSix(t, RequestEvents(k, r, p));
  }

  function AtInsert(t: Sys, k: Id, r: Route, address: string, p: SignedPayment, pc: HandlerPc): Handler
  {
    Handler(Request(k, k, k, p, r), address, pc, t.clock)
  }

  lemma {:induction false} Admits(t: Sys, k: Id, r: Route, address: string, p: SignedPayment)
    requires Admissible(t, k, r, address, p)
    ensures Apply(Apply(t, Arrive(0, Request(k, k, k, p, r))), HandlerStep(0, Returned)) ==
            t.(handlers := map[0 := AtInsert(t, k, r, address, p, AddAction)])
  {
    hide Accept, WellFormed, Tables.NonceSeen;
    var a := Apply(t, Arrive(0, Request(k, k, k, p, r)));
    assert a == t.(handlers := map[0 := Handler(Request(k, k, k, p, r), "", CheckNonce, t.clock)]);
  }

  lemma {:induction false} PriceReads(req: Request)
    requires WellFormed(req.route.price)
    ensures PriceToAtomic(req.route.price, USDC_DECIMALS) == Some(PriceOf(req))
  {
    hide WellFormed;
  }

  /** Its four writes return. */
  lemma {:induction false} Writes(t: Sys, k: Id, r: Route, address: string, p: SignedPayment)
    requires Admissible(t, k, r, address, p)
    ensures var step, a := HandlerStep(0, Returned), t.(handlers := map[0 := AtInsert(t, k, r, address, p, AddAction)]);
            Apply(Apply(Apply(Apply(a, step), step), step), step) == t.(db := WithRow(t.db, k, r, address, p))
  {
    hide WellFormed, PriceToAtomic, PriceOf, Apply, Accept, Tables.NonceSeen;
    PriceReads(Request(k, k, k, p, r));
    var final := WithRow(t.db, k, r, address, p);
    var a := t.(handlers := map[0 := AtInsert(t, k, r, address, p, AddAction)]);
    var b := t.(db := t.db.(actions := final.actions), handlers := map[0 := AtInsert(t, k, r, address, p, AddPayment)]);
    var c := b.(db := b.db.(payments := final.payments), handlers := map[0 := AtInsert(t, k, r, address, p, AddSettlement)]);
    var d := c.(db := c.db.(settlements := final.settlements), handlers := map[0 := AtInsert(t, k, r, address, p, AddOutbox)]);
    SameNonces(t.db, b.db, p.nonce);
    WriteReturns(a, b, a.handlers[0]);
    WriteReturns(b, c, b.handlers[0]);
    WriteReturns(c, d, c.handlers[0]);
    WriteReturns(d, t.(db := final), d.handlers[0]);
  }

  lemma {:induction false} SameNonces(a: Tables, b: Tables, nonce: string)
    requires b.payments == a.payments
    ensures b.NonceSeen(nonce) == a.NonceSeen(nonce)
  {
  }

  /** The write of the only request returns. */
  lemma {:induction false} WriteReturns(s: Sys, t: Sys, h: Handler)
    requires s.handlers == map[0 := h] && h.pc != CheckNonce && HandlerInsert(s.db, h) == Some(t.db)
    requires t == s.(db := t.db, handlers := t.handlers)
    requires t.handlers == match NextPc(h.req.route, h.pc) case Some(pc) => map[0 := h.(pc := pc)] case None => map[]
    ensures Apply(s, HandlerStep(0, Returned)) == t
  {
    hide HandlerInsert;
    assert s.handlers - {0} == map[];
    assert forall pc :: s.handlers[0 := h.(pc := pc)] == map[0 := h.(pc := pc)];
  }

  lemma {:induction false} RunsSix(s: Sys, es: seq<Event>)
    requires |es| == 6
    ensures Run(s, es) == Apply(Apply(Apply(Apply(Apply(Apply(s, es[0]), es[1]), es[2]), es[3]), es[4]), es[5])
  {
    hide Apply;
    assert es[..6] == es;
    assert forall i | 0 <= i < 6 :: es[..i + 1][..i] == es[..i] && es[..i + 1][i] == es[i];
    assert Run(s, es[..0]) == s;
    assert Run(s, es[..1]) == Apply(s, es[0]);
    assert Run(s, es[..2]) == Apply(Run(s, es[..1]), es[1]);
    assert Run(s, es[..3]) == Apply(Run(s, es[..2]), es[2]);
    assert Run(s, es[..4]) == Apply(Run(s, es[..3]), es[3]);
    assert Run(s, es[..5]) == Apply(Run(s, es[..4]), es[4]);
  }

  // ---- from empty tables ----

  /** A system, a route and a buyer for which one honest payment can be made now. */
  predicate Prepared(s: Sys, r: Route, address: string, nonce: string)
  {
    s.clock >= 5 && GoodRoute(r) && r.batch && r.splits == [] && r.windowSec > 0 && IsAddress(address) && IsNonce(nonce)
  }

  function Answer(s: Sys, r: Route, address: string, nonce: string): SignedPayment
    requires Prepared(s, r, address, nonce)
  {
    var ch := BuildChallenge(r, r.windowSec, nonce, s.clock).value;
    Sign(address, ch, USDC_DECIMALS).value
  }

  lemma {:induction false} AnswerEnds(s: Sys, r: Route, address: string, nonce: string)
    requires Prepared(s, r, address, nonce)
    ensures var p := Answer(s, r, address, nonce); p.validAfter + 5 == s.clock && p.validBefore == s.clock + r.windowSec
  {
    hide IsAddress, IsNonce, WellFormed;
  }

  lemma {:induction false} AnswerNonce(s: Sys, r: Route, address: string, nonce: string)
    requires Prepared(s, r, address, nonce)
    ensures Answer(s, r, address, nonce).nonce == nonce
  {
    hide IsAddress, IsNonce, WellFormed;
  }

  function OneRow(r: Route, address: string, p: SignedPayment): Tables
    requires WellFormed(r.price)
  {
    WithRow(EMPTY_TABLES, 0, r, address, p)
  }

  /** The buyer signs, and some time passes. */
  function Opening(s: Sys, p: SignedPayment, delay: nat): Sys { s.(made := s.made + {p.signature}, clock := s.clock + delay) }

  lemma {:induction false} Opens(s: Sys, p: SignedPayment, delay: nat)
    ensures Run(s, [MakeSignature(p.signature), Elapse(delay)]) == Opening(s, p, delay)
  {
    var es := [MakeSignature(p.signature), Elapse(delay)];
    assert es[..1] == [MakeSignature(p.signature)] && es[..1][..0] == [];
    assert Run(s, es[..1]) == Apply(s, es[0]);
  }

  /** Within its window the answer is then admissible, if its nonce and ids are new. */
  lemma {:induction false} AnswerIsAdmissible(s: Sys, k: Id, r: Route, address: string, nonce: string, delay: nat)
    requires Prepared(s, r, address, nonce) && delay <= r.windowSec && s.handlers == map[] && !s.db.NonceSeen(nonce)
    requires k !in s.db.actions && k !in s.db.payments && k !in s.db.settlements
    ensures var p := Answer(s, r, address, nonce); Admissible(Opening(s, p, delay), k, r, address, p)
  {
    hide Accept, IsAddress, IsNonce, GoodRoute, Tables.NonceSeen;
    GoodPrice(r);
    var p := Answer(s, r, address, nonce);
    HonestAnswerAccepted(r, r, address, nonce, s.clock, s.clock + delay, true, s.made + {p.signature}, USDC_DECIMALS);
  }

  lemma {:induction false} GoodPrice(r: Route)
    requires GoodRoute(r)
    ensures WellFormed(r.price)
  {
  }

  /** From empty tables a run records one honest payment, at any delay within its window. */
  lemma {:induction false} RequestIsRecorded(s: Sys, r: Route, address: string, nonce: string, delay: nat) returns (es: seq<Event>)
    requires Initial(s) && Prepared(s, r, address, nonce) && delay <= r.windowSec
    ensures var p := Answer(s, r, address, nonce);
            Run(s, es) == s.(db := OneRow(r, address, p), made := {p.signature}, clock := s.clock + delay)
  {
    hide Run, GoodRoute, IsAddress, IsNonce, Accept, Answer;
    GoodPrice(r);
    var p := Answer(s, r, address, nonce);
    var start := [MakeSignature(p.signature), Elapse(delay)];
    Opens(s, p, delay);
    AnswerIsAdmissible(s, 0, r, address, nonce, delay);
    RequestRuns(Opening(s, p, delay), 0, r, address, p);
    RunConcat(s, start, RequestEvents(0, r, p));
    es := start + RequestEvents(0, r, p);
    assert s.made + {p.signature} == {p.signature};
  }
}
