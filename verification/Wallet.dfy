// The buyer's side: an agent wallet that fetches, answers the 402 challenge with
// a signed authorization and retries, against a tollbooth it shares a world with.
module Wallet {
  import opened Prelude
  import opened Prices
  import opened Splits
  import opened Handshake
  import opened Ledger
  import opened Pipeline
  import opened PipelineChain
  import opened Surroundings
  import opened Tollbooth

  /** The moment a tollbooth checks a request that arrives after `h`. */
  lemma {:induction false} AtCheck(s: Sys, h: seq<Event>, arrive: Event, before: seq<Event>)
    requires arrive.Arrive?
    ensures Run(s, h + [arrive] + before) == Run(Apply(Run(s, h), arrive), before)
    ensures Run(s, h).made <= Run(s, h + [arrive] + before).made && Run(s, h).clock <= Run(s, h + [arrive] + before).clock
  {
    hide Run, Apply;
    RunOne(s, h, arrive);
    RunConcat(s, h + [arrive], before);
    TimePassesStep(Run(s, h), arrive);
    TimePasses(Apply(Run(s, h), arrive), before);
  }

  lemma {:induction false} AnswerNamesNonce(r: Route, address: string, nonce: string, issued: nat, decimals: nat)
    requires IsNonce(nonce) && BuildChallenge(r, r.windowSec, nonce, issued).Some?
    requires Sign(address, BuildChallenge(r, r.windowSec, nonce, issued).value, decimals).Some?
    ensures Sign(address, BuildChallenge(r, r.windowSec, nonce, issued).value, decimals).value.nonce == nonce
  {
  }

  datatype CallResult =
    | Unpaid(first: Response)                                        // the first answer was not a 402 challenge
    | Paid(second: Response, payment: SignedPayment, challenge: Challenge)
    | PaymentRetryFailed(payment: SignedPayment)
    | SignFailed
    | RpcFailed
    | InsufficientBalance

  /** The optional balance check: off, failing to read, or reading an amount. */
  datatype BalanceCheck = Off | Unreadable | Reads(amount: nat)

  predicate TooLittle(balance: nat, price: string, decimals: nat)
  {
    match PriceToAtomic(price, decimals) case None => true case Some(v) => balance < v
  }

  lemma {:induction false} ChallengeNamesPrice(r: Route, nonce: string, issued: nat)
    requires IsNonce(nonce) && BuildChallenge(r, r.windowSec, nonce, issued).Some?
    ensures BuildChallenge(r, r.windowSec, nonce, issued).value.price == r.price
  {
    hide GoodRoute;
  }

  /** The three row ids and the 32 random bytes a tollbooth draws for one request. */
  datatype Draw = Draw(action: Id, payment: Id, settlement: Id, nonce: string)

  /** The paid retry as the tollbooth takes it up. */
  function RetryRequest(d: Draw, p: SignedPayment, r: Route): Request { Request(d.action, d.payment, d.settlement, p, r) }

  /** The shares a paid response shows. */
  function SharesShown(req: Request): seq<Share>
  {
    if req.route.splits == [] then [] else Shares(PriceOf(req), req.route.splits)
  }

  class AgentWallet {
    const address: string
    const decimals: nat

    constructor (a: string, d: nat)
      ensures address == a && decimals == d
    {
      address, decimals := a, d;
    }

    /** `sign`; the key's new signature becomes known. */
    method SignChallenge(world: World, challenge: Challenge) returns (signed: Option<SignedPayment>)
      requires world.Valid()
      modifies world
      ensures world.handlers == old(world.handlers) && old(world.made) <= world.made
      ensures signed.Some? ==> signed.value.signature in world.made
      ensures world.Valid() && world.origin == old(world.origin) && signed == Sign(address, challenge, decimals)
      ensures if signed.Some? then world.history == old(world.history) + [MakeSignature(signed.value.signature)] &&
                                   world.Now() == Apply(old(world.Now()), MakeSignature(signed.value.signature))
              else world.history == old(world.history) && world.Now() == old(world.Now())
    {
      hide Run, Sign;
      ghost var before := world.Now();
      signed := Sign(address, challenge, decimals);
      if signed.Some? {
        world.made := world.made + {signed.value.signature};
        world.Record(MakeSignature(signed.value.signature), before);
      }
    }

    /** `paidCall`. Once the balance check, if it is on, has passed, the call is paid,
        by this wallet, exactly when the retry arrives (state `arrived`) inside the
        challenge's window and on the same chain, its nonce is unused when the
        tollbooth looks (state `checked`), and the wallet reads the price as the
        tollbooth does. */
    method PaidCall(world: World, tb: Tollbooth, ids: (nat, nat), draws: (Draw, Draw), chains: (Option<Chain>, Option<Chain>),
                    balance: BalanceCheck, pause: seq<Event>, oracle: nat -> Moment)
      returns (r: CallResult, ghost arrived: Sys, ghost checked: Sys, ghost logged: bool, ghost n: nat)
      requires tb.world == world && world.Valid() && IsNonce(draws.0.nonce) && IsNonce(draws.1.nonce)
      requires ids.0 !in world.handlers && ids.1 !in world.handlers && NotOurs(pause, ids.1)
      requires forall i :: NotOurs(oracle(i).before, ids.0) && NotOurs(oracle(i).before, ids.1)
      requires IsAddress(address)
      modifies world, world.ledger
      ensures world.Valid() && world.origin == old(world.origin) && old(world.history) <= world.history
      ensures var route := RouteFor(tb.config, chains.0);
              r.Unpaid? <==> BuildChallenge(route, route.windowSec, draws.0.nonce, old(world.clock)).None?
      ensures r.Paid? || r.PaymentRetryFailed? ==>
                var before := old(world.history) + pause + [MakeSignature(r.payment.signature)];
                var req := RetryRequest(draws.1, r.payment, RouteFor(tb.config, chains.1));
                arrived == Run(world.origin, before) && checked == Run(world.origin, before + [Arrive(ids.1, req)] + oracle(0).before) &&
                var check := tb.CheckedHistory(before, ids.1, req.action, req.payment, req.settlement, r.payment, chains.1, oracle(0));
                if r.PaymentRetryFailed? then world.history == check
                else Wrote(world.origin, check, ids.1, Handler(req, address, HandlerPc.AddAction, arrived.clock), oracle, n, !logged, world.history)
      ensures !r.Unpaid? ==>
                var route, retry := RouteFor(tb.config, chains.0), RouteFor(tb.config, chains.1);
                if balance.Unreadable? then r == RpcFailed && world.history == old(world.history)
                else if balance.Reads? && TooLittle(balance.amount, route.price, decimals)
                then r == InsufficientBalance && world.history == old(world.history)
                else if oracle(0).out == Returned && arrived.clock <= old(world.clock) + route.windowSec &&
                        !checked.db.NonceSeen(draws.0.nonce) && SameReading(route.price, decimals) && SameChain(route, retry)
                then r.Paid? &&
                     r.second == if retry.splits == [] && tb.emptySplits then Threw
                                 else Served(address, draws.1.action, SharesShown(RetryRequest(draws.1, r.payment, retry)))
                else r.PaymentRetryFailed?
      ensures r.Paid? || r.PaymentRetryFailed? ==>
                var route := RouteFor(tb.config, chains.0);
                var built := BuildChallenge(route, route.windowSec, draws.0.nonce, old(world.clock));
                built.Some? && Some(r.payment) == Sign(address, built.value, decimals) && (r.Paid? ==> r.challenge == built.value)
    {
      hide Run, Apply, Accept, Sign, BuildChallenge, IsAddress, IsNonce, SameReading, SameChain, TooLittle, Tables.NonceSeen;
      hide Wrote, Tollbooth.CheckedHistory, PriceOf, Shares, Initial;
      ghost var route, retry := RouteFor(tb.config, chains.0), RouteFor(tb.config, chains.1);
      ghost var issued := world.clock;
      arrived, checked, logged, n := world.Now(), world.Now(), false, 0;
      var first, _, _ := tb.Handle(ids.0, Header.Absent, draws.0.action, draws.0.payment, draws.0.settlement, draws.0.nonce,
                                chains.0, oracle);
      if !first.PaymentRequired? { return Unpaid(first), arrived, checked, false, 0; }
      var challenge := first.challenge;
      HonestAnswerAccepted(route, retry, address, draws.0.nonce, issued, issued, true, {}, decimals);
      ChallengeNamesPrice(route, draws.0.nonce, issued);
      if balance.Unreadable? { return RpcFailed, arrived, checked, false, 0; }
      if balance.Reads? && TooLittle(balance.amount, challenge.price, decimals) { return InsufficientBalance, arrived, checked, false, 0; }
      TimePasses(world.Now(), pause);
      OthersLeaveHandler(world.Now(), pause, ids.1);
      world.Others(pause);
      TimePassesStep(world.Now(), MakeSignature(Sign(address, challenge, decimals).value.signature));
      var signed := SignChallenge(world, challenge);
      AnswerNamesNonce(route, address, draws.0.nonce, issued, decimals);
      var d := draws.1;
      arrived := world.Now();
      ghost var h0 := world.history;
      ghost var arrive := Arrive(ids.1, Request(d.action, d.payment, d.settlement, signed.value, retry));
      checked := Run(Apply(arrived, arrive), oracle(0).before);
      AtCheck(world.origin, h0, arrive, oracle(0).before);
      HonestAnswerAccepted(route, retry, address, draws.0.nonce, issued, arrived.clock, !checked.db.NonceSeen(draws.0.nonce),
                           checked.made, decimals);
      var second, failed, writes :=
        tb.Handle(ids.1, Header.Signed(signed.value), d.action, d.payment, d.settlement, d.nonce, chains.1, oracle);
      logged, n := failed, writes;
      r := if !second.Rejected? then Paid(second, signed.value, challenge) else PaymentRetryFailed(signed.value);
    }
  }
}
