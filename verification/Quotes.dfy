// The quote engine's store: quotes issued, looked up and collected, and why the
// collector cannot be observed.
module Quotes {
  import opened Prelude
  import opened Prices
  import opened QuotePolicy

  datatype PriceQuote = PriceQuote(id: string, price: string, expiresAt: int, reasons: seq<Reason>)

  type Store = map<string, PriceQuote>

  const CAPACITY := 1000
  const DEFAULT_QUOTE_WINDOW_SEC := 300

  /** `Math.floor(Date.now() / 1000)` */
  function Seconds(ms: nat): nat { ms / 1000 }

  predicate Expired(q: PriceQuote, ms: nat) { Seconds(ms) > q.expiresAt }

  /** A quote issued at one reading of the clock in milliseconds is live at another
      exactly while no more whole seconds have passed than its window holds. */
  lemma {:induction false} QuoteLivesItsWindow(q: PriceQuote, issued: nat, window: nat, ms: nat)
    requires q.expiresAt == issued / 1000 + window
    ensures !Expired(q, ms) <==> ms / 1000 - issued / 1000 <= window
    ensures ms <= issued + 1000 * window ==> !Expired(q, ms)
    ensures ms >= issued + 1000 * (window + 1) ==> Expired(q, ms)
  {
    var later := issued + 1000 * window;
    assert later / 1000 == issued / 1000 + window;
  }

  function Collected(store: Store, ms: nat): Store
  {
    map id | id in store && !Expired(store[id], ms) :: store[id]
  }

  /** The store after a quote; `gcMs` is the later clock reading of the collector. */
  function Kept(store: Store, q: PriceQuote, gcMs: nat): Store
  {
    var stored := store[q.id := q];
    if |stored| > CAPACITY then Collected(stored, gcMs) else stored
  }

  function Lookup(store: Store, id: string, ms: nat): Option<PriceQuote>
  {
    if id in store && !Expired(store[id], ms) then Some(store[id]) else None
  }

  function AfterLookup(store: Store, id: string, ms: nat): Store
  {
    if id in store && Expired(store[id], ms) then store - {id} else store
  }

  function ReasonsOf(p: Policy, ask: Ask): seq<Reason>
    requires QuotedPrice(p, ask).Some?
  {
    var tier := Matched(p.tiers, ask.volume);
    var first :=
      if ask.buyer != "" && Lower(ask.buyer) in p.overrides
      then
        var rationale := p.overrides[Lower(ask.buyer)].rationale;
        [BuyerTier(if rationale.Some? then rationale.value else "buyer-tier override")]
      else if tier.Some? then [VolumeDiscount(tier.value)]
      else [];
    var second :=
      if ask.proposal != "" && WithinTenPercent(ask.proposal, PolicyPrice(p, ask).value).value
      then first + [ProposalAccepted] else first;
    if p.floorPrice != "" && LessThan(NegotiatedPrice(p, ask).value, p.floorPrice).value then second + [FloorApplied] else second
  }

  /** The reasons given, for any sound policy and ask, read off the amounts: why the
      seller's price is what it is, then what changed it, in that order. */
  lemma {:induction false} ReasonsExactly(p: Policy, ask: Ask)
    requires Sound(p, ask)
    ensures QuotedPrice(p, ask).Some?
    ensures ReasonsOf(p, ask) ==
            (if HasOverride(p, ask)
             then [BuyerTier(match p.overrides[Lower(ask.buyer)].rationale case Some(text) => text case None => "buyer-tier override")]
             else match Matched(p.tiers, ask.volume) case Some(t) => [VolumeDiscount(t)] case None => []) +
            (if TakesProposal(p, ask) then [ProposalAccepted] else []) +
            (if p.floorPrice != "" && SettledAmount(p, ask) < Amount(p.floorPrice) then [FloorApplied] else [])
  {
    hide WellFormed, PolicyPrice, AskedAmount, Lower, Matched, QuoteAtomic, LessThan, WithinTenPercent, TakesProposal, QuotedPrice;
    PolicyAmount(p, ask);
    QuoteExactly(p, ask);
    SettlesAt(p, ask);
    TakesMeansNear(p, ask);
    if p.floorPrice != "" { ComparesAmounts(NegotiatedPrice(p, ask).value, p.floorPrice); }
  }

  class QuoteEngine {
    const policy: Policy
    const windowSec: int
    var quotes: Store

    constructor (p: Policy, w: Option<int>)
      ensures policy == p && quotes == map[] && windowSec == match w case Some(sec) => sec case None => 300
    {
      policy, windowSec, quotes := p, if w.Some? then w.value else DEFAULT_QUOTE_WINDOW_SEC, map[];
    }

    /** The pricing part of `quote`; None is an exception. */
    method Negotiate(ask: Ask) returns (priced: Option<(string, seq<Reason>)>)
      ensures priced.Some? <==> QuotedPrice(policy, ask).Some?
      ensures priced.Some? ==> priced.value == (QuotedPrice(policy, ask).value, ReasonsOf(policy, ask))
    {
      hide Matched, ApplyDiscount, WithinTenPercent, LessThan;
      var price := policy.basePrice;
      var rationale: seq<Reason> := [];
      var matched := Matched(policy.tiers, ask.volume);
      if matched.Some? {
        var discounted := ApplyDiscount(price, matched.value.discountBps);
        if discounted.None? { return None; }
        price := discounted.value;
        rationale := [VolumeDiscount(matched.value)];
      }
      if ask.buyer != "" && Lower(ask.buyer) in policy.overrides {
        var override := policy.overrides[Lower(ask.buyer)];
        price := override.price;
        rationale := [BuyerTier(if override.rationale.Some? then override.rationale.value else "buyer-tier override")];
      }
      if ask.proposal != "" {
        var near := WithinTenPercent(ask.proposal, price);
        if near.None? { return None; }
        if near.value {
          price := ask.proposal;
          rationale := rationale + [ProposalAccepted];
        }
      }
      if policy.floorPrice != "" {
        var below := LessThan(price, policy.floorPrice);
        if below.None? { return None; }
        if below.value {
          price := policy.floorPrice;
          rationale := rationale + [FloorApplied];
        }
      }
      priced := Some((price, rationale));
    }

    method Quote(ask: Ask, id: string, ms: nat, gcMs: nat) returns (r: Option<PriceQuote>)
      modifies this
      ensures r.Some? <==> QuotedPrice(policy, ask).Some?
      ensures r.None? ==> quotes == old(quotes)
      ensures r.Some? ==>
                r.value == PriceQuote(id, QuotedPrice(policy, ask).value, Seconds(ms) + windowSec, ReasonsOf(policy, ask)) &&
                quotes == Kept(old(quotes), r.value, gcMs) &&
                r.value.expiresAt == ms / 1000 + windowSec &&
                (|old(quotes)[id := r.value]| <= 1000 ==> quotes == old(quotes)[id := r.value]) &&
                (|quotes| <= 1000 || forall k | k in quotes :: !Expired(quotes[k], gcMs))
    {
      hide QuotedPrice, ReasonsOf;
      var priced := Negotiate(ask);
      if priced.None? { return None; }
      var quote := PriceQuote(id, priced.value.0, Seconds(ms) + windowSec, priced.value.1);
      quotes := quotes[id := quote];
      if |quotes| > CAPACITY { Gc(gcMs); }
      r := Some(quote);
    }

    method Consume(id: string, ms: nat) returns (r: Option<PriceQuote>)
      modifies this
      ensures r == Lookup(old(quotes), id, ms) && quotes == AfterLookup(old(quotes), id, ms)
    {
      if id !in quotes { return None; }
      var q := quotes[id];
      if Expired(q, ms) {
        quotes := quotes - {id};
        return None;
      }
      r := Some(q);
    }

    method Gc(ms: nat)
      modifies this
      ensures quotes == Collected(old(quotes), ms)
    {
      var keys := quotes.Keys;
      while keys != {}
        invariant keys <= old(quotes).Keys
        invariant forall k :: k in quotes <==> k in old(quotes) && (k in keys || !Expired(old(quotes)[k], ms))
        invariant forall k | k in quotes :: quotes[k] == old(quotes)[k]
        decreases |keys|
      {
        var k :| k in keys;
        if Expired(quotes[k], ms) { quotes := quotes - {k}; }
        keys := keys - {k};
      }
    }
  }

  // ---- the collector is invisible ----

  datatype Op = Issue(quote: PriceQuote, ms: nat, gcMs: nat) | Find(id: string, ms: nat)

  function Start(op: Op): nat { op.ms }

  function End(op: Op): nat { if op.Issue? then op.gcMs else op.ms }

  /** The engine's store after a run. */
  function StoreAfter(ops: seq<Op>): Store
  {
    if ops == [] then map[]
    else
      var before, op := StoreAfter(ops[..|ops| - 1]), ops[|ops| - 1];
      match op
      case Issue(q, _, gcMs) => Kept(before, q, gcMs)
      case Find(id, ms) => AfterLookup(before, id, ms)
  }

  /** The last quote issued under each id: a store that deletes nothing. */
  function Issued(ops: seq<Op>): Store
  {
    if ops == [] then map[]
    else
      var op := ops[|ops| - 1];
      if op.Issue? then Issued(ops[..|ops| - 1])[op.quote.id := op.quote] else Issued(ops[..|ops| - 1])
  }

  /** The clock of a run does not go back, and ends by `ms`. */
  ghost predicate ClockForward(ops: seq<Op>, ms: nat)
  {
    if ops == [] then true
    else
      var op := ops[|ops| - 1];
      Start(op) <= End(op) <= ms && ClockForward(ops[..|ops| - 1], Start(op))
  }

  /** The store holds issued quotes only, and every issued quote it lost has expired. */
  ghost predicate Faithful(store: Store, issued: Store, ms: nat)
  {
    (forall id | id in store :: id in issued && store[id] == issued[id]) &&
    (forall id | id in issued && id !in store :: Expired(issued[id], ms))
  }

  lemma {:induction false} StoreIsFaithful(ops: seq<Op>, ms: nat)
    requires ClockForward(ops, ms)
    ensures Faithful(StoreAfter(ops), Issued(ops), ms)
    decreases |ops|
  {
    if ops != [] {
      var op := ops[|ops| - 1];
      StoreIsFaithful(ops[..|ops| - 1], Start(op));
      if op.Issue? { SecondsGrow(op.ms, op.gcMs); }
      SecondsGrow(End(op), ms);
    }
  }

  lemma {:induction false} SecondsGrow(a: nat, b: nat)
    requires a <= b
    ensures Seconds(a) <= Seconds(b)
  {
  }

  /** In any run a lookup answers exactly as if nothing were ever deleted: the
      issued quote until it expires, and looking does not change later answers. */
  lemma {:induction false} CollectionIsInvisible(ops: seq<Op>, id: string, ms: nat)
    requires ClockForward(ops, ms)
    ensures Lookup(StoreAfter(ops), id, ms) == Lookup(Issued(ops), id, ms)
    ensures Lookup(AfterLookup(StoreAfter(ops), id, ms), id, ms) == Lookup(StoreAfter(ops), id, ms)
  {
    StoreIsFaithful(ops, ms);
  }

  /** After a quote the store holds at most 1000 quotes or only live ones. */
  lemma {:induction false} StoreIsBounded(ops: seq<Op>)
    requires ops != [] && ops[|ops| - 1].Issue?
    ensures var store := StoreAfter(ops);
            |store| <= 1000 || forall id | id in store :: !Expired(store[id], End(ops[|ops| - 1]))
  {
  }

  // ---- when a deletion shows ----

  /** The operation finds the quote expired and deletes it. */
  predicate Deletes(before: Store, op: Op, id: string)
  {
    match op
    case Find(k, ms) => k == id && id in before && Expired(before[id], ms)
    case Issue(q, _, gcMs) => var stored := before[q.id := q]; id in stored && |stored| > CAPACITY && Expired(stored[id], gcMs)
  }

  /** The quote was deleted after it was last issued. */
  predicate Deleted(ops: seq<Op>, id: string)
  {
    ops != [] &&
    var init, op := ops[..|ops| - 1], ops[|ops| - 1];
    Deletes(StoreAfter(init), op, id) || (Deleted(init, id) && !(op.Issue? && op.quote.id == id))
  }

  lemma {:induction false} StoreIsIssuedLessDeleted(ops: seq<Op>, id: string)
    ensures id in StoreAfter(ops) <==> id in Issued(ops) && !Deleted(ops, id)
    ensures id in StoreAfter(ops) ==> StoreAfter(ops)[id] == Issued(ops)[id]
    decreases |ops|
  {
    if ops != [] { StoreIsIssuedLessDeleted(ops[..|ops| - 1], id); }
  }

  /** Whatever the clock does, a deletion shows in a lookup exactly when the quote was
      deleted at a reading past its expiry and is looked up at one that is not. */
  lemma {:induction false} DeletionShowsExactly(ops: seq<Op>, id: string, ms: nat)
    ensures Lookup(StoreAfter(ops), id, ms) != Lookup(Issued(ops), id, ms) <==>
              id in Issued(ops) && Deleted(ops, id) && !Expired(Issued(ops)[id], ms)
  {
    StoreIsIssuedLessDeleted(ops, id);
  }

  /** A clock that steps back after a late lookup makes the deletion show. */
  lemma {:induction false} ClockBackShows(q: PriceQuote, early: nat, late: nat)
    requires !Expired(q, early) && Expired(q, late)
    ensures var ops := [Issue(q, early, early), Find(q.id, late)];
            Lookup(StoreAfter(ops), q.id, early) == None && Lookup(Issued(ops), q.id, early) == Some(q)
  {
    var ops := [Issue(q, early, early), Find(q.id, late)];
    assert ops[..1] == [Issue(q, early, early)] && ops[..1][..0] == [];
    assert StoreAfter([]) == map[] && |map[q.id := q]| == 1;
    assert StoreAfter(ops[..1]) == map[q.id := q] == Issued(ops[..1]);
    DeletionShowsExactly(ops, q.id, early);
  }
}
