// The quote engine's negotiation policy: volume tiers, buyer overrides, buyer
// proposals and the floor, on prices as text and as atomic amounts.
module QuotePolicy {
  import opened Prelude
  import opened Decimal
  import opened Prices

  datatype Tier = Tier(minVolume: real, discountBps: int)

  datatype Override = Override(price: string, rationale: Option<string>)

  /** An absent tier table is empty; an absent floor price is the empty string. */
  datatype Policy = Policy(basePrice: string, tiers: seq<Tier>, overrides: map<string, Override>, floorPrice: string)

  /** An absent proposal or buyer is the empty string. */
  datatype Ask = Ask(volume: Option<real>, buyer: string, proposal: string)

  datatype Reason = VolumeDiscount(tier: Tier) | BuyerTier(text: string) | ProposalAccepted | FloorApplied

  // ---- picking a tier ----

  /** Insert after every tier with a threshold at most as high. */
  function Insert(sorted: seq<Tier>, t: Tier): (r: seq<Tier>)
    ensures |r| == |sorted| + 1
  {
    if sorted == [] || sorted[|sorted| - 1].minVolume <= t.minVolume then sorted + [t]
    else Insert(sorted[..|sorted| - 1], t) + [sorted[|sorted| - 1]]
  }

  /** `[...tiers].sort((a, b) => a.minVolume - b.minVolume)`, which is stable. */
  function SortTiers(tiers: seq<Tier>): (r: seq<Tier>)
    ensures |r| == |tiers|
  {
    if tiers == [] then [] else Insert(SortTiers(tiers[..|tiers| - 1]), tiers[|tiers| - 1])
  }

  /** `.filter((t) => volume >= t.minVolume)` */
  function Reached(tiers: seq<Tier>, volume: real): seq<Tier>
  {
    if tiers == [] then []
    else Reached(tiers[..|tiers| - 1], volume) + if volume >= tiers[|tiers| - 1].minVolume then [tiers[|tiers| - 1]] else []
  }

  /** The tier whose discount applies. */
  function Matched(tiers: seq<Tier>, volume: Option<real>): Option<Tier>
  {
    if volume.None? || volume.value <= 0.0 then None
    else
      var reached := Reached(SortTiers(tiers), volume.value);
      if reached == [] then None else Some(reached[|reached| - 1])
  }

  // ---- prices ----

  /** BigInt division by a positive divisor. */
  function TruncatingQuotient(n: int, d: nat): int
    requires d > 0
  {
    if n >= 0 then n / d else -(-n / d)
  }

  /** None is the exception for a malformed price. */
  function ApplyDiscount(price: string, bps: int): Option<string>
  {
    match QuoteAtomic(price)
    case None => None
    case Some(a) => Some(AtomicToPrice(TruncatingQuotient(a * (10_000 - bps), 10_000), 6))
  }

  function Distance(a: nat, b: nat): nat { if a > b then a - b else b - a }

  function WithinTenPercent(a: string, b: string): Option<bool>
  {
    match (QuoteAtomic(a), QuoteAtomic(b))
    case (Some(x), Some(y)) => Some(y != 0 && Distance(x, y) * 100 / y <= 10)
    case (_, _) => None
  }

  function LessThan(a: string, b: string): Option<bool>
  {
    match (QuoteAtomic(a), QuoteAtomic(b))
    case (Some(x), Some(y)) => Some(x < y)
    case (_, _) => None
  }

  /** The price after tier and override, before the buyer's proposal. */
  function PolicyPrice(p: Policy, ask: Ask): Option<string>
  {
    var discounted :=
      match Matched(p.tiers, ask.volume)
      case None => Some(p.basePrice)
      case Some(t) => ApplyDiscount(p.basePrice, t.discountBps);
    if discounted.None? then None
    else if ask.buyer != "" && Lower(ask.buyer) in p.overrides then Some(p.overrides[Lower(ask.buyer)].price)
    else discounted
  }

  /** The price after the proposal, before the floor. */
  function NegotiatedPrice(p: Policy, ask: Ask): Option<string>
  {
    match PolicyPrice(p, ask)
    case None => None
    case Some(q) =>
      if ask.proposal == "" then Some(q)
      else
        match WithinTenPercent(ask.proposal, q)
        case None => None
        case Some(accept) => Some(if accept then ask.proposal else q)
  }

  /** The price a quote is issued at; None is an exception. */
  function QuotedPrice(p: Policy, ask: Ask): Option<string>
  {
    match NegotiatedPrice(p, ask)
    case None => None
    case Some(n) =>
      if p.floorPrice == "" then Some(n)
      else
        match LessThan(n, p.floorPrice)
        case None => None
        case Some(below) => Some(if below then p.floorPrice else n)
  }

  // ---- sorting tiers ----

  ghost predicate Ascending(tiers: seq<Tier>)
  {
    forall i, j | 0 <= i < j < |tiers| :: tiers[i].minVolume <= tiers[j].minVolume
  }

  function AtThreshold(tiers: seq<Tier>, m: real): seq<Tier>
  {
    if tiers == [] then []
    else AtThreshold(tiers[..|tiers| - 1], m) + if tiers[|tiers| - 1].minVolume == m then [tiers[|tiers| - 1]] else []
  }

  /** The sort is one, and stable: ascending, and per threshold the same tiers in
      the same order. */
  lemma {:induction false} SortIsStable(tiers: seq<Tier>, m: real)
    ensures Ascending(SortTiers(tiers)) && AtThreshold(SortTiers(tiers), m) == AtThreshold(tiers, m)
    decreases |tiers|
  {
    if tiers != [] {
      SortIsStable(tiers[..|tiers| - 1], m);
      InsertIsStable(SortTiers(tiers[..|tiers| - 1]), tiers[|tiers| - 1], m);
    }
  }

  lemma {:induction false} InsertIsStable(s: seq<Tier>, t: Tier, m: real)
    requires Ascending(s)
    ensures Ascending(Insert(s, t))
    ensures forall x | x in Insert(s, t) :: x == t || x in s
    ensures AtThreshold(Insert(s, t), m) == AtThreshold(s, m) + if t.minVolume == m then [t] else []
    decreases |s|
  {
    var r := Insert(s, t);
    if s == [] || s[|s| - 1].minVolume <= t.minVolume {
      assert r[..|s|] == s;
    } else {
      var init, last := s[..|s| - 1], s[|s| - 1];
      InsertIsStable(init, t, m);
      var mid := Insert(init, t);
      assert r[..|mid|] == mid && r[|mid|] == last;
      assert forall x | x in mid :: x.minVolume <= last.minVolume;
      NoneAbove(init, t, m, last);
    }
  }

  /** Past a tier with a higher threshold than `t`, no order at `t`'s threshold is disturbed. */
  lemma {:induction false} NoneAbove(init: seq<Tier>, t: Tier, m: real, last: Tier)
    requires last.minVolume > t.minVolume
    ensures AtThreshold(init, m) + (if t.minVolume == m then [t] else []) + (if last.minVolume == m then [last] else []) ==
            AtThreshold(init, m) + (if last.minVolume == m then [last] else []) + (if t.minVolume == m then [t] else [])
  {
  }

  // ---- which tier is matched ----

  /** `k` is the last tier the volume reaches. */
  ghost predicate IsLastReached(s: seq<Tier>, volume: real, k: nat)
  {
    k < |s| && s[k].minVolume <= volume && forall j | k < j < |s| :: s[j].minVolume > volume
  }

  lemma {:induction false} ReachedEndsAt(s: seq<Tier>, volume: real) returns (k: nat)
    ensures Reached(s, volume) == [] ==> forall j | 0 <= j < |s| :: s[j].minVolume > volume
    ensures Reached(s, volume) != [] ==>
              IsLastReached(s, volume, k) && Reached(s, volume)[|Reached(s, volume)| - 1] == s[k]
    decreases |s|
  {
    k := 0;
    if s != [] {
      k := ReachedEndsAt(s[..|s| - 1], volume);
      if volume >= s[|s| - 1].minVolume { k := |s| - 1; }
    }
  }

  lemma {:induction false} SortKeepsMembers(tiers: seq<Tier>, t: Tier)
    ensures t in SortTiers(tiers) <==> t in tiers
    decreases |tiers|
  {
    if tiers != [] {
      SortKeepsMembers(tiers[..|tiers| - 1], t);
      InsertKeepsMembers(SortTiers(tiers[..|tiers| - 1]), tiers[|tiers| - 1], t);
      assert tiers == tiers[..|tiers| - 1] + [tiers[|tiers| - 1]];
    }
  }

  lemma {:induction false} InsertKeepsMembers(s: seq<Tier>, x: Tier, t: Tier)
    ensures t in Insert(s, x) <==> t == x || t in s
    decreases |s|
  {
    if !(s == [] || s[|s| - 1].minVolume <= x.minVolume) {
      InsertKeepsMembers(s[..|s| - 1], x, t);
      assert s == s[..|s| - 1] + [s[|s| - 1]];
    }
  }

  /** The matched tier is one the volume reaches with the highest threshold; there
      is none exactly when the volume is absent, not positive, or reaches no tier. */
  lemma {:induction false} MatchedIsHighest(tiers: seq<Tier>, volume: Option<real>)
    ensures match Matched(tiers, volume)
            case Some(t) =>
              volume.Some? && volume.value > 0.0 && t in tiers && t.minVolume <= volume.value &&
              forall u | u in tiers && u.minVolume <= volume.value :: u.minVolume <= t.minVolume
            case None =>
              volume.None? || volume.value <= 0.0 || forall u | u in tiers :: u.minVolume > volume.value
  {
    if volume.Some? {
      var s := SortTiers(tiers);
      SortIsStable(tiers, 0.0);
      var k := ReachedEndsAt(s, volume.value);
      forall u | u in tiers && u.minVolume <= volume.value
        ensures Reached(s, volume.value) != [] && u.minVolume <= s[k].minVolume
      {
        SortKeepsMembers(tiers, u);
      }
      if Reached(s, volume.value) != [] { SortKeepsMembers(tiers, s[k]); }
    }
  }

  /** With distinct thresholds the order of the table does not matter. */
  lemma {:induction false} TableOrderIrrelevant(a: seq<Tier>, b: seq<Tier>, volume: Option<real>)
    requires forall t :: t in a <==> t in b
    requires forall t, u | t in a && u in a && t.minVolume == u.minVolume :: t == u
    ensures Matched(a, volume) == Matched(b, volume)
  {
    MatchedIsHighest(a, volume);
    MatchedIsHighest(b, volume);
  }

  // ---- more volume never costs more ----

  /** Discounts are between nothing and everything and do not shrink along the sorted table. */
  ghost predicate Generous(tiers: seq<Tier>)
  {
    var s := SortTiers(tiers);
    (forall t | t in tiers :: 0 <= t.discountBps <= 10_000) &&
    (forall i, j | 0 <= i < j < |s| :: s[i].discountBps <= s[j].discountBps)
  }

  predicate NoMore(a: Option<real>, b: Option<real>) { a.None? || (b.Some? && a.value <= b.value) }

  function DiscountOf(tiers: seq<Tier>, volume: Option<real>): int
  {
    match Matched(tiers, volume) case None => 0 case Some(t) => t.discountBps
  }

  lemma {:induction false} DiscountGrows(tiers: seq<Tier>, v: Option<real>, w: Option<real>)
    requires Generous(tiers) && NoMore(v, w)
    ensures 0 <= DiscountOf(tiers, v) <= DiscountOf(tiers, w) <= 10_000
  {
    hide SortTiers, Reached;
    MatchedIsHighest(tiers, v);
    MatchedIsHighest(tiers, w);
    var s := SortTiers(tiers);
    if v.Some? {
      var j := ReachedEndsAt(s, v.value);
      var k := ReachedEndsAt(s, w.value);
      if Reached(s, v.value) != [] {
        assert IsLastReached(s, v.value, j) && s[j].minVolume <= w.value;
        assert IsLastReached(s, w.value, k) && j <= k;
      } else if Reached(s, w.value) != [] {
        assert IsLastReached(s, w.value, k);
      }
    } else if w.Some? {
      var k := ReachedEndsAt(s, w.value);
      assert Reached(s, w.value) != [] ==> k < |s|;
    }
  }

  function Amount(price: string): nat
    requires WellFormed(price)
  {
    QuoteAtomic(price).value
  }

  function AfterDiscount(atomic: nat, bps: int): int
  {
    atomic * (10_000 - bps) / 10_000
  }

  lemma {:induction false} DiscountIsMonotone(atomic: nat, a: nat, b: nat)
    requires a <= b <= 10_000
    ensures AfterDiscount(atomic, b) <= AfterDiscount(atomic, a) <= atomic
    ensures a == 0 ==> AfterDiscount(atomic, a) == atomic
  {
  }

  lemma {:induction false} DiscountTruncates(atomic: nat, bps: nat)
    requires bps <= 10_000
    ensures TruncatingQuotient(atomic * (10_000 - bps), 10_000) == AfterDiscount(atomic, bps) >= 0
  {
  }

  /** The amount a discounted price reads as. */
  lemma {:induction false} DiscountedAmount(price: string, bps: nat)
    requires WellFormed(price) && bps <= 10_000
    ensures ApplyDiscount(price, bps).Some? && WellFormed(ApplyDiscount(price, bps).value)
    ensures Amount(ApplyDiscount(price, bps).value) == AfterDiscount(Amount(price), bps)
  {
    hide WellFormed, AtomicToPrice, PriceToAtomic, AfterDiscount, TruncatingQuotient;
    ParsersAgree(price, 6);
    var n := AfterDiscount(Amount(price), bps);
    DiscountTruncates(Amount(price), bps);
    RoundTrip(n, 6);
    ParsersAgree(AtomicToPrice(n, 6), 6);
  }

  /** A discounted price is a price exactly when the discounted amount, cut toward zero, is not negative. */
  lemma {:induction false} DiscountedPriceReads(price: string, bps: int)
    requires WellFormed(price)
    ensures ApplyDiscount(price, bps).Some?
    ensures WellFormed(ApplyDiscount(price, bps).value) <==> Amount(price) * (10_000 - bps) > -10_000
  {
    hide WellFormed, AtomicToPrice, PriceToAtomic, TruncatingQuotient;
    ParsersAgree(price, 6);
    var n := TruncatingQuotient(Amount(price) * (10_000 - bps), 10_000);
    RoundTrip(n, 6);
    if n < 0 { NegativeIsMalformed(n, 6); }
    CutsTowardZero(Amount(price) * (10_000 - bps));
  }

  lemma {:induction false} CutsTowardZero(n: int)
    ensures TruncatingQuotient(n, 10_000) >= 0 <==> n > -10_000
  {
  }

  /** Without a proposal or an override the quote is the discounted base price, or
      the floor where that is higher. */
  lemma {:induction false} PlainQuote(p: Policy, ask: Ask)
    requires WellFormed(p.basePrice) && (p.floorPrice == "" || WellFormed(p.floorPrice))
    requires forall t | t in p.tiers :: 0 <= t.discountBps <= 10_000
    requires ask.proposal == "" && (ask.buyer == "" || Lower(ask.buyer) !in p.overrides)
    ensures QuotedPrice(p, ask).Some? && WellFormed(QuotedPrice(p, ask).value)
    ensures var base := AfterDiscount(Amount(p.basePrice), DiscountOf(p.tiers, ask.volume));
            Amount(QuotedPrice(p, ask).value) == if p.floorPrice == "" then base else Max(base, Amount(p.floorPrice))
  {
    hide WellFormed, AtomicToPrice, Matched, SortTiers, ApplyDiscount, AfterDiscount, Lower, Generous;
    MatchedIsHighest(p.tiers, ask.volume);
    var bps := DiscountOf(p.tiers, ask.volume);
    DiscountIsMonotone(Amount(p.basePrice), bps, bps);
    if Matched(p.tiers, ask.volume).Some? { DiscountedAmount(p.basePrice, bps); }
  }

  /** More volume never raises the price. */
  lemma {:induction false} VolumeNeverRaisesPrice(p: Policy, ask: Ask, more: Option<real>)
    requires WellFormed(p.basePrice) && (p.floorPrice == "" || WellFormed(p.floorPrice)) && Generous(p.tiers)
    requires ask.proposal == "" && (ask.buyer == "" || Lower(ask.buyer) !in p.overrides)
    requires NoMore(ask.volume, more)
    ensures var a, b := QuotedPrice(p, ask), QuotedPrice(p, ask.(volume := more));
            a.Some? && b.Some? && WellFormed(a.value) && WellFormed(b.value) && Amount(b.value) <= Amount(a.value)
  {
    hide WellFormed, QuotedPrice, Matched, SortTiers, Amount, AfterDiscount, DiscountOf;
    PlainQuote(p, ask);
    PlainQuote(p, ask.(volume := more));
    DiscountGrows(p.tiers, ask.volume, more);
    DiscountIsMonotone(Amount(p.basePrice), DiscountOf(p.tiers, ask.volume), DiscountOf(p.tiers, more));
  }

  // ---- proposals and the floor ----

  /** What the truncating test for "10%" accepts: a distance strictly below 11%. */
  predicate NearEnough(proposed: nat, policy: nat) { 100 * Distance(proposed, policy) < 11 * policy }

  lemma {:induction false} TenPercentMeansUnderEleven(a: string, b: string)
    requires WellFormed(a) && WellFormed(b)
    ensures WithinTenPercent(a, b) == Some(NearEnough(Amount(a), Amount(b)))
  {
    hide WellFormed;
    var x, y := QuoteAtomic(a).value, QuoteAtomic(b).value;
    if y != 0 { TruncatedAtMost(Distance(x, y) * 100, y, 10); }
  }

  lemma {:induction false} TruncatedAtMost(n: nat, d: nat, k: nat)
    requires d > 0
    ensures n / d <= k <==> n < d * (k + 1)
  {
    var q := n / d;
    assert n == q * d + n % d;
    if q <= k {
      assert q * d <= k * d;
      assert d * (k + 1) == k * d + d;
    } else {
      assert q * d >= (k + 1) * d;
    }
  }

  /** A quote is issued at the policy price, the buyer's proposal or the floor: the
      proposal exactly when it is near enough to the policy price, and then raised
      to the floor where it falls short. */
  lemma {:induction false} QuoteIsBounded(p: Policy, ask: Ask)
    requires QuotedPrice(p, ask).Some? && WellFormed(PolicyPrice(p, ask).value)
    ensures var policy, final := PolicyPrice(p, ask).value, QuotedPrice(p, ask).value;
            (ask.proposal != "" ==> WellFormed(ask.proposal)) && (p.floorPrice != "" ==> WellFormed(p.floorPrice)) &&
            WellFormed(final) &&
            var asked := if ask.proposal != "" && NearEnough(Amount(ask.proposal), Amount(policy)) then ask.proposal else policy;
            (if p.floorPrice == "" then final == asked
             else Amount(final) == Max(Amount(asked), Amount(p.floorPrice)) &&
                  (final == asked || final == p.floorPrice))
  {
    hide WellFormed, PolicyPrice;
    if ask.proposal != "" { TenPercentMeansUnderEleven(ask.proposal, PolicyPrice(p, ask).value); }
  }

  /** The commented "within 10%" is narrower: the proposal "0.001109" for a price of
      "0.001" is accepted, and the two really differ by more than 10%. */
  lemma {:induction false} AcceptsMoreThanTenPercent()
    ensures WithinTenPercent("0.001109", "0.001") == Some(true)
    ensures QuoteAtomic("0.001109") == Some(1109) && QuoteAtomic("0.001") == Some(1000) && 100 * Distance(1109, 1000) > 10 * 1000
  {
    hide WellFormed, Whole, Frac, Value;
    SplitOfJoin("0", "001109");
    SplitOfJoin("0", "001");
    assert Join("0", "001109") == "0.001109" && Join("0", "001") == "0.001";
    assert "0" + ("001109" + "000000")[..6] == "0001109" && "0" + ("001" + "000000")[..6] == "0001000";
    ReadDigits();
  }

  lemma {:induction false} ReadDigits()
    ensures Value("0001109") == 1109 && Value("0001000") == 1000
  {
    hide Value;
    ValueOfZeros(3);
    assert Zeros(3) == "000";
    ValueOfSnoc("000", '1');
    assert "000" + ['1'] == "0001";
    ValueOfSnoc("0001", '1');
    assert "0001" + ['1'] == "00011";
    ValueOfSnoc("00011", '0');
    assert "00011" + ['0'] == "000110";
    ValueOfSnoc("000110", '9');
    assert "000110" + ['9'] == "0001109";
    ValueOfSnoc("0001", '0');
    assert "0001" + ['0'] == "00010";
    ValueOfSnoc("00010", '0');
    assert "00010" + ['0'] == "000100";
    ValueOfSnoc("000100", '0');
    assert "000100" + ['0'] == "0001000";
  }

  /** A quote fails only on a malformed price the configuration or the buyer put in,
      or on a discount above 100%. */
  lemma {:induction false} SoundPolicyNeverFails(p: Policy, ask: Ask)
    requires WellFormed(p.basePrice) && (p.floorPrice == "" || WellFormed(p.floorPrice))
    requires forall t | t in p.tiers :: 0 <= t.discountBps <= 10_000
    requires forall b | b in p.overrides :: WellFormed(p.overrides[b].price)
    requires ask.proposal == "" || WellFormed(ask.proposal)
    ensures PolicyPrice(p, ask).Some? && WellFormed(PolicyPrice(p, ask).value) && QuotedPrice(p, ask).Some?
  {
    hide WellFormed, ApplyDiscount, Matched;
    MatchedIsHighest(p.tiers, ask.volume);
    if Matched(p.tiers, ask.volume).Some? {
      DiscountedAmount(p.basePrice, Matched(p.tiers, ask.volume).value.discountBps);
    }
  }

  // ---- the whole policy on amounts ----

  predicate HasOverride(p: Policy, ask: Ask) { ask.buyer != "" && Lower(ask.buyer) in p.overrides }

  /** Every price the policy and the ask name is one, and no discount exceeds 100%. */
  ghost predicate Sound(p: Policy, ask: Ask)
  {
    WellFormed(p.basePrice) && (p.floorPrice == "" || WellFormed(p.floorPrice)) && (ask.proposal == "" || WellFormed(ask.proposal)) &&
    (forall t | t in p.tiers :: 0 <= t.discountBps <= 10_000) && forall b | b in p.overrides :: WellFormed(p.overrides[b].price)
  }

  /** What the seller asks: the override's amount, whatever the volume, or else the base discounted for it. */
  function AskedAmount(p: Policy, ask: Ask): int
    requires WellFormed(p.basePrice) && (HasOverride(p, ask) ==> WellFormed(p.overrides[Lower(ask.buyer)].price))
  {
    if HasOverride(p, ask) then Amount(p.overrides[Lower(ask.buyer)].price)
    else AfterDiscount(Amount(p.basePrice), DiscountOf(p.tiers, ask.volume))
  }

  /** The buyer's proposal is taken. */
  ghost predicate TakesProposal(p: Policy, ask: Ask)
    requires Sound(p, ask)
  {
    ask.proposal != "" && 100 * (if Amount(ask.proposal) > AskedAmount(p, ask) then Amount(ask.proposal) - AskedAmount(p, ask)
                                 else AskedAmount(p, ask) - Amount(ask.proposal)) < 11 * AskedAmount(p, ask)
  }

  /** What the two sides settle on before the floor. */
  ghost function SettledAmount(p: Policy, ask: Ask): int
    requires Sound(p, ask)
  {
    if TakesProposal(p, ask) then Amount(ask.proposal) else AskedAmount(p, ask)
  }

  lemma {:induction false} PolicyAmount(p: Policy, ask: Ask)
    requires Sound(p, ask)
    ensures PolicyPrice(p, ask).Some? && WellFormed(PolicyPrice(p, ask).value)
    ensures AskedAmount(p, ask) >= 0 && Amount(PolicyPrice(p, ask).value) == AskedAmount(p, ask)
    ensures HasOverride(p, ask) ==> PolicyPrice(p, ask).value == p.overrides[Lower(ask.buyer)].price
  {
    hide WellFormed, ApplyDiscount, Matched, AfterDiscount, Lower;
    MatchedIsHighest(p.tiers, ask.volume);
    DiscountIsMonotone(Amount(p.basePrice), 0, 0);
    if Matched(p.tiers, ask.volume).Some? { DiscountedAmount(p.basePrice, Matched(p.tiers, ask.volume).value.discountBps); }
  }

  lemma {:induction false} TakesMeansNear(p: Policy, ask: Ask)
    requires Sound(p, ask)
    ensures PolicyPrice(p, ask).Some?
    ensures ask.proposal != "" ==> WithinTenPercent(ask.proposal, PolicyPrice(p, ask).value) == Some(TakesProposal(p, ask))
    ensures ask.proposal == "" ==> !TakesProposal(p, ask)
  {
    hide WellFormed, PolicyPrice, AskedAmount, Lower, QuoteAtomic, WithinTenPercent, Matched;
    PolicyAmount(p, ask);
    if ask.proposal != "" { TenPercentMeansUnderEleven(ask.proposal, PolicyPrice(p, ask).value); }
  }

  lemma {:induction false} ComparesAmounts(a: string, b: string)
    requires WellFormed(a) && WellFormed(b)
    ensures LessThan(a, b) == Some(Amount(a) < Amount(b))
  {
    hide WellFormed, Whole, Frac, Value;
  }

  lemma {:induction false} SettlesAt(p: Policy, ask: Ask)
    requires Sound(p, ask)
    ensures PolicyPrice(p, ask).Some? && WellFormed(PolicyPrice(p, ask).value)
    ensures NegotiatedPrice(p, ask) == Some(if TakesProposal(p, ask) then ask.proposal else PolicyPrice(p, ask).value)
    ensures WellFormed(NegotiatedPrice(p, ask).value) && Amount(NegotiatedPrice(p, ask).value) == SettledAmount(p, ask)
  {
    hide WellFormed, PolicyPrice, AskedAmount, Lower, QuoteAtomic, WithinTenPercent, Matched;
    PolicyAmount(p, ask);
    if ask.proposal != "" { TenPercentMeansUnderEleven(ask.proposal, PolicyPrice(p, ask).value); }
  }

  /** The amount quoted, for any sound policy and ask: the override, or else the
      discounted base; the buyer's proposal in its place where it is nearer than 11%;
      and never less than the floor. */
  lemma {:induction false} QuoteExactly(p: Policy, ask: Ask)
    requires Sound(p, ask)
    ensures QuotedPrice(p, ask).Some? && WellFormed(QuotedPrice(p, ask).value)
    ensures Amount(QuotedPrice(p, ask).value) ==
            if p.floorPrice == "" then SettledAmount(p, ask) else Max(SettledAmount(p, ask), Amount(p.floorPrice))
    ensures HasOverride(p, ask) && !TakesProposal(p, ask) && (p.floorPrice == "" || Amount(p.floorPrice) <= AskedAmount(p, ask)) ==>
              QuotedPrice(p, ask).value == p.overrides[Lower(ask.buyer)].price
  {
    hide WellFormed, PolicyPrice, AskedAmount, Lower, QuoteAtomic, Matched;
    PolicyAmount(p, ask);
    SettlesAt(p, ask);
    if p.floorPrice != "" { ComparesAmounts(NegotiatedPrice(p, ask).value, p.floorPrice); }
  }

  /** A buyer with an override gets its price at any volume, in any spelling of the
      address, and without a proposal exactly that price unless the floor is higher. */
  lemma {:induction false} OverrideWins(p: Policy, ask: Ask)
    requires Sound(p, ask) && HasOverride(p, ask) && ask.proposal == ""
    ensures var price := p.overrides[Lower(ask.buyer)].price;
            QuotedPrice(p, ask) == Some(if p.floorPrice != "" && Amount(price) < Amount(p.floorPrice) then p.floorPrice else price)
  {
    hide WellFormed, PolicyPrice, Lower, QuoteAtomic, AskedAmount;
    PolicyAmount(p, ask);
    if p.floorPrice != "" { ComparesAmounts(p.overrides[Lower(ask.buyer)].price, p.floorPrice); }
  }

  lemma {:induction false} ReadsExactly(price: string)
    ensures QuoteAtomic(price).Some? <==> WellFormed(price)
  {
    hide WellFormed, Whole, Frac;
  }

  /** The seller's price throws exactly on a malformed base that a tier applies to, even
      where an override would then replace it. */
  lemma {:induction false} TierThrowsExactly(p: Policy, ask: Ask)
    ensures PolicyPrice(p, ask).None? <==> Matched(p.tiers, ask.volume).Some? && !WellFormed(p.basePrice)
  {
    hide WellFormed, QuoteAtomic, AtomicToPrice, Matched, Lower, TruncatingQuotient;
    ReadsExactly(p.basePrice);
  }

  /** A quote throws exactly where the seller's price does, or on a malformed proposal
      or floor, or a malformed price compared with one of them. */
  lemma {:induction false} ThrowsExactly(p: Policy, ask: Ask)
    ensures QuotedPrice(p, ask).None? <==>
              PolicyPrice(p, ask).None? ||
              (ask.proposal != "" && !(WellFormed(ask.proposal) && WellFormed(PolicyPrice(p, ask).value))) ||
              (p.floorPrice != "" && !(WellFormed(p.floorPrice) && WellFormed(NegotiatedPrice(p, ask).value)))
  {
    hide WellFormed, QuoteAtomic, PolicyPrice, Distance;
    ReadsExactly(ask.proposal);
    ReadsExactly(p.floorPrice);
    if PolicyPrice(p, ask).Some? { ReadsExactly(PolicyPrice(p, ask).value); }
    if NegotiatedPrice(p, ask).Some? { ReadsExactly(NegotiatedPrice(p, ask).value); }
  }
}
