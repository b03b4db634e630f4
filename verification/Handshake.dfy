// The x402 challenge/response: building a challenge, signing it, verifying the
// answer. Signatures are ideal: a signature recovers an address over a digest
// only if that address really produced it over exactly that digest.
module Handshake {
  import opened Prelude
  import opened Decimal
  import opened Prices
  import opened Splits

  // ---- the texts the JSON schemas accept ----

  predicate IsHexDigit(c: char) { '0' <= c <= '9' || 'a' <= c <= 'f' || 'A' <= c <= 'F' }

  predicate IsHex(s: string, digits: nat)
  {
    |s| == digits + 2 && s[0] == '0' && s[1] == 'x' && forall i | 2 <= i < |s| :: IsHexDigit(s[i])
  }

  predicate IsAddress(s: string) { IsHex(s, 40) }

  predicate IsNonce(s: string) { IsHex(s, 64) }

  // ---- EIP-712 digests and ideal signatures ----

  datatype Domain = Domain(name: string, version: string, chainId: nat, verifyingContract: string)

  /** EIP-3009 TransferWithAuthorization; addresses and nonce are bytes, written in lower case. */
  datatype Message = Message(from: string, to: string, value: nat, validAfter: nat, validBefore: nat, nonce: string)

  datatype Digest = Digest(domain: Domain, message: Message)

  datatype Signature = ByKey(signer: string, digest: Digest) | Junk(id: nat)

  function DigestOf(d: Domain, from: string, to: string, value: nat, validAfter: nat, validBefore: nat,
                    nonce: string): Digest
  {
    Digest(d.(verifyingContract := Lower(d.verifyingContract)),
           Message(Lower(from), Lower(to), value, validAfter, validBefore, Lower(nonce)))
  }

  /** `made` holds every signature any key has produced so far. */
  function Recover(made: set<Signature>, digest: Digest, sig: Signature): Option<string>
  {
    if sig in made && sig.ByKey? && sig.digest == digest then Some(sig.signer) else None
  }

  // ---- challenges ----

  const DEFAULT_WINDOW_SEC := 300
  const USDC_DECIMALS := 6

  /** What a route fixes about its price: TollboothConfig after chain resolution. */
  datatype Route = Route(price: string, to: string, asset: string, network: nat, splits: seq<SplitSpec>,
                         batch: bool, windowSec: nat)

  datatype Challenge = Challenge(price: string, asset: string, network: nat, to: string, nonce: string,
                                 validAfter: nat, validBefore: nat, domain: Domain)

  /** The route passes the split check and the challenge schema at every time from 5 seconds on. */
  predicate GoodRoute(r: Route)
  {
    WellFormed(r.price) && IsAddress(r.asset) && IsAddress(r.to) && r.network >= 1 &&
    (r.splits == [] || SumBps(r.splits) == TEN_THOUSAND) &&
    forall i | 0 <= i < |r.splits| :: IsAddress(r.splits[i].addr) && 0 <= r.splits[i].bps <= TEN_THOUSAND
  }

  /** None is a throw. `nonce` stands for the 32 random bytes. */
  function BuildChallenge(r: Route, windowSec: nat, nonce: string, now: nat): Option<Challenge>
    requires IsNonce(nonce)
  {
    if GoodRoute(r) && now >= 5 then
      Some(Challenge(r.price, r.asset, r.network, r.to, nonce, now - 5, now + windowSec,
                     Domain("USD Coin", "2", r.network, r.asset)))
    else None
  }

  // ---- signing and verifying ----

  datatype SignedPayment = SignedPayment(from: string, to: string, value: string, validAfter: nat, validBefore: nat,
                                         nonce: string, signature: Signature)

  predicate SchemaOk(p: SignedPayment)
  {
    IsAddress(p.from) && IsAddress(p.to) && |p.value| >= 1 && IsDigits(p.value) && IsNonce(p.nonce)
  }

  datatype VerifyError =
    | BadSchema | NotYetValid | Expired | NonceMismatch | PayeeMismatch | BadPrice | ValueMismatch | Replay | WrongSigner

  function VerifyPayment(ch: Challenge, p: SignedPayment, now: nat, unseen: bool, made: set<Signature>)
    : Result<string, VerifyError>
  {
    if !SchemaOk(p) then Err(BadSchema)
    else if now < p.validAfter then Err(NotYetValid)
    else if now > p.validBefore then Err(Expired)
    else if p.nonce != ch.nonce then Err(NonceMismatch)
    else if Lower(p.to) != Lower(ch.to) then Err(PayeeMismatch)
    else
      match PriceToAtomic(ch.price, USDC_DECIMALS)
      case None => Err(BadPrice)
      case Some(expected) =>
        if Value(p.value) != expected then Err(ValueMismatch)
        else if !unseen then Err(Replay)
        else
          match Recover(made, DigestOf(ch.domain, p.from, p.to, expected, p.validAfter, p.validBefore, p.nonce), p.signature)
          case None => Err(WrongSigner)
          case Some(signer) => if Lower(signer) == Lower(p.from) then Ok(signer) else Err(WrongSigner)
  }

  /** The wallet's `sign`; None is SIGN_FAILED. The caller adds the signature to `made`. */
  function Sign(address: string, ch: Challenge, decimals: nat): Option<SignedPayment>
  {
    match PriceToAtomic(ch.price, decimals)
    case None => None
    case Some(value) =>
      var digest := DigestOf(ch.domain, address, ch.to, value, ch.validAfter, ch.validBefore, ch.nonce);
      Some(SignedPayment(address, ch.to, NatToString(value), ch.validAfter, ch.validBefore, ch.nonce, ByKey(address, digest)))
  }

  /** The challenge the tollbooth rebuilds on the paid request: its own terms
      with the buyer's nonce and time window. */
  function Rebuilt(r: Route, p: SignedPayment, now: nat): Option<Challenge>
  {
    var any := "0x" + Zeros(64);
    match BuildChallenge(r, DEFAULT_WINDOW_SEC, any, now)
    case None => None
    case Some(ch) => Some(ch.(nonce := p.nonce, validAfter := p.validAfter, validBefore := p.validBefore))
  }

  /** What the tollbooth decides about a payment header; an error is a 402. */
  function Accept(r: Route, p: SignedPayment, now: nat, unseen: bool, made: set<Signature>): Option<string>
  {
    match Rebuilt(r, p, now)
    case None => None
    case Some(ch) =>
      match VerifyPayment(ch, p, now, unseen, made)
      case Ok(buyer) => Some(buyer)
      case Err(_) => None
  }

  // ---- completeness and soundness ----

  /** The authorization a route expects from a payer. */
  function Expected(r: Route, p: SignedPayment): Digest
    requires WellFormed(r.price)
  {
    DigestOf(Domain("USD Coin", "2", r.network, r.asset), p.from, r.to, PriceToAtomic(r.price, USDC_DECIMALS).value,
             p.validAfter, p.validBefore, p.nonce)
  }

  /** A payment is accepted, and as coming from `buyer`, exactly when it is well
      formed, inside its own window, unseen, for the route's payee and price, and
      `buyer` is the claimed payer who signed precisely that authorization. */
  lemma {:induction false} AcceptedExactly(r: Route, p: SignedPayment, now: nat, unseen: bool, made: set<Signature>,
                                           buyer: string)
    ensures Accept(r, p, now, unseen, made) == Some(buyer) <==>
              GoodRoute(r) && now >= 5 && SchemaOk(p) && p.validAfter <= now <= p.validBefore && unseen &&
              Lower(p.to) == Lower(r.to) && Some(Value(p.value)) == PriceToAtomic(r.price, USDC_DECIMALS) &&
              Lower(buyer) == Lower(p.from) && p.signature == ByKey(buyer, Expected(r, p)) && p.signature in made
  {
  }

  /** A wallet's answer to a challenge issued at `issued` is accepted on retry at
      `now` exactly inside the challenge's window, with an unused nonce, when the
      retry resolves to the same chain and token and the wallet's decimals read the
      price as the tollbooth's do; it then recovers the wallet's own address. */
  lemma {:induction false} HonestAnswerAccepted(r: Route, retry: Route, address: string, nonce: string, issued: nat, now: nat,
                                                unseen: bool, made: set<Signature>, decimals: nat)
    requires IsNonce(nonce) && IsAddress(address) && issued <= now
    requires BuildChallenge(r, r.windowSec, nonce, issued).Some? && retry == r.(network := retry.network, asset := retry.asset)
    ensures var answer := Sign(address, BuildChallenge(r, r.windowSec, nonce, issued).value, decimals);
            answer.Some? &&
            (answer.value.signature in made ==>
               Accept(retry, answer.value, now, unseen, made) ==
                 if now <= issued + r.windowSec && unseen && SameReading(r.price, decimals) && SameChain(r, retry)
                 then Some(address) else None)
  {
    var ch := BuildChallenge(r, r.windowSec, nonce, issued).value;
    var p := Sign(address, ch, decimals).value;
    AcceptedExactly(retry, p, now, unseen, made, address);
    if p.signature in made && Accept(retry, p, now, unseen, made) != None {
      var b := Accept(retry, p, now, unseen, made).value;
      AcceptedExactly(retry, p, now, unseen, made, b);
    }
  }

  /** Both requests resolve to one chain and token, and the second passes its schema. */
  predicate SameChain(r: Route, retry: Route)
  {
    GoodRoute(retry) && retry.network == r.network && Lower(retry.asset) == Lower(r.asset)
  }

  /** A wallet set to `decimals` reads the same amount as the tollbooth. */
  predicate SameReading(price: string, decimals: nat)
  {
    PriceToAtomic(price, decimals) == PriceToAtomic(price, USDC_DECIMALS)
  }

  /** An answer signed with other decimals is accepted only if both read the same amount. */
  lemma {:induction false} DecimalsMustAgree(r: Route, address: string, nonce: string, issued: nat, now: nat, unseen: bool,
                                             made: set<Signature>, decimals: nat)
    requires IsNonce(nonce) && BuildChallenge(r, r.windowSec, nonce, issued).Some?
    requires Sign(address, BuildChallenge(r, r.windowSec, nonce, issued).value, decimals).Some?
    requires Accept(r, Sign(address, BuildChallenge(r, r.windowSec, nonce, issued).value, decimals).value, now, unseen, made).Some?
    ensures SameReading(r.price, decimals)
  {
  }

  // ---- what acceptance and rejection mean ----

  predicate IsHexFrom(s: string, width: nat)
  {
    |s| == width && "0x" <= s && forall i | 2 <= i < width :: s[i] in "0123456789abcdefABCDEF"
  }

  /** A challenge is issued exactly for a well-formed price, hexadecimal addresses, a chain
      id from 1 and splits that are absent or nonnegative and sum to 10000. It names the
      route's own terms and is open from 5 seconds ago to the window's end. */
  lemma {:induction false} ChallengeExactly(r: Route, windowSec: nat, nonce: string, now: nat)
    requires IsNonce(nonce) && now >= 5
    ensures BuildChallenge(r, windowSec, nonce, now).Some? <==>
              WellFormed(r.price) && IsHexFrom(r.asset, 42) && IsHexFrom(r.to, 42) && r.network > 0 &&
              (|r.splits| > 0 ==> SumBps(r.splits) == 10_000) &&
              forall s | s in r.splits :: IsHexFrom(s.addr, 42) && 0 <= s.bps <= 10_000
    ensures BuildChallenge(r, windowSec, nonce, now).Some? ==>
              var ch := BuildChallenge(r, windowSec, nonce, now).value;
              ch.price == r.price && ch.asset == r.asset && ch.network == r.network && ch.to == r.to && ch.nonce == nonce &&
              ch.validAfter + 5 == now && ch.validBefore == now + windowSec && ch.domain == Domain("USD Coin", "2", r.network, r.asset)
  {
    hide WellFormed, SumBps;
    HexDigits();
  }

  /** What an accepted payment looks like: 20-byte addresses and a 32-byte nonce in
      hexadecimal, and the route's price in millionths, signed for its chain and token. */
  lemma {:induction false} AcceptedTerms(r: Route, p: SignedPayment, now: nat, unseen: bool, made: set<Signature>)
    requires Accept(r, p, now, unseen, made).Some?
    ensures IsHexFrom(p.from, 42) && IsHexFrom(p.to, 42) && IsHexFrom(p.nonce, 66) && |p.value| >= 1 && IsDigits(p.value)
    ensures Some(Value(p.value)) == PriceToAtomic(r.price, 6) && p.validAfter <= now <= p.validBefore && unseen && p.signature in made
    ensures p.signature.ByKey? && p.signature.digest.domain.name == "USD Coin" && p.signature.digest.domain.version == "2" &&
            p.signature.digest.domain.chainId == r.network
  {
    AcceptedExactly(r, p, now, unseen, made, Accept(r, p, now, unseen, made).value);
    HexDigits();
  }

  lemma {:induction false} HexDigits()
    ensures forall c :: IsHexDigit(c) <==> c in "0123456789abcdefABCDEF"
  {
    var all := "0123456789abcdefABCDEF";
    forall c | IsHexDigit(c)
      ensures c in all
    {
      var k := if c <= '9' then c as int - '0' as int else if c <= 'F' then c as int - 'A' as int + 16 else c as int - 'a' as int + 10;
      assert all[k] == c;
    }
  }

  /** A rejection names something that is really wrong with the payment. */
  lemma {:induction false} ErrorNamesFault(ch: Challenge, p: SignedPayment, now: nat, unseen: bool, made: set<Signature>)
    ensures match VerifyPayment(ch, p, now, unseen, made)
            case Ok(buyer) => Lower(buyer) == Lower(p.from) && unseen && p.validAfter <= now <= p.validBefore
            case Err(e) =>
              match e
              case BadSchema => !SchemaOk(p)
              case NotYetValid => now < p.validAfter
              case Expired => p.validBefore < now
              case NonceMismatch => p.nonce != ch.nonce
              case PayeeMismatch => Lower(p.to) != Lower(ch.to)
              case BadPrice => !WellFormed(ch.price)
              case ValueMismatch => WellFormed(ch.price) && IsDigits(p.value) && Some(Value(p.value)) != PriceToAtomic(ch.price, 6)
              case Replay => !unseen
              case WrongSigner =>
                p.signature !in made || !p.signature.ByKey? || Lower(p.signature.signer) != Lower(p.from) ||
                (WellFormed(ch.price) &&
                 p.signature.digest != DigestOf(ch.domain, p.from, p.to, PriceToAtomic(ch.price, 6).value, p.validAfter, p.validBefore, p.nonce))
  {
  }
}
