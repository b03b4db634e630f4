// The BondVault contract: staking, slashing and refunding USDC bonds, over an
// ERC-20 token that reverts when a transfer cannot be made.
module BondVault {
  import opened Prelude

  type Address = nat
  type ClaimId = nat

  const EMPTY: Address := 0
  const UINT256_LIMIT := 0x1_0000000000000000_0000000000000000_0000000000000000_0000000000000000

  datatype Token = Token(balances: map<Address, nat>, allowances: map<(Address, Address), nat>)
  {
    function Balance(a: Address): nat { if a in balances then balances[a] else 0 }

    function Allowance(owner: Address, spender: Address): nat
    {
      if (owner, spender) in allowances then allowances[(owner, spender)] else 0
    }

    /** None is a revert. */
    function Transfer(sender: Address, to: Address, amount: nat): (t: Option<Token>)
      ensures t.Some? <==> to != EMPTY && amount <= Balance(sender)
      ensures t.Some? ==> t.value.allowances == allowances
      ensures t.Some? ==> forall a :: t.value.Balance(a) == Balance(a) - (if a == sender then amount else 0) + (if a == to then amount else 0)
    {
      if to == EMPTY || Balance(sender) < amount then None
      else
        var debited := balances[sender := Balance(sender) - amount];
        Some(Token(debited[to := (if to in debited then debited[to] else 0) + amount], allowances))
    }

    function TransferFrom(spender: Address, owner: Address, to: Address, amount: nat): Option<Token>
    {
      if Allowance(owner, spender) < amount then None
      else
        match Transfer(owner, to, amount)
        case None => None
        case Some(t) => Some(t.(allowances := allowances[(owner, spender) := Allowance(owner, spender) - amount]))
    }
  }

  datatype Bond = Bond(staker: Address, amount: nat, stakedAt: nat, resolved: bool)

  const NO_BOND := Bond(EMPTY, 0, 0, false)

  datatype Config = Config(self: Address, insurance: Address, window: nat, owner: Address)

  datatype Vault = Vault(cfg: Config, bonds: map<ClaimId, Bond>, validators: set<Address>, token: Token)
  {
    /** Reading a Vyper HashMap: an absent key holds the zero value. */
    function BondOf(c: ClaimId): Bond { if c in bonds then bonds[c] else NO_BOND }

    function Stake(sender: Address, now: nat, c: ClaimId, amount: nat): Option<Vault>
    {
      if BondOf(c).staker != EMPTY || amount == 0 then None
      else
        match token.TransferFrom(cfg.self, sender, cfg.self, amount)
        case None => None
        case Some(t) => Some(this.(bonds := bonds[c := Bond(sender, amount, now, false)], token := t))
    }

    function Resolve(c: ClaimId): map<ClaimId, Bond> { bonds[c := BondOf(c).(resolved := true)] }

    function Slash(sender: Address, c: ClaimId): Option<Vault>
    {
      var bond := BondOf(c);
      if sender !in validators || bond.resolved || bond.amount == 0 then None
      else
        var half := bond.amount / 2;
        match token.Transfer(cfg.self, sender, half)
        case None => None
        case Some(t) =>
          match t.Transfer(cfg.self, cfg.insurance, bond.amount - half)
          case None => None
          case Some(t') => Some(this.(bonds := Resolve(c), token := t'))
    }

    /** Vyper's checked addition reverts when `staked_at + VALIDATION_WINDOW` overflows. */
    function Refund(now: nat, c: ClaimId): Option<Vault>
    {
      var bond := BondOf(c);
      if bond.resolved || bond.amount == 0 || bond.stakedAt + cfg.window >= UINT256_LIMIT
         || now < bond.stakedAt + cfg.window then None
      else
        match token.Transfer(cfg.self, bond.staker, bond.amount)
        case None => None
        case Some(t) => Some(this.(bonds := Resolve(c), token := t))
    }

    function SetValidator(sender: Address, validator: Address, allowed: bool): Option<Vault>
    {
      if sender != cfg.owner || validator == EMPTY then None
      else Some(this.(validators := if allowed then validators + {validator} else validators - {validator}))
    }
  }

  // ---- the contract object ----

  class Usdc {
    var balances: map<Address, nat>
    var allowances: map<(Address, Address), nat>

    function State(): Token reads this { Token(balances, allowances) }

    constructor (t: Token)
      ensures State() == t
    {
      balances := t.balances;
      allowances := t.allowances;
    }

    method Transfer(sender: Address, to: Address, amount: nat) returns (ok: bool)
      modifies this
      ensures var t := old(State()).Transfer(sender, to, amount);
              ok == t.Some? && State() == if ok then t.value else old(State())
    {
      ok := to != EMPTY && amount <= State().Balance(sender);
      if ok {
        balances := balances[sender := State().Balance(sender) - amount];
        balances := balances[to := State().Balance(to) + amount];
      }
    }

    method TransferFrom(spender: Address, owner: Address, to: Address, amount: nat) returns (ok: bool)
      modifies this
      ensures var t := old(State()).TransferFrom(spender, owner, to, amount);
              ok == t.Some? && State() == if ok then t.value else old(State())
    {
      ok := State().Allowance(owner, spender) >= amount;
      if ok {
        ok := Transfer(owner, to, amount);
        if ok {
          allowances := allowances[(owner, spender) := State().Allowance(owner, spender) - amount];
        }
      }
    }

    /** What a revert does to the token: the outer call's effects are undone. */
    method Revert(to: Token)
      modifies this
      ensures State() == to
    {
      balances, allowances := to.balances, to.allowances;
    }
  }

  class BondVault {
    const cfg: Config
    const usdc: Usdc
    var bonds: map<ClaimId, Bond>
    var validators: set<Address>

    function State(): Vault reads this, usdc { Vault(cfg, bonds, validators, usdc.State()) }

    /** `__init__`; its two asserts make deployment revert, so they are the caller's duty. */
    constructor (self: Address, usdc: Usdc, insurance: Address, window: nat, initialValidator: Address, deployer: Address)
      requires insurance != EMPTY && window > 0
      ensures this.usdc == usdc
      ensures State() == Vault(Config(self, insurance, window, deployer), map[],
                               if initialValidator != EMPTY then {initialValidator} else {}, usdc.State())
    {
      cfg := Config(self, insurance, window, deployer);
      this.usdc := usdc;
      bonds := map[];
      validators := if initialValidator != EMPTY then {initialValidator} else {};
    }

    method SetValidator(sender: Address, validator: Address, allowed: bool) returns (ok: bool)
      modifies this
      ensures var v := old(State()).SetValidator(sender, validator, allowed);
              ok == v.Some? && State() == if ok then v.value else old(State())
    {
      ok := sender == cfg.owner && validator != EMPTY;
      if ok {
        validators := if allowed then validators + {validator} else validators - {validator};
      }
    }

    method Stake(sender: Address, now: nat, c: ClaimId, amount: nat) returns (ok: bool)
      modifies this, usdc
      ensures var v := old(State()).Stake(sender, now, c, amount);
              ok == v.Some? && State() == if ok then v.value else old(State())
    {
      if State().BondOf(c).staker != EMPTY || amount == 0 { return false; }
      ok := usdc.TransferFrom(cfg.self, sender, cfg.self, amount);
      if ok { bonds := bonds[c := Bond(sender, amount, now, false)]; }
    }

    method Slash(sender: Address, c: ClaimId) returns (ok: bool)
      modifies this, usdc
      ensures var v := old(State()).Slash(sender, c);
              ok == v.Some? && State() == if ok then v.value else old(State())
    {
      if sender !in validators { return false; }
      var bond := State().BondOf(c);
      if bond.resolved || bond.amount == 0 { return false; }
      var bondsBefore, tokenBefore := bonds, usdc.State();
      bonds := bonds[c := bond.(resolved := true)];
      var half := bond.amount / 2;
      ok := usdc.Transfer(cfg.self, sender, half);
      if ok { ok := usdc.Transfer(cfg.self, cfg.insurance, bond.amount - half); }
      if !ok {
        bonds := bondsBefore;
        usdc.Revert(tokenBefore);
      }
    }

    method Refund(now: nat, c: ClaimId) returns (ok: bool)
      modifies this, usdc
      ensures var v := old(State()).Refund(now, c);
              ok == v.Some? && State() == if ok then v.value else old(State())
    {
      var bond := State().BondOf(c);
      if bond.resolved || bond.amount == 0 { return false; }
      if bond.stakedAt + cfg.window >= UINT256_LIMIT || now < bond.stakedAt + cfg.window { return false; }
      var bondsBefore := bonds;
      bonds := bonds[c := bond.(resolved := true)];
      ok := usdc.Transfer(cfg.self, bond.staker, bond.amount);
      if !ok { bonds := bondsBefore; }
    }
  }

  // ---- runs ----

  /** One transaction. `Outside` is any token transfer by an account other than
      the vault; a transaction that reverts leaves the world unchanged. */
  datatype Call =
    | Stake(sender: Address, claim: ClaimId, amount: nat)
    | Slash(sender: Address, claim: ClaimId)
    | Refund(claim: ClaimId)
    | SetValidator(sender: Address, validator: Address, allowed: bool)
    | Approve(owner: Address, spender: Address, amount: nat)
    | Outside(sender: Address, to: Address, amount: nat)

  datatype Tx = Tx(now: nat, call: Call)

  /** The vault never signs a transaction and the empty address cannot. */
  predicate Possible(v: Vault, call: Call)
  {
    match call
    case Stake(s, _, _) => s != v.cfg.self && s != EMPTY
    case Slash(s, _) => s != v.cfg.self && s != EMPTY
    case Approve(o, _, _) => o != v.cfg.self
    case Outside(s, _, _) => s != v.cfg.self
    case _ => true
  }

  function Attempt(v: Vault, tx: Tx): Option<Vault>
  {
    if !Possible(v, tx.call) then None else
    match tx.call
    case Stake(s, c, a) => v.Stake(s, tx.now, c, a)
    case Slash(s, c) => v.Slash(s, c)
    case Refund(c) => v.Refund(tx.now, c)
    case SetValidator(s, w, b) => v.SetValidator(s, w, b)
    case Approve(o, sp, a) => Some(v.(token := v.token.(allowances := v.token.allowances[(o, sp) := a])))
    case Outside(s, to, a) =>
      match v.token.Transfer(s, to, a)
      case None => None
      case Some(t) => Some(v.(token := t))
  }

  function Step(v: Vault, tx: Tx): Vault
  {
    match Attempt(v, tx)
    case None => v
    case Some(v') => v'
  }

  function Run(v: Vault, txs: seq<Tx>): Vault
  {
    if txs == [] then v else Step(Run(v, txs[..|txs| - 1]), txs[|txs| - 1])
  }

  predicate Deployed(v: Vault)
  {
    v.bonds == map[] && v.cfg.self != EMPTY && v.cfg.insurance != EMPTY && EMPTY !in v.validators
  }

  // ---- solvency ----

  function Unresolved(bonds: map<ClaimId, Bond>): set<ClaimId> { set c | c in bonds && !bonds[c].resolved }

  function Amounts(bonds: map<ClaimId, Bond>): map<ClaimId, nat> { map c | c in bonds :: bonds[c].amount }

  /** What the vault owes: the sum of all unresolved bonds. */
  ghost function Owed(v: Vault): nat { SumOver(Unresolved(v.bonds), Amounts(v.bonds)) }

  /** Tokens the vault gained in one transaction without owing them to a staker:
      outside transfers to it, and insurance shares when it insures itself. */
  function Gift(v: Vault, tx: Tx): nat
  {
    if Attempt(v, tx) == None then 0 else
    match tx.call
    case Outside(_, to, a) => if to == v.cfg.self then a else 0
    case Slash(_, c) => if v.cfg.insurance == v.cfg.self then v.BondOf(c).amount - v.BondOf(c).amount / 2 else 0
    case _ => 0
  }

  function Gifts(v: Vault, txs: seq<Tx>): nat
  {
    if txs == [] then v.token.Balance(v.cfg.self)
    else Gifts(v, txs[..|txs| - 1]) + Gift(Run(v, txs[..|txs| - 1]), txs[|txs| - 1])
  }

  predicate BondsWellFormed(v: Vault)
  {
    v.cfg.self != EMPTY && v.cfg.insurance != EMPTY && EMPTY !in v.validators &&
    forall c | c in v.bonds :: v.bonds[c].staker != EMPTY && v.bonds[c].staker != v.cfg.self && v.bonds[c].amount > 0
  }

  lemma {:induction false} OwedAfterStake(v: Vault, c: ClaimId, b: Bond)
    requires c !in v.bonds && !b.resolved
    ensures Owed(v.(bonds := v.bonds[c := b])) == Owed(v) + b.amount
  {
    var after := v.bonds[c := b];
    assert Unresolved(after) == Unresolved(v.bonds) + {c};
    SumOverAgree(Unresolved(v.bonds), Amounts(v.bonds), Amounts(after));
    SumOverAdd(Unresolved(v.bonds), Amounts(after), c);
  }

  lemma {:induction false} OwedAfterResolve(v: Vault, c: ClaimId)
    requires c in v.bonds && !v.bonds[c].resolved
    ensures Owed(v.(bonds := v.Resolve(c))) == Owed(v) - v.bonds[c].amount
  {
    var after := v.Resolve(c);
    assert Unresolved(after) == Unresolved(v.bonds) - {c};
    SumOverAgree(Unresolved(after), Amounts(v.bonds), Amounts(after));
    SumOverRemove(Unresolved(v.bonds), Amounts(v.bonds), c);
  }

  lemma {:induction false} OwedCoversEach(v: Vault, c: ClaimId)
    requires c in v.bonds && !v.bonds[c].resolved
    ensures v.bonds[c].amount <= Owed(v)
  {
    SumOverRemove(Unresolved(v.bonds), Amounts(v.bonds), c);
  }

  /** Every transaction keeps the books exact, whoever coincides with whom. */
  lemma {:induction false} StepKeepsBooks(v: Vault, tx: Tx)
    requires BondsWellFormed(v)
    ensures BondsWellFormed(Step(v, tx)) && Step(v, tx).cfg == v.cfg
    ensures Step(v, tx).token.Balance(v.cfg.self) - Owed(Step(v, tx))
         == v.token.Balance(v.cfg.self) - Owed(v) + Gift(v, tx)
  {
    var v' := Step(v, tx);
    if Attempt(v, tx).Some? {
      match tx.call
      case Stake(s, c, a) => OwedAfterStake(v, c, Bond(s, a, tx.now, false));
      case Slash(s, c) => OwedAfterResolve(v, c);
      case Refund(c) => OwedAfterResolve(v, c);
      case _ =>
    }
  }

  /** In every reachable state the vault holds what it owes plus every gift it
      ever received, to the unit. */
  lemma {:induction false} Solvent(v: Vault, txs: seq<Tx>)
    requires Deployed(v)
    ensures BondsWellFormed(Run(v, txs)) && Run(v, txs).cfg == v.cfg
    ensures Run(v, txs).token.Balance(v.cfg.self) == Owed(Run(v, txs)) + Gifts(v, txs)
    decreases |txs|
  {
    if txs != [] {
      Solvent(v, txs[..|txs| - 1]);
      StepKeepsBooks(Run(v, txs[..|txs| - 1]), txs[|txs| - 1]);
    }
  }

  /** In every reachable state a refund succeeds exactly when the bond exists, is
      unresolved and its window has elapsed (and the deadline fits uint256):
      funds are never the reason it fails. */
  lemma {:induction false} RefundNeverLacksFunds(v: Vault, txs: seq<Tx>, now: nat, c: ClaimId)
    requires Deployed(v)
    ensures var w := Run(v, txs);
            w.Refund(now, c).Some? <==>
              c in w.bonds && !w.bonds[c].resolved &&
              w.bonds[c].stakedAt + w.cfg.window < UINT256_LIMIT && now >= w.bonds[c].stakedAt + w.cfg.window
  {
    Solvent(v, txs);
    var w := Run(v, txs);
    if c in w.bonds && !w.bonds[c].resolved { OwedCoversEach(w, c); }
  }

  /** Likewise for a validator's slash. */
  lemma {:induction false} SlashNeverLacksFunds(v: Vault, txs: seq<Tx>, sender: Address, c: ClaimId)
    requires Deployed(v)
    ensures var w := Run(v, txs);
            w.Slash(sender, c).Some? <==> sender in w.validators && c in w.bonds && !w.bonds[c].resolved
  {
    Solvent(v, txs);
    var w := Run(v, txs);
    if c in w.bonds && !w.bonds[c].resolved { OwedCoversEach(w, c); }
  }

  // ---- each bond is funded once and paid out once ----

  /** The amounts a transaction pays out for a claim, by recipient. */
  function Payout(v: Vault, tx: Tx, c: ClaimId): seq<(Address, nat)>
  {
    if Attempt(v, tx) == None then [] else
    match tx.call
    case Slash(s, d) =>
      if c == d then [(s, v.BondOf(c).amount / 2), (v.cfg.insurance, v.BondOf(c).amount - v.BondOf(c).amount / 2)] else []
    case Refund(d) => if c == d then [(v.BondOf(c).staker, v.BondOf(c).amount)] else []
    case _ => []
  }

  function Received(payouts: seq<(Address, nat)>, a: Address): nat
  {
    if payouts == [] then 0 else (if payouts[0].0 == a then payouts[0].1 else 0) + Received(payouts[1..], a)
  }

  function Total(payouts: seq<(Address, nat)>): nat
  {
    if payouts == [] then 0 else payouts[0].1 + Total(payouts[1..])
  }

  /** The listed payouts are what the token really moved: each account gains what
      it is listed for and the vault gives up the total. */
  lemma {:induction false} PayoutsMoveTokens(v: Vault, tx: Tx, c: ClaimId, a: Address)
    requires tx.call == Refund(c) || (tx.call.Slash? && tx.call.claim == c)
    ensures Step(v, tx).token.Balance(a)
         == v.token.Balance(a) + Received(Payout(v, tx, c), a) - (if a == v.cfg.self then Total(Payout(v, tx, c)) else 0)
  {
    UpToTwo(Payout(v, tx, c), a);
  }

  lemma {:induction false} UpToTwo(p: seq<(Address, nat)>, a: Address)
    decreases |p|
    ensures |p| == 1 ==> Total(p) == p[0].1 && Received(p, a) == (if p[0].0 == a then p[0].1 else 0)
    ensures |p| == 2 ==> Total(p) == p[0].1 + p[1].1
    ensures |p| == 2 ==> Received(p, a) == (if p[0].0 == a then p[0].1 else 0) + (if p[1].0 == a then p[1].1 else 0)
  {
    if |p| == 1 {
      assert p[1..] == [];
    } else if |p| == 2 {
      UpToTwo(p[1..], a);
    }
  }

  function PaidOut(v: Vault, txs: seq<Tx>, c: ClaimId): nat
  {
    if txs == [] then 0
    else PaidOut(v, txs[..|txs| - 1], c) + Total(Payout(Run(v, txs[..|txs| - 1]), txs[|txs| - 1], c))
  }

  /** How often, and for how much, a claim was bonded in a run. */
  function Stakes(v: Vault, txs: seq<Tx>, c: ClaimId): seq<nat>
  {
    if txs == [] then []
    else
      var before := Run(v, txs[..|txs| - 1]);
      var tx := txs[|txs| - 1];
      Stakes(v, txs[..|txs| - 1], c) +
      if tx.call.Stake? && tx.call.claim == c && Attempt(before, tx).Some? then [tx.call.amount] else []
  }

  /** Over any run a claim is bonded at most once, and pays out exactly the bonded
      amount, exactly when it is resolved. */
  lemma {:induction false} EachBondPaysOnce(v: Vault, txs: seq<Tx>, c: ClaimId)
    requires Deployed(v)
    ensures var w := Run(v, txs);
            Stakes(v, txs, c) == (if c in w.bonds then [w.bonds[c].amount] else []) &&
            PaidOut(v, txs, c) == (if c in w.bonds && w.bonds[c].resolved then w.bonds[c].amount else 0)
    decreases |txs|
  {
    if txs != [] {
      var n := |txs| - 1;
      var before, tx := Run(v, txs[..n]), txs[n];
      EachBondPaysOnce(v, txs[..n], c);
      Solvent(v, txs[..n]);
      TotalOfPayout(before, tx, c);
      StepFundsAndPays(before, tx, c);
    }
  }

  lemma {:induction false} StepFundsAndPays(v: Vault, tx: Tx, c: ClaimId)
    requires BondsWellFormed(v)
    ensures var w, done := Step(v, tx), Attempt(v, tx).Some?;
            var staked := done && tx.call.Stake? && tx.call.claim == c;
            var paid := done && ((tx.call.Slash? && tx.call.claim == c) || tx.call == Refund(c));
            (staked ==> c !in v.bonds && c in w.bonds && w.bonds[c].amount == tx.call.amount && !w.bonds[c].resolved) &&
            (paid ==> c in v.bonds && !v.bonds[c].resolved && c in w.bonds && w.bonds[c] == v.bonds[c].(resolved := true)) &&
            (!staked && !paid ==> (c in w.bonds <==> c in v.bonds) && (c in v.bonds ==> w.bonds[c] == v.bonds[c]))
  {
  }

  lemma {:induction false} TotalOfPayout(v: Vault, tx: Tx, c: ClaimId)
    ensures Total(Payout(v, tx, c))
         == if Attempt(v, tx).Some? && ((tx.call.Slash? && tx.call.claim == c) || tx.call == Refund(c))
            then v.BondOf(c).amount else 0
  {
    UpToTwo(Payout(v, tx, c), EMPTY);
  }

  /** A resolved bond stays resolved and a bond's terms never change. */
  lemma {:induction false} TermsAreFixed(v: Vault, tx: Tx, c: ClaimId)
    requires BondsWellFormed(v) && c in v.bonds
    ensures var w := Step(v, tx);
            c in w.bonds && (w.bonds[c] == v.bonds[c] || (!v.bonds[c].resolved && w.bonds[c] == v.bonds[c].(resolved := true)))
  {
  }

  // ---- what a stake stores, and who may slash ----

  /** A stake that took effect stays on record with the sender, amount and time of its transaction. */
  lemma {:induction false} StakeIsStored(v: Vault, txs: seq<Tx>, i: nat, sender: Address, c: ClaimId, amount: nat, time: nat)
    requires Deployed(v) && i < |txs| && txs[i] == Tx(time, Call.Stake(sender, c, amount))
    requires Attempt(Run(v, txs[..i]), txs[i]).Some?
    ensures var w := Run(v, txs);
            c in w.bonds && w.bonds[c].staker == sender && w.bonds[c].amount == amount && w.bonds[c].stakedAt == time
    decreases |txs|
  {
    hide Owed, Gifts, Step, Attempt, BondsWellFormed, Deployed;
    var n := |txs| - 1;
    var init := txs[..n];
    Solvent(v, init);
    if i == n {
      StakeStores(Run(v, init), txs[n]);
    } else {
      assert init[..i] == txs[..i] && init[i] == txs[i];
      StakeIsStored(v, init, i, sender, c, amount, time);
      TermsAreFixed(Run(v, init), txs[n], c);
    }
  }

  /** While such a stake is unresolved it is refunded exactly from its own time plus the
      window on, and that pays its sender its amount. */
  lemma {:induction false} StakeIsRefundedExactly(v: Vault, txs: seq<Tx>, i: nat, sender: Address, c: ClaimId, amount: nat, time: nat, now: nat)
    requires Deployed(v) && i < |txs| && txs[i] == Tx(time, Call.Stake(sender, c, amount))
    requires Attempt(Run(v, txs[..i]), txs[i]).Some? && c in Run(v, txs).bonds && !Run(v, txs).bonds[c].resolved
    ensures var w := Run(v, txs);
            (w.Refund(now, c).Some? <==>
               now >= time + v.cfg.window &&
               time + v.cfg.window < 115792089237316195423570985008687907853269984665640564039457584007913129639936) &&
            (w.Refund(now, c).Some? ==>
               w.Refund(now, c).value.token.Balance(sender) == w.token.Balance(sender) + amount &&
               c in w.Refund(now, c).value.bonds && w.Refund(now, c).value.bonds[c].resolved)
  {
    hide Owed, Gifts, Run, Step, Attempt, BondsWellFormed, Deployed, Vault.Refund;
    StakeIsStored(v, txs, i, sender, c, amount, time);
    Solvent(v, txs);
    RefundNeverLacksFunds(v, txs, now, c);
    if Run(v, txs).Refund(now, c).Some? { RefundPays(Run(v, txs), now, c); }
  }

  lemma {:induction false} StakeStores(v: Vault, tx: Tx)
    requires Attempt(v, tx).Some? && tx.call.Stake?
    ensures tx.call.claim in Step(v, tx).bonds
    ensures var b := Step(v, tx).bonds[tx.call.claim];
            b.staker == tx.call.sender && b.amount == tx.call.amount && b.stakedAt == tx.now && !b.resolved
  {
  }

  lemma {:induction false} RefundPays(v: Vault, now: nat, c: ClaimId)
    requires BondsWellFormed(v) && c in v.bonds && v.Refund(now, c).Some?
    ensures var w := v.Refund(now, c).value;
            w.token.Balance(v.bonds[c].staker) == v.token.Balance(v.bonds[c].staker) + v.bonds[c].amount &&
            c in w.bonds && w.bonds[c].resolved
  {
  }

  /** In every reachable state a stake succeeds exactly for a new claim and a positive
      amount that the sender holds and has approved; it moves and uses up just that. */
  lemma {:induction false} StakeSucceedsExactly(v: Vault, txs: seq<Tx>, sender: Address, now: nat, c: ClaimId, amount: nat)
    requires Deployed(v) && sender != v.cfg.self && sender != EMPTY
    ensures var w := Run(v, txs);
            (w.Stake(sender, now, c, amount).Some? <==>
               c !in w.bonds && amount > 0 && amount <= w.token.Allowance(sender, v.cfg.self) && amount <= w.token.Balance(sender)) &&
            (w.Stake(sender, now, c, amount).Some? ==>
               var t := w.Stake(sender, now, c, amount).value.token;
               t.Balance(sender) == w.token.Balance(sender) - amount && t.Balance(v.cfg.self) == w.token.Balance(v.cfg.self) + amount &&
               t.Allowance(sender, v.cfg.self) == w.token.Allowance(sender, v.cfg.self) - amount &&
               forall o: Address, p: Address | (o, p) != (sender, v.cfg.self) :: t.Allowance(o, p) == w.token.Allowance(o, p))
  {
    hide Owed, Gifts;
    Solvent(v, txs);
  }

  /** A sender on the token's books with enough approved and held can stake; one with
      nothing listed cannot. */
  lemma {:induction false} ListedFundsStake(v: Vault, sender: Address, now: nat, c: ClaimId, amount: nat)
    requires Deployed(v) && sender != v.cfg.self && sender != EMPTY && amount > 0
    ensures v.Stake(sender, now, c, amount).Some? <==>
              (sender, v.cfg.self) in v.token.allowances && amount <= v.token.allowances[(sender, v.cfg.self)] &&
              sender in v.token.balances && amount <= v.token.balances[sender]
  {
    assert Run(v, []) == v;
    StakeSucceedsExactly(v, [], sender, now, c, amount);
  }

  /** Only the owner changes who may slash, and only as told, never for the empty address. */
  lemma {:induction false} OwnerSetsValidators(v: Vault, tx: Tx, a: Address)
    ensures a in Step(v, tx).validators <==>
            if tx.call.SetValidator? && tx.call.sender == v.cfg.owner && tx.call.validator == a && a != EMPTY
            then tx.call.allowed else a in v.validators
  {
  }
}
