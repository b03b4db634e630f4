// What the token contract's own state tells about a payment: its authorization
// state decides whether the payment was made, and its time window decides whether
// it still can be.
module PipelineChain {
  import opened Prelude
  import opened Handshake
  import opened Ledger
  import opened Pipeline
  import opened PipelineInvariants
  import opened PipelineSteps
  import opened PipelineRequests
  import opened PipelineTheorems
  import opened PipelineProgress
  import opened PipelineRuns

  // ---- only blocks execute ----

  /** The chains moved on only by transactions that wait. */
  ghost predicate OnlyAppends(s: Sys, t: Sys)
  {
    t.used == s.used && t.tokens == s.tokens && s.made <= t.made && s.clock <= t.clock && |s.txs| <= |t.txs| &&
    (forall i | 0 <= i < |s.txs| :: t.txs[i] == s.txs[i]) &&
    (forall i | |s.txs| <= i < |t.txs| :: t.txs[i].status == InMempool && Decoded(t.txs[i].call) == t.txs[i].call)
  }

  lemma {:induction false} OnlyBlocksExecute(s: Sys, e: Event)
    requires !e.Mine?
    ensures OnlyAppends(s, Apply(s, e))
  {
    hide StepHandler, StepWorker, WorkerWrite;
    match e
    case HandlerStep(id, out) => HandlerOnlyAppends(s, id, out);
    case WorkerStep(w, out) => WorkerOnlyAppends(s, w, out);
    case Claim(_, _, _) =>
    case _ =>
  }

  lemma {:induction false} HandlerOnlyAppends(s: Sys, id: nat, out: Outcome)
    ensures OnlyAppends(s, StepHandler(s, id, out))
  {
    hide HandlerInsert, Accept;
  }

  lemma {:induction false} WorkerOnlyAppends(s: Sys, w: nat, out: Outcome)
    ensures OnlyAppends(s, StepWorker(s, w, out))
  {
    hide WorkerWrite, Continue, Throw;
  }

  /** A block changes at most one waiting transaction; it succeeds only if the token
      contract lets it. */
  ghost predicate OneMined(s: Sys, t: Sys, h: TxHash, time: nat)
  {
    t.tokens == s.tokens && t.made == s.made && t.clock == s.clock && |t.txs| == |s.txs| && h < |s.txs| &&
    (forall i | 0 <= i < |s.txs| && i != h :: t.txs[i] == s.txs[i]) &&
    t.txs[h].(status := s.txs[h].status) == s.txs[h] &&
    (s.txs[h].status != InMempool ==> t == s) &&
    (t.txs[h].status == Success && s.txs[h].status == InMempool ==>
       Payable(s, s.txs[h].chain, s.txs[h].call, time) &&
       t.used == if s.IsToken(s.txs[h]) then s.used + {KeyOf(s.txs[h].chain, s.txs[h].call)} else s.used) &&
    (t.txs[h].status != Success ==> t.used == s.used)
  }

  lemma {:induction false} BlockMinesOne(s: Sys, h: TxHash, executes: bool, time: nat)
    ensures MineStep(s, h, executes, time) == s || OneMined(s, MineStep(s, h, executes, time), h, time)
  {
    hide SignedCall, WindowOpen;
  }

  /** A waiting transaction a block takes up succeeds or reverts, and succeeds exactly if
      its code runs through and, for a token, the transfer is payable then. */
  lemma {:induction false} MinedExactly(s: Sys, h: TxHash, executes: bool, time: nat)
    requires h < |s.txs| && s.txs[h].status == InMempool
    ensures var t := Apply(s, Mine(h, executes, time));
            |t.txs| == |s.txs| && t.db == s.db && t.workers == s.workers &&
            t.txs[h].status == if executes && Payable(s, s.txs[h].chain, s.txs[h].call, time) then Success else Reverted
  {
    hide Payable;
  }

  /** Signatures made stay made and the clock does not go back, whoever acts. */
  lemma {:induction false} TimePasses(s: Sys, es: seq<Event>)
    ensures s.made <= Run(s, es).made && s.clock <= Run(s, es).clock
    decreases |es|
  {
    hide Apply;
    if es != [] {
      TimePasses(s, es[..|es| - 1]);
      TimePassesStep(Run(s, es[..|es| - 1]), es[|es| - 1]);
    }
  }

  lemma {:induction false} TimePassesStep(s: Sys, e: Event)
    ensures s.made <= Apply(s, e).made && s.clock <= Apply(s, e).clock
  {
    hide StepHandler, StepWorker, ClaimStep, Payable;
    if !e.Mine? { OnlyBlocksExecute(s, e); }
  }

  // ---- the authorization state decides ----

  /** Transaction `i` executed the authorization `k`. */
  predicate ExecutedAs(s: Sys, i: nat, k: AuthKey)
  {
    i < |s.txs| && s.txs[i].status == Success && s.IsToken(s.txs[i]) && KeyOf(s.txs[i].chain, s.txs[i].call) == k
  }

  /** Every executed token call was signed by its payer, and every used
      authorization was used by a call. */
  ghost predicate ChainSound(s: Sys)
  {
    (forall i: nat | i < |s.txs| && s.txs[i].status == Success && s.IsToken(s.txs[i]) ::
       SignedCall(s.made, s.txs[i].chain, s.txs[i].call) && KeyOf(s.txs[i].chain, s.txs[i].call) in s.used) &&
    (forall i | 0 <= i < |s.txs| :: Decoded(s.txs[i].call) == s.txs[i].call) &&
    (forall k | k in s.used :: exists i: nat :: ExecutedAs(s, i, k))
  }

  lemma {:induction false} AppendsKeepSound(s: Sys, t: Sys)
    requires ChainSound(s) && OnlyAppends(s, t)
    ensures ChainSound(t)
  {
    forall k | k in t.used
      ensures exists i: nat :: ExecutedAs(t, i, k)
    {
      var i: nat :| ExecutedAs(s, i, k);
      assert ExecutedAs(t, i, k);
    }
  }

  lemma {:induction false} BlockKeepsSound(s: Sys, t: Sys, h: TxHash, time: nat)
    requires ChainSound(s) && OneMined(s, t, h, time)
    ensures ChainSound(t)
  {
    hide SignedCall, WindowOpen, KeyOf;
    forall k | k in t.used
      ensures exists i: nat :: ExecutedAs(t, i, k)
    {
      if k in s.used {
        var i: nat :| ExecutedAs(s, i, k);
        assert ExecutedAs(t, i, k);
      } else {
        assert ExecutedAs(t, h, k);
      }
    }
  }

  lemma {:induction false} ChainStaysSound(s: Sys, es: seq<Event>)
    requires Initial(s)
    ensures ChainSound(Run(s, es))
    decreases |es|
  {
    hide Apply;
    if es != [] {
      var before, e := Run(s, es[..|es| - 1]), es[|es| - 1];
      ChainStaysSound(s, es[..|es| - 1]);
      SoundStep(before, e);
    }
  }

  lemma {:induction false} SoundStep(s: Sys, e: Event)
    requires ChainSound(s)
    ensures ChainSound(Apply(s, e))
  {
    hide ChainSound, MineStep, StepHandler, StepWorker, ClaimStep, OneMined, OnlyAppends;
    match e
    case Mine(h, executes, time) =>
      BlockMinesOne(s, h, executes, time);
      if Apply(s, e) != s { BlockKeepsSound(s, Apply(s, e), h, time); }
    case _ =>
      OnlyBlocksExecute(s, e);
      AppendsKeepSound(s, Apply(s, e));
  }

  /** Transaction `i` made the payment `c`: same token, payer, payee, value, window and nonce. */
  predicate Pays(s: Sys, i: nat, chain: nat, c: Calldata)
  {
    i < |s.txs| && s.txs[i].status == Success && s.txs[i].chain == chain && s.IsToken(s.txs[i]) &&
    s.txs[i].call.(signature := c.signature) == c
  }

  ghost predicate Paid(s: Sys, chain: nat, c: Calldata) { exists i: nat :: Pays(s, i, chain, c) }

  /** The digest a payer signs to authorize the call on a chain. */
  function CallDigest(chain: nat, c: Calldata): Digest
  {
    DigestOf(Domain("USD Coin", "2", chain, c.asset), c.from, c.to, c.value, c.validAfter, c.validBefore, c.nonce)
  }

  /** The payer signed nothing else under this token and nonce. */
  ghost predicate SignedOnce(made: set<Signature>, chain: nat, c: Calldata)
  {
    forall sig | sig in made && sig.ByKey? && Lower(sig.signer) == c.from && sig.digest.message.from == c.from &&
                 sig.digest.domain == CallDigest(chain, c).domain && sig.digest.message.nonce == c.nonce ::
      sig.digest == CallDigest(chain, c)
  }

  /** For the transfer a token row asks for: the nonce is used exactly when some call
      of the buyer's under it executed. That is necessary for the transfer, and
      sufficient when the buyer signed one authorization under it, whatever the row's
      status says. Whether the transfer was this row's alone is another matter:
      rows recorded under two spellings of one nonce ask for one transfer. */
  lemma {:induction false} NonceDecidesPayment(s: Sys, es: seq<Event>, chain: nat, o: nat)
    requires Initial(s) && o in Run(s, es).db.outbox
    requires (chain, Lower(Run(s, es).db.outbox[o].transfer.asset)) in Run(s, es).tokens
    ensures var t := Run(s, es);
            var c := CalldataOf(t.db.outbox[o].transfer);
            (KeyOf(chain, c) in t.used <==> exists i: nat :: ExecutedAs(t, i, KeyOf(chain, c))) &&
            (Paid(t, chain, c) ==> KeyOf(chain, c) in t.used) &&
            (SignedOnce(t.made, chain, c) ==> (KeyOf(chain, c) in t.used <==> Paid(t, chain, c)))
  {
    hide Run;
    ChainStaysSound(s, es);
    var t := Run(s, es);
    var c := CalldataOf(t.db.outbox[o].transfer);
    if SignedOnce(t.made, chain, c) && KeyOf(chain, c) in t.used {
      var i: nat :| ExecutedAs(t, i, KeyOf(chain, c));
      SameDigestSameCall(t.made, chain, c, t.txs[i].call);
      assert Pays(t, i, chain, c);
    }
  }

  lemma {:induction false} SameDigestSameCall(made: set<Signature>, chain: nat, c: Calldata, d: Calldata)
    requires SignedOnce(made, chain, c) && SignedCall(made, chain, d) && KeyOf(chain, c) == KeyOf(chain, d)
    requires Decoded(c) == c && Decoded(d) == d
    ensures d.(signature := c.signature) == c
  {
    assert d.signature.digest == CallDigest(chain, d);
    assert d.signature.digest.message.from == Lower(d.from) == d.from;
    assert d.signature.digest.message.nonce == Lower(d.nonce) == d.nonce;
    assert CallDigest(chain, d) == CallDigest(chain, c);
  }

  // ---- the window decides ----

  /** A block at or after `now` can be inside the window exactly when strictly more
      than the present second is left of it. */
  lemma {:induction false} WindowLeftExactly(c: Calldata, now: nat)
    ensures (exists time: nat :: time >= now && WindowOpen(c, time)) <==> now < c.validBefore && c.validAfter + 1 < c.validBefore
  {
    var first := Max(now, c.validAfter + 1);
    assert first < c.validBefore ==> WindowOpen(c, first);
  }

  /** A recorded token row whose nonce is unused can be executed by some block at or
      after `now`, on the chain it was quoted for, exactly when a second is left. */
  lemma {:induction false} RowCanExecuteExactly(s: Sys, es: seq<Event>, o: nat, now: nat)
    requires Initial(s) && o in Run(s, es).db.outbox
    requires var t := Run(s, es); var row := t.db.outbox[o].transfer;
             (row.network, Lower(row.asset)) in t.tokens && KeyOf(row.network, CalldataOf(row)) !in t.used
    ensures var t := Run(s, es); var row := t.db.outbox[o].transfer;
            (exists time: nat :: time >= now && Payable(t, row.network, CalldataOf(row), time)) <==>
              now < row.validBefore && row.validAfter + 1 < row.validBefore
  {
    hide Run, Grows, TablesOk, SplitsOk, HandlersOk, ChainOk, SettlementsOk, WorkersOk, OnchainOk, ClosedOk, PaymentsAuthorized;
    hide SignedCall, WindowOpen, Joined;
    Reachable(s, es);
    var t := Run(s, es);
    var row := t.db.outbox[o].transfer;
    RowsAreJoined(t, o);
    RowIsSigned(t, row);
    WindowLeftExactly(CalldataOf(row), now);
    forall time: nat
      ensures Payable(t, row.network, CalldataOf(row), time) <==> WindowOpen(CalldataOf(row), time)
    {
    }
  }

  lemma {:induction false} RowsAreJoined(t: Sys, o: nat)
    requires TablesOk(t.db) && o in t.db.outbox
    ensures Joined(t.db, t.db.outbox[o].transfer)
  {
  }

  /** `verifyPayment` accepts the last second, the token does not. A row recorded
      from an honest answer that was accepted at `now`, its nonce unused, can still
      execute in some block from then on exactly if the window's last second had not
      begun. */
  lemma {:induction false} LastSecondIsTooLate(s: Sys, es: seq<Event>, o: nat, r: Route, address: string, nonce: string,
                                               issued: nat, now: nat, unseen: bool, decimals: nat)
    requires Initial(s) && o in Run(s, es).db.outbox
    requires IsNonce(nonce) && IsAddress(address) && issued <= now && BuildChallenge(r, r.windowSec, nonce, issued).Some?
    requires var t := Run(s, es); var p := Sign(address, BuildChallenge(r, r.windowSec, nonce, issued).value, decimals);
             p.Some? && Accept(r, p.value, now, unseen, t.made).Some? && t.db.outbox[o].transfer.signature == p.value.signature
    requires var t := Run(s, es); var row := t.db.outbox[o].transfer;
             (row.network, Lower(row.asset)) in t.tokens && KeyOf(row.network, CalldataOf(row)) !in t.used
    ensures now <= issued + r.windowSec
    ensures var t := Run(s, es); var row := t.db.outbox[o].transfer;
            (exists time: nat :: time >= now && Payable(t, row.network, CalldataOf(row), time)) <==> now < issued + r.windowSec
  {
    hide Run, Grows, TablesOk, SplitsOk, HandlersOk, ChainOk, SettlementsOk, WorkersOk, OnchainOk, ClosedOk, PaymentsAuthorized;
    hide IsAddress, IsNonce, GoodRoute, Payable, KeyOf;
    Reachable(s, es);
    var t := Run(s, es);
    var p := Sign(address, BuildChallenge(r, r.windowSec, nonce, issued).value, decimals).value;
    AcceptedExactly(r, p, now, unseen, t.made, Accept(r, p, now, unseen, t.made).value);
    RowsAreJoined(t, o);
    RowSignature(t, t.db.outbox[o].transfer);
    RowCanExecuteExactly(s, es, o, now);
  }

  /** A row's signature names the row's own window. */
  lemma {:induction false} RowSignature(t: Sys, row: Transfer)
    requires PaymentsAuthorized(t) && Joined(t.db, row)
    ensures row.signature.ByKey? && row.signature.digest.message.validAfter == row.validAfter &&
            row.signature.digest.message.validBefore == row.validBefore
  {
    assert Authorized(t.made, t.db.actions[row.action], t.db.payments[row.payment]);
  }

  /** With blocks on time, a token call whose window has closed executes no more. */
  lemma {:induction false} ClosedWindowStaysClosed(s: Sys, es: seq<Event>, h: TxHash)
    requires OnTime(s, es) && h < |Run(s, es).txs|
    requires var tx := Run(s, es).txs[h]; tx.status == Success && Run(s, es).IsToken(tx) && tx.call.validBefore <= s.clock
    ensures h < |s.txs| && s.txs[h] == Run(s, es).txs[h] && Run(s, es).tokens == s.tokens
    decreases |es|
  {
    hide Apply, Run;
    if es == [] {
      RunNone(s);
    } else {
      var init, e := es[..|es| - 1], es[|es| - 1];
      RunStep(s, es);
      OnTimeInit(s, es);
      TimePasses(s, init);
      assert es[..|es| - 1] == init;
      LateStep(Run(s, init), e, h, s.clock);
      ClosedWindowStaysClosed(s, init, h);
    }
  }

  lemma {:induction false} RunNone(s: Sys)
    ensures Run(s, []) == s
  {
  }

  lemma {:induction false} RunStep(s: Sys, es: seq<Event>)
    requires es != []
    ensures Run(s, es) == Apply(Run(s, es[..|es| - 1]), es[|es| - 1])
  {
  }

  lemma {:induction false} OnTimeInit(s: Sys, es: seq<Event>)
    requires OnTime(s, es) && es != []
    ensures OnTime(s, es[..|es| - 1])
    ensures es[|es| - 1].Mine? ==> Run(s, es[..|es| - 1]).clock <= es[|es| - 1].time
  {
    hide Run;
    var init := es[..|es| - 1];
    assert forall i | 0 <= i < |init| :: init[..i] == es[..i] && init[i] == es[i];
  }

  lemma {:induction false} LateStep(s: Sys, e: Event, h: TxHash, since: nat)
    requires since <= s.clock && (e.Mine? ==> s.clock <= e.time) && h < |Apply(s, e).txs|
    requires var tx := Apply(s, e).txs[h];
             tx.status == Success && Apply(s, e).IsToken(tx) && tx.call.validBefore <= since
    ensures h < |s.txs| && s.txs[h] == Apply(s, e).txs[h] && Apply(s, e).tokens == s.tokens
  {
    hide StepHandler, StepWorker, ClaimStep, MineStep, SignedCall;
    match e
    case Mine(g, executes, time) => BlockMinesOne(s, g, executes, time);
    case _ => OnlyBlocksExecute(s, e);
  }

  /** An operator may refund for good: with blocks on time, a token payment whose
      nonce is unused when its window has closed is never made after. */
  lemma {:induction false} UnusedAfterWindowStaysUnpaid(s: Sys, es: seq<Event>, more: seq<Event>, chain: nat, c: Calldata)
    requires Initial(s) && OnTime(Run(s, es), more)
    requires c.validBefore <= Run(s, es).clock && KeyOf(chain, c) !in Run(s, es).used
    ensures !Paid(Run(Run(s, es), more), chain, c)
  {
    hide Run;
    ChainStaysSound(s, es);
    var t := Run(s, es);
    var u := Run(t, more);
    forall i: nat
      ensures !Pays(u, i, chain, c)
    {
      if Pays(u, i, chain, c) { ClosedWindowStaysClosed(t, more, i); }
    }
  }

  /** A payment recorded when its window has no second left is never counted as
      settled on a chain, if blocks are on time. */
  lemma {:induction false} RecordedTooLateNeverSettles(s: Sys, es: seq<Event>, more: seq<Event>, chain: nat, o: nat)
    requires Initial(s) && OnTime(Run(s, es), more) && o !in Run(s, es).db.outbox && o in Run(s, es + more).db.outbox
    requires Run(s, es + more).db.outbox[o].transfer.validBefore <= Run(s, es).clock
    ensures Run(s, es + more).db.outbox[o].transfer.settlement !in SettledOn(Run(s, es + more), chain)
  {
    hide Run, Inv, Grows;
    Reachable(s, es);
    Reachable(s, es + more);
    RunConcat(s, es, more);
    var t, u := Run(s, es), Run(s, es + more);
    var x := u.db.outbox[o].transfer.settlement;
    if x in SettledOn(u, chain) {
      SettledNamesRow(u, chain, o);
      var h := u.db.settlements[x].txHash.value;
      ClosedWindowStaysClosed(t, more, h);
      TxNamesRow(t, h);
    }
  }

  lemma {:induction false} SettledNamesRow(u: Sys, chain: nat, o: nat)
    requires Inv(u) && o in u.db.outbox && u.db.outbox[o].transfer.settlement in SettledOn(u, chain)
    ensures var h := u.db.settlements[u.db.outbox[o].transfer.settlement].txHash.value;
            h < |u.txs| && u.txs[h].status == Success && u.IsToken(u.txs[h]) && u.txs[h].job == Some(o) &&
            u.txs[h].call == CalldataOf(u.db.outbox[o].transfer)
  {
    hide PaymentsAuthorized, SplitsOk, HandlersOk, WorkersOk, OnchainOk, SettlementsOk, ClosedOk;
    var x := u.db.outbox[o].transfer.settlement;
    SettlementOkOf(u, x);
    var h := u.db.settlements[x].txHash.value;
    assert TxOk(u, u.txs[h]);
    assert Joined(u.db, u.db.outbox[o].transfer);
  }

  lemma {:induction false} TxNamesRow(t: Sys, h: TxHash)
    requires Inv(t) && h < |t.txs| && t.txs[h].job.Some?
    ensures t.txs[h].job.value in t.db.outbox
  {
    hide TablesOk, PaymentsAuthorized, SplitsOk, HandlersOk, WorkersOk, OnchainOk, SettlementsOk, ClosedOk;
    assert TxOk(t, t.txs[h]);
  }

  /** Such a payment is reached from empty tables: answered in its window's last
      second, accepted, and recorded. */
  lemma {:induction false} LateRequestIsRecorded(s: Sys, r: Route, address: string, nonce: string)
    returns (es: seq<Event>, more: seq<Event>)
    requires Initial(s) && Prepared(s, r, address, nonce)
    ensures OnTime(Run(s, es), more) && 0 !in Run(s, es).db.outbox && 0 in Run(s, es + more).db.outbox
    ensures Run(s, es + more).db.outbox[0].transfer.validBefore == Run(s, es).clock
  {
    hide Run, GoodRoute, IsAddress, IsNonce, Accept;
    GoodPrice(r);
    var p := Answer(s, r, address, nonce);
    es := [MakeSignature(p.signature), Elapse(r.windowSec)];
    more := RequestEvents(0, r, p);
    Opens(s, p, r.windowSec);
    AnswerIsAdmissible(s, 0, r, address, nonce, r.windowSec);
    RequestRuns(Opening(s, p, r.windowSec), 0, r, address, p);
    RunConcat(s, es, more);
    AnswerEnds(s, r, address, nonce);
  }
}
