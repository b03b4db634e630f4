// One authorization, one payment? A nonce is 32 bytes to the signature and to the
// token, but text to the ledger: when that lets one signature be recorded twice,
// when it cannot, and what the token's state then says of each row.
module PipelineNonces {
  import opened Prelude
  import opened Decimal
  import opened Prices
  import opened Handshake
  import opened Ledger
  import opened Pipeline
  import opened PipelineInvariants
  import opened PipelineRequests
  import opened PipelineTheorems
  import opened PipelineRuns
  import opened PipelineChain
  import opened PipelineReclaim

  // ---- signatures and spellings ----

  /** In every run, payments recorded on one signature have nonces that differ at
      most in the case of letters, and are one payment exactly if they are spelled alike. */
  lemma {:induction false} SignatureFixesNonce(s: Sys, es: seq<Event>, p: Id, q: Id)
    requires Initial(s) && p in Run(s, es).db.payments && q in Run(s, es).db.payments
    requires Run(s, es).db.payments[p].signature == Run(s, es).db.payments[q].signature
    ensures var a, b := Run(s, es).db.payments[p], Run(s, es).db.payments[q];
            Lower(a.nonce) == Lower(b.nonce) && (p == q <==> a.nonce == b.nonce)
  {
    hide Run, Lower;
    PaymentsWereSigned(s, es, p);
    PaymentsWereSigned(s, es, q);
    OneRowPerNonce(s, es);
  }

  /** No two recorded nonces differ only in case. */
  ghost predicate NoncesFold(db: Tables)
  {
    forall p, q | p in db.payments && q in db.payments && Lower(db.payments[p].nonce) == Lower(db.payments[q].nonce) :: p == q
  }

  ghost predicate OnePaymentPerSignature(db: Tables)
  {
    forall p, q | p in db.payments && q in db.payments && db.payments[p].signature == db.payments[q].signature :: p == q
  }

  /** A signature buys one payment in every run whose recorded nonces stay distinct
      when case is ignored, which they do if only lower-case nonces are admitted. */
  lemma {:induction false} FoldedNoncesPayOnce(s: Sys, es: seq<Event>)
    requires Initial(s)
    ensures NoncesFold(Run(s, es).db) ==> OnePaymentPerSignature(Run(s, es).db)
    ensures (forall p | p in Run(s, es).db.payments :: Lower(Run(s, es).db.payments[p].nonce) == Run(s, es).db.payments[p].nonce) ==>
              NoncesFold(Run(s, es).db)
  {
    hide Run, Lower;
    OneRowPerNonce(s, es);
    var db := Run(s, es).db;
    forall p, q | p in db.payments && q in db.payments && db.payments[p].signature == db.payments[q].signature
      ensures Lower(db.payments[p].nonce) == Lower(db.payments[q].nonce)
    {
      SignatureFixesNonce(s, es, p, q);
    }
  }

  /** What a caller can check before recording a payment: it keeps the recorded
      nonces distinct up to case exactly when none of them is its own nonce up to case. */
  lemma {:induction false} AdmittingKeepsFoldExactly(db: Tables, id: Id, row: Payment)
    requires NoncesFold(db) && db.InsertPayment(id, row).Some?
    ensures NoncesFold(db.InsertPayment(id, row).value) <==>
              forall p | p in db.payments :: Lower(db.payments[p].nonce) != Lower(row.nonce)
  {
    hide Lower;
    var t := db.InsertPayment(id, row).value;
    if NoncesFold(t) {
      forall p | p in db.payments
        ensures Lower(db.payments[p].nonce) != Lower(row.nonce)
      {
        assert t.payments[p] == db.payments[p] && t.payments[id] == row;
      }
    }
  }

  predicate IsLetter(c: char) { 'a' <= c <= 'f' || 'A' <= c <= 'F' }

  function SwapCase(c: char): char
  {
    if 'a' <= c <= 'f' then ((c as int) - 32) as char else if 'A' <= c <= 'F' then ((c as int) + 32) as char else c
  }

  /** A nonce has a second spelling exactly when it holds a hexadecimal letter. */
  lemma {:induction false} SecondSpellingExactly(n: string)
    requires IsNonce(n)
    ensures (exists m :: IsNonce(m) && m != n && Lower(m) == Lower(n)) <==> exists i | 2 <= i < |n| :: IsLetter(n[i])
  {
    if i :| 2 <= i < |n| && IsLetter(n[i]) {
      var m := n[i := SwapCase(n[i])];
      assert IsNonce(m) && m[i] != n[i];
      assert Lower(m) == Lower(n);
    }
    if m :| IsNonce(m) && m != n && Lower(m) == Lower(n) {
      DifferSomewhere(m, n);
    }
  }

  lemma {:induction false} DifferSomewhere(m: string, n: string)
    requires IsNonce(m) && IsNonce(n) && m != n && Lower(m) == Lower(n)
    ensures exists i | 2 <= i < |n| :: IsLetter(n[i])
  {
    var i :| 0 <= i < |n| && m[i] != n[i];
    assert Lower(m)[i] == Lower(n)[i];
  }

  // ---- one signature recorded twice ----

  /** From empty tables, for any honest payment whose nonce has a second spelling, a
      run records two payments, settlements and outbox rows on the one signature ever
      made, and both rows ask the token for the same call. */
  lemma {:induction false} RespelledIsRecordedTwice(s: Sys, r: Route, address: string, nonce: string, other: string)
    returns (es: seq<Event>)
    requires Initial(s) && Prepared(s, r, address, nonce) && IsNonce(other) && other != nonce && Lower(other) == Lower(nonce)
    ensures var t, p := Run(s, es), Answer(s, r, address, nonce);
            t.made == {p.signature} && t.db.payments.Keys == {0, 1} && t.db.settlements.Keys == {0, 1} &&
            t.db.outbox.Keys == {0, 1} && t.db.payments[0].signature == t.db.payments[1].signature == p.signature &&
            t.db.payments[0].nonce == nonce && t.db.payments[1].nonce == other &&
            CalldataOf(t.db.outbox[0].transfer) == CalldataOf(t.db.outbox[1].transfer)
  {
    hide Run, GoodRoute, IsAddress, IsNonce, Accept, Answer, Lower;
    GoodPrice(r);
    var p := Answer(s, r, address, nonce);
    var again := p.(nonce := other);
    var first := RequestIsRecorded(s, r, address, nonce, 0);
    var t := Run(s, first);
    AnswerNonce(s, r, address, nonce);
    RespelledIsAdmissible(s, r, address, nonce, other);
    RequestRuns(t, 1, r, address, again);
    RunConcat(s, first, RequestEvents(1, r, again));
    es := first + RequestEvents(1, r, again);
  }

  lemma {:induction false} RespelledIsAdmissible(s: Sys, r: Route, address: string, nonce: string, other: string)
    requires Initial(s) && Prepared(s, r, address, nonce) && IsNonce(other) && other != nonce && Lower(other) == Lower(nonce)
    ensures var p := Answer(s, r, address, nonce);
            WellFormed(r.price) &&
            Admissible(s.(db := OneRow(r, address, p), made := {p.signature}), 1, r, address, p.(nonce := other))
  {
    hide IsAddress, IsNonce, Lower;
    GoodPrice(r);
    var p := Answer(s, r, address, nonce);
    AnswerNonce(s, r, address, nonce);
    HonestAnswerAccepted(r, r, address, nonce, s.clock, s.clock, true, {p.signature}, USDC_DECIMALS);
    AcceptedExactly(r, p, s.clock, true, {p.signature}, address);
    AcceptedExactly(r, p.(nonce := other), s.clock, true, {p.signature}, address);
  }

  // ---- what the token's state says of a row ----

  /** Two calls for the same transfer, whoever carries which signature text. */
  predicate SameCall(c: Calldata, d: Calldata) { c.(signature := d.signature) == d }

  /** No other row asks for the row's transfer. */
  ghost predicate SoleRow(db: Tables, o: nat)
    requires o in db.outbox
  {
    forall q | q in db.outbox && q != o :: !SameCall(CalldataOf(db.outbox[q].transfer), CalldataOf(db.outbox[o].transfer))
  }

  /** The transaction made the row's transfer and no other row's. */
  ghost predicate PaysRow(t: Sys, i: nat, chain: nat, o: nat)
    requires o in t.db.outbox
  {
    Pays(t, i, chain, CalldataOf(t.db.outbox[o].transfer)) &&
    forall q | q in t.db.outbox && q != o :: !Pays(t, i, chain, CalldataOf(t.db.outbox[q].transfer))
  }

  /** A transfer is made at most once, however many rows ask for it. */
  lemma {:induction false} OneTransferPerCall(s: Sys, es: seq<Event>, chain: nat, c: Calldata, i: nat, j: nat)
    requires Initial(s) && Pays(Run(s, es), i, chain, c) && Pays(Run(s, es), j, chain, c)
    ensures i == j
  {
    hide Run, Grows, TablesOk, PaymentsAuthorized, SplitsOk, HandlersOk, SettlementsOk, WorkersOk, OnchainOk, ClosedOk;
    Reachable(s, es);
    var t := Run(s, es);
    assert KeyOf(t.txs[i].chain, t.txs[i].call) == KeyOf(chain, c) == KeyOf(t.txs[j].chain, t.txs[j].call);
  }

  /** For a token row whose buyer signed one authorization under its nonce: a transfer
      was made for this row and no other exactly when the nonce is used and no other
      row asks for the same transfer. So an operator who finds the nonce unused knows
      the row unpaid; one who finds it used knows the row paid if it is the only one
      with its call. */
  lemma {:induction false} RowIsPaidExactly(s: Sys, es: seq<Event>, chain: nat, o: nat)
    requires Initial(s) && o in Run(s, es).db.outbox
    requires (chain, Lower(Run(s, es).db.outbox[o].transfer.asset)) in Run(s, es).tokens
    requires SignedOnce(Run(s, es).made, chain, CalldataOf(Run(s, es).db.outbox[o].transfer))
    ensures var t := Run(s, es);
            (exists i: nat :: PaysRow(t, i, chain, o)) <==>
              KeyOf(chain, CalldataOf(t.db.outbox[o].transfer)) in t.used && SoleRow(t.db, o)
  {
    hide Run, CalldataOf, KeyOf;
    NonceDecidesPayment(s, es, chain, o);
    var t := Run(s, es);
    var c := CalldataOf(t.db.outbox[o].transfer);
    if KeyOf(chain, c) in t.used && SoleRow(t.db, o) {
      var i: nat :| Pays(t, i, chain, c);
      assert PaysRow(t, i, chain, o);
    }
    if i: nat :| PaysRow(t, i, chain, o) {
      assert Paid(t, chain, c);
      forall q | q in t.db.outbox && q != o
        ensures !SameCall(CalldataOf(t.db.outbox[q].transfer), c)
      {
        assert !Pays(t, i, chain, CalldataOf(t.db.outbox[q].transfer));
      }
    }
  }

  /** While recorded nonces stay distinct up to case every row is alone with its call. */
  lemma {:induction false} FoldedNoncesAreSole(s: Sys, es: seq<Event>, o: nat)
    requires Initial(s) && o in Run(s, es).db.outbox && NoncesFold(Run(s, es).db)
    ensures SoleRow(Run(s, es).db, o)
  {
    hide Run, Grows, PaymentsAuthorized, SplitsOk, HandlersOk, ChainOk, SettlementsOk, WorkersOk, OnchainOk, ClosedOk, Lower;
    Reachable(s, es);
    var db := Run(s, es).db;
    forall q | q in db.outbox && q != o
      ensures !SameCall(CalldataOf(db.outbox[q].transfer), CalldataOf(db.outbox[o].transfer))
    {
      assert Joined(db, db.outbox[q].transfer) && Joined(db, db.outbox[o].transfer);
    }
  }

  /** The two rows of one signature share their transfer: once it is made both read
      as paid by their call, though at most one transaction made it, for neither alone. */
  lemma {:induction false} RespelledRowsShareTransfer(s: Sys, es: seq<Event>, chain: nat, o: nat, q: nat)
    requires Initial(s) && o in Run(s, es).db.outbox && q in Run(s, es).db.outbox && o != q
    requires var db := Run(s, es).db; SameCall(CalldataOf(db.outbox[q].transfer), CalldataOf(db.outbox[o].transfer))
    ensures var t := Run(s, es);
            var c, d := CalldataOf(t.db.outbox[o].transfer), CalldataOf(t.db.outbox[q].transfer);
            (Paid(t, chain, c) <==> Paid(t, chain, d)) && (forall i: nat :: !PaysRow(t, i, chain, o)) &&
            (forall i: nat, j: nat | Pays(t, i, chain, c) && Pays(t, j, chain, d) :: i == j)
  {
    hide Run, CalldataOf;
    var t := Run(s, es);
    var c, d := CalldataOf(t.db.outbox[o].transfer), CalldataOf(t.db.outbox[q].transfer);
    assert forall i: nat :: Pays(t, i, chain, c) <==> Pays(t, i, chain, d);
    forall i: nat, j: nat | Pays(t, i, chain, c) && Pays(t, j, chain, d)
      ensures i == j
    {
      OneTransferPerCall(s, es, chain, c, i, j);
    }
  }

  // ---- one such start ----

  const LETTERED := "0xa" + Zeros(63)
  const RESPELLED := "0xA" + Zeros(63)

  /** These spellings are two and one, and a concrete start has a run recording both. */
  lemma {:induction false} SpellingsExist()
    ensures IsNonce(LETTERED) && IsNonce(RESPELLED) && LETTERED != RESPELLED && Lower(LETTERED) == Lower(RESPELLED)
    ensures Initial(START) && Prepared(START, ROUTE, ADDRESS, LETTERED)
  {
    StartIsReady();
    assert |Zeros(63)| == 63 && LETTERED[2] == 'a' && RESPELLED[2] == 'A';
    assert forall i | 3 <= i < 66 :: LETTERED[i] == '0' && RESPELLED[i] == '0';
  }
}
