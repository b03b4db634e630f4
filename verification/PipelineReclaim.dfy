// A claimed row is not held: when another worker claims it too, and runs from
// empty tables that get there and to the states in which a settlement is failed
// and paid.
module PipelineReclaim {
  import opened Prelude
  import opened Decimal
  import opened Prices
  import opened Handshake
  import opened Ledger
  import opened Pipeline
  import opened PipelineInvariants
  import opened PipelineRequests
  import opened PipelineSolo
  import opened PipelineDrain
  import opened PipelineProgress
  import opened PipelineRuns

  // ---- which rows a claim hands out ----

  /** Undone, unlocked rows from `lo` up to but not including `o`. */
  function FreeBelow(db: Tables, locked: set<nat>, lo: nat, o: nat): nat
    decreases o - lo
  {
    if lo >= o then 0
    else (if db.Claimable(lo) && lo !in locked then 1 else 0) + FreeBelow(db, locked, lo + 1, o)
  }

  lemma {:induction false} SelectedFrom(db: Tables, lo: nat, locked: set<nat>, limit: nat, o: nat)
    requires o < lo
    ensures o !in db.SelectUndone(lo, locked, limit)
  {
    SelectUndoneIsFirst(db, lo, locked, limit);
  }

  lemma {:induction false} SelectedExactly(db: Tables, lo: nat, locked: set<nat>, limit: nat, o: nat)
    requires lo <= o < db.nextOutbox
    ensures o in db.SelectUndone(lo, locked, limit) <==>
              db.Claimable(o) && o !in locked && FreeBelow(db, locked, lo, o) < limit
    decreases o - lo
  {
    hide Tables.Claimable;
    if limit > 0 {
      var free := db.Claimable(lo) && lo !in locked;
      var rest := db.SelectUndone(lo + 1, locked, if free then limit - 1 else limit);
      assert db.SelectUndone(lo, locked, limit) == if free then [lo] + rest else rest;
      if lo == o {
        SelectedFrom(db, lo + 1, locked, if free then limit - 1 else limit, o);
      } else {
        SelectedExactly(db, lo + 1, locked, if free then limit - 1 else limit, o);
      }
    }
  }

  /** A claim hands out a row another worker holds if and only if the row is undone,
      not locked at that moment, and among the first `batch` such rows: that it is
      held does not matter. */
  lemma {:induction false} HeldRowIsReclaimedExactly(s: Sys, v: nat, w: nat, locked: set<nat>, o: nat)
    requires TablesOk(s.db) && v != w && v in s.workers && o in Ids(s.workers[v].queue) && o in s.db.outbox
    requires w in s.workers && s.workers[w].pc == Idle && s.workers[w].queue == []
    ensures var t := Apply(s, Claim(w, locked, Returned));
            v in t.workers && t.workers[v] == s.workers[v] && w in t.workers &&
            (o in Ids(t.workers[w].queue) <==>
               s.db.Claimable(o) && o !in locked && FreeBelow(s.db, locked, 0, o) < s.workers[w].batch)
  {
    ClaimedIds(s, w, locked);
    SelectedExactly(s.db, 0, locked, s.workers[w].batch, o);
  }

  lemma {:induction false} ClaimedIds(s: Sys, w: nat, locked: set<nat>)
    requires w in s.workers && s.workers[w].pc == Idle && s.workers[w].queue == []
    ensures var t := Apply(s, Claim(w, locked, Returned));
            w in t.workers && Ids(t.workers[w].queue) == s.db.SelectUndone(0, locked, s.workers[w].batch)
    ensures Apply(s, Claim(w, locked, Returned)).workers == s.workers[w := Apply(s, Claim(w, locked, Returned)).workers[w]]
  {
    var ids := s.db.SelectUndone(0, locked, s.workers[w].batch);
    var jobs := s.db.ClaimGatewayOutbox(s.workers[w].batch, locked, s.clock).1;
    assert Ids(jobs) == ids;
    assert jobs == [] ==> Apply(s, Claim(w, locked, Returned)).workers[w] == s.workers[w];
  }

  /** Two workers that claim one after the other take the same rows. */
  lemma {:induction false} SameRowsTwice(s: Sys, v: nat, w: nat, locked: set<nat>)
    requires v != w && v in s.workers && w in s.workers && s.workers[v].batch == s.workers[w].batch
    requires s.workers[v].pc == Idle && s.workers[v].queue == [] && s.workers[w].pc == Idle && s.workers[w].queue == []
    ensures var t := Run(s, [Claim(v, locked, Returned), Claim(w, locked, Returned)]);
            v in t.workers && w in t.workers && Ids(t.workers[v].queue) == Ids(t.workers[w].queue) &&
            Ids(t.workers[v].queue) == s.db.SelectUndone(0, locked, s.workers[v].batch)
  {
    hide Apply, Tables.SelectUndone;
    var a, b := Event.Claim(v, locked, Returned), Event.Claim(w, locked, Returned);
    var t := Apply(s, a);
    RunOfTwo(s, a, b);
    ClaimedIds(s, v, locked);
    ClaimedIds(t, w, locked);
    ClaimKeepsFree(s, v, locked);
    SameSelection(s.db, t.db, 0, locked, s.workers[w].batch);
  }

  lemma {:induction false} RunOfTwo(s: Sys, a: Event, b: Event)
    ensures Run(s, [a, b]) == Apply(Apply(s, a), b)
  {
    hide Apply;
    assert [a, b][..1] == [a] && [a][..0] == [];
    assert Run(s, [a]) == Apply(s, a);
  }

  lemma {:induction false} ClaimKeepsFree(s: Sys, v: nat, locked: set<nat>)
    ensures var t := Apply(s, Claim(v, locked, Returned));
            t.db.nextOutbox == s.db.nextOutbox && forall o :: t.db.Claimable(o) == s.db.Claimable(o)
  {
    hide Tables.ClaimGatewayOutbox, Tables.Claimable;
    if v in s.workers { ClaimLeavesDone(s.db, s.workers[v].batch, locked, s.clock); }
  }

  lemma {:induction false} ClaimLeavesDone(a: Tables, limit: nat, locked: set<nat>, now: nat)
    ensures var b := a.ClaimGatewayOutbox(limit, locked, now).0;
            b.nextOutbox == a.nextOutbox && forall o :: b.Claimable(o) == a.Claimable(o)
  {
    hide Tables.SelectUndone;
  }

  lemma {:induction false} SameSelection(a: Tables, b: Tables, lo: nat, locked: set<nat>, limit: nat)
    requires b.nextOutbox == a.nextOutbox && forall o :: b.Claimable(o) == a.Claimable(o)
    ensures b.SelectUndone(lo, locked, limit) == a.SelectUndone(lo, locked, limit)
    decreases a.nextOutbox - lo
  {
    if lo < a.nextOutbox && limit > 0 {
      SameSelection(a, b, lo + 1, locked, if a.Claimable(lo) && lo !in locked then limit - 1 else limit);
    }
  }

  // ---- claims of that row ----

  predicate IdleAt(s: Sys, w: nat)
  {
    w in s.workers && s.workers[w].pc == Idle && s.workers[w].queue == [] && s.workers[w].batch >= 1
  }

  /** As in `base`, but for the claims counted on its only outbox row. */
  predicate Claimed(base: Sys, t: Sys, attempts: nat)
  {
    t == base.(db := base.db.(outbox := t.db.outbox)) && base.db.nextOutbox == 1 &&
    t.db.outbox.Keys == base.db.outbox.Keys == {0} &&
    t.db.outbox[0].transfer == base.db.outbox[0].transfer && t.db.outbox[0].attempts == attempts && t.db.outbox[0].doneAt == None
  }

  lemma {:induction false} OnlyRowIsSelected(db: Tables, limit: nat)
    requires db.nextOutbox == 1 && db.Claimable(0) && limit >= 1
    ensures db.SelectUndone(0, {}, limit) == [0]
  {
    assert db.SelectUndone(1, {}, limit - 1) == [];
  }

  /** A claim whose COMMIT takes effect and throws counts an attempt all the same. */
  lemma {:induction false} AmbiguousClaim(base: Sys, t: Sys, w: nat, k: nat)
    requires Claimed(base, t, k) && IdleAt(t, w)
    ensures Claimed(base, Apply(t, Claim(w, {}, Ambiguous)), k + 1)
  {
    OnlyRowIsSelected(t.db, t.workers[w].batch);
  }

  lemma {:induction false} AmbiguousClaims(base: Sys, w: nat, k: nat) returns (es: seq<Event>)
    requires Claimed(base, base, 0) && IdleAt(base, w)
    ensures Claimed(base, Run(base, es), k)
  {
    hide Apply;
    if k == 0 {
      es := [];
    } else {
      var init := AmbiguousClaims(base, w, k - 1);
      AmbiguousClaim(base, Run(base, init), w, k - 1);
      es := init + [Event.Claim(w, {}, Ambiguous)];
      assert es[..|init|] == init;
    }
  }

  lemma {:induction false} ReturningClaim(base: Sys, t: Sys, w: nat, k: nat)
    requires Claimed(base, t, k) && IdleAt(t, w)
    ensures var u := Apply(t, Claim(w, {}, Returned));
            Claimed(base.(workers := u.workers), u, k + 1) &&
            u.workers == t.workers[w := t.workers[w].(queue := [Job(0, base.db.outbox[0].transfer, k)], pc := Send)]
  {
    OnlyRowIsSelected(t.db, t.workers[w].batch);
    var jobs := t.db.ClaimGatewayOutbox(t.workers[w].batch, {}, t.clock).1;
    assert jobs == [Job(0, base.db.outbox[0].transfer, k)];
  }

  /** From empty tables, two idle workers come to hold the same row at once. */
  lemma {:induction false} TwoWorkersHoldOneRow(s: Sys, r: Route, address: string, nonce: string, v: nat, w: nat)
    returns (es: seq<Event>)
    requires Initial(s) && Prepared(s, r, address, nonce) && IdleAt(s, v) && IdleAt(s, w) && v != w
    ensures var t := Run(s, es);
            v in t.workers && w in t.workers && Ids(t.workers[v].queue) == Ids(t.workers[w].queue) == [0] &&
            t.workers[v].pc == Send && t.workers[w].pc == Send
  {
    hide Apply, Run, Initial;
    var start := RequestIsRecorded(s, r, address, nonce, 0);
    var base := Run(s, start);
    var a, b := Event.Claim(v, {}, Returned), Event.Claim(w, {}, Returned);
    ReturningClaim(base, base, v, 0);
    var t := Apply(base, a);
    ReturningClaim(base.(workers := t.workers), t, w, 1);
    RunOfTwo(base, a, b);
    RunConcat(s, start, [a, b]);
    es := start + [a, b];
  }

  // ---- failed and paid ----

  /** A worker about to promote the only row, claimed for the `k + 1`st time. */
  predicate Promoting(t: Sys, w: nat, k: nat)
  {
    w in t.workers && t.workers[w].pc.Promote? && |t.workers[w].queue| == 1 && t.workers[w].queue[0].id == 0 &&
    t.workers[w].queue[0].attempts == k && t.workers[w].queue[0].transfer.settlement == 0
  }

  /** From empty tables a worker can stand before its promotion at any attempt. */
  lemma {:induction false} PromotionIsReached(s: Sys, r: Route, address: string, nonce: string, w: nat, k: nat)
    returns (es: seq<Event>)
    requires Initial(s) && Prepared(s, r, address, nonce) && IdleAt(s, w) && s.workers[w].chain == r.network
    ensures Promoting(Run(s, es), w, k) && Run(s, es).db.Claimable(0) &&
            Run(s, es).db.outbox[0].transfer.asset == r.asset
  {
    hide Apply, Run, Initial, Payable;
    var start := RequestIsRecorded(s, r, address, nonce, 0);
    var base := Run(s, start);
    RowIsPayable(s, start, r, address, nonce);
    var claims := AmbiguousClaims(base, w, k);
    var t := Run(base, claims);
    var claim := Event.Claim(w, {}, Returned);
    ReturningClaim(base, t, w, k);
    RunsOne(t, claim);
    var u := Apply(t, claim);
    SamePayable(base, u, r.network, CalldataOf(base.db.outbox[0].transfer), s.clock);
    var sends := JobCanConfirm(u, w, s.clock);
    es := start + claims + [claim] + sends;
    RunConcat(s, start, claims);
    RunConcat(s, start + claims, [claim]);
    RunConcat(s, start + claims + [claim], sends);
  }

  lemma {:induction false} SamePayable(a: Sys, b: Sys, chain: nat, c: Calldata, time: nat)
    requires b.tokens == a.tokens && b.used == a.used && b.made == a.made && Payable(a, chain, c, time)
    ensures Payable(b, chain, c, time)
  {
    hide SignedCall;
  }

  lemma {:induction false} RowIsPayable(s: Sys, es: seq<Event>, r: Route, address: string, nonce: string)
    requires Initial(s) && Prepared(s, r, address, nonce)
    requires var p := Answer(s, r, address, nonce); Run(s, es) == s.(db := OneRow(r, address, p), made := {p.signature})
    ensures var t := Run(s, es); Payable(t, r.network, CalldataOf(t.db.outbox[0].transfer), s.clock)
  {
    hide Run, Grows, SplitsOk, HandlersOk, ChainOk, SettlementsOk, WorkersOk, OnchainOk, ClosedOk, PaymentsAuthorized, SignedCall;
    hide GoodRoute, IsAddress, IsNonce, PriceToAtomic;
    Reachable(s, es);
    AnswerEnds(s, r, address, nonce);
    var t := Run(s, es);
    assert Joined(t.db, t.db.outbox[0].transfer);
    RowIsSigned(t, t.db.outbox[0].transfer);
    CollectableIsPayable(t, r.network, t.db.outbox[0].transfer, s.clock);
  }

  /** A reachable failed row whose next step settles it: refunded by the operator
      while the worker was waiting to promote. */
  lemma {:induction false} FailedRowIsReopened(s: Sys, r: Route, address: string, nonce: string, w: nat) returns (es: seq<Event>)
    requires Initial(s) && Prepared(s, r, address, nonce) && IdleAt(s, w) && s.workers[w].chain == r.network
    ensures var t := Run(s, es);
            0 in t.db.settlements && t.db.settlements[0].status == Failed && Promotes(t, WorkerStep(w, Returned), 0) &&
            var u := Apply(t, WorkerStep(w, Returned));
            0 in u.db.settlements && u.db.settlements[0].status == Settled
  {
    hide Run, Inv, Grows, StepWorker;
    var start := PromotionIsReached(s, r, address, nonce, w, 0);
    es := start + [RefundMark(0, Returned)];
    Reachable(s, start);
    Reachable(s, es);
    RunConcat(s, start, [RefundMark(0, Returned)]);
    RunsOne(Run(s, start), RefundMark(0, Returned));
    PromotingHasRow(Run(s, start), w, 0);
    FailedIsLeftExactly(Run(s, es), WorkerStep(w, Returned), 0);
  }

  lemma {:induction false} PromotingHasRow(t: Sys, w: nat, k: nat)
    requires Inv(t) && Promoting(t, w, k)
    ensures 0 in t.db.settlements
  {
    hide TablesOk, PaymentsAuthorized, SplitsOk, HandlersOk, ChainOk, SettlementsOk, OnchainOk, ClosedOk;
    assert WorkerOk(t, t.workers[w]);
    assert JobOk(t.db, t.workers[w].queue[0]);
  }

  /** A reachable row failed on its fifth attempt though its transfer was mined. */
  lemma {:induction false} FifthAttemptFailsPaid(s: Sys, r: Route, address: string, nonce: string, w: nat)
    returns (es: seq<Event>, hash: TxHash)
    requires Initial(s) && Prepared(s, r, address, nonce) && IdleAt(s, w) && s.workers[w].chain == r.network
    ensures var t := Run(s, es);
            0 in t.db.settlements && t.db.settlements[0].status == Failed && Succeeded(t, hash) && SentFor(t, hash, 0)
  {
    hide Run, Inv, Grows, Apply, StepWorker, Succeeded, SentFor;
    var start := PromotionIsReached(s, r, address, nonce, w, MAX_ATTEMPTS - 1);
    Reachable(s, start);
    var t := Run(s, start);
    hash := t.workers[w].pc.hash;
    ThrowingPromotionFailsPaid(t, w, hash);
    var lost, step := WorkerStep(w, Lost), WorkerStep(w, Returned);
    WorkerRuns(t, w, lost, step);
    RunConcat(s, start, [lost, step, step]);
    es := start + [lost, step, step];
  }

  lemma {:induction false} WorkerRuns(t: Sys, w: nat, lost: Event, step: Event)
    requires lost == WorkerStep(w, Lost) && step == WorkerStep(w, Returned)
    ensures Run(t, [lost, step, step]) == AfterFailedPromotion(t, w)
  {
    hide StepWorker;
    assert [lost, step, step][..2] == [lost, step];
    RunOfTwo(t, lost, step);
  }

  // ---- one such start ----

  const ADDRESS := "0x" + Zeros(40)
  const NONCE := "0x" + Zeros(64)
  const ROUTE := Route("1", ADDRESS, ADDRESS, 1, [], true, 300)
  const START := Sys(100, EMPTY_TABLES, [], {}, {(1, Lower(ADDRESS))}, {}, map[],
                     map[0 := Worker(1, 8, [], Idle), 1 := Worker(1, 8, [], Idle)])

  lemma {:induction false} StartIsReady()
    ensures Initial(START) && Prepared(START, ROUTE, ADDRESS, NONCE) && IdleAt(START, 0) && IdleAt(START, 1)
  {
    assert IndexOf("1", '.') == 1;
    assert WellFormed("1");
  }

  /** So from these concrete empty tables: a row held by both workers, a failed row
      about to be settled, and a row failed on its fifth attempt though paid. */
  lemma {:induction false} StartReachesAll() returns (twice: seq<Event>, reopened: seq<Event>, paid: seq<Event>, hash: TxHash)
    ensures var t := Run(START, twice);
            0 in t.workers && 1 in t.workers && Ids(t.workers[0].queue) == Ids(t.workers[1].queue) == [0]
    ensures var t := Run(START, reopened);
            0 in t.db.settlements && t.db.settlements[0].status == Failed && Promotes(t, WorkerStep(0, Returned), 0)
    ensures var t := Run(START, paid);
            0 in t.db.settlements && t.db.settlements[0].status == Failed && Succeeded(t, hash) && SentFor(t, hash, 0)
  {
    hide Run, Prepared, Initial, Promotes, Succeeded, SentFor;
    StartIsReady();
    twice := TwoWorkersHoldOneRow(START, ROUTE, ADDRESS, NONCE, 0, 1);
    reopened := FailedRowIsReopened(START, ROUTE, ADDRESS, NONCE, 0);
    paid, hash := FifthAttemptFailsPaid(START, ROUTE, ADDRESS, NONCE, 0);
  }
}
