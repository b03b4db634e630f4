// Which rows can still be finished, exactly, and what becomes of the queue behind
// rows that cannot.
module PipelineStarvation {
  import opened Prelude
  import opened Decimal
  import opened Prices
  import opened Handshake
  import opened Ledger
  import opened Pipeline
  import opened PipelineInvariants
  import opened PipelineRequests
  import opened PipelineTheorems
  import opened PipelineRuns
  import opened PipelineDrain
  import opened PipelineProgress
  import opened PipelineChain
  import opened PipelineReclaim

  /** Some block from now on could execute the row's call. */
  ghost predicate Executable(t: Sys, chain: nat, o: nat)
    requires o in t.db.outbox
  {
    exists time: nat :: time >= t.clock && Payable(t, chain, CalldataOf(t.db.outbox[o].transfer), time)
  }

  /** The worker is at the row and knows the hash of a transaction of it that succeeded. */
  predicate PaidInHand(t: Sys, w: nat, o: nat)
  {
    w in t.workers && t.workers[w].queue != [] && t.workers[w].queue[0].id == o && HasHash(t.workers[w].pc) &&
    Succeeded(t, t.workers[w].pc.hash)
  }

  /** An undone token row that no block can execute and no worker has in hand as paid. */
  ghost predicate Stuck(t: Sys, chain: nat, o: nat)
  {
    t.db.Claimable(o) && (chain, Lower(t.db.outbox[o].transfer.asset)) in t.tokens && !Executable(t, chain, o) &&
    forall w | w in t.workers :: !PaidInHand(t, w, o)
  }

  predicate Done(db: Tables, o: nat) { o in db.outbox && db.outbox[o].doneAt.Some? }

  // ---- stuck rows stay stuck ----

  lemma {:induction false} ExecutableBefore(s: Sys, t: Sys, chain: nat, o: nat)
    requires Inv(s) && Grows(s, t) && o in s.db.outbox && Executable(t, chain, o)
    requires (chain, Lower(s.db.outbox[o].transfer.asset)) in s.tokens
    ensures Executable(s, chain, o)
  {
    hide SplitsOk, HandlersOk, ChainOk, SettlementsOk, WorkersOk, OnchainOk, ClosedOk, WindowOpen, Joined, PaymentsAuthorized, Authorized;
    var c := CalldataOf(s.db.outbox[o].transfer);
    var time: nat :| time >= t.clock && Payable(t, chain, c, time);
    RowsAreJoined(s, o);
    RowIsSigned(s, s.db.outbox[o].transfer);
    assert Payable(s, chain, c, time);
  }

  /** A block on time executes no transaction of a row that no block can execute. */
  lemma {:induction false} NoNewSuccess(s: Sys, e: Event, chain: nat, o: nat, h: TxHash)
    requires Inv(s) && FleetOn(s, chain) && o in s.db.outbox && !Executable(s, chain, o)
    requires (e.Mine? ==> s.clock <= e.time) && SentFor(Apply(s, e), h, o) && Succeeded(Apply(s, e), h)
    ensures SentFor(s, h, o) && Succeeded(s, h)
  {
    hide TablesOk, PaymentsAuthorized, SplitsOk, HandlersOk, SettlementsOk, WorkersOk, OnchainOk, ClosedOk;
    hide StepHandler, StepWorker, ClaimStep, MineStep, Payable;
    match e
    case Mine(g, executes, time) =>
      BlockMinesOne(s, g, executes, time);
      assert TxOk(s, s.txs[h]);
    case _ => OnlyBlocksExecute(s, e);
  }

  /** A worker at a row with a hash had it before the step, or has just sent. */
  lemma {:induction false} HandBefore(s: Sys, e: Event, w: nat)
    requires w in Apply(s, e).workers && Apply(s, e).workers[w].queue != [] && HasHash(Apply(s, e).workers[w].pc)
    ensures w in s.workers
    ensures var a, b := s.workers[w], Apply(s, e).workers[w];
            b.pc.hash == |s.txs| || (a.queue == b.queue && HasHash(a.pc) && a.pc.hash == b.pc.hash)
  {
    hide StepHandler, StepWorker, Payable, Tables.ClaimGatewayOutbox;
    match e
    case HandlerStep(id, out) => RequestAddsAbove(s, id, out, 0);
    case WorkerStep(v, out) => HandBeforeCall(s, v, out, w);
    case _ =>
  }

  lemma {:induction false} HandBeforeCall(s: Sys, v: nat, out: Outcome, w: nat)
    requires var t := StepWorker(s, v, out); w in t.workers && t.workers[w].queue != [] && HasHash(t.workers[w].pc)
    ensures w in s.workers
    ensures var a, b := s.workers[w], StepWorker(s, v, out).workers[w];
            b.pc.hash == |s.txs| || (a.queue == b.queue && HasHash(a.pc) && a.pc.hash == b.pc.hash)
  {
    hide WorkerWrite, Continue, Throw;
    if v == w && w in s.workers && s.workers[w].queue != [] { NextHash(s.workers[w]); }
  }

  lemma {:induction false} NextHash(w: Worker)
    requires w.queue != []
    ensures !HasHash(Throw(w).pc)
    ensures HasHash(Continue(w).pc) ==> Continue(w).queue == w.queue && HasHash(w.pc) && Continue(w).pc.hash == w.pc.hash
  {
  }

  /** Rows become done only when a worker at them marks them. */
  lemma {:induction false} DoneByWorker(s: Sys, e: Event, o: nat)
    requires TablesOk(s.db) && !Done(s.db, o) && Done(Apply(s, e).db, o)
    ensures e.WorkerStep? && e.worker in s.workers && s.workers[e.worker].queue != [] &&
            s.workers[e.worker].queue[0].id == o && s.workers[e.worker].pc.Finish?
  {
    hide TablesOk, StepHandler, StepWorker, Payable;
    match e
    case HandlerStep(id, out) => HandlerClosesNone(s, id, out, o);
    case WorkerStep(w, out) =>
      if w in s.workers && s.workers[w].queue != [] && s.workers[w].pc.Finish? ==> s.workers[w].queue[0].id != o {
        OthersStayOpen(s, w, out, o);
      }
    case Claim(w, locked, out) => if w in s.workers { ClaimHandsOutRows(s.db, s.workers[w].batch, locked, s.clock); }
    case _ =>
  }

  lemma {:induction false} HandlerClosesNone(s: Sys, id: nat, out: Outcome, o: nat)
    requires TablesOk(s.db) && !Done(s.db, o)
    ensures !Done(StepHandler(s, id, out).db, o)
  {
    hide Accept, TablesOk, HandlerInsert, DbGrows;
    if id in s.handlers && HandlerInsert(s.db, s.handlers[id]).Some? { InsertGrows(s.db, s.handlers[id]); }
  }

  lemma {:induction false} OthersStayOpen(s: Sys, w: nat, out: Outcome, o: nat)
    requires !Done(s.db, o)
    requires w in s.workers && s.workers[w].queue != [] && s.workers[w].pc.Finish? ==> s.workers[w].queue[0].id != o
    ensures !Done(StepWorker(s, w, out).db, o)
  {
    hide Continue, Throw, WorkerWrite;
    if w in s.workers && s.workers[w].queue != [] { WriteClosesHead(s, s.workers[w], o); }
  }

  lemma {:induction false} WriteClosesHead(s: Sys, w: Worker, o: nat)
    requires w.queue != [] && !Done(s.db, o) && (w.pc.Finish? ==> w.queue[0].id != o)
    ensures !Done(WorkerWrite(s, w), o)
  {
    var job := w.queue[0];
    match w.pc
    case Finish(_) => assert WorkerWrite(s, w) == s.db.MarkOutboxDone(job.id, s.clock);
    case GiveBack => assert WorkerWrite(s, w) == s.db.MarkOutboxFailed(job.id);
    case _ => assert WorkerWrite(s, w).outbox == s.db.outbox;
  }

  lemma {:induction false} StuckStep(s: Sys, e: Event, chain: nat, o: nat)
    requires Inv(s) && FleetOn(s, chain) && Stuck(s, chain, o) && (e.Mine? ==> s.clock <= e.time)
    ensures Stuck(Apply(s, e), chain, o)
  {
    hide Inv, Apply, Executable, FleetOn;
    StepKeeps(s, e);
    var t := Apply(s, e);
    RowStays(s, t, o);
    if Executable(t, chain, o) { ExecutableBefore(s, t, chain, o); }
    forall w | w in t.workers
      ensures !PaidInHand(t, w, o)
    {
      if PaidInHand(t, w, o) { PaidBefore(s, e, chain, w, o); }
    }
    if Done(t.db, o) {
      InvTables(s);
      DoneByWorker(s, e, o);
      AtFinishIsPaid(s, e.worker);
    }
  }

  lemma {:induction false} RowStays(s: Sys, t: Sys, o: nat)
    requires Grows(s, t) && o in s.db.outbox
    ensures o in t.db.outbox && t.db.outbox[o].transfer == s.db.outbox[o].transfer && t.tokens == s.tokens
    ensures Done(s.db, o) ==> Done(t.db, o)
  {
  }

  lemma {:induction false} PaidBefore(s: Sys, e: Event, chain: nat, w: nat, o: nat)
    requires Inv(s) && Inv(Apply(s, e)) && FleetOn(s, chain) && o in s.db.outbox && !Executable(s, chain, o)
    requires (e.Mine? ==> s.clock <= e.time) && PaidInHand(Apply(s, e), w, o)
    ensures PaidInHand(s, w, o)
  {
    hide Apply, Inv, Executable, FleetOn;
    HandIsSent(Apply(s, e), w);
    HandBefore(s, e, w);
    NoNewSuccess(s, e, chain, o, Apply(s, e).workers[w].pc.hash);
  }

  /** The hash a worker has in hand is of a transaction sent for the row it is at. */
  lemma {:induction false} HandIsSent(t: Sys, w: nat)
    requires Inv(t) && w in t.workers && t.workers[w].queue != [] && HasHash(t.workers[w].pc)
    ensures SentFor(t, t.workers[w].pc.hash, t.workers[w].queue[0].id) && t.workers[w].queue[0].id in t.db.outbox
  {
    hide TablesOk, PaymentsAuthorized, SplitsOk, HandlersOk, ChainOk, SettlementsOk, OnchainOk, ClosedOk;
    assert WorkerOk(t, t.workers[w]) && JobOk(t.db, t.workers[w].queue[0]);
  }

  lemma {:induction false} AtFinishIsPaid(t: Sys, w: nat)
    requires Inv(t) && w in t.workers && t.workers[w].queue != [] && t.workers[w].pc.Finish?
    ensures PaidInHand(t, w, t.workers[w].queue[0].id)
  {
    hide TablesOk, PaymentsAuthorized, SplitsOk, HandlersOk, ChainOk, SettlementsOk, OnchainOk, ClosedOk;
    assert WorkerOk(t, t.workers[w]) && JobOk(t.db, t.workers[w].queue[0]);
  }

  lemma {:induction false} StuckStays(t: Sys, more: seq<Event>, chain: nat, o: nat)
    requires Inv(t) && FleetOn(t, chain) && Stuck(t, chain, o) && OnTime(t, more)
    ensures Stuck(Run(t, more), chain, o) && Inv(Run(t, more)) && FleetOn(Run(t, more), chain)
    decreases |more|
  {
    hide Inv, Apply, Run, Stuck, FleetOn, Grows, OnTime;
    if more == [] {
      RunNone(t);
    } else {
      var init, e := more[..|more| - 1], more[|more| - 1];
      RunStep(t, more);
      OnTimeInit(t, more);
      StuckStays(t, init, chain, o);
      StuckStep(Run(t, init), e, chain, o);
      StepKeeps(Run(t, init), e);
      FleetStep(Run(t, init), e, chain);
    }
  }

  // ---- all others can be finished ----

  /** A worker at a row with a successful transaction in hand goes on to close it. */
  lemma {:induction false} HeldRowFinishes(t: Sys, w: nat) returns (es: seq<Event>)
    requires w in t.workers && t.workers[w].queue != [] && t.workers[w].queue[0].id in t.db.outbox && HasHash(t.workers[w].pc)
    requires t.workers[w].pc.Submit? || t.workers[w].pc.Await? ==> Succeeded(t, t.workers[w].pc.hash)
    ensures OnTime(t, es) && Done(Run(t, es).db, t.workers[w].queue[0].id)
    decreases StepsLeft(t.workers[w].pc)
  {
    hide Run, Apply, OnTime;
    var step := WorkerStep(w, Returned);
    es := [step];
    RunsOne(t, step);
    OneEventOnTime(t, step);
    HeldStep(t, w);
    if !t.workers[w].pc.Finish? {
      var more := HeldRowFinishes(Apply(t, step), w);
      RunConcat(t, es, more);
      OnTimeConcat(t, es, more);
      es := es + more;
    }
  }

  function StepsLeft(pc: WorkerPc): nat
  {
    match pc
    case Submit(_) => 5
    case Await(_) => 4
    case Promote(_) => 3
    case Log(_) => 2
    case _ => 1
  }

  lemma {:induction false} HeldStep(t: Sys, w: nat)
    requires w in t.workers && t.workers[w].queue != [] && t.workers[w].queue[0].id in t.db.outbox && HasHash(t.workers[w].pc)
    requires t.workers[w].pc.Submit? || t.workers[w].pc.Await? ==> Succeeded(t, t.workers[w].pc.hash)
    ensures var a, u := t.workers[w], Apply(t, WorkerStep(w, Returned));
            if a.pc.Finish? then Done(u.db, a.queue[0].id)
            else w in u.workers && u.txs == t.txs && u.workers[w].queue == a.queue && HasHash(u.workers[w].pc) &&
                 u.workers[w].pc.hash == a.pc.hash && StepsLeft(u.workers[w].pc) < StepsLeft(a.pc) && a.queue[0].id in u.db.outbox
  {
  }

  /** With every other row locked, a claim takes just this one. */
  lemma {:induction false} SelectsOnly(db: Tables, lo: nat, locked: set<nat>, limit: nat, o: nat)
    requires o < db.nextOutbox && db.Claimable(o) && locked == (set x | x in db.outbox && x != o)
    ensures db.SelectUndone(lo, locked, limit) == if lo <= o && limit >= 1 then [o] else []
    decreases db.nextOutbox - lo
  {
    if lo < db.nextOutbox && limit > 0 { SelectsOnly(db, lo + 1, locked, if lo == o then limit - 1 else limit, o); }
  }

  /** A crash frees the worker, and its next claim takes just the row. */
  lemma {:induction false} TakesRow(t: Sys, w: nat, o: nat) returns (es: seq<Event>)
    requires TablesOk(t.db) && w in t.workers && t.workers[w].batch >= 1 && t.db.Claimable(o)
    ensures OnTime(t, es)
    ensures var u, wk := Run(t, es), t.workers[w];
            u == t.(db := u.db, workers := t.workers[w := wk.(queue := [Job(o, t.db.outbox[o].transfer, t.db.outbox[o].attempts)], pc := Send)]) &&
            o in u.db.outbox
  {
    hide Run, Apply;
    var locked := set x | x in t.db.outbox && x != o;
    var crash, claim := WorkerCrash(w), Event.Claim(w, locked, Returned);
    SelectsOnly(t.db, 0, locked, t.workers[w].batch, o);
    var c := t.(workers := t.workers[w := Abandon(t.workers[w])]);
    Crashes(t, w);
    ClaimsOnly(c, w, locked, o);
    RunsOne(t, crash);
    RunsOne(c, claim);
    RunConcat(t, [crash], [claim]);
    es := [crash] + [claim];
    OneEventOnTime(t, crash);
    OneEventOnTime(c, claim);
    OnTimeConcat(t, [crash], [claim]);
    assert c.workers[w := Run(t, es).workers[w]] == t.workers[w := Run(t, es).workers[w]];
  }

  lemma {:induction false} Crashes(t: Sys, w: nat)
    requires w in t.workers
    ensures Apply(t, WorkerCrash(w)) == t.(workers := t.workers[w := Abandon(t.workers[w])])
  {
  }

  lemma {:induction false} ClaimsOnly(c: Sys, w: nat, locked: set<nat>, o: nat)
    requires w in c.workers && c.workers[w].pc == Idle && o in c.db.outbox
    requires c.db.SelectUndone(0, locked, c.workers[w].batch) == [o]
    ensures var u := Apply(c, Claim(w, locked, Returned));
            var job := Job(o, c.db.outbox[o].transfer, c.db.outbox[o].attempts);
            u == c.(db := u.db, workers := c.workers[w := c.workers[w].(queue := [job], pc := Send)]) && o in u.db.outbox
  {
    ClaimHandsOutRows(c.db, c.workers[w].batch, locked, c.clock);
    assert c.db.JobsOf([o]) == [Job(o, c.db.outbox[o].transfer, c.db.outbox[o].attempts)];
  }

  lemma {:induction false} ExecutableFinishes(t: Sys, chain: nat, w: nat, o: nat) returns (es: seq<Event>)
    requires Inv(t) && w in t.workers && t.workers[w].chain == chain && t.workers[w].batch >= 1 && t.db.Claimable(o)
    requires Executable(t, chain, o)
    ensures OnTime(t, es) && Done(Run(t, es).db, o)
  {
    hide Run, Inv, Payable, CalldataOf, Clean, OnTime;
    InvTables(t);
    var time: nat :| time >= t.clock && Payable(t, chain, CalldataOf(t.db.outbox[o].transfer), time);
    es := TakesRow(t, w, o);
    var u := Run(t, es);
    SamePayableHere(t, u, chain, CalldataOf(t.db.outbox[o].transfer), time);
    var sent := JobCanConfirm(u, w, time);
    CleanIsOnTime(u, sent, w);
    RunConcat(t, es, sent);
    OnTimeConcat(t, es, sent);
    es := es + sent;
    GrowsOnward(t, es);
    RowStays(t, Run(t, es), o);
    var close := HeldRowFinishes(Run(t, es), w);
    RunConcat(t, es, close);
    OnTimeConcat(t, es, close);
    es := es + close;
  }

  lemma {:induction false} SamePayableHere(a: Sys, b: Sys, chain: nat, c: Calldata, time: nat)
    requires b.used == a.used && b.tokens == a.tokens && b.made == a.made
    ensures Payable(b, chain, c, time) == Payable(a, chain, c, time)
  {
  }

  /** With the fleet on one chain and some worker that takes rows: an undone token
      row can still be finished, by some continuation without early blocks, exactly
      when some block could execute its call or a worker has it in hand as paid. */
  lemma {:induction false} RowCanFinishExactly(s: Sys, es: seq<Event>, chain: nat, w: nat, o: nat)
    requires Initial(s) && (forall v | v in s.workers :: s.workers[v].chain == chain) && w in s.workers && s.workers[w].batch >= 1
    requires var t := Run(s, es); t.db.Claimable(o) && (chain, Lower(t.db.outbox[o].transfer.asset)) in t.tokens
    ensures var t := Run(s, es);
            (exists more :: OnTime(t, more) && Done(Run(t, more).db, o)) <==>
              Executable(t, chain, o) || exists v :: PaidInHand(t, v, o)
  {
    hide Run, Apply, Inv, OnTime, Executable;
    Reachable(s, es);
    FleetStays(s, es, chain);
    var t := Run(s, es);
    if Executable(t, chain, o) {
      var more := ExecutableFinishes(t, chain, w, o);
      assert OnTime(t, more) && Done(Run(t, more).db, o);
    } else if v :| PaidInHand(t, v, o) {
      var more := HeldRowFinishes(t, v);
      assert OnTime(t, more) && Done(Run(t, more).db, o);
    } else {
      assert Stuck(t, chain, o);
      forall more | OnTime(t, more)
        ensures !Done(Run(t, more).db, o)
      {
        StuckStays(t, more, chain, o);
      }
    }
  }

  /** So a row is stranded when the worker that paid it lets go before closing it, by
      a crash, an exception or a timeout: it is never done, though its transfer stands. */
  lemma {:induction false} PaidRowIsStranded(s: Sys, es: seq<Event>, more: seq<Event>, chain: nat, o: nat, h: TxHash)
    requires Initial(s) && (forall v | v in s.workers :: s.workers[v].chain == chain) && OnTime(Run(s, es), more)
    requires var t := Run(s, es); t.db.Claimable(o) && (chain, Lower(t.db.outbox[o].transfer.asset)) in t.tokens
    requires SentFor(Run(s, es), h, o) && Succeeded(Run(s, es), h) && forall v :: !PaidInHand(Run(s, es), v, o)
    ensures var u := Run(Run(s, es), more); u.db.Claimable(o) && SentFor(u, h, o) && Succeeded(u, h)
  {
    hide Run, Apply, OnTime, TablesOk, PaymentsAuthorized, SplitsOk, HandlersOk, SettlementsOk, WorkersOk, OnchainOk, ClosedOk;
    Reachable(s, es);
    FleetStays(s, es, chain);
    var t := Run(s, es);
    assert TxOk(t, t.txs[h]) && t.IsToken(t.txs[h]);
    assert KeyOf(chain, CalldataOf(t.db.outbox[o].transfer)) in t.used;
    StuckStays(t, more, chain, o);
    GrowsOnward(t, more);
  }

  // ---- the queue behind them ----

  /** The undone rows below `cut` are `dead`, all stuck and enough to fill any batch;
      nobody is at row `o` above. */
  ghost predicate Starved(t: Sys, chain: nat, cut: nat, dead: seq<nat>, o: nat)
  {
    cut <= o && cut <= t.db.nextOutbox && UndoneIn(t.db, 0, cut) == dead && (forall x | x in dead :: Stuck(t, chain, x)) &&
    (forall w | w in t.workers :: t.workers[w].batch <= |dead| && o !in Ids(t.workers[w].queue)) && !Done(t.db, o)
  }

  /** No claim skips a row for being locked. */
  ghost predicate Unlocked(es: seq<Event>) { forall i | 0 <= i < |es| && es[i].Claim? :: es[i].locked == {} }

  /** An unlocked claim then takes stuck rows only. */
  lemma {:induction false} TakesStuckRows(t: Sys, chain: nat, cut: nat, dead: seq<nat>, o: nat, w: nat)
    requires Starved(t, chain, cut, dead, o) && w in t.workers
    ensures t.db.SelectUndone(0, {}, t.workers[w].batch) == dead[..t.workers[w].batch]
    ensures o !in t.db.SelectUndone(0, {}, t.workers[w].batch)
  {
    hide UndoneIn, Stuck;
    var b := t.workers[w].batch;
    ClaimIsPrefix(t.db, 0, b);
    SplitIn(t.db, 0, cut, t.db.nextOutbox);
    UndoneIsSorted(t.db, 0, cut);
    assert (dead + UndoneIn(t.db, cut, t.db.nextOutbox))[..b] == dead[..b];
  }

  /** No step makes a row claimable whose id was passed over or that is done. */
  lemma {:induction false} NoneReopened(s: Sys, e: Event, x: nat)
    requires !s.db.Claimable(x) && x < s.db.nextOutbox
    ensures !Apply(s, e).db.Claimable(x)
  {
    hide StepHandler, StepWorker, Payable;
    match e
    case HandlerStep(id, out) => RequestAddsAbove(s, id, out, s.db.nextOutbox);
    case WorkerStep(w, out) => WorkerReopensNone(s, w, out, x);
    case Claim(w, locked, out) => if w in s.workers { ClaimHandsOutRows(s.db, s.workers[w].batch, locked, s.clock); }
    case _ =>
  }

  lemma {:induction false} WorkerReopensNone(s: Sys, w: nat, out: Outcome, x: nat)
    requires !s.db.Claimable(x)
    ensures !StepWorker(s, w, out).db.Claimable(x)
  {
    hide Continue, Throw, WorkerWrite;
    if w in s.workers && s.workers[w].queue != [] {
      if s.workers[w].pc.Finish? {
        FinishWrites(s, s.workers[w]);
      } else {
        QuietWrite(s, s.workers[w]);
      }
    }
  }

  lemma {:induction false} FinishWrites(s: Sys, w: Worker)
    requires w.queue != [] && w.pc.Finish?
    ensures WorkerWrite(s, w) == s.db.MarkOutboxDone(w.queue[0].id, s.clock)
  {
  }

  /** The undone rows below `cut` stay the same while they stay undone. */
  lemma {:induction false} SameBelow(s: Sys, e: Event, cut: nat)
    requires cut <= s.db.nextOutbox
    requires forall x | x in UndoneIn(s.db, 0, cut) :: Apply(s, e).db.Claimable(x)
    ensures UndoneIn(Apply(s, e).db, 0, cut) == UndoneIn(s.db, 0, cut)
  {
    hide Apply, UndoneIn;
    forall x | 0 <= x < cut
      ensures Apply(s, e).db.Claimable(x) == s.db.Claimable(x)
    {
      if s.db.Claimable(x) {
        UndoneIsComplete(s.db, 0, cut, x);
      } else {
        NoneReopened(s, e, x);
      }
    }
    SameIn(s.db, Apply(s, e).db, 0, cut);
  }

  lemma {:induction false} IdsGrow(s: Sys, t: Sys)
    requires Grows(s, t)
    ensures s.db.nextOutbox <= t.db.nextOutbox && t.workers.Keys == s.workers.Keys
    ensures forall w | w in s.workers :: t.workers[w].batch == s.workers[w].batch
  {
  }

  /** A queue holds what it held before, or what its worker just claimed. */
  lemma {:induction false} QueuedBefore(s: Sys, e: Event, w: nat, o: nat)
    requires w in s.workers && w in Apply(s, e).workers && o in Ids(Apply(s, e).workers[w].queue) && o !in Ids(s.workers[w].queue)
    ensures Claims(s, e, o)
  {
    hide StepHandler, StepWorker, Payable;
    match e
    case HandlerStep(id, out) => RequestAddsAbove(s, id, out, 0);
    case WorkerStep(v, out) => QueueShrinks(s, v, out, w);
    case Claim(v, locked, out) => ClaimQueues(s, v, locked, out, w, o);
    case _ =>
  }

  lemma {:induction false} ClaimQueues(s: Sys, v: nat, locked: set<nat>, out: Outcome, w: nat, o: nat)
    requires var t := ClaimStep(s, v, locked, out);
             w in s.workers && w in t.workers && o in Ids(t.workers[w].queue) && o !in Ids(s.workers[w].queue)
    ensures Claims(s, Claim(v, locked, out), o)
  {
    var q := ClaimStep(s, v, locked, out).workers[w].queue;
    var i :| 0 <= i < |q| && q[i].id == o;
    if q != s.workers[w].queue {
      var ids := s.db.SelectUndone(0, locked, s.workers[v].batch);
      assert q == s.db.JobsOf(ids) && q[i].id == ids[i];
    }
  }

  lemma {:induction false} QueueShrinks(s: Sys, v: nat, out: Outcome, w: nat)
    requires w in s.workers
    ensures var t := StepWorker(s, v, out); w in t.workers && forall o | o in Ids(t.workers[w].queue) :: o in Ids(s.workers[w].queue)
  {
    hide WorkerWrite;
    var a, b := s.workers[w].queue, StepWorker(s, v, out).workers[w].queue;
    assert b == a || b == [] || (a != [] && b == a[1..]);
    if a != [] { assert Ids(a[1..]) == Ids(a)[1..]; }
  }

  lemma {:induction false} StarvedStep(s: Sys, e: Event, chain: nat, cut: nat, dead: seq<nat>, o: nat)
    requires Inv(s) && FleetOn(s, chain) && Starved(s, chain, cut, dead, o)
    requires (e.Mine? ==> s.clock <= e.time) && (e.Claim? ==> e.locked == {})
    ensures Starved(Apply(s, e), chain, cut, dead, o) && !Claims(s, e, o)
  {
    hide Inv, Apply, UndoneIn, FleetOn, Ids, Grows, Done;
    StepKeeps(s, e);
    var t := Apply(s, e);
    IdsGrow(s, t);
    if e.Claim? && e.worker in s.workers { TakesStuckRows(s, chain, cut, dead, o, e.worker); }
    forall x | x in dead
      ensures Stuck(t, chain, x)
    {
      StuckStep(s, e, chain, x);
    }
    SameBelow(s, e, cut);
    forall w | w in t.workers
      ensures o !in Ids(t.workers[w].queue)
    {
      if o in Ids(t.workers[w].queue) { QueuedBefore(s, e, w, o); }
    }
    if Done(t.db, o) {
      InvTables(s);
      DoneByWorker(s, e, o);
      HeadIsQueued(s.workers[e.worker].queue);
    }
  }

  lemma {:induction false} HeadIsQueued(queue: seq<Job>)
    requires queue != []
    ensures queue[0].id in Ids(queue)
  {
    assert Ids(queue)[0] == queue[0].id;
  }

  lemma {:induction false} StarvedStays(t: Sys, more: seq<Event>, chain: nat, cut: nat, dead: seq<nat>, o: nat)
    requires Inv(t) && FleetOn(t, chain) && Starved(t, chain, cut, dead, o) && OnTime(t, more)
    requires Unlocked(more)
    ensures var u := Run(t, more); Inv(u) && FleetOn(u, chain) && Starved(u, chain, cut, dead, o)
    ensures CountClaims(t, more, o) == 0
    decreases |more|
  {
    hide Inv, Apply, Run, Starved, FleetOn, Grows, OnTime, Claims;
    if more == [] {
      RunNone(t);
    } else {
      var init, e := more[..|more| - 1], more[|more| - 1];
      RunStep(t, more);
      OnTimeInit(t, more);
      StarvedStays(t, init, chain, cut, dead, o);
      StarvedStep(Run(t, init), e, chain, cut, dead, o);
      StepKeeps(Run(t, init), e);
      FleetStep(Run(t, init), e, chain);
    }
  }

  /** Once the undone rows below some id are all stuck and fill every worker's batch,
      unlocked claims take those rows and no others: a later row is never claimed and
      never done, whoever could pay it. */
  lemma {:induction false} StuckRowsStarveTheRest(s: Sys, es: seq<Event>, more: seq<Event>, chain: nat, cut: nat, o: nat)
    requires Initial(s) && (forall v | v in s.workers :: s.workers[v].chain == chain) && OnTime(Run(s, es), more)
    requires Unlocked(more)
    requires var t := Run(s, es); Starved(t, chain, cut, UndoneIn(t.db, 0, cut), o)
    ensures var t, u := Run(s, es), Run(Run(s, es), more);
            CountClaims(t, more, o) == 0 && !Done(u.db, o) && UndoneIn(u.db, 0, cut) == UndoneIn(t.db, 0, cut) &&
            forall w | w in u.workers ::
              u.db.SelectUndone(0, {}, u.workers[w].batch) == UndoneIn(t.db, 0, cut)[..Min(u.workers[w].batch, |UndoneIn(t.db, 0, cut)|)]
  {
    hide Run, Inv, Grows, FleetOn, OnTime, UndoneIn, Stuck, Ids;
    Reachable(s, es);
    FleetStays(s, es, chain);
    var t := Run(s, es);
    var dead := UndoneIn(t.db, 0, cut);
    StarvedStays(t, more, chain, cut, dead, o);
    var u := Run(t, more);
    forall w | w in u.workers
      ensures u.db.SelectUndone(0, {}, u.workers[w].batch) == dead[..Min(u.workers[w].batch, |dead|)]
    {
      TakesStuckRows(u, chain, cut, dead, o, w);
    }
  }

  // ---- both are reached ----

  /** From empty tables a worker that crashes between receipt and promotion strands its row. */
  lemma {:induction false} StrandedIsReached(s: Sys, r: Route, address: string, nonce: string, w: nat)
    returns (es: seq<Event>, h: TxHash)
    requires Initial(s) && Prepared(s, r, address, nonce) && s.workers.Keys == {w} && IdleAt(s, w) && s.workers[w].chain == r.network
    requires (r.network, Lower(r.asset)) in s.tokens
    ensures var t := Run(s, es);
            t.db.Claimable(0) && (r.network, Lower(t.db.outbox[0].transfer.asset)) in t.tokens &&
            SentFor(t, h, 0) && Succeeded(t, h) && forall v :: !PaidInHand(t, v, 0)
  {
    hide Run, Inv, Grows, Apply;
    var start := PromotionIsReached(s, r, address, nonce, w, 0);
    Reachable(s, start);
    var t := Run(s, start);
    IdsGrow(s, t);
    TokensFixed(s, t);
    h := t.workers[w].pc.hash;
    PromotingIsPaid(t, w);
    es := start + [WorkerCrash(w)];
    RunConcat(s, start, [WorkerCrash(w)]);
    RunsOne(t, WorkerCrash(w));
    Crashes(t, w);
  }

  lemma {:induction false} PromotingIsPaid(t: Sys, w: nat)
    requires Inv(t) && Promoting(t, w, 0)
    ensures SentFor(t, t.workers[w].pc.hash, 0) && Succeeded(t, t.workers[w].pc.hash)
  {
    hide TablesOk, PaymentsAuthorized, SplitsOk, HandlersOk, ChainOk, SettlementsOk, OnchainOk, ClosedOk;
    assert WorkerOk(t, t.workers[w]) && JobOk(t.db, t.workers[w].queue[0]);
  }

  /** From empty tables, with workers that claim one row at a time: a payment recorded
      in its window's last second starves the next one, which any block could execute. */
  lemma {:induction false} StarvationIsReached(s: Sys, r: Route, address: string, nonce: string, other: string)
    returns (es: seq<Event>)
    requires Initial(s) && Prepared(s, r, address, nonce) && IsNonce(other) && other != nonce
    requires (r.network, Lower(r.asset)) in s.tokens && forall w | w in s.workers :: s.workers[w].batch <= 1
    ensures var t := Run(s, es);
            Starved(t, r.network, 1, UndoneIn(t.db, 0, 1), 1) && t.db.Claimable(1) && Executable(t, r.network, 1)
  {
    hide Run, GoodRoute, IsAddress, IsNonce, Accept, Payable, PriceToAtomic, Starved, Executable, Answer;
    GoodPrice(r);
    var p := Answer(s, r, address, nonce);
    var late := RequestIsRecorded(s, r, address, nonce, r.windowSec);
    var a := Run(s, late);
    var q := Answer(a, r, address, other);
    AnswerNonce(s, r, address, nonce);
    AnswerIsAdmissible(a, 1, r, address, other, 0);
    Opens(a, q, 0);
    var b := Opening(a, q, 0);
    RequestRuns(b, 1, r, address, q);
    RunConcat(s, late, [MakeSignature(q.signature), Elapse(0)]);
    es := late + [MakeSignature(q.signature), Elapse(0)];
    RunConcat(s, es, RequestEvents(1, r, q));
    es := es + RequestEvents(1, r, q);
    AnswerEnds(s, r, address, nonce);
    AnswerEnds(a, r, address, other);
    RowCanExecuteExactly(s, es, 1, a.clock);
    LaterRowRuns(Run(s, es), r.network);
    LateRowStarves(Run(s, es), r.network);
  }

  lemma {:induction false} LaterRowRuns(t: Sys, chain: nat)
    requires 1 in t.db.outbox
    requires exists time: nat :: time >= t.clock && Payable(t, chain, CalldataOf(t.db.outbox[1].transfer), time)
    ensures Executable(t, chain, 1)
  {
    hide Payable;
  }

  lemma {:induction false} LateRowStarves(t: Sys, chain: nat)
    requires t.db.nextOutbox == 2 && t.db.Claimable(0) && t.db.Claimable(1)
    requires t.db.outbox[0].transfer.validBefore <= t.clock && (chain, Lower(t.db.outbox[0].transfer.asset)) in t.tokens
    requires forall w | w in t.workers :: t.workers[w].batch <= 1 && t.workers[w].queue == []
    ensures Starved(t, chain, 1, UndoneIn(t.db, 0, 1), 1)
  {
    assert UndoneIn(t.db, 0, 1) == [0] + UndoneIn(t.db, 1, 1) == [0];
    assert !Executable(t, chain, 0);
  }

  const SOLO_START := START.(workers := map[0 := Worker(1, 1, [], Idle)])
  const OTHER_NONCE := "0x1" + Zeros(63)

  /** So both are reached from one concrete start, and there the later row is never
      claimed and the paid row never done, whatever happens next. */
  lemma {:induction false} SoloStartReachesBoth() returns (stranded: seq<Event>, h: TxHash, starved: seq<Event>)
    ensures var t := Run(SOLO_START, stranded); t.db.Claimable(0) && SentFor(t, h, 0) && Succeeded(t, h)
    ensures forall more | OnTime(Run(SOLO_START, stranded), more) :: Run(Run(SOLO_START, stranded), more).db.Claimable(0)
    ensures var t := Run(SOLO_START, starved); t.db.Claimable(1) && Executable(t, 1, 1)
    ensures forall more | OnTime(Run(SOLO_START, starved), more) && Unlocked(more) ::
              CountClaims(Run(SOLO_START, starved), more, 1) == 0
  {
    hide Run, OnTime, Starved, Executable, Inv, Grows, UndoneIn, PaidInHand, Succeeded, SentFor, CountClaims;
    SoloStartIsReady();
    stranded, h := StrandedIsReached(SOLO_START, ROUTE, ADDRESS, NONCE, 0);
    starved := StarvationIsReached(SOLO_START, ROUTE, ADDRESS, NONCE, OTHER_NONCE);
    forall more | OnTime(Run(SOLO_START, stranded), more)
      ensures Run(Run(SOLO_START, stranded), more).db.Claimable(0)
    {
      PaidRowIsStranded(SOLO_START, stranded, more, 1, 0, h);
    }
    forall more | OnTime(Run(SOLO_START, starved), more) && Unlocked(more)
      ensures CountClaims(Run(SOLO_START, starved), more, 1) == 0
    {
      StuckRowsStarveTheRest(SOLO_START, starved, more, 1, 1, 1);
    }
  }

  lemma {:induction false} SoloStartIsReady()
    ensures Initial(SOLO_START) && Prepared(SOLO_START, ROUTE, ADDRESS, NONCE) && IdleAt(SOLO_START, 0)
    ensures SOLO_START.workers.Keys == {0} && IsNonce(OTHER_NONCE) && OTHER_NONCE != NONCE
  {
    StartIsReady();
    assert |OTHER_NONCE| == 66 && OTHER_NONCE[2] == '1' && NONCE[2] == '0';
    assert forall i | 3 <= i < 66 :: OTHER_NONCE[i] == '0';
  }
}
