// A worker is never stuck on its own: while the authorizations of a batch can
// still execute there is a tick in which nothing throws, and it finishes them.
module PipelineProgress {
  import opened Prelude
  import opened Ledger
  import opened Pipeline
  import opened PipelineDrain
  import opened PipelineInvariants

  /** All queued transfers can execute at `time`, none in another's way. */
  ghost predicate AllPayable(s: Sys, chain: nat, queue: seq<Job>, time: nat)
  {
    (forall i | 0 <= i < |queue| :: Payable(s, chain, CalldataOf(queue[i].transfer), time)) &&
    (forall i, j | 0 <= i < j < |queue| ::
       KeyOf(chain, CalldataOf(queue[i].transfer)) != KeyOf(chain, CalldataOf(queue[j].transfer)))
  }

  /** Along `es` the worker's calls return, nothing is given back,
      blocks are on time and no row is enqueued. */
  ghost predicate Clean(s: Sys, es: seq<Event>, w: nat)
  {
    (forall i | 0 <= i < |es| :: Smooth(es[i], w)) && OnTime(s, es) &&
    (forall i | 0 <= i <= |es| :: Unhurt(Run(s, es[..i]), w)) &&
    Run(s, es).db.nextOutbox == s.db.nextOutbox
  }

  lemma {:induction false} CleanOne(s: Sys, e: Event, w: nat)
    requires w in s.workers && s.workers[w].pc != GiveBack && Smooth(e, w) && (e.Mine? ==> s.clock <= e.time)
    requires Unhurt(Apply(s, e), w) && Apply(s, e).db.nextOutbox == s.db.nextOutbox
    ensures Clean(s, [e], w) && Run(s, [e]) == Apply(s, e)
  {
    hide Apply;
    assert [e][..0] == [] && [e][..1] == [e];
    assert Run(s, []) == s;
  }

  lemma {:induction false} OnTimeConcat(s: Sys, a: seq<Event>, b: seq<Event>)
    requires OnTime(s, a) && OnTime(Run(s, a), b)
    ensures OnTime(s, a + b)
  {
    hide Run;
    var c := a + b;
    forall i | 0 <= i < |c| && c[i].Mine?
      ensures Run(s, c[..i]).clock <= c[i].time
    {
      if i < |a| {
        assert c[..i] == a[..i] && c[i] == a[i];
      } else {
        assert c[..i] == a + b[..i - |a|] && c[i] == b[i - |a|];
        RunConcat(s, a, b[..i - |a|]);
      }
    }
  }

  lemma {:induction false} CleanBoth(s: Sys, a: seq<Event>, b: seq<Event>, w: nat)
    requires Clean(s, a, w) && Clean(Run(s, a), b, w)
    ensures Clean(s, a + b, w) && Run(s, a + b) == Run(Run(s, a), b)
  {
    hide Run, Smooth;
    RunConcat(s, a, b);
    OnTimeConcat(s, a, b);
    forall i | 0 <= i <= |a + b|
      ensures Unhurt(Run(s, (a + b)[..i]), w)
    {
      if i <= |a| {
        assert (a + b)[..i] == a[..i];
      } else {
        assert (a + b)[..i] == a + b[..i - |a|];
        RunConcat(s, a, b[..i - |a|]);
      }
    }
  }

  /** One more step of a clean run. */
  lemma {:induction false} CleanStep(s: Sys, es: seq<Event>, e: Event, w: nat)
    requires Clean(s, es, w) && Smooth(e, w) && (e.Mine? ==> Run(s, es).clock <= e.time)
    requires Unhurt(Apply(Run(s, es), e), w) && Apply(Run(s, es), e).db.nextOutbox == Run(s, es).db.nextOutbox
    ensures Clean(s, es + [e], w) && Run(s, es + [e]) == Apply(Run(s, es), e)
  {
    hide Apply, Run, Smooth;
    assert es[..|es|] == es;
    CleanOne(Run(s, es), e, w);
    CleanBoth(s, es, [e], w);
  }

  /** What a step of the worker does to everything but the tables. */
  predicate StepShape(s: Sys, t: Sys, w: nat, pc: WorkerPc)
  {
    t.used == s.used && t.tokens == s.tokens && t.txs == s.txs && t.made == s.made && t.clock == s.clock &&
    t.db.nextOutbox == s.db.nextOutbox && t.db.outbox == s.db.outbox && w in s.workers && w in t.workers &&
    t.workers[w] == s.workers[w].(pc := pc)
  }

  lemma {:induction false} LedgerCallReturns(s: Sys, w: nat, pc: WorkerPc)
    requires w in s.workers && s.workers[w].queue != [] && (pc.Await? || pc.Log? || pc.Finish?)
    requires match s.workers[w].pc
             case Submit(h) => pc == Await(h)
             case Promote(h) => pc == Log(h)
             case Log(h) => pc == Finish(h)
             case _ => false
    ensures StepShape(s, Apply(s, WorkerStep(w, Returned)), w, pc)
  {
    hide WorkerWrite;
    QuietWrite(s, s.workers[w]);
  }

  lemma {:induction false} SendReturns(s: Sys, w: nat)
    requires w in s.workers && s.workers[w].queue != [] && s.workers[w].pc == Send
    ensures var wk, t := s.workers[w], Apply(s, WorkerStep(w, Returned));
            t == s.(txs := s.txs + [ChainTx(wk.chain, CalldataOf(wk.queue[0].transfer), InMempool, Some(wk.queue[0].id))],
                    workers := s.workers[w := wk.(pc := Submit(|s.txs|))])
  {
  }

  lemma {:induction false} MineSucceeds(s: Sys, h: TxHash, time: nat)
    requires h < |s.txs| && s.txs[h].status == InMempool && Payable(s, s.txs[h].chain, s.txs[h].call, time)
    ensures var t := Apply(s, Mine(h, true, time));
            t.workers == s.workers && t.tokens == s.tokens && t.made == s.made && t.clock == s.clock && t.db == s.db && h < |t.txs| && t.txs[h].status == Success &&
            s.used <= t.used <= s.used + {KeyOf(s.txs[h].chain, s.txs[h].call)}
  {
  }

  lemma {:induction false} ReceiptReturns(s: Sys, w: nat, h: TxHash)
    requires w in s.workers && s.workers[w].queue != [] && s.workers[w].pc == Await(h)
    requires h < |s.txs| && s.txs[h].status == Success
    ensures StepShape(s, Apply(s, WorkerStep(w, Returned)), w, Promote(h))
  {
  }

  lemma {:induction false} FinishReturns(s: Sys, w: nat)
    requires w in s.workers && s.workers[w].queue != [] && s.workers[w].pc.Finish?
    ensures var t := Apply(s, WorkerStep(w, Returned));
            t.used == s.used && t.tokens == s.tokens && t.made == s.made && t.clock == s.clock && t.db.nextOutbox == s.db.nextOutbox && w in t.workers &&
            t.workers[w] == NextJob(s.workers[w])
  {
  }

  /** The head job, from sending to a receipt. */
  lemma {:induction false} JobCanConfirm(s: Sys, w: nat, time: nat) returns (es: seq<Event>)
    requires w in s.workers && s.workers[w].queue != [] && s.workers[w].pc == Send && s.clock <= time
    requires Payable(s, s.workers[w].chain, CalldataOf(s.workers[w].queue[0].transfer), time)
    ensures Clean(s, es, w)
    ensures var t, call := Run(s, es), CalldataOf(s.workers[w].queue[0].transfer);
            w in t.workers && t.workers[w] == s.workers[w].(pc := Promote(|s.txs|)) && t.db.outbox == s.db.outbox &&
            t.tokens == s.tokens && t.made == s.made && t.clock == s.clock &&
            t.used <= s.used + {KeyOf(s.workers[w].chain, call)}
  {
    hide Apply, Run, Smooth, Clean, CalldataOf, KeyOf, WindowOpen, SignedCall;
    var step, h := WorkerStep(w, Returned), |s.txs|;
    SendReturns(s, w);
    SmoothEvents(w, h, time);
    CleanOne(s, step, w);
    es := [step];
    LedgerCallReturns(Run(s, es), w, Await(h));
    CleanStep(s, es, step, w);
    es := es + [step];
    MineSucceeds(Run(s, es), h, time);
    CleanStep(s, es, Mine(h, true, time), w);
    es := es + [Mine(h, true, time)];
    ReceiptReturns(Run(s, es), w, h);
    CleanStep(s, es, step, w);
    es := es + [step];
  }

  /** The head job, from sending to done. */
  lemma {:induction false} JobCanFinish(s: Sys, w: nat, time: nat) returns (es: seq<Event>)
    requires w in s.workers && s.workers[w].queue != [] && s.workers[w].pc == Send && s.clock <= time
    requires Payable(s, s.workers[w].chain, CalldataOf(s.workers[w].queue[0].transfer), time)
    ensures Clean(s, es, w)
    ensures var t, call := Run(s, es), CalldataOf(s.workers[w].queue[0].transfer);
            w in t.workers && t.workers[w] == NextJob(s.workers[w]) &&
            t.tokens == s.tokens && t.made == s.made && t.clock == s.clock &&
            t.used <= s.used + {KeyOf(s.workers[w].chain, call)}
  {
    hide Apply, Run, Smooth, Clean, CalldataOf, KeyOf, Payable;
    var step, h := WorkerStep(w, Returned), |s.txs|;
    es := JobCanConfirm(s, w, time);
    SmoothEvents(w, h, time);
    LedgerCallReturns(Run(s, es), w, Log(h));
    CleanStep(s, es, step, w);
    es := es + [step];
    LedgerCallReturns(Run(s, es), w, Finish(h));
    CleanStep(s, es, step, w);
    es := es + [step];
    FinishReturns(Run(s, es), w);
    CleanStep(s, es, step, w);
    es := es + [step];
  }

  lemma {:induction false} SmoothEvents(w: nat, h: TxHash, time: nat)
    ensures Smooth(WorkerStep(w, Returned), w) && Smooth(Mine(h, true, time), w)
  {
  }

  lemma {:induction false} QueueCanFinish(s: Sys, w: nat, time: nat) returns (es: seq<Event>)
    requires w in s.workers && s.workers[w].queue != [] && s.workers[w].pc == Send && s.clock <= time
    requires AllPayable(s, s.workers[w].chain, s.workers[w].queue, time)
    ensures Clean(s, es, w) && w in Run(s, es).workers && Run(s, es).workers[w].pc == Idle
    decreases |s.workers[w].queue|
  {
    hide Apply, Run, Clean, CalldataOf, KeyOf, WindowOpen, SignedCall;
    es := JobCanFinish(s, w, time);
    var t := Run(s, es);
    if |s.workers[w].queue| > 1 {
      assert t.workers[w].queue == s.workers[w].queue[1..];
      var more := QueueCanFinish(t, w, time);
      CleanBoth(s, es, more, w);
      es := es + more;
    }
  }

  /** What anyone can look up about a row before a tick: on the worker's chain a
      token row was quoted for that chain, its nonce is unused and its window holds `time`. */
  predicate Collectable(s: Sys, chain: nat, t: Transfer, time: nat)
  {
    (chain, Lower(t.asset)) in s.tokens ==>
      t.network == chain && KeyOf(chain, CalldataOf(t)) !in s.used && t.validAfter < time < t.validBefore
  }

  /** The buyer of a recorded row signed the call a worker makes of it, for the chain it was quoted for. */
  lemma {:induction false} RowIsSigned(s: Sys, t: Transfer)
    requires PaymentsAuthorized(s) && Joined(s.db, t)
    ensures SignedCall(s.made, t.network, CalldataOf(t))
  {
    assert Authorized(s.made, s.db.actions[t.action], s.db.payments[t.payment]);
  }

  lemma {:induction false} CollectableIsPayable(s: Sys, chain: nat, t: Transfer, time: nat)
    requires PaymentsAuthorized(s) && Joined(s.db, t) && Collectable(s, chain, t, time)
    ensures Payable(s, chain, CalldataOf(t), time)
  {
    hide SignedCall, PaymentsAuthorized, Joined;
    RowIsSigned(s, t);
  }

  ghost predicate AllCollectable(s: Sys, chain: nat, queue: seq<Job>, time: nat)
  {
    (forall i | 0 <= i < |queue| :: Collectable(s, chain, queue[i].transfer, time)) &&
    (forall i, j | 0 <= i < j < |queue| ::
       KeyOf(chain, CalldataOf(queue[i].transfer)) != KeyOf(chain, CalldataOf(queue[j].transfer)))
  }

  lemma {:induction false} ClaimedArePayable(s: Sys, w: nat, time: nat)
    requires Inv(s) && w in s.workers
    requires AllCollectable(s, s.workers[w].chain, s.db.ClaimGatewayOutbox(s.workers[w].batch, {}, s.clock).1, time)
    ensures AllPayable(s, s.workers[w].chain, s.db.ClaimGatewayOutbox(s.workers[w].batch, {}, s.clock).1, time)
  {
    hide SplitsOk, HandlersOk, ChainOk, SettlementsOk, WorkersOk, OnchainOk, ClosedOk, PaymentsAuthorized, Joined;
    hide CalldataOf, KeyOf, Payable, Collectable;
    ClaimHandsOutRows(s.db, s.workers[w].batch, {}, s.clock);
    var jobs := s.db.ClaimGatewayOutbox(s.workers[w].batch, {}, s.clock).1;
    forall i | 0 <= i < |jobs|
      ensures Payable(s, s.workers[w].chain, CalldataOf(jobs[i].transfer), time)
    {
      assert Joined(s.db, s.db.outbox[jobs[i].id].transfer);
      CollectableIsPayable(s, s.workers[w].chain, jobs[i].transfer, time);
    }
  }

  /** From any reachable state with the worker idle, while the rows its claim would
      take are collectable at some block time not before the clock, a tick exists in
      which nothing throws and no block is early; it finishes exactly those rows. */
  lemma {:induction false} BatchCanSettle(s: Sys, w: nat, time: nat) returns (es: seq<Event>)
    requires Inv(s) && w in s.workers && s.workers[w].pc == Idle && s.workers[w].queue == [] && s.clock <= time
    requires AllCollectable(s, s.workers[w].chain, s.db.ClaimGatewayOutbox(s.workers[w].batch, {}, s.clock).1, time)
    ensures GoodTick(s, es, w) && OnTime(s, es)
    ensures var u := Undone(s.db); Undone(Run(s, es).db) == u[Min(s.workers[w].batch, |u|)..]
  {
    hide Inv, Apply, Run, Clean, AllPayable, AllCollectable, CalldataOf, KeyOf, Undone, OnTime, GoodTick;
    var claim := Event.Claim(w, {}, Returned);
    ClaimedArePayable(s, w, time);
    ClaimTakes(s, w, time);
    RunsOne(s, claim);
    es := [claim];
    OneEventOnTime(s, claim);
    if Apply(s, claim).workers[w].queue != [] {
      var more := QueueCanFinish(Apply(s, claim), w, time);
      GoodFromClean(s, more, w);
      CleanIsOnTime(Run(s, es), more, w);
      OnTimeConcat(s, es, more);
      RunConcat(s, es, more);
      es := es + more;
    } else {
      GoodFromClaim(s, w);
    }
    TickFinishesSmallest(s, es, w);
    assert UndoneIn(Run(s, es).db, s.db.nextOutbox, s.db.nextOutbox) == [];
  }

  lemma {:induction false} CleanIsOnTime(s: Sys, es: seq<Event>, w: nat)
    requires Clean(s, es, w)
    ensures OnTime(s, es) && Run(s, es).db.nextOutbox == s.db.nextOutbox
  {
  }

  lemma {:induction false} OneEventOnTime(s: Sys, e: Event)
    requires !e.Mine?
    ensures OnTime(s, [e])
  {
  }

  lemma {:induction false} RunsOne(s: Sys, e: Event)
    ensures Run(s, [e]) == Apply(s, e)
  {
    hide Apply;
    assert [e][..0] == [];
  }

  lemma {:induction false} ClaimTakes(s: Sys, w: nat, time: nat)
    requires w in s.workers && s.workers[w].pc == Idle && s.workers[w].queue == []
    requires AllPayable(s, s.workers[w].chain, s.db.ClaimGatewayOutbox(s.workers[w].batch, {}, s.clock).1, time)
    ensures var t := Apply(s, Claim(w, {}, Returned));
            w in t.workers && t.workers[w].chain == s.workers[w].chain && t.clock == s.clock && t.db.nextOutbox == s.db.nextOutbox &&
            t.workers[w].pc == (if t.workers[w].queue == [] then Idle else Send) &&
            (t.workers[w].queue != [] ==> AllPayable(t, t.workers[w].chain, t.workers[w].queue, time))
  {
    hide Tables.ClaimGatewayOutbox, CalldataOf, KeyOf;
    ClaimHandsOutRows(s.db, s.workers[w].batch, {}, s.clock);
  }

  lemma {:induction false} GoodFromClaim(s: Sys, w: nat)
    requires w in s.workers && s.workers[w].pc == Idle && s.workers[w].queue == []
    requires w in Apply(s, Claim(w, {}, Returned)).workers && Apply(s, Claim(w, {}, Returned)).workers[w].pc == Idle
    ensures GoodTick(s, [Claim(w, {}, Returned)], w)
  {
    hide Apply;
    var es := [Event.Claim(w, {}, Returned)];
    RunsOne(s, es[0]);
    assert es[..1] == es;
  }

  lemma {:induction false} GoodFromClean(s: Sys, more: seq<Event>, w: nat)
    requires w in s.workers && s.workers[w].pc == Idle && s.workers[w].queue == []
    requires Clean(Apply(s, Claim(w, {}, Returned)), more, w)
    requires var t := Run(Apply(s, Claim(w, {}, Returned)), more); w in t.workers && t.workers[w].pc == Idle
    ensures GoodTick(s, [Claim(w, {}, Returned)] + more, w)
  {
    hide Apply, Smooth;
    var claim := Event.Claim(w, {}, Returned);
    var es := [claim] + more;
    RunsOne(s, claim);
    forall i | 1 <= i <= |es|
      ensures Unhurt(Run(s, es[..i]), w)
    {
      assert es[..i] == [claim] + more[..i - 1];
      RunConcat(s, [claim], more[..i - 1]);
    }
    RunConcat(s, [claim], more);
    forall i | 1 <= i < |es|
      ensures Smooth(es[i], w)
    {
      assert es[i] == more[i - 1];
    }
  }
}
