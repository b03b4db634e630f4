// Draining the outbox: a worker whose calls all succeed empties the n rows undone
// at the start in ceil(n / batch) ticks, in increasing outbox id order, while
// requests go on enqueueing.
module PipelineDrain {
  import opened Prelude
  import opened Splits
  import opened Handshake
  import opened Ledger
  import opened Pipeline

  /** The claimable rows from `lo` up to but not including `hi`, in id order. */
  function UndoneIn(db: Tables, lo: nat, hi: nat): seq<nat>
    decreases hi - lo
  {
    if lo >= hi then []
    else if db.Claimable(lo) then [lo] + UndoneIn(db, lo + 1, hi)
    else UndoneIn(db, lo + 1, hi)
  }

  function Undone(db: Tables): seq<nat> { UndoneIn(db, 0, db.nextOutbox) }

  function Ids(queue: seq<Job>): seq<nat> { seq(|queue|, i requires 0 <= i < |queue| => queue[i].id) }

  lemma {:induction false} ClaimIsPrefix(db: Tables, lo: nat, k: nat)
    ensures var u := UndoneIn(db, lo, db.nextOutbox); db.SelectUndone(lo, {}, k) == u[..Min(k, |u|)]
    decreases db.nextOutbox - lo
  {
    if lo < db.nextOutbox && k > 0 {
      ClaimIsPrefix(db, lo + 1, if db.Claimable(lo) then k - 1 else k);
    }
  }

  lemma {:induction false} SameIn(a: Tables, b: Tables, lo: nat, hi: nat)
    requires forall o | lo <= o < hi :: a.Claimable(o) == b.Claimable(o)
    ensures UndoneIn(a, lo, hi) == UndoneIn(b, lo, hi)
    decreases hi - lo
  {
    if lo < hi { SameIn(a, b, lo + 1, hi); }
  }

  lemma {:induction false} SplitIn(db: Tables, lo: nat, mid: nat, hi: nat)
    requires lo <= mid <= hi
    ensures UndoneIn(db, lo, hi) == UndoneIn(db, lo, mid) + UndoneIn(db, mid, hi)
    decreases mid - lo
  {
    if lo < mid { SplitIn(db, lo + 1, mid, hi); }
  }

  lemma {:induction false} FinishHead(db: Tables, lo: nat, hi: nat, now: nat)
    requires UndoneIn(db, lo, hi) != []
    ensures db.Claimable(UndoneIn(db, lo, hi)[0]) && lo <= UndoneIn(db, lo, hi)[0] < hi
    ensures UndoneIn(db.MarkOutboxDone(UndoneIn(db, lo, hi)[0], now), lo, hi) == UndoneIn(db, lo, hi)[1..]
    decreases hi - lo
  {
    var t := db.MarkOutboxDone(UndoneIn(db, lo, hi)[0], now);
    if db.Claimable(lo) {
      SameIn(db, t, lo + 1, hi);
    } else {
      FinishHead(db, lo + 1, hi, now);
    }
  }

  /** `Undone` lists exactly the claimable rows, in increasing id order. */
  lemma {:induction false} UndoneIsSorted(db: Tables, lo: nat, hi: nat)
    ensures var u := UndoneIn(db, lo, hi);
            (forall o | o in u :: lo <= o < hi && db.Claimable(o)) &&
            (forall i, j | 0 <= i < j < |u| :: u[i] < u[j])
    decreases hi - lo
  {
    if lo < hi {
      UndoneIsSorted(db, lo + 1, hi);
      var u, r := UndoneIn(db, lo, hi), UndoneIn(db, lo + 1, hi);
      if db.Claimable(lo) {
        assert u == [lo] + r;
        assert forall j | 1 <= j < |u| :: u[j] == r[j - 1] && r[j - 1] in r;
      } else {
        assert u == r;
      }
    }
  }

  lemma {:induction false} UndoneIsComplete(db: Tables, lo: nat, hi: nat, o: nat)
    requires lo <= o < hi && db.Claimable(o)
    ensures o in UndoneIn(db, lo, hi)
    decreases o - lo
  {
    if lo < o { UndoneIsComplete(db, lo + 1, hi, o); }
  }

  // ---- one tick ----

  /** Steps of a tick in which nothing throws: the worker's calls return. Requests,
      operators, outsiders, time and the chain move as they like. */
  predicate Smooth(e: Event, w: nat)
  {
    e == WorkerStep(w, Returned) || (!e.Claim? && !e.WorkerStep? && !e.WorkerCrash?)
  }

  /** What is left to do below `base`: the queue, then rows this tick did not claim. */
  ghost predicate Draining(s: Sys, w: nat, base: nat, rest: seq<nat>)
  {
    w in s.workers && s.workers[w].pc != GiveBack && s.workers[w].pc != HardFail &&
    (s.workers[w].pc == Idle <==> s.workers[w].queue == []) &&
    base <= s.db.nextOutbox && UndoneIn(s.db, 0, base) == Ids(s.workers[w].queue) + rest
  }

  /** The worker did not throw in the step. */
  predicate Unhurt(s: Sys, w: nat) { w in s.workers && s.workers[w].pc != GiveBack }

  lemma {:induction false} SmoothStep(s: Sys, e: Event, w: nat, base: nat, rest: seq<nat>)
    requires Draining(s, w, base, rest) && Smooth(e, w) && Unhurt(Apply(s, e), w)
    ensures Draining(Apply(s, e), w, base, rest) && Apply(s, e).workers[w].batch == s.workers[w].batch
    ensures s.db.nextOutbox <= Apply(s, e).db.nextOutbox
  {
    hide UndoneIn, Payable, StepWorker, StepHandler;
    match e
    case WorkerStep(_, _) => SmoothWorker(s, w, base, rest);
    case HandlerStep(id, out) =>
      RequestAddsAbove(s, id, out, base);
      SameIn(s.db, StepHandler(s, id, out).db, 0, base);
    case RefundMark(x, _) => SameIn(s.db, s.db.FailSettlement(x), 0, base);
    case _ =>
  }

  /** A request adds rows above all others and leaves the workers alone. */
  lemma {:induction false} RequestAddsAbove(s: Sys, id: nat, out: Outcome, base: nat)
    requires base <= s.db.nextOutbox
    ensures var t := StepHandler(s, id, out);
            t.workers == s.workers && s.db.nextOutbox <= t.db.nextOutbox &&
            forall o: nat | o < base :: t.db.Claimable(o) == s.db.Claimable(o)
  {
    hide HandlerInsert, Accept;
    if id in s.handlers && HandlerInsert(s.db, s.handlers[id]).Some? { InsertAddsAbove(s.db, s.handlers[id], base); }
  }

  lemma {:induction false} InsertAddsAbove(db: Tables, h: Handler, base: nat)
    requires HandlerInsert(db, h).Some? && base <= db.nextOutbox
    ensures var b := HandlerInsert(db, h).value;
            db.nextOutbox <= b.nextOutbox && forall o: nat | o < base :: b.Claimable(o) == db.Claimable(o)
  {
    hide Tables.NonceSeen, SplitRows, PriceOf, ActionRow, PaymentRow, TransferRow;
  }

  lemma {:induction false} SmoothWorker(s: Sys, w: nat, base: nat, rest: seq<nat>)
    requires Draining(s, w, base, rest) && Unhurt(StepWorker(s, w, Returned), w)
    ensures var t := StepWorker(s, w, Returned);
            Draining(t, w, base, rest) && t.workers[w].batch == s.workers[w].batch && t.db.nextOutbox == s.db.nextOutbox
  {
    hide UndoneIn;
    var wk := s.workers[w];
    if wk.queue != [] {
      if wk.pc.Finish? {
        assert UndoneIn(s.db, 0, base)[0] == wk.queue[0].id;
        FinishHead(s.db, 0, base, s.clock);
        assert Ids(wk.queue)[1..] == Ids(wk.queue[1..]);
        assert (Ids(wk.queue) + rest)[1..] == Ids(wk.queue)[1..] + rest;
      } else {
        QuietCall(s, w, base);
      }
    }
  }

  /** No call but `markOutboxDone` changes which rows are claimable. */
  lemma {:induction false} QuietCall(s: Sys, w: nat, base: nat)
    requires w in s.workers && s.workers[w].queue != [] && !s.workers[w].pc.Finish?
    ensures StepWorker(s, w, Returned).db.nextOutbox == s.db.nextOutbox
    ensures UndoneIn(StepWorker(s, w, Returned).db, 0, base) == UndoneIn(s.db, 0, base)
  {
    hide Continue, Throw, UndoneIn, WorkerWrite;
    QuietWrite(s, s.workers[w]);
    SameIn(s.db, StepWorker(s, w, Returned).db, 0, base);
  }

  lemma {:induction false} QuietWrite(s: Sys, w: Worker)
    requires w.queue != [] && !w.pc.Finish?
    ensures WorkerWrite(s, w).nextOutbox == s.db.nextOutbox && (w.pc != GiveBack ==> WorkerWrite(s, w).outbox == s.db.outbox)
    ensures forall o :: WorkerWrite(s, w).Claimable(o) == s.db.Claimable(o)
  {
    var job := w.queue[0];
    if w.pc == GiveBack {
      assert WorkerWrite(s, w) == s.db.MarkOutboxFailed(job.id);
    } else {
      assert WorkerWrite(s, w).outbox == s.db.outbox;
    }
  }

  /** A complete tick: a claim from idle, then only smooth steps, back to idle. */
  ghost predicate GoodTick(s: Sys, es: seq<Event>, w: nat)
  {
    w in s.workers && s.workers[w].pc == Idle && s.workers[w].queue == [] &&
    es != [] && es[0] == Claim(w, {}, Returned) &&
    (forall i | 1 <= i < |es| :: Smooth(es[i], w)) &&
    (forall i | 1 <= i <= |es| :: Unhurt(Run(s, es[..i]), w)) &&
    w in Run(s, es).workers && Run(s, es).workers[w].pc == Idle
  }

  lemma {:induction false} ClaimStarts(s: Sys, w: nat)
    requires w in s.workers && s.workers[w].pc == Idle && s.workers[w].queue == []
    ensures var t, u := Apply(s, Claim(w, {}, Returned)), Undone(s.db);
            Draining(t, w, s.db.nextOutbox, u[Min(s.workers[w].batch, |u|)..]) && t.workers[w].batch == s.workers[w].batch &&
            Ids(t.workers[w].queue) == u[..Min(s.workers[w].batch, |u|)]
  {
    hide UndoneIn;
    var wk := s.workers[w];
    var u := Undone(s.db);
    var (db, jobs) := s.db.ClaimGatewayOutbox(wk.batch, {}, s.clock);
    ClaimHandsOutRows(s.db, wk.batch, {}, s.clock);
    ClaimIsPrefix(s.db, 0, wk.batch);
    SameIn(s.db, db, 0, s.db.nextOutbox);
    assert Ids(jobs) == u[..Min(wk.batch, |u|)];
    assert u == u[..Min(wk.batch, |u|)] + u[Min(wk.batch, |u|)..];
  }

  lemma {:induction false} TickPrefix(s: Sys, es: seq<Event>, w: nat, n: nat)
    requires GoodTick(s, es, w) && 1 <= n <= |es|
    ensures var u := Undone(s.db);
            Draining(Run(s, es[..n]), w, s.db.nextOutbox, u[Min(s.workers[w].batch, |u|)..]) &&
            Run(s, es[..n]).workers[w].batch == s.workers[w].batch
    decreases n
  {
    hide UndoneIn, Apply, Draining, Smooth, Undone;
    var u := Undone(s.db);
    var rest := u[Min(s.workers[w].batch, |u|)..];
    if n == 1 {
      assert es[..1][..0] == [] && es[..1][0] == es[0];
      ClaimStarts(s, w);
    } else {
      TickPrefix(s, es, w, n - 1);
      assert es[..n][..n - 1] == es[..n - 1] && es[..n][n - 1] == es[n - 1];
      SmoothStep(Run(s, es[..n - 1]), es[n - 1], w, s.db.nextOutbox, rest);
    }
  }

  /** A tick in which every step succeeds finishes exactly the `batch` smallest
      undone rows; after the others come the rows enqueued meanwhile. */
  lemma {:induction false} TickFinishesSmallest(s: Sys, es: seq<Event>, w: nat)
    requires GoodTick(s, es, w)
    ensures var u, t := Undone(s.db), Run(s, es);
            s.db.nextOutbox <= t.db.nextOutbox &&
            Undone(t.db) == u[Min(s.workers[w].batch, |u|)..] + UndoneIn(t.db, s.db.nextOutbox, t.db.nextOutbox) &&
            UndoneIn(t.db, 0, s.db.nextOutbox) == u[Min(s.workers[w].batch, |u|)..]
    ensures w in Run(s, es).workers && Run(s, es).workers[w].batch == s.workers[w].batch
    ensures Run(s, es).workers[w].pc == Idle && Run(s, es).workers[w].queue == []
  {
    hide UndoneIn, Apply;
    TickPrefix(s, es, w, |es|);
    assert es[..|es|] == es;
    SplitIn(Run(s, es).db, 0, s.db.nextOutbox, Run(s, es).db.nextOutbox);
  }

  /** Within the tick rows finish smallest first. */
  lemma {:induction false} TickFinishesInOrder(s: Sys, es: seq<Event>, w: nat, n: nat)
    requires GoodTick(s, es, w) && 1 <= n < |es|
    requires var t := Run(s, es[..n]); w in t.workers && t.workers[w].pc.Finish? && es[n] == WorkerStep(w, Returned)
    ensures var t := Run(s, es[..n]);
            t.workers[w].queue != [] && Undone(t.db) != [] && Undone(t.db)[0] == t.workers[w].queue[0].id &&
            Undone(Run(s, es[..n + 1]).db) == Undone(t.db)[1..]
  {
    hide UndoneIn, Apply;
    TickPrefix(s, es, w, n);
    var t := Run(s, es[..n]);
    assert es[..n + 1][..n] == es[..n] && es[..n + 1][n] == es[n];
    SplitIn(t.db, 0, s.db.nextOutbox, t.db.nextOutbox);
    FinishHead(t.db, 0, t.db.nextOutbox, t.clock);
    FinishApplies(t, w);
  }

  lemma {:induction false} FinishApplies(t: Sys, w: nat)
    requires w in t.workers && t.workers[w].queue != [] && t.workers[w].pc.Finish?
    ensures Apply(t, WorkerStep(w, Returned)).db == t.db.MarkOutboxDone(t.workers[w].queue[0].id, t.clock)
  {
  }

  // ---- the whole drain ----

  function AfterTicks(s: Sys, ticks: seq<seq<Event>>): Sys
  {
    if ticks == [] then s else Run(AfterTicks(s, ticks[..|ticks| - 1]), ticks[|ticks| - 1])
  }

  ghost predicate GoodTicks(s: Sys, ticks: seq<seq<Event>>, w: nat)
  {
    ticks == [] || (GoodTicks(s, ticks[..|ticks| - 1], w) && GoodTick(AfterTicks(s, ticks[..|ticks| - 1]), ticks[|ticks| - 1], w))
  }

  function Below(u: seq<nat>, base: nat): seq<nat>
  {
    if u == [] then [] else (if u[0] < base then [u[0]] else []) + Below(u[1..], base)
  }

  /** Cut at `base`, a list falls into its members below and the rest. */
  lemma {:induction false} BelowOfCut(a: seq<nat>, b: seq<nat>, base: nat)
    requires (forall o | o in a :: o < base) && (forall o | o in b :: o >= base)
    ensures Below(a + b, base) == a
    decreases |a| + |b|
  {
    if a != [] {
      assert a == [a[0]] + a[1..] && a[0] in a && forall o | o in a[1..] :: o in a;
      assert (a + b)[1..] == a[1..] + b && (a + b)[0] == a[0];
      BelowOfCut(a[1..], b, base);
    } else if b != [] {
      assert a + b == b && b == [b[0]] + b[1..] && b[0] in b && forall o | o in b[1..] :: o in b;
      BelowOfCut([], b[1..], base);
      assert [] + b[1..] == b[1..];
    }
  }

  /** Of the rows below any bound a tick takes the `batch` smallest, whatever lies above. */
  lemma {:induction false} TickBelow(s: Sys, es: seq<Event>, w: nat, base: nat)
    requires w in s.workers && GoodTick(s, es, w) && base <= s.db.nextOutbox
    ensures var v := UndoneIn(s.db, 0, base); UndoneIn(Run(s, es).db, 0, base) == v[Min(s.workers[w].batch, |v|)..]
  {
    hide UndoneIn, Apply, Run, GoodTick;
    TickFinishesSmallest(s, es, w);
    var t, top, b := Run(s, es), s.db.nextOutbox, s.workers[w].batch;
    var v, mid := UndoneIn(s.db, 0, base), UndoneIn(s.db, base, top);
    SplitIn(s.db, 0, base, top);
    SplitIn(t.db, 0, base, top);
    UndoneIsSorted(s.db, 0, base);
    UndoneIsSorted(s.db, base, top);
    UndoneIsSorted(t.db, 0, base);
    UndoneIsSorted(t.db, base, top);
    var left := v[Min(b, |v|)..];
    var above := if b <= |v| then mid else mid[Min(b - |v|, |mid|)..];
    assert (v + mid)[Min(b, |v + mid|)..] == left + above;
    assert (forall o | o in left :: o in v) && (forall o | o in above :: o in mid);
    BelowOfCut(left, above, base);
    BelowOfCut(UndoneIn(t.db, 0, base), UndoneIn(t.db, base, top), base);
  }

  /** Of the rows undone at the start, k such ticks finish the k*batch smallest,
      whatever is enqueued meanwhile: none of them is left exactly when k*batch has
      reached their number. */
  lemma {:induction false} DrainBound(s: Sys, ticks: seq<seq<Event>>, w: nat)
    requires w in s.workers && s.workers[w].pc == Idle && s.workers[w].queue == [] && GoodTicks(s, ticks, w)
    ensures var u, t := Undone(s.db), AfterTicks(s, ticks);
            w in t.workers && t.workers[w].batch == s.workers[w].batch && t.workers[w].pc == Idle && t.workers[w].queue == [] &&
            s.db.nextOutbox <= t.db.nextOutbox &&
            UndoneIn(t.db, 0, s.db.nextOutbox) == u[Min(|ticks| * s.workers[w].batch, |u|)..] &&
            (UndoneIn(t.db, 0, s.db.nextOutbox) == [] <==> |ticks| * s.workers[w].batch >= |u|)
    decreases |ticks|
  {
    hide UndoneIn, Apply, GoodTick, Run, Min;
    if ticks != [] {
      var init := ticks[..|ticks| - 1];
      DrainBound(s, init, w);
      TickFinishesSmallest(AfterTicks(s, init), ticks[|ticks| - 1], w);
      TickBelow(AfterTicks(s, init), ticks[|ticks| - 1], w, s.db.nextOutbox);
      DropTwice(Undone(s.db), |init|, s.workers[w].batch);
    } else {
      DropNone(Undone(s.db), s.workers[w].batch);
    }
  }

  /** So ceil(n / batch) ticks empty the n rows undone at the start, and one tick
      fewer does not. */
  lemma {:induction false} EmptiesInCeilingTicks(s: Sys, ticks: seq<seq<Event>>, w: nat)
    requires w in s.workers && s.workers[w].pc == Idle && s.workers[w].queue == [] && GoodTicks(s, ticks, w)
    requires s.workers[w].batch >= 1
    ensures var n, b, left := |Undone(s.db)|, s.workers[w].batch, UndoneIn(AfterTicks(s, ticks).db, 0, s.db.nextOutbox);
            (|ticks| >= (n + b - 1) / b ==> left == []) && (|ticks| < (n + b - 1) / b ==> left != [])
  {
    hide Undone, UndoneIn, Apply, GoodTick, GoodTicks, Run, AfterTicks;
    DrainBound(s, ticks, w);
    CeilingDivides(|ticks|, |Undone(s.db)|, s.workers[w].batch);
  }

  lemma {:induction false} CeilingDivides(k: nat, n: nat, b: nat)
    requires b >= 1
    ensures k >= (n + b - 1) / b <==> k * b >= n
  {
    var q, r := (n + b - 1) / b, (n + b - 1) % b;
    assert n + b - 1 == q * b + r && r < b;
    if k >= q {
      assert k * b >= q * b;
    } else {
      assert (k + 1) * b <= q * b && (k + 1) * b == k * b + b;
    }
  }

  /** Dropping k batches and then one more drops k + 1 batches. */
  lemma {:induction false} DropTwice(u: seq<nat>, k: nat, b: nat)
    ensures k * b >= 0 && (k + 1) * b >= 0
    ensures var v := u[Min(k * b, |u|)..]; v[Min(b, |v|)..] == u[Min((k + 1) * b, |u|)..]
    ensures u[Min((k + 1) * b, |u|)..] == [] <==> (k + 1) * b >= |u|
  {
    var m := k * b;
    assert m >= 0 && (k + 1) * b == m + b;
    DropMore(u, m, b);
  }

  lemma {:induction false} DropMore(u: seq<nat>, m: nat, b: nat)
    ensures var v := u[Min(m, |u|)..]; v[Min(b, |v|)..] == u[Min(m + b, |u|)..]
    ensures u[Min(m + b, |u|)..] == [] <==> m + b >= |u|
  {
  }

  lemma {:induction false} DropNone(u: seq<nat>, b: nat)
    ensures 0 * b == 0 && u[Min(0 * b, |u|)..] == u
    ensures u == [] <==> 0 * b >= |u|
  {
  }
}
