// The gateway worker as an object: its `tick` is the loop over claimed jobs with
// a try and a catch path, interleaved with everybody else at every await. Each
// tick is proved to be a run of the pipeline's transition system.
module Gateway {
  import opened Prelude
  import opened Handshake
  import opened Ledger
  import opened Pipeline
  import opened PipelineInvariants
  import opened PipelineSteps
  import opened PipelineRequests
  import opened PipelineDrain
  import opened Surroundings
  import opened WorkerLoop

  predicate ByWorker(e: Event, w: nat)
  {
    (e.Claim? && e.worker == w) || (e.WorkerStep? && e.worker == w) || (e.WorkerCrash? && e.worker == w)
  }

  ghost predicate Foreign(es: seq<Event>, w: nat) { forall i | 0 <= i < |es| :: !ByWorker(es[i], w) }

  /** Nobody else moves a worker's program counter or queue. */
  lemma {:induction false} OthersLeaveWorker(s: Sys, es: seq<Event>, w: nat)
    requires Foreign(es, w) && w in s.workers
    ensures w in Run(s, es).workers && Run(s, es).workers[w] == s.workers[w]
    decreases |es|
  {
    hide Apply;
    if es != [] {
      OthersLeaveWorker(s, es[..|es| - 1], w);
      ForeignStep(Run(s, es[..|es| - 1]), es[|es| - 1], w);
    }
  }

  lemma {:induction false} ForeignStep(s: Sys, e: Event, w: nat)
    requires !ByWorker(e, w) && w in s.workers
    ensures w in Apply(s, e).workers && Apply(s, e).workers[w] == s.workers[w]
  {
    hide HandlerInsert, Accept, WorkerWrite, Continue, Throw;
  }

  /** A done row, standing on its logged successful transaction and its promoted settlement. */
  ghost predicate DoneAndClosed(s: Sys, o: nat) { o in s.db.outbox && s.db.outbox[o].doneAt.Some? && Closed(s, o) }

  lemma {:induction false} FinishCloses(s: Sys, es: seq<Event>, w: nat)
    requires Initial(s) && w in Run(s, es).workers
    requires Run(s, es).workers[w].queue != [] && Run(s, es).workers[w].pc.Finish?
    ensures DoneAndClosed(Run(s, es + [WorkerStep(w, Returned)]), Run(s, es).workers[w].queue[0].id)
  {
    hide Inv, Grows, Run, Initial;
    Reachable(s, es);
    Reachable(s, es + [WorkerStep(w, Returned)]);
    RunOne(s, es, WorkerStep(w, Returned));
    FinishMarks(Run(s, es), w);
    DoneIsClosed(Run(s, es + [WorkerStep(w, Returned)]), Run(s, es).workers[w].queue[0].id);
  }

  lemma {:induction false} FinishMarks(t: Sys, w: nat)
    requires Inv(t) && w in t.workers && t.workers[w].queue != [] && t.workers[w].pc.Finish?
    ensures var o, db := t.workers[w].queue[0].id, StepWorker(t, w, Returned).db; o in db.outbox && db.outbox[o].doneAt.Some?
  {
    hide TablesOk, PaymentsAuthorized, SplitsOk, HandlersOk, ChainOk, SettlementsOk, WorkersOk, OnchainOk, ClosedOk;
    WorkerOkOf(t, w);
    assert JobOk(t.db, t.workers[w].queue[0]);
  }

  lemma {:induction false} DoneIsClosed(t: Sys, o: nat)
    requires Inv(t) && o in t.db.outbox && t.db.outbox[o].doneAt.Some?
    ensures DoneAndClosed(t, o)
  {
    hide TablesOk, PaymentsAuthorized, SplitsOk, HandlersOk, ChainOk, SettlementsOk, WorkersOk, OnchainOk;
  }

  // ---- what a tick is, told by its awaits alone ----

  /** How the call a worker awaits ends at a state: as the moment says, but a receipt
      that is not of a success is an exception. */
  function OutcomeAt(at: Sys, id: nat, m: Moment): Outcome
  {
    if id in at.workers && at.workers[id].pc.Await? && !Succeeded(at, at.workers[id].pc.hash) && m.out == Returned then Lost
    else if id in at.workers && at.workers[id].pc.Await? && m.out == Ambiguous then Lost
    else m.out
  }

  /** The event that call is: a claim for an idle worker, else its current step. */
  function CallAt(at: Sys, id: nat, m: Moment): Event
  {
    if id !in at.workers || at.workers[id].pc == Idle then Event.Claim(id, m.locked, m.out)
    else WorkerStep(id, OutcomeAt(at, id, m))
  }

  /** One await met: what the others do first, then the call. */
  function Next(origin: Sys, h: seq<Event>, id: nat, m: Moment): seq<Event>
  {
    h + m.before + [CallAt(Run(origin, h + m.before), id, m)]
  }

  /** The history after the awaits from `lo` up to but not including `hi`. */
  function Along(origin: Sys, h: seq<Event>, id: nat, oracle: nat -> Moment, lo: nat, hi: nat): seq<Event>
    decreases hi - lo
  {
    if hi <= lo then h else Next(origin, Along(origin, h, id, oracle, lo, hi - 1), id, oracle(hi - 1))
  }

  /** The state in which the call of await `k` is made. */
  function AtAwait(origin: Sys, h: seq<Event>, id: nat, oracle: nat -> Moment, lo: nat, k: nat): Sys
  {
    Run(origin, Along(origin, h, id, oracle, lo, k) + oracle(k).before)
  }

  predicate Returns(origin: Sys, h: seq<Event>, id: nat, oracle: nat -> Moment, lo: nat, k: nat)
  {
    OutcomeAt(AtAwait(origin, h, id, oracle, lo, k), id, oracle(k)) == Returned
  }

  predicate Busy(s: Sys, id: nat) { id in s.workers && s.workers[id].pc != Idle }

  /** Awaits `lo` to `hi` of one stretch of a tick: all but the last return, the last
      does exactly if `ok`, and the worker is idle at none in between. */
  ghost predicate Stretch(origin: Sys, h: seq<Event>, id: nat, oracle: nat -> Moment, lo: nat, hi: nat, ok: bool)
  {
    lo < hi && (forall k | lo <= k < hi - 1 :: Returns(origin, h, id, oracle, lo, k)) &&
    ok == Returns(origin, h, id, oracle, lo, hi - 1) &&
    forall k | lo < k < hi :: Busy(Run(origin, Along(origin, h, id, oracle, lo, k)), id)
  }

  /** One await was met between two histories, and returned exactly if `ok`. */
  ghost predicate MetOne(origin: Sys, h: seq<Event>, id: nat, m: Moment, ok: bool, now: seq<Event>)
  {
    now == Next(origin, h, id, m) && ok == (OutcomeAt(Run(origin, h + m.before), id, m) == Returned)
  }

  /** A stretch of awaits was met between two histories. */
  ghost predicate Story(origin: Sys, h: seq<Event>, id: nat, oracle: nat -> Moment, lo: nat, hi: nat, ok: bool, now: seq<Event>)
  {
    now == Along(origin, h, id, oracle, lo, hi) && Stretch(origin, h, id, oracle, lo, hi, ok)
  }

  lemma {:induction false} FirstAwait(origin: Sys, h: seq<Event>, id: nat, oracle: nat -> Moment, k: nat, ok: bool, now: seq<Event>)
    requires MetOne(origin, h, id, oracle(k), ok, now)
    ensures Story(origin, h, id, oracle, k, k + 1, ok, now)
  {
    hide Run, Next, OutcomeAt;
    assert Along(origin, h, id, oracle, k, k) == h;
  }

  /** One more await of a stretch, its worker not idle before. */
  lemma {:induction false} NextAwait(origin: Sys, h: seq<Event>, mid: seq<Event>, id: nat, oracle: nat -> Moment, lo: nat, k: nat,
                                     ok: bool, now: seq<Event>)
    requires Story(origin, h, id, oracle, lo, k, true, mid) && Busy(Run(origin, mid), id)
    requires MetOne(origin, mid, id, oracle(k), ok, now)
    ensures Story(origin, h, id, oracle, lo, k + 1, ok, now)
  {
    hide Run, Next, OutcomeAt;
  }

  lemma {:induction false} AlongJoins(origin: Sys, h: seq<Event>, id: nat, oracle: nat -> Moment, lo: nat, mid: nat, hi: nat)
    requires lo <= mid <= hi
    ensures Along(origin, Along(origin, h, id, oracle, lo, mid), id, oracle, mid, hi) == Along(origin, h, id, oracle, lo, hi)
    ensures h <= Along(origin, h, id, oracle, lo, hi)
    decreases hi - lo
  {
    hide Run, CallAt;
    if hi > mid {
      AlongJoins(origin, h, id, oracle, lo, mid, hi - 1);
    } else if mid > lo {
      AlongJoins(origin, h, id, oracle, lo, mid - 1, mid - 1);
    }
  }

  /** The signals met at those awaits. */
  function Heard(oracle: nat -> Moment, lo: nat, hi: nat): seq<Signal>
    decreases hi - lo
  {
    if hi <= lo then [] else Heard(oracle, lo, hi - 1) + oracle(hi - 1).signals
  }

  lemma {:induction false} HeardFirst(oracle: nat -> Moment, k: nat)
    ensures Heard(oracle, k, k + 1) == oracle(k).signals
  {
    assert Heard(oracle, k, k) == [];
  }

  lemma {:induction false} HeardMore(log: seq<Signal>, oracle: nat -> Moment, lo: nat, k: nat)
    requires lo <= k
    ensures log + Heard(oracle, lo, k) + oracle(k).signals == log + Heard(oracle, lo, k + 1)
  {
  }

  lemma {:induction false} HeardJoins(oracle: nat -> Moment, lo: nat, mid: nat, hi: nat)
    requires lo <= mid <= hi
    ensures Heard(oracle, lo, mid) + Heard(oracle, mid, hi) == Heard(oracle, lo, hi)
    decreases hi - mid
  {
    if hi > mid { HeardJoins(oracle, lo, mid, hi - 1); }
  }

  /** From `from` on, the worker gave the row back: `markOutboxFailed` returned for it. */
  ghost predicate GivenBack(origin: Sys, h: seq<Event>, id: nat, from: nat, o: nat)
  {
    exists j :: from <= j < |h| && GivesBack(origin, h, id, j, o)
  }

  ghost predicate GivesBack(origin: Sys, h: seq<Event>, id: nat, j: nat, o: nat)
    requires j < |h|
  {
    h[j] == WorkerStep(id, Returned) &&
    var s := Run(origin, h[..j]);
    id in s.workers && s.workers[id].pc == GiveBack && s.workers[id].queue != [] && s.workers[id].queue[0].id == o
  }

  /** Done and closed now, or given back. */
  ghost predicate Handled(origin: Sys, h: seq<Event>, id: nat, from: nat, o: nat)
  {
    DoneAndClosed(Run(origin, h), o) || GivenBack(origin, h, id, from, o)
  }

  lemma {:induction false} DoneStays(origin: Sys, h: seq<Event>, h': seq<Event>, o: nat)
    requires Initial(origin) && h <= h' && DoneAndClosed(Run(origin, h), o)
    ensures DoneAndClosed(Run(origin, h'), o)
  {
    hide Run, Initial, Inv, Grows;
    Reachable(origin, h);
    assert h' == h + h'[|h|..];
    RunConcat(origin, h, h'[|h|..]);
    GrowsOnward(Run(origin, h), h'[|h|..]);
    DoneGrows(Run(origin, h), Run(origin, h'), o);
    DoneIsClosed(Run(origin, h'), o);
  }

  lemma {:induction false} DoneGrows(s: Sys, t: Sys, o: nat)
    requires Grows(s, t) && o in s.db.outbox && s.db.outbox[o].doneAt.Some?
    ensures o in t.db.outbox && t.db.outbox[o].doneAt.Some?
  {
  }

  lemma {:induction false} GivenBackStays(origin: Sys, h: seq<Event>, h': seq<Event>, id: nat, from: nat, o: nat)
    requires h <= h' && GivenBack(origin, h, id, from, o)
    ensures GivenBack(origin, h', id, from, o)
  {
    hide Run;
    var j :| from <= j < |h| && GivesBack(origin, h, id, j, o);
    assert h'[..j] == h[..j] && h'[j] == h[j];
    assert GivesBack(origin, h', id, j, o);
  }

  lemma {:induction false} HandledStays(origin: Sys, h: seq<Event>, h': seq<Event>, id: nat, from: nat, o: nat)
    requires Initial(origin) && h <= h' && Handled(origin, h, id, from, o)
    ensures Handled(origin, h', id, from, o)
  {
    hide Run, Initial, DoneAndClosed, GivenBack;
    if DoneAndClosed(Run(origin, h), o) { DoneStays(origin, h, h', o); } else { GivenBackStays(origin, h, h', id, from, o); }
  }

  /** Given back from some point on is given back from any earlier one on. */
  lemma {:induction false} GivenBackEarlier(origin: Sys, h: seq<Event>, id: nat, from: nat, later: nat, o: nat)
    requires from <= later && GivenBack(origin, h, id, later, o)
    ensures GivenBack(origin, h, id, from, o)
  {
    hide GivesBack;
    var j :| later <= j < |h| && GivesBack(origin, h, id, j, o);
  }

  // ---- the loop over the claimed jobs ----

  /** Where the loop stands at await `k`, after `i` of the rows claimed at await 1. */
  ghost predicate LoopOk(origin: Sys, h: seq<Event>, id: nat, oracle: nat -> Moment, k: nat, ids: seq<nat>, i: nat,
                         alive: bool, clean: bool, now: seq<Event>)
  {
    i <= |ids| && k >= 2 && now == Along(origin, h, id, oracle, 1, k) &&
    (forall n | 2 <= n < k :: Busy(Run(origin, Along(origin, h, id, oracle, 1, n)), id)) &&
    alive == Returns(origin, h, id, oracle, 1, k - 1) &&
    (!clean ==> exists j | 1 <= j < k :: !Returns(origin, h, id, oracle, 1, j)) &&
    (Initial(origin) ==>
       (forall j | 0 <= j < (if alive then i else i - 1) :: Handled(origin, now, id, |h|, ids[j])) &&
       (clean ==> forall j | 0 <= j < i :: DoneAndClosed(Run(origin, now), ids[j])))
  }

  lemma {:induction false} LoopStarts(origin: Sys, h: seq<Event>, id: nat, oracle: nat -> Moment, ids: seq<nat>, ok: bool, now: seq<Event>)
    requires MetOne(origin, h, id, oracle(1), ok, now)
    ensures LoopOk(origin, h, id, oracle, 2, ids, 0, ok, ok, now)
  {
    hide Run, CallAt, OutcomeAt, Initial, DoneAndClosed, Handled;
    assert Along(origin, h, id, oracle, 1, 1) == h;
    assert Along(origin, h, id, oracle, 1, 2) == Next(origin, h, id, oracle(1)) == now;
    assert Returns(origin, h, id, oracle, 1, 1) == ok;
  }

  /** A stretch begun after a prefix of the tick is a stretch of the tick. */
  lemma {:induction false} StoryExtends(origin: Sys, h: seq<Event>, mid: seq<Event>, id: nat, oracle: nat -> Moment, k: nat, hi: nat,
                                        ok: bool, now: seq<Event>)
    requires 1 <= k && mid == Along(origin, h, id, oracle, 1, k) && Story(origin, mid, id, oracle, k, hi, ok, now)
    ensures k < hi && now == Along(origin, h, id, oracle, 1, hi) && mid <= now && h <= mid
    ensures (forall j | k <= j < hi - 1 :: Returns(origin, h, id, oracle, 1, j)) && ok == Returns(origin, h, id, oracle, 1, hi - 1)
    ensures forall n | k < n < hi :: Busy(Run(origin, Along(origin, h, id, oracle, 1, n)), id)
  {
    hide Run, Along, OutcomeAt, Busy;
    AlongJoins(origin, h, id, oracle, 1, k, k);
    AlongJoins(origin, mid, id, oracle, k, k, hi);
    forall j | k <= j <= hi
      ensures Along(origin, mid, id, oracle, k, j) == Along(origin, h, id, oracle, 1, j)
    {
      AlongJoins(origin, h, id, oracle, 1, k, j);
    }
    assert forall j | k <= j < hi :: Returns(origin, mid, id, oracle, k, j) == Returns(origin, h, id, oracle, 1, j);
  }

  lemma {:induction false} LoopSettled(origin: Sys, h: seq<Event>, mid: seq<Event>, id: nat, oracle: nat -> Moment, k: nat, hi: nat,
                                       ids: seq<nat>, i: nat, clean: bool, now: seq<Event>)
    requires LoopOk(origin, h, id, oracle, k, ids, i, true, clean, mid) && i < |ids| && Busy(Run(origin, mid), id)
    requires Story(origin, mid, id, oracle, k, hi, true, now) && (Initial(origin) ==> DoneAndClosed(Run(origin, now), ids[i]))
    ensures LoopOk(origin, h, id, oracle, hi, ids, i + 1, true, clean, now)
  {
    hide Run, Along, OutcomeAt, Busy, Initial, DoneAndClosed, Story, Returns, GivenBack;
    StoryExtends(origin, h, mid, id, oracle, k, hi, true, now);
    if Initial(origin) {
      forall j | 0 <= j < i
        ensures Handled(origin, now, id, |h|, ids[j])
      {
        HandledStays(origin, mid, now, id, |h|, ids[j]);
      }
      if clean {
        forall j | 0 <= j < i
          ensures DoneAndClosed(Run(origin, now), ids[j])
        {
          DoneStays(origin, mid, now, ids[j]);
        }
      }
    }
  }

  lemma {:induction false} LoopRecovered(origin: Sys, h: seq<Event>, mid: seq<Event>, failed: seq<Event>, id: nat, oracle: nat -> Moment,
                                         k: nat, k1: nat, hi: nat, ids: seq<nat>, i: nat, clean: bool, ok: bool, now: seq<Event>)
    requires LoopOk(origin, h, id, oracle, k, ids, i, true, clean, mid) && i < |ids| && Busy(Run(origin, mid), id)
    requires Story(origin, mid, id, oracle, k, k1, false, failed) && Busy(Run(origin, failed), id)
    requires Story(origin, failed, id, oracle, k1, hi, ok, now)
    requires ok ==> GivenBack(origin, now, id, |failed|, ids[i])
    ensures LoopOk(origin, h, id, oracle, hi, ids, i + 1, ok, false, now)
  {
    hide Run, Along, OutcomeAt, Busy, Initial, DoneAndClosed, Story, Returns, GivenBack;
    StoryExtends(origin, h, mid, id, oracle, k, k1, false, failed);
    StoryExtends(origin, h, failed, id, oracle, k1, hi, ok, now);
    if ok { GivenBackEarlier(origin, now, id, |h|, |failed|, ids[i]); }
    if Initial(origin) {
      forall j | 0 <= j < i
        ensures Handled(origin, now, id, |h|, ids[j])
      {
        HandledStays(origin, mid, now, id, |h|, ids[j]);
      }
    }
  }

  class GatewayWorker {
    const world: World
    const id: nat
    const chain: nat
    const batchSize: nat
    const hasRelayerKey: bool
    var timer: Option<nat>
    var busy: bool
    var stopped: bool
    var idleNoticeAt: int
    // what the JavaScript runtime holds for this object
    var timers: set<nat>
    var nextTimer: nat
    var bodies: seq<Caller>
    var resuming: nat
    var notices: seq<int>
    ghost var log: seq<Signal>

    function Timing(): Schedule
      reads this
    {
      Schedule(timer, stopped, busy, idleNoticeAt, timers, nextTimer, bodies, resuming, notices)
    }

    /** The timing fields are where the signals logged so far take a fresh worker. */
    ghost predicate Timed()
      reads this
    {
      Timing() == Steps(FRESH, log)
    }

    /** A tick body is under way. */
    ghost predicate Running()
      reads this
    {
      Timed() && busy && |bodies| == 1
    }

    /** The worker's place in the transition system. */
    ghost predicate At(queue: seq<Job>, pc: WorkerPc)
      reads world
    {
      id in world.workers && world.workers[id] == Worker(chain, batchSize, queue, pc)
    }

    constructor (w: World, name: nat, relayerKey: bool)
      requires name in w.workers
      ensures world == w && id == name && hasRelayerKey == relayerKey && Timed() && log == []
      ensures chain == w.workers[name].chain && batchSize == w.workers[name].batch
    {
      world, id, hasRelayerKey := w, name, relayerKey;
      chain, batchSize := w.workers[name].chain, w.workers[name].batch;
      timer, busy, stopped, idleNoticeAt := None, false, false, 0;
      timers, nextTimer, bodies, resuming, notices, log := {}, 0, [], 0, [], [];
    }

    method ScheduleLoop()
      modifies this`timer, this`timers, this`nextTimer
      ensures Timing() == SetTimeout(old(Timing()))
    {
      timer, timers, nextTimer := Some(nextTimer), timers + {nextTimer}, nextTimer + 1;
    }

    ghost method Note(e: Signal, before: Schedule)
      requires before == Steps(FRESH, log) && Timing() == Step(before, e)
      modifies this`log
      ensures Timed() && log == old(log) + [e]
    {
      OneStep(FRESH, log, e);
      log := log + [e];
    }

    method Start()
      requires Timed()
      modifies this`timer, this`stopped, this`timers, this`nextTimer, this`log
      ensures Timed() && log == old(log) + [Signal.Start]
    {
      ghost var before := Timing();
      if timer.None? {
        stopped := false;
        ScheduleLoop();
      }
      Note(Signal.Start, before);
    }

    method Stop()
      requires Timed()
      modifies this`timer, this`stopped, this`timers, this`log
      ensures Timed() && log == old(log) + [Signal.Stop]
    {
      ghost var before := Timing();
      stopped := true;
      if timer.Some? {
        timers := timers - {timer.value};
        timer := None;
      }
      Note(Signal.Stop, before);
    }

    /** A loop continues after its tick, whether that returned or threw. */
    method AfterTick()
      requires Timed() && resuming > 0
      modifies this`timer, this`timers, this`nextTimer, this`resuming, this`log
      ensures Timed() && log == old(log) + [Resume]
    {
      ghost var before := Timing();
      resuming := resuming - 1;
      if !stopped { ScheduleLoop(); }
      Note(Resume, before);
    }

    /** What the runtime and operators do to this object while it awaits. */
    method Signalled(es: seq<Signal>)
      requires Running() && Outside(es)
      modifies this`timer, this`stopped, this`timers, this`nextTimer, this`resuming, this`log
      ensures Running() && log == old(log) + es
    {
      BodyKeepsRunning(Timing(), es);
      StepsConcat(FRESH, log, es);
      var t := Steps(Timing(), es);
      timer, stopped, timers, nextTimer, resuming := t.timer, t.stopped, t.timers, t.nextTimer, t.resuming;
      log := log + es;
    }

    method MoveTo(queue: seq<Job>, pc: WorkerPc)
      modifies world`workers
      ensures world.workers == old(world.workers)[id := Worker(chain, batchSize, queue, pc)]
    {
      world.workers := world.workers[id := Worker(chain, batchSize, queue, pc)];
    }

    /** One await of this worker has been met, and returned exactly if `ok`. */
    ghost predicate Met(h: seq<Event>, m: Moment, ok: bool)
      reads world
    {
      MetOne(world.origin, h, id, m, ok, world.history)
    }

    /** The awaits from `k0` up to but not including `k` have been met, and all
        returned exactly if `ok`. */
    ghost predicate Went(h: seq<Event>, oracle: nat -> Moment, k0: nat, k: nat, ok: bool)
      reads world
    {
      Story(world.origin, h, id, oracle, k0, k, ok, world.history)
    }

    lemma {:induction false} InTick(queue: seq<Job>, pc: WorkerPc)
      requires world.Valid() && At(queue, pc) && pc != Idle
      ensures Busy(Run(world.origin, world.history), id)
    {
      hide Run;
    }

    method AwaitOthers(m: Moment, ghost queue: seq<Job>, ghost pc: WorkerPc)
      requires world.Valid() && At(queue, pc) && Foreign(m.before, id)
      requires Running() && Outside(m.signals)
      modifies this, world, world.ledger
      ensures Running() && bodies == old(bodies) && log == old(log) + m.signals
      ensures world.Valid() && At(queue, pc) && world.origin == old(world.origin)
      ensures world.history == old(world.history) + m.before
      ensures world.Now() == Run(old(world.Now()), m.before)
    {
      OthersLeaveWorker(world.Now(), m.before, id);
      world.Others(m.before);
      Signalled(m.signals);
    }

    /** `claimGatewayOutbox`; None is an exception. */
    method Claim(m: Moment) returns (claimed: Option<seq<Job>>)
      requires world.Valid() && At([], Idle) && Foreign(m.before, id)
      requires Running() && Outside(m.signals)
      modifies this, world, world.ledger
      ensures Running() && bodies == old(bodies) && log == old(log) + m.signals
      ensures world.Valid() && world.origin == old(world.origin)
      ensures world.history == old(world.history) + m.before + [Event.Claim(id, m.locked, m.out)]
      ensures Met(old(world.history), m, claimed.Some?)
      ensures claimed.Some? <==> m.out == Returned
      ensures claimed.Some? ==>
                Ids(claimed.value) == Run(world.origin, old(world.history) + m.before).db.SelectUndone(0, m.locked, batchSize)
      ensures if claimed.None? || claimed.value == [] then At([], Idle) else At(claimed.value, Send)
    {
      hide GatewayWorker.Running, Outside, Run, StepHandler, StepWorker, MineStep;
      AwaitOthers(m, [], Idle);
      ghost var before := world.Now();
      if m.out == Lost {
        claimed := None;
      } else {
        var jobs := world.ledger.ClaimGatewayOutbox(batchSize, m.locked, world.clock);
        claimed := if m.out == Returned then Some(jobs) else None;
        if claimed.Some? && jobs != [] { MoveTo(jobs, Send); }
      }
      world.Record(Event.Claim(id, m.locked, m.out), before);
    }

    /** `writeContract`: hand the transfer to the chain's mempool. */
    method SendTransfer(queue: seq<Job>, m: Moment) returns (hash: Option<TxHash>)
      requires world.Valid() && queue != [] && At(queue, Send) && Foreign(m.before, id)
      requires Running() && Outside(m.signals)
      modifies this, world, world.ledger
      ensures Running() && bodies == old(bodies) && log == old(log) + m.signals
      ensures world.Valid() && world.origin == old(world.origin)
      ensures world.history == old(world.history) + m.before + [WorkerStep(id, m.out)]
      ensures Met(old(world.history), m, hash.Some?)
      ensures hash.Some? <==> m.out == Returned
      ensures At(queue, if hash.Some? then Submit(hash.value) else GiveBack)
    {
      hide GatewayWorker.Running, Outside, Run, StepHandler, ClaimStep, MineStep;
      AwaitOthers(m, queue, Send);
      ghost var before := world.Now();
      var h := |world.txs|;
      if m.out != Lost {
        world.txs := world.txs + [ChainTx(chain, CalldataOf(queue[0].transfer), InMempool, Some(queue[0].id))];
      }
      hash := if m.out == Returned then Some(h) else None;
      MoveTo(queue, if hash.Some? then Submit(h) else GiveBack);
      world.Record(WorkerStep(id, m.out), before);
    }

    method MarkSubmitted(queue: seq<Job>, hash: TxHash, m: Moment) returns (ok: bool)
      requires world.Valid() && queue != [] && At(queue, Submit(hash)) && Foreign(m.before, id)
      requires Running() && Outside(m.signals)
      modifies this, world, world.ledger
      ensures Running() && bodies == old(bodies) && log == old(log) + m.signals
      ensures world.Valid() && world.origin == old(world.origin)
      ensures world.history == old(world.history) + m.before + [WorkerStep(id, m.out)]
      ensures Met(old(world.history), m, ok)
      ensures ok == (m.out == Returned) && At(queue, if ok then Await(hash) else GiveBack)
    {
      hide GatewayWorker.Running, Outside, Run, StepHandler, ClaimStep, MineStep;
      AwaitOthers(m, queue, Submit(hash));
      ghost var before := world.Now();
      if m.out != Lost { world.ledger.MarkSettlementSubmitted(queue[0].transfer.settlement, hash, world.clock); }
      ok := m.out == Returned;
      MoveTo(queue, if ok then Await(hash) else GiveBack);
      world.Record(WorkerStep(id, m.out), before);
    }

    /** `waitForTransactionReceipt`: a transaction still in the mempool is a timeout. */
    method WaitForReceipt(queue: seq<Job>, hash: TxHash, m: Moment) returns (ok: bool)
      requires world.Valid() && queue != [] && At(queue, Await(hash)) && Foreign(m.before, id)
      requires Running() && Outside(m.signals)
      modifies this, world, world.ledger
      ensures Running() && bodies == old(bodies) && log == old(log) + m.signals
      ensures world.Valid() && world.origin == old(world.origin)
      ensures world.history == old(world.history) + m.before + [WorkerStep(id, if ok then Returned else Lost)]
      ensures Met(old(world.history), m, ok)
      ensures ok <==> m.out == Returned && hash < |world.txs| && world.txs[hash].status == Success
      ensures At(queue, if ok then Promote(hash) else GiveBack)
    {
      hide GatewayWorker.Running, Outside, Run, StepHandler, ClaimStep, MineStep;
      AwaitOthers(m, queue, Await(hash));
      ghost var before := world.Now();
      ok := m.out == Returned && hash < |world.txs| && world.txs[hash].status == Success;
      var out := if ok then Returned else Lost;
      MoveTo(queue, if ok then Promote(hash) else GiveBack);
      world.Record(WorkerStep(id, out), before);
    }

    method PromoteSettlement(queue: seq<Job>, hash: TxHash, m: Moment) returns (ok: bool)
      requires world.Valid() && queue != [] && At(queue, Promote(hash)) && Foreign(m.before, id)
      requires Running() && Outside(m.signals)
      modifies this, world, world.ledger
      ensures Running() && bodies == old(bodies) && log == old(log) + m.signals
      ensures world.Valid() && world.origin == old(world.origin)
      ensures world.history == old(world.history) + m.before + [WorkerStep(id, m.out)]
      ensures Met(old(world.history), m, ok)
      ensures ok == (m.out == Returned) && At(queue, if ok then Log(hash) else GiveBack)
    {
      hide GatewayWorker.Running, Outside, Run, StepHandler, ClaimStep, MineStep;
      AwaitOthers(m, queue, Promote(hash));
      ghost var before := world.Now();
      if m.out != Lost { world.ledger.PromoteSettlement(queue[0].transfer.settlement, hash, world.clock); }
      ok := m.out == Returned;
      MoveTo(queue, if ok then Log(hash) else GiveBack);
      world.Record(WorkerStep(id, m.out), before);
    }

    method LogOnchainTx(queue: seq<Job>, hash: TxHash, m: Moment) returns (ok: bool)
      requires world.Valid() && queue != [] && At(queue, Log(hash)) && Foreign(m.before, id)
      requires Running() && Outside(m.signals)
      modifies this, world, world.ledger
      ensures Running() && bodies == old(bodies) && log == old(log) + m.signals
      ensures world.Valid() && world.origin == old(world.origin)
      ensures world.history == old(world.history) + m.before + [WorkerStep(id, m.out)]
      ensures Met(old(world.history), m, ok)
      ensures ok == (m.out == Returned) && At(queue, if ok then Finish(hash) else GiveBack)
    {
      hide GatewayWorker.Running, Outside, Run, StepHandler, ClaimStep, MineStep;
      AwaitOthers(m, queue, Log(hash));
      ghost var before := world.Now();
      var t := queue[0].transfer;
      if m.out != Lost { world.ledger.LogOnchainTx(hash, OnchainRow(chain, t.from, t.to, t.value)); }
      ok := m.out == Returned;
      MoveTo(queue, if ok then Finish(hash) else GiveBack);
      world.Record(WorkerStep(id, m.out), before);
    }

    /** Where the worker is after the job at the head of its queue. */
    ghost predicate AtNext(queue: seq<Job>)
      requires queue != []
      reads world
    {
      if |queue| == 1 then At([], Idle) else At(queue[1..], Send)
    }

    method NextInQueue(queue: seq<Job>)
      requires queue != [] && id in world.workers
      modifies world`workers
      ensures AtNext(queue) && world.workers == old(world.workers)[id := world.workers[id]]
    {
      if |queue| == 1 { MoveTo([], Idle); } else { MoveTo(queue[1..], Send); }
    }

    method MarkDone(queue: seq<Job>, hash: TxHash, m: Moment) returns (ok: bool)
      requires world.Valid() && queue != [] && At(queue, Finish(hash)) && Foreign(m.before, id)
      requires Running() && Outside(m.signals)
      modifies this, world, world.ledger
      ensures Running() && bodies == old(bodies) && log == old(log) + m.signals
      ensures world.Valid() && world.origin == old(world.origin)
      ensures world.history == old(world.history) + m.before + [WorkerStep(id, m.out)]
      ensures Met(old(world.history), m, ok)
      ensures ok == (m.out == Returned) && (if ok then AtNext(queue) else At(queue, GiveBack))
      ensures ok && Initial(world.origin) ==> DoneAndClosed(world.Now(), queue[0].id)
    {
      hide GatewayWorker.Running, Outside, Initial, DoneAndClosed, Run, StepHandler, ClaimStep, MineStep;
      AwaitOthers(m, queue, Finish(hash));
      ghost var before := world.Now();
      if m.out != Lost { world.ledger.MarkOutboxDone(queue[0].id, world.clock); }
      ok := m.out == Returned;
      if ok && Initial(world.origin) { FinishCloses(world.origin, world.history, id); }
      if ok { NextInQueue(queue); } else { MoveTo(queue, GiveBack); }
      world.Record(WorkerStep(id, m.out), before);
    }

    method MarkFailed(queue: seq<Job>, m: Moment) returns (ok: bool)
      requires world.Valid() && queue != [] && At(queue, GiveBack) && Foreign(m.before, id)
      requires Running() && Outside(m.signals)
      modifies this, world, world.ledger
      ensures Running() && bodies == old(bodies) && log == old(log) + m.signals
      ensures world.Valid() && world.origin == old(world.origin)
      ensures world.history == old(world.history) + m.before + [WorkerStep(id, m.out)]
      ensures Met(old(world.history), m, ok)
      ensures ok == (m.out == Returned)
      ensures if !ok then At([], Idle)
              else if queue[0].attempts + 1 >= MAX_ATTEMPTS then At(queue, HardFail)
              else AtNext(queue)
      ensures ok ==> GivenBack(world.origin, world.history, id, |old(world.history)|, queue[0].id)
    {
      hide GatewayWorker.Running, Outside, Run, StepHandler, ClaimStep, MineStep;
      AwaitOthers(m, queue, GiveBack);
      ghost var before := world.Now();
      if m.out != Lost { world.ledger.MarkOutboxFailed(queue[0].id); }
      ok := m.out == Returned;
      assert ok ==> before.workers[id].queue[0].id == queue[0].id;
      if !ok {
        MoveTo([], Idle);
      } else if queue[0].attempts + 1 >= MAX_ATTEMPTS {
        MoveTo(queue, HardFail);
      } else {
        NextInQueue(queue);
      }
      ghost var j := |world.history|;
      world.Record(WorkerStep(id, m.out), before);
      assert world.history[..j] == old(world.history) + m.before;
      assert ok ==> GivesBack(world.origin, world.history, id, j, queue[0].id);
    }

    method FailSettlement(queue: seq<Job>, m: Moment) returns (ok: bool)
      requires world.Valid() && queue != [] && At(queue, HardFail) && Foreign(m.before, id)
      requires Running() && Outside(m.signals)
      modifies this, world, world.ledger
      ensures Running() && bodies == old(bodies) && log == old(log) + m.signals
      ensures world.Valid() && world.origin == old(world.origin)
      ensures world.history == old(world.history) + m.before + [WorkerStep(id, m.out)]
      ensures Met(old(world.history), m, ok)
      ensures ok == (m.out == Returned) && (if ok then AtNext(queue) else At([], Idle))
    {
      hide GatewayWorker.Running, Outside, Run, StepHandler, ClaimStep, MineStep;
      AwaitOthers(m, queue, HardFail);
      ghost var before := world.Now();
      if m.out != Lost { world.ledger.FailSettlement(queue[0].transfer.settlement); }
      ok := m.out == Returned;
      if ok { NextInQueue(queue); } else { MoveTo([], Idle); }
      world.Record(WorkerStep(id, m.out), before);
    }

    /** The `try` block up to the receipt; None is an exception. */
    method Transact(queue: seq<Job>, oracle: nat -> Moment, k0: nat) returns (hash: Option<TxHash>, k: nat)
      requires world.Valid() && queue != [] && At(queue, Send) && forall i :: Foreign(oracle(i).before, id) && Outside(oracle(i).signals)
      requires Running()
      modifies this, world, world.ledger
      ensures Running() && bodies == old(bodies) && log == old(log) + Heard(oracle, k0, k)
      ensures world.Valid() && world.origin == old(world.origin)
      ensures old(world.history) <= world.history && Went(old(world.history), oracle, k0, k, hash.Some?)
      ensures At(queue, if hash.Some? then Promote(hash.value) else GiveBack)
      ensures hash.Some? ==> hash.value < |world.txs| && world.txs[hash.value].status == Success
      ensures k0 < k <= k0 + 3 && (hash.Some? ==> k == k0 + 3)
    {
      hide GatewayWorker.Running, Outside, Foreign, Run, Apply, World.Valid, World.Now, Story, MetOne, Busy, Heard, GivenBack;
      ghost var h0, origin := world.history, world.origin;
      k := k0 + 1;
      hash := SendTransfer(queue, oracle(k0));
      FirstAwait(origin, h0, id, oracle, k0, hash.Some?, world.history);
      HeardFirst(oracle, k0);
      if hash.None? { return; }
      InTick(queue, Submit(hash.value));
      ghost var h := world.history;
      k := k + 1;
      var ok := MarkSubmitted(queue, hash.value, oracle(k0 + 1));
      NextAwait(origin, h0, h, id, oracle, k0, k0 + 1, ok, world.history);
      HeardMore(old(log), oracle, k0, k0 + 1);
      if !ok { return None, k; }
      InTick(queue, Await(hash.value));
      h := world.history;
      k := k + 1;
      ok := WaitForReceipt(queue, hash.value, oracle(k0 + 2));
      NextAwait(origin, h0, h, id, oracle, k0, k0 + 2, ok, world.history);
      HeardMore(old(log), oracle, k0, k0 + 2);
      if !ok { return None, k; }
    }

    /** The `try` block for the job at the head of the queue. */
    method Settle(queue: seq<Job>, oracle: nat -> Moment, k0: nat) returns (ok: bool, k: nat)
      requires world.Valid() && queue != [] && At(queue, Send) && forall i :: Foreign(oracle(i).before, id) && Outside(oracle(i).signals)
      requires Running()
      modifies this, world, world.ledger
      ensures Running() && bodies == old(bodies) && log == old(log) + Heard(oracle, k0, k)
      ensures world.Valid() && world.origin == old(world.origin)
      ensures old(world.history) <= world.history && Went(old(world.history), oracle, k0, k, ok)
      ensures if ok then AtNext(queue) else At(queue, GiveBack)
      ensures k0 < k <= k0 + 6 && (ok ==> k == k0 + 6)
      ensures ok && Initial(world.origin) ==> DoneAndClosed(world.Now(), queue[0].id)
    {
      hide Initial, DoneAndClosed;
      hide GatewayWorker.Running, Outside, Foreign, Run, Apply, World.Valid, World.Now, Story, MetOne, Busy, Heard, GivenBack;
      ghost var h0, origin := world.history, world.origin;
      var hash;
      hash, k := Transact(queue, oracle, k0);
      if hash.None? { return false, k; }
      InTick(queue, Promote(hash.value));
      ghost var h := world.history;
      k := k + 1;
      ok := PromoteSettlement(queue, hash.value, oracle(k0 + 3));
      NextAwait(origin, h0, h, id, oracle, k0, k0 + 3, ok, world.history);
      HeardMore(old(log), oracle, k0, k0 + 3);
      if !ok { return; }
      InTick(queue, Log(hash.value));
      h := world.history;
      k := k + 1;
      ok := LogOnchainTx(queue, hash.value, oracle(k0 + 4));
      NextAwait(origin, h0, h, id, oracle, k0, k0 + 4, ok, world.history);
      HeardMore(old(log), oracle, k0, k0 + 4);
      if !ok { return; }
      InTick(queue, Finish(hash.value));
      h := world.history;
      k := k + 1;
      ok := MarkDone(queue, hash.value, oracle(k0 + 5));
      NextAwait(origin, h0, h, id, oracle, k0, k0 + 5, ok, world.history);
      HeardMore(old(log), oracle, k0, k0 + 5);
    }

    /** The `catch` block; false when it throws itself, which ends the tick. */
    method Recover(queue: seq<Job>, oracle: nat -> Moment, k0: nat) returns (ok: bool, k: nat)
      requires world.Valid() && queue != [] && At(queue, GiveBack) && forall i :: Foreign(oracle(i).before, id) && Outside(oracle(i).signals)
      requires Running()
      modifies this, world, world.ledger
      ensures Running() && bodies == old(bodies) && log == old(log) + Heard(oracle, k0, k)
      ensures world.Valid() && world.origin == old(world.origin)
      ensures old(world.history) <= world.history && Went(old(world.history), oracle, k0, k, ok)
      ensures if ok then AtNext(queue) else At([], Idle)
      ensures k0 < k <= k0 + 2
      ensures ok ==> GivenBack(world.origin, world.history, id, |old(world.history)|, queue[0].id)
    {
      hide GatewayWorker.Running, Outside, Foreign, Run, Apply, World.Valid, World.Now, Story, MetOne, Busy, Heard, GivenBack;
      ghost var h0, origin := world.history, world.origin;
      k := k0 + 1;
      ok := MarkFailed(queue, oracle(k0));
      FirstAwait(origin, h0, id, oracle, k0, ok, world.history);
      HeardFirst(oracle, k0);
      if ok && queue[0].attempts + 1 >= MAX_ATTEMPTS {
        InTick(queue, HardFail);
        ghost var h := world.history;
        k := k + 1;
        ok := FailSettlement(queue, oracle(k0 + 1));
        NextAwait(origin, h0, h, id, oracle, k0, k0 + 1, ok, world.history);
        HeardMore(old(log), oracle, k0, k0 + 1);
        GivenBackStays(origin, h, world.history, id, |h0|, queue[0].id);
      }
    }

    /** The drain pass that starts at history `h`: the claim and all that follows it, up
        to the first moment the worker is idle again; it throws exactly if its last call does. */
    ghost predicate Drained(h: seq<Event>, oracle: nat -> Moment, k: nat, threw: bool)
      reads world
    {
      k >= 2 && world.history == Along(world.origin, h, id, oracle, 1, k) &&
      (forall n | 2 <= n < k :: Busy(Run(world.origin, Along(world.origin, h, id, oracle, 1, n)), id)) &&
      threw == !Returns(world.origin, h, id, oracle, 1, k - 1)
    }

    /** What became of the rows of a claim that returned, from empty tables: the first
        `handled` of them are done and closed or were given back, and these are all
        unless a catch block threw; if no call threw, none is claimable any more. */
    ghost predicate RowsHandled(h: seq<Event>, oracle: nat -> Moment, k: nat, handled: nat, threw: bool)
      reads world, world.ledger
    {
      oracle(1).out == Returned && Initial(world.origin) ==>
        var ids := Run(world.origin, h + oracle(1).before).db.SelectUndone(0, oracle(1).locked, batchSize);
        handled <= |ids| && (threw <==> handled < |ids|) &&
        (forall i | 0 <= i < handled :: Handled(world.origin, world.history, id, |h|, ids[i])) &&
        ((forall j | 1 <= j < k :: Returns(world.origin, h, id, oracle, 1, j)) ==>
           forall o | o in ids :: DoneAndClosed(world.Now(), o) && !world.ledger.State().Claimable(o))
    }

    /** A tick that was not busy, from history `h`: the statistics query, then, if it
        returned and there is a relayer key, the drain pass. */
    ghost predicate Ticked(h: seq<Event>, oracle: nat -> Moment, k: nat, handled: nat, threw: bool)
      reads world, world.ledger
    {
      if oracle(0).out != Returned || !hasRelayerKey
      then k == 1 && world.history == h + oracle(0).before && threw == (oracle(0).out != Returned)
      else Drained(h + oracle(0).before, oracle, k, threw) && RowsHandled(h + oracle(0).before, oracle, k, handled, threw)
    }

    /** The signals of that tick's body: those met at its awaits, and the idle notice
        of a worker without a relayer key. */
    function BodySignals(oracle: nat -> Moment, k: nat, now: int): seq<Signal>
    {
      Heard(oracle, 0, k) + if oracle(0).out == Returned && !hasRelayerKey then [IdleNotice(now)] else []
    }

    /** One drain pass. `oracle(k)` is what meets the k-th await; nothing is known
        of it but that nobody else moves this worker or ends its tick. `entry` is the
        signal that led here: a timer that fired, or a call by hand. */
    method Tick(oracle: nat -> Moment, now: int, caller: Caller, ghost entry: Signal)
      returns (threw: bool, ghost k: nat, ghost handled: nat)
      requires world.Valid() && (busy || At([], Idle))
      requires forall i :: Foreign(oracle(i).before, id) && Outside(oracle(i).signals)
      requires Steps(FRESH, log + [entry]) == Enter(Timing(), caller)
      modifies this, world, world.ledger
      ensures world.Valid() && world.origin == old(world.origin) && old(world.history) <= world.history
      ensures Timed() && busy == old(busy)
      ensures old(busy) ==> !threw && log == old(log) + [entry] &&
                            world.Now() == old(world.Now()) && world.history == old(world.history)
      ensures !old(busy) ==> At([], Idle) && Ticked(old(world.history), oracle, k, handled, threw)
      ensures !old(busy) && hasRelayerKey && oracle(0).out == Returned ==>
                old(world.history) + oracle(0).before + oracle(1).before + [Event.Claim(id, oracle(1).locked, oracle(1).out)] <= world.history
      ensures !old(busy) ==> log == old(log) + [entry] + BodySignals(oracle, k, now) + [BodyEnds(0)]
    {
      hide Run, Apply, World.Valid, World.Now, GatewayWorker.Ticked, Foreign, Outside, Steps;
      k, handled := 0, 0;
      if busy {
        if caller == Loop { resuming := resuming + 1; }
        log := log + [entry];
        return false, 0, 0;
      }
      OneBodyAtATime(log + [entry]);
      busy, bodies, log := true, bodies + [caller], log + [entry];
      threw, k, handled := Body(oracle, now);
      EndBody();  // finally
    }

    method EndBody()
      requires Running()
      modifies this
      ensures Timed() && !busy && log == old(log) + [BodyEnds(0)]
    {
      hide Steps;
      ghost var before := Timing();
      if bodies[0] == Loop { resuming := resuming + 1; }
      busy, bodies := false, [];
      Note(BodyEnds(0), before);
    }

    /** A polling timer goes off: the loop ends if the worker is stopped, else it ticks. */
    method TimerFires(h: nat, oracle: nat -> Moment, now: int) returns (ghost k: nat, ghost handled: nat, ghost threw: bool)
      requires Timed() && h in timers && world.Valid() && (busy || At([], Idle))
      requires forall i :: Foreign(oracle(i).before, id) && Outside(oracle(i).signals)
      modifies this, world, world.ledger
      ensures world.Valid() && world.origin == old(world.origin) && old(world.history) <= world.history
      ensures Timed() && busy == old(busy)
      ensures old(stopped) || old(busy) ==> world.Now() == old(world.Now()) && log == old(log) + [Fire(h)]
      ensures !old(stopped) && !old(busy) ==> At([], Idle) && Ticked(old(world.history), oracle, k, handled, threw)
      ensures !old(stopped) && !old(busy) ==> log == old(log) + [Fire(h)] + BodySignals(oracle, k, now) + [BodyEnds(0)]
    {
      hide Run, Apply, World.Valid, World.Now, GatewayWorker.Ticked, Foreign, Outside, Steps;
      k, handled, threw := 0, 0, false;
      ghost var before := Timing();
      OneStep(FRESH, log, Fire(h));
      timers := timers - {h};
      if stopped {
        Note(Fire(h), before);
      } else {
        var failed;
        failed, k, handled := Tick(oracle, now, Loop, Fire(h));
        threw := failed;
      }
    }

    /** Without a relayer key: a notice, at most once a minute. */
    method NoticeIfDue(now: int)
      requires Running()
      modifies this
      ensures Running() && bodies == old(bodies) && log == old(log) + [IdleNotice(now)]
    {
      hide Steps;
      ghost var before := Timing();
      if now - idleNoticeAt > NOTICE_GAP { idleNoticeAt, notices := now, notices + [now]; }
      Note(IdleNotice(now), before);
    }

    /** The guarded part of `tick`. */
    method Body(oracle: nat -> Moment, now: int) returns (threw: bool, ghost k: nat, ghost handled: nat)
      requires world.Valid() && At([], Idle) && forall i :: Foreign(oracle(i).before, id) && Outside(oracle(i).signals)
      requires Running()
      modifies this, world, world.ledger
      ensures Running() && bodies == old(bodies) && log == old(log) + BodySignals(oracle, k, now)
      ensures world.Valid() && world.origin == old(world.origin) && At([], Idle)
      ensures old(world.history) <= world.history && Ticked(old(world.history), oracle, k, handled, threw)
      ensures hasRelayerKey && oracle(0).out == Returned ==>
                old(world.history) + oracle(0).before + oracle(1).before + [Event.Claim(id, oracle(1).locked, oracle(1).out)] <= world.history
    {
      hide GatewayWorker.Running, GatewayWorker.Timed, Outside, Run, Apply, World.Valid, World.Now, GatewayWorker.Drained;
      hide GatewayWorker.RowsHandled, Heard, Foreign;
      k, handled := 1, 0;
      threw := oracle(0).out != Returned;
      AwaitOthers(oracle(0), [], Idle);  // the statistics query
      HeardFirst(oracle, 0);
      if threw { return; }
      if hasRelayerKey {
        threw, k, handled := DrainOnce(oracle);
        HeardJoins(oracle, 0, 1, k);
      } else {
        NoticeIfDue(now);
      }
    }

    /** The try and catch blocks of one job, the `i`-th claimed. */
    method HandleJob(queue: seq<Job>, oracle: nat -> Moment, k0: nat, ghost h: seq<Event>, ghost ids: seq<nat>, ghost i: nat, ghost clean: bool)
      returns (alive: bool, k: nat, ghost stillClean: bool)
      requires world.Valid() && queue != [] && At(queue, Send) && forall i :: Foreign(oracle(i).before, id) && Outside(oracle(i).signals)
      requires Running() && i < |ids| && queue[0].id == ids[i]
      requires LoopOk(world.origin, h, id, oracle, k0, ids, i, true, clean, world.history)
      modifies this, world, world.ledger
      ensures Running() && bodies == old(bodies) && k0 < k && log == old(log) + Heard(oracle, k0, k)
      ensures world.Valid() && world.origin == old(world.origin) && old(world.history) <= world.history
      ensures if alive then AtNext(queue) else At([], Idle)
      ensures LoopOk(world.origin, h, id, oracle, k, ids, i + 1, alive, stillClean, world.history)
    {
      hide GatewayWorker.Running, Outside, Foreign, Run, Apply, World.Valid, World.Now, Initial, DoneAndClosed, Story, LoopOk, Busy, Heard, GivenBack;
      ghost var mid, origin := world.history, world.origin;
      InTick(queue, Send);
      stillClean := clean;
      alive, k := Settle(queue, oracle, k0);
      NowIsRun();
      if alive {
        LoopSettled(origin, h, mid, id, oracle, k0, k, ids, i, clean, world.history);
      } else {
        InTick(queue, GiveBack);
        ghost var failed, k1 := world.history, k;
        alive, k := Recover(queue, oracle, k);
        HeardJoins(oracle, k0, k1, k);
        LoopRecovered(origin, h, mid, failed, id, oracle, k0, k1, k, ids, i, clean, alive, world.history);
        stillClean := false;
      }
    }

    lemma {:induction false} NowIsRun()
      requires world.Valid()
      ensures world.Now() == Run(world.origin, world.history)
    {
      hide Run;
    }

    /** The part of a tick with a relayer key: claim, then the loop over the claimed jobs. */
    method DrainOnce(oracle: nat -> Moment) returns (threw: bool, ghost k: nat, ghost handled: nat)
      requires world.Valid() && At([], Idle) && hasRelayerKey && forall i :: Foreign(oracle(i).before, id) && Outside(oracle(i).signals)
      requires Running()
      modifies this, world, world.ledger
      ensures Running() && bodies == old(bodies) && log == old(log) + Heard(oracle, 1, k)
      ensures world.Valid() && At([], Idle) && world.origin == old(world.origin) && old(world.history) <= world.history
      ensures old(world.history) + oracle(1).before + [Event.Claim(id, oracle(1).locked, oracle(1).out)] <= world.history
      ensures k >= 2 && Drained(old(world.history), oracle, k, threw)
      ensures RowsHandled(old(world.history), oracle, k, handled, threw)
    {
      hide GatewayWorker.Running, Outside, Foreign, Run, Apply, World.Valid, Initial, DoneAndClosed, MetOne, Story, LoopOk, Busy, Heard;
      hide GatewayWorker.Drained, GatewayWorker.RowsHandled, GivenBack, Tables.SelectUndone;
      ghost var h, origin := world.history, world.origin;
      var claim := Claim(oracle(1));
      ghost var ids := Run(origin, h + oracle(1).before).db.SelectUndone(0, oracle(1).locked, batchSize);
      ghost var claims := world.history;
      k, handled := 2, 0;
      LoopStarts(origin, h, id, oracle, ids, claim.Some?, world.history);
      HeardFirst(oracle, 1);
      if claim.None? || claim.value == [] {
        DrainEnds(h, oracle, 2, ids, 0, claim.Some?, claim.Some?);
        return claim.None?, k, handled;
      }
      var claimed := claim.value;
      var await, i, alive := 2, 0, true;
      ghost var clean := true;
      while i < |claimed| && alive
        invariant Running() && bodies == old(bodies) && await >= 2 && log == old(log) + Heard(oracle, 1, await)
        invariant i <= |claimed| == |ids| && (!alive ==> i > 0) && world.Valid() && world.origin == origin && claims <= world.history
        invariant if alive && i < |claimed| then At(claimed[i..], Send) else At([], Idle)
        invariant LoopOk(origin, h, id, oracle, await, ids, i, alive, clean, world.history)
        decreases |claimed| - i
      {
        var queue := claimed[i..];
        assert Ids(claimed)[i] == ids[i] == queue[0].id;
        ghost var k0 := await;
        alive, await, clean := HandleJob(queue, oracle, await, h, ids, i, clean);
        HeardJoins(oracle, 1, k0, await);
        i := i + 1;
        assert |queue| > 1 ==> queue[1..] == claimed[i..];
      }
      threw, k, handled := !alive, await, if alive then i else i - 1;
      DrainEnds(h, oracle, k, ids, i, alive, clean);
    }

    lemma {:induction false} DrainEnds(h: seq<Event>, oracle: nat -> Moment, k: nat, ids: seq<nat>, i: nat, alive: bool, clean: bool)
      requires world.Valid() && i <= |ids| && (alive ==> i == |ids| || oracle(1).out != Returned)
      requires ids == Run(world.origin, h + oracle(1).before).db.SelectUndone(0, oracle(1).locked, batchSize)
      requires (!alive ==> i > 0 || oracle(1).out != Returned) && LoopOk(world.origin, h, id, oracle, k, ids, i, alive, clean, world.history)
      ensures k >= 2 && Drained(h, oracle, k, !alive)
      ensures RowsHandled(h, oracle, k, if alive then i else if i > 0 then i - 1 else 0, !alive)
    {
      hide Run, Initial, CallAt, OutcomeAt, GivenBack, Along;
    }
  }
}
