// When a gateway worker runs: `start`, `stop`, the polling timer and the `busy`
// flag, as a state machine over every order in which the runtime may deliver
// timers, manual ticks, ends of ticks and operator calls.
module WorkerLoop {
  import opened Prelude

  const NOTICE_GAP := 60_000

  /** Who called `tick`: a polling loop, which will schedule itself again, or hand-written code. */
  datatype Caller = Loop | Hand

  /** `timer`, `stopped`, `busy` and `idleNoticeAt` are the worker's fields. The
      rest is the runtime's: timers not yet fired, tick bodies under way, loops
      whose tick has returned, and the idle notices emitted so far. */
  datatype Schedule = Schedule(timer: Option<nat>, stopped: bool, busy: bool, idleNoticeAt: int,
                               timers: set<nat>, nextTimer: nat, bodies: seq<Caller>, resuming: nat, notices: seq<int>)

  const FRESH := Schedule(None, false, false, 0, {}, 0, [], 0, [])

  datatype Signal =
    | Start
    | Stop
    | Fire(handle: nat)
    | TickByHand
    | IdleNotice(now: int)   // a body that finds no relayer key
    | BodyEnds(index: nat)
    | Resume                 // a loop continues after its tick

  function SetTimeout(s: Schedule): Schedule
  {
    s.(timer := Some(s.nextTimer), timers := s.timers + {s.nextTimer}, nextTimer := s.nextTimer + 1)
  }

  /** The head of `tick`: return at once when busy. */
  function Enter(s: Schedule, c: Caller): Schedule
  {
    if !s.busy then s.(busy := true, bodies := s.bodies + [c]) else Leave(s, c)
  }

  function Leave(s: Schedule, c: Caller): Schedule { if c == Loop then s.(resuming := s.resuming + 1) else s }

  function Step(s: Schedule, e: Signal): Schedule
  {
    match e
    case Start => if s.timer.Some? then s else SetTimeout(s.(stopped := false))
    case Stop =>
      if s.timer.None? then s.(stopped := true)
      else s.(stopped := true, timers := s.timers - {s.timer.value}, timer := None)
    case Fire(h) =>
      if h !in s.timers then s
      else if s.stopped then s.(timers := s.timers - {h})
      else Enter(s.(timers := s.timers - {h}), Loop)
    case TickByHand => Enter(s, Hand)
    case IdleNotice(now) =>
      if s.bodies == [] || now - s.idleNoticeAt <= NOTICE_GAP then s
      else s.(idleNoticeAt := now, notices := s.notices + [now])
    case BodyEnds(i) =>
      if i >= |s.bodies| then s
      else Leave(s.(busy := false, bodies := s.bodies[..i] + s.bodies[i + 1..]), s.bodies[i])
    case Resume =>
      if s.resuming == 0 then s
      else if s.stopped then s.(resuming := s.resuming - 1)
      else SetTimeout(s.(resuming := s.resuming - 1))
  }

  function Steps(s: Schedule, es: seq<Signal>): Schedule
  {
    if es == [] then s else Step(Steps(s, es[..|es| - 1]), es[|es| - 1])
  }

  /** At most one tick body runs at a time, whatever is started, stopped, fired or
      called by hand, and `busy` says exactly whether one runs. */
  lemma {:induction false} OneBodyAtATime(es: seq<Signal>)
    ensures var s := Steps(FRESH, es); |s.bodies| <= 1 && (s.busy <==> |s.bodies| == 1)
    decreases |es|
  {
    if es != [] { OneBodyAtATime(es[..|es| - 1]); }
  }

  ghost predicate NoticesOk(s: Schedule)
  {
    (forall i, j | 0 <= i < j < |s.notices| :: s.notices[j] - s.notices[i] > 60_000) &&
    (if s.notices == [] then s.idleNoticeAt == 0 else s.idleNoticeAt == s.notices[|s.notices| - 1])
  }

  /** Any two idle notices are more than a minute apart, whatever the clock does. */
  lemma {:induction false} NoticesAreApart(es: seq<Signal>)
    ensures NoticesOk(Steps(FRESH, es))
    decreases |es|
  {
    hide Step;
    if es != [] {
      NoticesAreApart(es[..|es| - 1]);
      NoticeStep(Steps(FRESH, es[..|es| - 1]), es[|es| - 1]);
    }
  }

  lemma {:induction false} NoticeStep(s: Schedule, e: Signal)
    requires NoticesOk(s)
    ensures NoticesOk(Step(s, e))
  {
  }

  /** A body without a relayer key gives notice exactly when more than a minute has
      passed since the last one. */
  lemma {:induction false} NoticeExactly(s: Schedule, now: int)
    requires s.bodies != []
    ensures var t := Step(s, IdleNotice(now));
            if now - s.idleNoticeAt > 60_000 then t == s.(idleNoticeAt := now, notices := s.notices + [now]) else t == s
  {
  }

  // ---- what the running body can rely on ----

  /** Signals that do not come from the body under way. */
  ghost predicate Outside(es: seq<Signal>)
  {
    forall i | 0 <= i < |es| :: !es[i].BodyEnds? && !es[i].IdleNotice?
  }

  lemma {:induction false} StepsConcat(s: Schedule, a: seq<Signal>, b: seq<Signal>)
    ensures Steps(s, a + b) == Steps(Steps(s, a), b)
    decreases |b|
  {
    if b == [] {
      assert a + b == a;
    } else {
      assert (a + b)[..|a + b| - 1] == a + b[..|b| - 1];
      StepsConcat(s, a, b[..|b| - 1]);
    }
  }

  lemma {:induction false} OneStep(s: Schedule, a: seq<Signal>, e: Signal)
    ensures Steps(s, a + [e]) == Step(Steps(s, a), e)
  {
    assert (a + [e])[..|a|] == a;
  }

  /** While a body runs nothing from outside starts, ends or replaces it. */
  lemma {:induction false} BodyKeepsRunning(s: Schedule, es: seq<Signal>)
    requires s.busy && Outside(es)
    ensures var t := Steps(s, es);
            t.busy && t.bodies == s.bodies && t.idleNoticeAt == s.idleNoticeAt && t.notices == s.notices
    decreases |es|
  {
    hide Step;
    if es != [] {
      BodyKeepsRunning(s, es[..|es| - 1]);
      OutsideStep(Steps(s, es[..|es| - 1]), es[|es| - 1]);
    }
  }

  lemma {:induction false} OutsideStep(s: Schedule, e: Signal)
    requires s.busy && !e.BodyEnds? && !e.IdleNotice?
    ensures var t := Step(s, e);
            t.busy && t.bodies == s.bodies && t.idleNoticeAt == s.idleNoticeAt && t.notices == s.notices
  {
  }

  // ---- live loops ----

  function LoopBodies(bodies: seq<Caller>): nat
  {
    if bodies == [] then 0
    else LoopBodies(bodies[..|bodies| - 1]) + if bodies[|bodies| - 1] == Loop then 1 else 0
  }

  /** Polling loops that may still call `tick`. */
  function LiveLoops(s: Schedule): nat { |s.timers| + s.resuming + LoopBodies(s.bodies) }

  function CountStarts(es: seq<Signal>): nat
  {
    if es == [] then 0 else CountStarts(es[..|es| - 1]) + if es[|es| - 1] == Start then 1 else 0
  }

  ghost predicate TimersKnown(s: Schedule)
  {
    (forall h | h in s.timers :: h < s.nextTimer) && (s.timer.Some? ==> s.timer.value < s.nextTimer) &&
    |s.bodies| <= 1 && (s.busy <==> |s.bodies| == 1)
  }

  /** A step adds a loop exactly when it is a `start` that finds no timer set, and
      then one; a timer that fires on a stopped worker ends its loop. */
  lemma {:induction false} LoopsAddedByStartOnly(s: Schedule, e: Signal)
    requires TimersKnown(s)
    ensures TimersKnown(Step(s, e))
    ensures LiveLoops(Step(s, e)) > LiveLoops(s) <==> e == Start && s.timer.None?
    ensures LiveLoops(Step(s, e)) <= LiveLoops(s) + 1
    ensures s.stopped && e.Fire? && e.handle in s.timers ==> LiveLoops(Step(s, e)) == LiveLoops(s) - 1
    ensures s.stopped && e != Start && e != TickByHand ==> |Step(s, e).bodies| <= |s.bodies|
  {
    hide LoopBodies;
    match e
    case Start => OneMoreTimer(s);
    case Stop => if s.timer.Some? { OneTimerLess(s.timers, s.timer.value); }
    case Fire(h) =>
      OneTimerLess(s.timers, h);
      BodiesOfOne(s.bodies, Loop);
    case TickByHand => BodiesOfOne(s.bodies, Hand);
    case IdleNotice(_) =>
    case BodyEnds(i) => BodyEndsMovesLoop(s, i);
    case Resume => OneMoreTimer(s);
  }

  /** And it takes one away exactly when a stop cancels the timer last set, or a stopped
      worker's loop comes to its next move. */
  lemma {:induction false} LoopsEndExactly(s: Schedule, e: Signal)
    requires TimersKnown(s)
    ensures LiveLoops(Step(s, e)) < LiveLoops(s) <==>
              (e == Stop && s.timer.Some? && s.timer.value in s.timers) ||
              (s.stopped && ((e.Fire? && e.handle in s.timers) || (e == Resume && s.resuming > 0)))
    ensures LiveLoops(Step(s, e)) >= LiveLoops(s) - 1
  {
    hide LoopBodies;
    match e
    case Start => OneMoreTimer(s);
    case Stop => if s.timer.Some? { OneTimerLess(s.timers, s.timer.value); }
    case Fire(h) =>
      OneTimerLess(s.timers, h);
      BodiesOfOne(s.bodies, Loop);
    case TickByHand => BodiesOfOne(s.bodies, Hand);
    case IdleNotice(_) =>
    case BodyEnds(i) => BodyEndsMovesLoop(s, i);
    case Resume => OneMoreTimer(s);
  }

  /** A stop cancels the timer last set and no other; a start that finds none set sets a
      new one and clears the stop. */
  lemma {:induction false} StopAndStart(s: Schedule)
    requires TimersKnown(s)
    ensures var t := Step(s, Stop);
            t == s.(stopped := true, timer := None, timers := s.timers - if s.timer.Some? then {s.timer.value} else {})
    ensures var t := Step(s, Start);
            if s.timer.Some? then t == s
            else !t.stopped && t.timer.Some? && t.timer.value !in s.timers && t.timers == s.timers + {t.timer.value} &&
                 t == s.(stopped := false, timer := t.timer, timers := t.timers, nextTimer := t.nextTimer)
  {
  }

  /** A timer that fires on a running, idle worker begins a tick of its loop; when the
      loop moves on after it, it sets its next timer. */
  lemma {:induction false} LoopTicksAndResumes(s: Schedule, h: nat)
    requires TimersKnown(s) && !s.stopped
    ensures h in s.timers && !s.busy ==> Step(s, Fire(h)) == s.(timers := s.timers - {h}, busy := true, bodies := [Loop])
    ensures h in s.timers && s.busy ==> Step(s, Fire(h)) == s.(timers := s.timers - {h}, resuming := s.resuming + 1)
    ensures s.bodies == [Loop] ==> Step(s, BodyEnds(0)) == s.(busy := false, bodies := [], resuming := s.resuming + 1)
    ensures s.resuming > 0 ==>
              var t := Step(s, Resume);
              t.resuming == s.resuming - 1 && t.timer.Some? && t.timer.value !in s.timers && t.timers == s.timers + {t.timer.value}
  {
  }

  /** A stopped worker stays stopped until it is started: no loop begins a tick or sets a timer. */
  lemma {:induction false} StoppedUntilStart(s: Schedule, es: seq<Signal>)
    requires s.stopped && Start !in es
    ensures var t := Steps(s, es);
            t.stopped && t.timers <= s.timers && LoopBodies(t.bodies) <= LoopBodies(s.bodies)
    decreases |es|
  {
    hide Step, LoopBodies;
    if es != [] {
      var init, e := es[..|es| - 1], es[|es| - 1];
      assert e in es && forall x | x in init :: x in es;
      StoppedUntilStart(s, init);
      StoppedStep(Steps(s, init), e);
    }
  }

  lemma {:induction false} StoppedStep(s: Schedule, e: Signal)
    requires s.stopped && e != Start
    ensures Step(s, e).stopped && Step(s, e).timers <= s.timers && LoopBodies(Step(s, e).bodies) <= LoopBodies(s.bodies)
  {
    match e
    case TickByHand => assert (s.bodies + [Hand])[..|s.bodies|] == s.bodies;
    case BodyEnds(i) => if i < |s.bodies| { FewerBodies(s.bodies, i); }
    case _ =>
  }

  lemma {:induction false} FewerBodies(bodies: seq<Caller>, i: nat)
    requires i < |bodies|
    ensures LoopBodies(bodies[..i] + bodies[i + 1..]) <= LoopBodies(bodies)
    decreases |bodies|
  {
    var n := |bodies| - 1;
    if i == n {
      assert bodies[..i] + bodies[i + 1..] == bodies[..n];
    } else {
      FewerBodies(bodies[..n], i);
      var less := bodies[..i] + bodies[i + 1..];
      assert less[..|less| - 1] == bodies[..n][..i] + bodies[..n][i + 1..] && less[|less| - 1] == bodies[n];
    }
  }

  /** The loop of a body that ends is the loop that resumes. */
  lemma {:induction false} BodyEndsMovesLoop(s: Schedule, i: nat)
    requires TimersKnown(s)
    ensures var t := Step(s, BodyEnds(i));
            TimersKnown(t) && LiveLoops(t) == LiveLoops(s) && |t.bodies| <= |s.bodies|
  {
  }

  lemma {:induction false} OneMoreTimer(s: Schedule)
    requires TimersKnown(s)
    ensures |s.timers + {s.nextTimer}| == |s.timers| + 1
  {
  }

  lemma {:induction false} OneTimerLess(timers: set<nat>, h: nat)
    ensures |timers - {h}| == |timers| - if h in timers then 1 else 0
  {
  }

  lemma {:induction false} BodiesOfOne(bodies: seq<Caller>, c: Caller)
    requires |bodies| <= 1
    ensures bodies == [] ==> LoopBodies(bodies) == 0
    ensures LoopBodies(bodies + [c]) == LoopBodies(bodies) + if c == Loop then 1 else 0
    ensures |bodies| == 1 && c == bodies[0] ==> bodies == [c] && [] + [c] == [c]
    ensures bodies == [] ==> bodies + [c] == [c]
  {
  }

  /** At every moment at most as many loops are live as `start` was called. */
  lemma {:induction false} LoopsAtMostStarts(es: seq<Signal>)
    ensures TimersKnown(Steps(FRESH, es)) && LiveLoops(Steps(FRESH, es)) <= CountStarts(es)
    decreases |es|
  {
    if es != [] {
      LoopsAtMostStarts(es[..|es| - 1]);
      LoopsAddedByStartOnly(Steps(FRESH, es[..|es| - 1]), es[|es| - 1]);
    }
  }

  /** A stop and a start during a tick leave two loops polling; only `busy` keeps
      their bodies apart. */
  lemma {:induction false} TwoLoopsCanLive()
    ensures var s := Steps(FRESH, [Start, Fire(0), Stop, Start, BodyEnds(0), Resume]);
            !s.stopped && s.timers == {1, 2} && LiveLoops(s) == 2
  {
    var a := Steps(FRESH, [Start]);
    assert [Start][..0] == [];
    var b := Steps(FRESH, [Start, Fire(0)]);
    assert [Start, Fire(0)][..1] == [Start];
    var c := Steps(FRESH, [Start, Fire(0), Stop]);
    assert [Start, Fire(0), Stop][..2] == [Start, Fire(0)];
    var d := Steps(FRESH, [Start, Fire(0), Stop, Start]);
    assert [Start, Fire(0), Stop, Start][..3] == [Start, Fire(0), Stop];
    var f := Steps(FRESH, [Start, Fire(0), Stop, Start, BodyEnds(0)]);
    assert [Start, Fire(0), Stop, Start, BodyEnds(0)][..4] == [Start, Fire(0), Stop, Start];
    var es := [Start, Fire(0), Stop, Start, BodyEnds(0), Resume];
    assert es[..5] == [Start, Fire(0), Stop, Start, BodyEnds(0)];
    assert f.timers == {1} && f.resuming == 1 && f.bodies == [];
    assert Steps(FRESH, es) == Step(f, Resume);
  }

  // ---- when one loop polls ----

  /** A tick that a polling loop called has not been followed by the loop's next move. */
  predicate LoopInTick(s: Schedule) { s.resuming > 0 || Loop in s.bodies }

  /** After every prefix at most one loop is live. */
  ghost predicate OneLoopThroughout(es: seq<Signal>)
  {
    LiveLoops(Steps(FRESH, es)) <= 1 && (es != [] ==> OneLoopThroughout(es[..|es| - 1]))
  }

  /** No start takes effect while a stopped loop's tick is still running. */
  ghost predicate CarefulStarts(es: seq<Signal>)
  {
    es != [] ==>
      CarefulStarts(es[..|es| - 1]) &&
      var s := Steps(FRESH, es[..|es| - 1]);
      (es[|es| - 1] == Start && s.timer.None? ==> !LoopInTick(s))
  }

  /** The only timer that can still fire is the one the worker stored. */
  predicate StoredTimerOnly(s: Schedule) { forall h | h in s.timers :: s.timer == Some(h) }

  /** One loop polls throughout exactly when nobody restarts the worker while a
      stopped loop's tick is still running. */
  lemma {:induction false} OneLoopExactly(es: seq<Signal>)
    ensures OneLoopThroughout(es) <==> CarefulStarts(es)
    ensures OneLoopThroughout(es) ==> StoredTimerOnly(Steps(FRESH, es))
    decreases |es|
  {
    hide Step, LiveLoops, LoopInTick, StoredTimerOnly;
    if es == [] {
      FreshLoops();
    } else {
      var s, e := Steps(FRESH, es[..|es| - 1]), es[|es| - 1];
      OneLoopExactly(es[..|es| - 1]);
      LoopsAtMostStarts(es[..|es| - 1]);
      LoopsAddedByStartOnly(s, e);
      if OneLoopThroughout(es[..|es| - 1]) {
        if e == Start && s.timer.None? { LoopsWithoutTimer(s); }
        if LiveLoops(Step(s, e)) <= 1 { KeepsStoredTimer(s, e); }
      }
    }
  }

  lemma {:induction false} FreshLoops()
    ensures LiveLoops(FRESH) == 0 && StoredTimerOnly(FRESH) && Steps(FRESH, []) == FRESH
  {
  }

  /** With no timer stored, a loop is live exactly if it is in a tick. */
  lemma {:induction false} LoopsWithoutTimer(s: Schedule)
    requires TimersKnown(s) && StoredTimerOnly(s) && s.timer.None?
    ensures LiveLoops(s) > 0 <==> LoopInTick(s)
    ensures LiveLoops(Step(s, Start)) == LiveLoops(s) + 1
  {
    assert s.timers == {};
    OneMoreTimer(s);
    BodiesOfOne([], if s.bodies == [] then Hand else s.bodies[0]);
  }

  lemma {:induction false} KeepsStoredTimer(s: Schedule, e: Signal)
    requires TimersKnown(s) && StoredTimerOnly(s) && LiveLoops(s) <= 1 && LiveLoops(Step(s, e)) <= 1
    ensures StoredTimerOnly(Step(s, e))
  {
    hide LoopBodies;
    match e
    case Start => OneMoreTimer(s);
    case Resume => if s.resuming > 0 { assert |s.timers| == 0; }
    case BodyEnds(i) =>
    case _ =>
  }
}
