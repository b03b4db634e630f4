// The per-connection tick meter: ticks are sent by a timer that does not wait for
// the billing writes it starts, so a slow write overlaps later ticks.
module Stream {
  import opened Prelude

  const SETTLE_EVERY := 100
  const MAX_CAP := 50_000
  const DEFAULT_CAP := 5000
  const TICK_PRICE_ATOMIC := 1

  /** One connection. `pending`, `recorded` and `failed` count the billing writes
      started: still awaited, stored, and thrown. */
  datatype Meter = Meter(authed: bool, tickCount: nat, cap: int, interval: bool, open: bool,
                         pending: nat, recorded: nat, failed: nat)

  const FRESH := Meter(false, 0, 0, false, true, 0, 0, 0)

  datatype Signal =
    | Message(parses: bool, auth: string, cap: Option<int>)
    | Timer
    | BillingEnds(stored: bool)   // one awaited write returned or threw, in any order
    | PeerCloses

  function CapOf(cap: Option<int>): int { Min(MAX_CAP, Max(1, if cap.Some? then cap.value else DEFAULT_CAP)) }

  /** `if (tickCount >= cap)`: say done, close, stop the timer. */
  function CloseAtCap(m: Meter): Meter
  {
    if m.tickCount >= m.cap then m.(open := false, interval := false) else m
  }

  function Step(m: Meter, e: Signal): Meter
  {
    match e
    case Message(parses, auth, cap) =>
      if m.authed then m
      else if !parses || auth == "" then m.(open := false)
      else m.(authed := true, cap := CapOf(cap), interval := true)
    case Timer =>
      if !m.interval then m
      else if !m.open then m.(interval := false)
      else
        var ticked := m.(tickCount := m.tickCount + 1);
        if ticked.tickCount % SETTLE_EVERY == 0 then ticked.(pending := m.pending + 1) else CloseAtCap(ticked)
    case BillingEnds(stored) =>
      if m.pending == 0 then m
      else if stored then CloseAtCap(m.(pending := m.pending - 1, recorded := m.recorded + 1))
      else CloseAtCap(m.(pending := m.pending - 1, failed := m.failed + 1))
    case PeerCloses => m.(open := false, interval := false)
  }

  function Run(m: Meter, es: seq<Signal>): Meter
  {
    if es == [] then m else Step(Run(m, es[..|es| - 1]), es[|es| - 1])
  }

  class Connection {
    var authed: bool
    var tickCount: nat
    var cap: int
    var interval: bool
    var open: bool
    ghost var pending: nat
    ghost var recorded: nat
    ghost var failed: nat

    ghost function State(): Meter
      reads this
    {
      Meter(authed, tickCount, cap, interval, open, pending, recorded, failed)
    }

    constructor ()
      ensures State() == FRESH
    {
      authed, tickCount, cap, interval, open := false, 0, 0, false, true;
      pending, recorded, failed := 0, 0, 0;
    }

    method OnMessage(parses: bool, auth: string, c: Option<int>)
      modifies this
      ensures State() == Step(old(State()), Message(parses, auth, c))
    {
      if authed { return; }
      if !parses || auth == "" {
        open := false;
        return;
      }
      authed := true;
      cap := Min(MAX_CAP, Max(1, if c.Some? then c.value else DEFAULT_CAP));
      interval := true;
    }

    /** The timer callback up to its first await; `billing` says it awaits a ledger
        write, and `AfterBilling` is the rest. */
    method OnTimer() returns (billing: bool)
      requires interval
      modifies this
      ensures State() == Step(old(State()), Timer)
      ensures billing <==> pending == old(pending) + 1
    {
      billing := false;
      if !open {
        interval := false;
        return;
      }
      tickCount := tickCount + 1;
      if tickCount % SETTLE_EVERY == 0 {
        pending := pending + 1;
        return true;
      }
      StopAtCap();
    }

    method AfterBilling(stored: bool)
      requires pending > 0
      modifies this
      ensures State() == Step(old(State()), BillingEnds(stored))
    {
      pending := pending - 1;
      if stored { recorded := recorded + 1; } else { failed := failed + 1; }
      StopAtCap();
    }

    method StopAtCap()
      modifies this`open, this`interval
      ensures State() == CloseAtCap(old(State()))
    {
      if tickCount >= cap { open, interval := false, false; }
    }

    method OnClose()
      modifies this
      ensures State() == Step(old(State()), PeerCloses)
    {
      open, interval := false, false;
    }
  }

  // ---- what every run keeps ----

  function BilledAtomic(m: Meter): nat { m.recorded * SETTLE_EVERY * TICK_PRICE_ATOMIC }

  predicate MeterOk(m: Meter)
  {
    (if m.authed then 1 <= m.cap <= MAX_CAP else m.tickCount == 0 && !m.interval) &&
    (m.interval && m.open ==> m.tickCount < m.cap || (m.tickCount == m.cap && m.cap % SETTLE_EVERY == 0)) &&
    (m.authed ==> m.tickCount <= m.cap + if m.cap % SETTLE_EVERY == 0 then 1 else 0) &&
    m.pending + m.recorded + m.failed == m.tickCount / SETTLE_EVERY
  }

  lemma {:induction false} StepKeepsMeter(m: Meter, e: Signal)
    requires MeterOk(m)
    ensures MeterOk(Step(m, e))
  {
  }

  lemma {:induction false} MeterStaysOk(es: seq<Signal>)
    ensures MeterOk(Run(FRESH, es))
    decreases |es|
  {
    if es != [] {
      MeterStaysOk(es[..|es| - 1]);
      StepKeepsMeter(Run(FRESH, es[..|es| - 1]), es[|es| - 1]);
    }
  }

  /** However slow the writes and in whatever order they end: at most one tick
      beyond the cap is sent, none unless the cap is a multiple of 100; a billing
      write is started for every full hundred ticks; and when all of them were
      stored the amount billed is less than a hundred units below the ticks sent. */
  lemma {:induction false} TicksAreCappedAndBilled(es: seq<Signal>)
    ensures var m := Run(FRESH, es);
            (!m.authed ==> m.tickCount == 0) &&
            (m.authed ==> m.tickCount <= m.cap + 1 && (m.cap % SETTLE_EVERY != 0 ==> m.tickCount <= m.cap)) &&
            m.pending + m.recorded + m.failed == m.tickCount / SETTLE_EVERY &&
            (m.pending == 0 && m.failed == 0 ==> m.tickCount - 99 <= BilledAtomic(m) <= m.tickCount)
  {
    MeterStaysOk(es);
  }

  /** A second message never changes what was authorized. */
  lemma {:induction false} CapIsFixedOnce(m: Meter, e: Signal)
    requires MeterOk(m) && m.authed
    ensures Step(m, e).authed && Step(m, e).cap == m.cap && Step(m, e).tickCount >= m.tickCount
  {
  }

  // ---- when a meter starts, ticks and closes ----

  /** A message that asks for the stream. */
  predicate Asks(e: Signal) { e.Message? && e.parses && e.auth != "" }

  /** A message starts the meter exactly if it is the first to parse and carry an
      authorization; the cap is then what it names within 1 and 50000, 5000 if it names
      none. One that does not, before any that does, closes the connection. */
  lemma {:induction false} MessageExactly(m: Meter, e: Signal)
    requires e.Message?
    ensures var t := Step(m, e);
            if m.authed then t == m
            else if Asks(e)
            then t == m.(authed := true, interval := true, cap := t.cap) &&
                 t.cap == match e.cap case None => 5000 case Some(c) => if c < 1 then 1 else if c > 50_000 then 50_000 else c
            else t == m.(open := false)
  {
  }

  /** A connection is authorized exactly when some message asked for the stream. */
  lemma {:induction false} AuthedExactly(es: seq<Signal>)
    ensures Run(FRESH, es).authed <==> exists i | 0 <= i < |es| :: Asks(es[i])
    decreases |es|
  {
    if es != [] {
      var init, e := es[..|es| - 1], es[|es| - 1];
      AuthedExactly(init);
      if e.Message? { MessageExactly(Run(FRESH, init), e); }
      assert forall i | 0 <= i < |init| :: init[i] == es[i];
      if i :| 0 <= i < |es| && Asks(es[i]) && i < |init| { assert Asks(init[i]); }
    }
  }

  /** A timer that finds the meter running and the connection open sends one tick, and
      starts a billing write exactly at every hundredth; on a closed one it stops. */
  lemma {:induction false} TimerExactly(m: Meter)
    ensures var t := Step(m, Timer);
            t.authed == m.authed && t.cap == m.cap && t.recorded == m.recorded && t.failed == m.failed &&
            t.tickCount == m.tickCount + (if m.interval && m.open then 1 else 0) &&
            t.pending == m.pending + (if m.interval && m.open && (m.tickCount + 1) % 100 == 0 then 1 else 0) &&
            (m.interval ==> t.interval == t.open)
  {
  }

  /** An open connection closes in a step exactly when the peer closes it, its first
      word does not ask for the stream, or the cap is reached: at a tick that starts no
      billing write, or when a write ends. */
  lemma {:induction false} ClosesExactly(m: Meter, e: Signal)
    requires m.open
    ensures !Step(m, e).open <==>
              match e
              case PeerCloses => true
              case Message(_, _, _) => !m.authed && !Asks(e)
              case Timer => m.interval && m.tickCount + 1 >= m.cap && (m.tickCount + 1) % 100 != 0
              case BillingEnds(_) => m.pending > 0 && m.tickCount >= m.cap
    ensures e.PeerCloses? || (!Step(m, e).open && !e.Message?) ==> !Step(m, e).interval
  {
  }

  // ---- the extra tick ----

  function Timers(n: nat): seq<Signal> { seq(n, i => Timer) }

  /** While no write ends, every timer up to the cap sends a tick. */
  lemma {:induction false} TimersTick(cap: int, n: nat)
    requires 1 <= cap <= MAX_CAP && n <= cap && (n == cap ==> cap % SETTLE_EVERY == 0)
    ensures var m := Run(FRESH, [Message(true, "a", Some(cap))] + Timers(n));
            m.authed && m.cap == cap && m.tickCount == n && m.interval && m.open
    decreases n
  {
    var hello := [Message(true, "a", Some(cap))];
    if n == 0 {
      assert hello + Timers(0) == hello && hello[..0] == [];
    } else {
      TimersTick(cap, n - 1);
      assert (hello + Timers(n))[..|hello + Timers(n)| - 1] == hello + Timers(n - 1);
    }
  }

  /** For every cap that is a multiple of 100 a slow write lets one tick too many out. */
  lemma {:induction false} SlowWriteSendsOneMore(cap: int)
    requires 1 <= cap <= MAX_CAP && cap % SETTLE_EVERY == 0
    ensures var m := Run(FRESH, [Message(true, "a", Some(cap))] + Timers(cap + 1));
            m.tickCount == cap + 1 && m.cap == cap
  {
    var es := [Message(true, "a", Some(cap))] + Timers(cap + 1);
    TimersTick(cap, cap);
    assert es[..|es| - 1] == [Message(true, "a", Some(cap))] + Timers(cap);
  }
}
