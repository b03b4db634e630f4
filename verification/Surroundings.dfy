// What one process of the system sees of the rest: the shared ledger, the chains,
// the clock, and everybody else acting whenever it awaits.
module Surroundings {
  import opened Handshake
  import opened Ledger
  import opened Pipeline
  import opened WorkerLoop

  /** Everything outside one process: the shared ledger, the chains, the clock and
      the other parties. `history` is what has happened since `origin`. */
  class World {
    const ledger: Ledger
    var clock: nat
    var txs: seq<ChainTx>
    var used: set<AuthKey>
    var tokens: set<(nat, string)>
    var made: set<Signature>
    var handlers: map<nat, Handler>
    var workers: map<nat, Worker>
    ghost var origin: Sys
    ghost var history: seq<Event>

    function Now(): Sys
      reads this, ledger
    {
      Sys(clock, ledger.State(), txs, used, tokens, made, handlers, workers)
    }

    ghost predicate Valid()
      reads this, ledger
    {
      Now() == Run(origin, history)
    }

    constructor (s: Sys, l: Ledger)
      requires l.State() == s.db
      ensures Valid() && ledger == l && origin == s && history == []
    {
      ledger := l;
      clock, txs, used, tokens, made := s.clock, s.txs, s.used, s.tokens, s.made;
      handlers, workers := s.handlers, s.workers;
      origin, history := s, [];
    }

    /** The other parties act while this one awaits. */
    method Others(es: seq<Event>)
      requires Valid()
      modifies this, ledger
      ensures Valid() && origin == old(origin) && history == old(history) + es
      ensures Now() == Run(old(Now()), es)
    {
      hide Apply, Initial;
      RunConcat(origin, history, es);
      var t := Run(Now(), es);
      ledger.OthersCommit(t.db);
      clock, txs, used, tokens, made := t.clock, t.txs, t.used, t.tokens, t.made;
      handlers, workers := t.handlers, t.workers;
      history := history + es;
    }

    /** The state now is that of one more event. */
    ghost method Record(e: Event, before: Sys)
      requires before == Run(origin, history) && Now() == Apply(before, e)
      modifies this`history
      ensures Valid() && history == old(history) + [e]
    {
      hide Apply, Run, Initial;
      RunOne(origin, history, e);
      history := history + [e];
    }
  }

  lemma {:induction false} RunOne(s: Sys, es: seq<Event>, e: Event)
    ensures Run(s, es + [e]) == Apply(Run(s, es), e)
  {
  }

  /** What meets one await: what the others do first, what the runtime and operators
      signal to the awaiting object meanwhile, the rows other transactions hold
      locked, and how the call ends. */
  datatype Moment = Moment(before: seq<Event>, signals: seq<Signal>, locked: set<nat>, out: Outcome)
}
