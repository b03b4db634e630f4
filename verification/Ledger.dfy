// The Postgres ledger: its tables, its constraints, and each SQL statement the
// settlement path issues, as a function on the tables. The `Ledger` class keeps
// the tables as mutable fields and is proved against those functions.
module Ledger {
  import opened Prelude
  import opened Splits
  import opened Handshake

  type Id = nat      // uuid
  type TxHash = nat  // transaction hash, numbered by the chain

  datatype Action = Action(buyer: string, seller: string, price: nat, asset: string, network: nat)

  datatype Payment = Payment(action: Id, nonce: string, signature: Signature, validAfter: nat, validBefore: nat)

  datatype Status = Pending | Submitted | Settled | Failed

  datatype Settlement = Settlement(payment: Id, status: Status, txHash: Option<TxHash>,
                                   submittedAt: Option<nat>, confirmedAt: Option<nat>)

  /** The part of an outbox row fixed at insertion. */
  datatype Transfer = Transfer(settlement: Id, payment: Id, action: Id, asset: string, network: nat,
                               from: string, to: string, value: nat, validAfter: nat, validBefore: nat,
                               nonce: string, signature: Signature)

  datatype OutboxRow = OutboxRow(transfer: Transfer, attempts: nat, pickedAt: Option<nat>, doneAt: Option<nat>)

  /** A claimed row as the worker sees it: `attempts` is the value before the claim's increment. */
  datatype Job = Job(id: nat, transfer: Transfer, attempts: nat)

  datatype OnchainRow = OnchainRow(network: nat, from: string, to: string, value: nat)

  datatype Tables = Tables(actions: map<Id, Action>, payments: map<Id, Payment>, settlements: map<Id, Settlement>,
                           outbox: map<nat, OutboxRow>, nextOutbox: nat, onchain: map<TxHash, OnchainRow>,
                           splits: seq<(Id, SplitRow)>)
  {
    // ---- inserts: None is a constraint violation ----

    function InsertAction(id: Id, row: Action): Option<Tables>
    {
      if id in actions then None else Some(this.(actions := actions[id := row]))
    }

    predicate NonceSeen(nonce: string) { exists p | p in payments :: payments[p].nonce == nonce }

    function InsertPayment(id: Id, row: Payment): Option<Tables>
    {
      if id in payments || row.action !in actions || NonceSeen(row.nonce) then None
      else Some(this.(payments := payments[id := row]))
    }

    /** Any status and hash a caller may pass; the timestamps start empty. */
    function InsertSettlementAs(id: Id, payment: Id, status: Status, txHash: Option<TxHash>): Option<Tables>
    {
      if id in settlements || payment !in payments then None
      else Some(this.(settlements := settlements[id := Settlement(payment, status, txHash, None, None)]))
    }

    /** As the tollbooth inserts it. */
    function InsertSettlement(id: Id, payment: Id): Option<Tables> { InsertSettlementAs(id, payment, Pending, None) }

    function EnqueueGatewayOutbox(t: Transfer): Option<Tables>
    {
      if t.settlement !in settlements || t.payment !in payments || t.action !in actions then None
      else Some(this.(outbox := outbox[nextOutbox := OutboxRow(t, 0, None, None)], nextOutbox := nextOutbox + 1))
    }

    function InsertSplits(action: Id, rows: seq<SplitRow>): Option<Tables>
    {
      if rows == [] then Some(this)
      else if action !in actions then None
      else Some(this.(splits := splits + seq(|rows|, i requires 0 <= i < |rows| => (action, rows[i]))))
    }

    // ---- the outbox ----

    predicate Claimable(o: nat) { o in outbox && outbox[o].doneAt == None }

    /** `done_at IS NULL ORDER BY outbox_id FOR UPDATE SKIP LOCKED LIMIT n`, from
        row `lo` on; `locked` is held by other transactions. */
    function SelectUndone(lo: nat, locked: set<nat>, limit: nat): (ids: seq<nat>)
      ensures forall i | 0 <= i < |ids| :: Claimable(ids[i])
      decreases nextOutbox - lo
    {
      if lo >= nextOutbox || limit == 0 then []
      else if Claimable(lo) && lo !in locked then [lo] + SelectUndone(lo + 1, locked, limit - 1)
      else SelectUndone(lo + 1, locked, limit)
    }

    function ClaimGatewayOutbox(limit: nat, locked: set<nat>, now: nat): (Tables, seq<Job>)
    {
      var ids := SelectUndone(0, locked, limit);
      assert forall i | 0 <= i < |ids| :: Claimable(ids[i]) && ids[i] in outbox;
      (this.(outbox := map o | o in outbox ::
                         if o in ids then Picked(outbox[o], now) else outbox[o]),
       JobsOf(ids))
    }

    function JobsOf(ids: seq<nat>): (jobs: seq<Job>)
      requires forall i | 0 <= i < |ids| :: ids[i] in outbox
    {
      seq(|ids|, i requires 0 <= i < |ids| => Job(ids[i], outbox[ids[i]].transfer, outbox[ids[i]].attempts))
    }

    function MarkOutboxDone(o: nat, now: nat): Tables
    {
      if o !in outbox then this else this.(outbox := outbox[o := outbox[o].(doneAt := Some(now))])
    }

    function MarkOutboxFailed(o: nat): Tables
    {
      if o !in outbox then this else this.(outbox := outbox[o := outbox[o].(pickedAt := None)])
    }

    // ---- settlement status ----

    function MarkSettlementSubmitted(s: Id, h: TxHash, now: nat): Tables
    {
      if s !in settlements || !(settlements[s].status == Pending || settlements[s].status == Submitted) then this
      else
        var row := settlements[s];
        this.(settlements := settlements[s := row.(status := Submitted, txHash := Some(h),
                                                   submittedAt := Coalesce(row.submittedAt, now))])
    }

    function PromoteSettlement(s: Id, h: TxHash, now: nat): Tables
    {
      if s !in settlements then this
      else
        var row := settlements[s];
        this.(settlements := settlements[s := row.(status := Settled, txHash := Some(h),
                                                   confirmedAt := Coalesce(row.confirmedAt, now))])
    }

    function FailSettlement(s: Id): Tables
    {
      if s !in settlements then this
      else this.(settlements := settlements[s := settlements[s].(status := Failed)])
    }

    function LogOnchainTx(h: TxHash, row: OnchainRow): Tables
    {
      if h in onchain then this else this.(onchain := onchain[h := row])
    }
  }

  /** `SET picked_at = now(), attempts = attempts + 1` */
  function Picked(row: OutboxRow, now: nat): OutboxRow { row.(pickedAt := Some(now), attempts := row.attempts + 1) }

  function Coalesce(t: Option<nat>, now: nat): Option<nat> { if t.Some? then t else Some(now) }

  const EMPTY_TABLES := Tables(map[], map[], map[], map[], 0, map[], [])

  // ---- what a claim takes ----

  /** A claim takes claimable, unlocked rows in increasing id order, skips none
      that is smaller than one it takes, and stops short of the limit only when
      nothing is left. */
  lemma {:induction false} SelectUndoneIsFirst(t: Tables, lo: nat, locked: set<nat>, limit: nat)
    ensures var ids := t.SelectUndone(lo, locked, limit);
            |ids| <= limit &&
            (forall i | 0 <= i < |ids| :: lo <= ids[i] < t.nextOutbox && t.Claimable(ids[i]) && ids[i] !in locked) &&
            (forall i, j | 0 <= i < j < |ids| :: ids[i] < ids[j]) &&
            (forall o | lo <= o < t.nextOutbox && t.Claimable(o) && o !in locked && o !in ids ::
               |ids| == limit && forall i | 0 <= i < |ids| :: ids[i] < o)
    decreases t.nextOutbox - lo
  {
    if lo < t.nextOutbox && limit > 0 {
      if t.Claimable(lo) && lo !in locked {
        SelectUndoneIsFirst(t, lo + 1, locked, limit - 1);
      } else {
        SelectUndoneIsFirst(t, lo + 1, locked, limit);
      }
    }
  }

  /** A claim counts one attempt on exactly the rows it hands out, and hands out
      each row as stored. */
  lemma {:induction false} ClaimHandsOutRows(t: Tables, limit: nat, locked: set<nat>, now: nat)
    ensures var (t', jobs) := t.ClaimGatewayOutbox(limit, locked, now);
            |jobs| <= limit && t' == t.(outbox := t'.outbox) && t'.outbox.Keys == t.outbox.Keys &&
            (forall i | 0 <= i < |jobs| :: t.Claimable(jobs[i].id) && jobs[i].id !in locked &&
               jobs[i] == Job(jobs[i].id, t.outbox[jobs[i].id].transfer, t.outbox[jobs[i].id].attempts)) &&
            (forall i, j | 0 <= i < j < |jobs| :: jobs[i].id < jobs[j].id) &&
            (forall o | o in t.outbox ::
               t'.outbox[o] == if exists i :: 0 <= i < |jobs| && jobs[i].id == o
                               then OutboxRow(t.outbox[o].transfer, t.outbox[o].attempts + 1, Some(now), t.outbox[o].doneAt)
                               else t.outbox[o])
  {
    SelectUndoneIsFirst(t, 0, locked, limit);
    var ids := t.SelectUndone(0, locked, limit);
    var (t', jobs) := t.ClaimGatewayOutbox(limit, locked, now);
    forall o | o in t.outbox
      ensures o in ids <==> exists i :: 0 <= i < |jobs| && jobs[i].id == o
    {
      if o in ids {
        var i :| 0 <= i < |ids| && ids[i] == o;
        assert jobs[i].id == o;
      }
    }
  }

  lemma {:induction false} JobsOfNone(t: Tables)
    ensures t.JobsOf([]) == []
  {
  }

  lemma {:induction false} JobsOfOneMore(t: Tables, ids: seq<nat>, o: nat)
    requires (forall i | 0 <= i < |ids| :: ids[i] in t.outbox) && o in t.outbox
    ensures t.JobsOf(ids + [o]) == t.JobsOf(ids) + [Job(o, t.outbox[o].transfer, t.outbox[o].attempts)]
    ensures |t.JobsOf(ids)| == |ids|
  {
  }

  // ---- the ledger object ----

  class Ledger {
    var actions: map<Id, Action>
    var payments: map<Id, Payment>
    var settlements: map<Id, Settlement>
    var outbox: map<nat, OutboxRow>
    var nextOutbox: nat
    var onchain: map<TxHash, OnchainRow>
    var splits: seq<(Id, SplitRow)>

    function State(): Tables
      reads this
    {
      Tables(actions, payments, settlements, outbox, nextOutbox, onchain, splits)
    }

    constructor ()
      ensures State() == EMPTY_TABLES
    {
      actions, payments, settlements, outbox := map[], map[], map[], map[];
      nextOutbox, onchain, splits := 0, map[], [];
    }

    /** Other connections commit between two of this connection's statements. */
    method OthersCommit(t: Tables)
      modifies this
      ensures State() == t
    {
      actions, payments, settlements, outbox := t.actions, t.payments, t.settlements, t.outbox;
      nextOutbox, onchain, splits := t.nextOutbox, t.onchain, t.splits;
    }

    method InsertAction(id: Id, row: Action) returns (ok: bool)
      modifies this
      ensures var t := old(State()).InsertAction(id, row);
              ok == t.Some? && State() == if ok then t.value else old(State())
    {
      ok := id !in actions;
      if ok { actions := actions[id := row]; }
    }

    method InsertPayment(id: Id, row: Payment) returns (ok: bool)
      modifies this
      ensures var t := old(State()).InsertPayment(id, row);
              ok == t.Some? && State() == if ok then t.value else old(State())
    {
      ok := id !in payments && row.action in actions && !State().NonceSeen(row.nonce);
      if ok { payments := payments[id := row]; }
    }

    /** An absent status is pending. */
    method InsertSettlement(id: Id, payment: Id, status: Option<Status>, txHash: Option<TxHash>) returns (ok: bool)
      modifies this
      ensures var t := old(State()).InsertSettlementAs(id, payment, if status.Some? then status.value else Pending, txHash);
              ok == t.Some? && State() == if ok then t.value else old(State())
    {
      ok := id !in settlements && payment in payments;
      if ok {
        settlements := settlements[id := Settlement(payment, if status.Some? then status.value else Pending, txHash, None, None)];
      }
    }

    method EnqueueGatewayOutbox(t: Transfer) returns (ok: bool)
      modifies this
      ensures var r := old(State()).EnqueueGatewayOutbox(t);
              ok == r.Some? && State() == if ok then r.value else old(State())
    {
      ok := t.settlement in settlements && t.payment in payments && t.action in actions;
      if ok {
        outbox := outbox[nextOutbox := OutboxRow(t, 0, None, None)];
        nextOutbox := nextOutbox + 1;
      }
    }

    method InsertSplits(action: Id, rows: seq<SplitRow>) returns (ok: bool)
      modifies this
      ensures var t := old(State()).InsertSplits(action, rows);
              ok == t.Some? && State() == if ok then t.value else old(State())
    {
      if rows == [] { return true; }
      ok := action in actions;
      if ok { splits := splits + seq(|rows|, i requires 0 <= i < |rows| => (action, rows[i])); }
    }

    /** The claim's SELECT. */
    method SelectUndoneRows(limit: nat, locked: set<nat>) returns (jobs: seq<Job>)
      ensures jobs == State().JobsOf(State().SelectUndone(0, locked, limit))
    {
      hide Tables.JobsOf;
      ghost var t := State();
      ghost var ids: seq<nat> := [];
      JobsOfNone(t);
      jobs := [];
      var o: nat := 0;
      while o < nextOutbox && |jobs| < limit
        invariant |ids| == |jobs| <= limit && forall i | 0 <= i < |ids| :: ids[i] in outbox
        invariant jobs == t.JobsOf(ids)
        invariant ids + t.SelectUndone(o, locked, limit - |jobs|) == t.SelectUndone(0, locked, limit)
        decreases nextOutbox - o
      {
        if o in outbox && outbox[o].doneAt == None && o !in locked {
          JobsOfOneMore(t, ids, o);
          ghost var rest := t.SelectUndone(o + 1, locked, limit - |jobs| - 1);
          assert t.SelectUndone(o, locked, limit - |jobs|) == [o] + rest;
          assert ids + ([o] + rest) == (ids + [o]) + rest;
          ids, jobs := ids + [o], jobs + [Job(o, outbox[o].transfer, outbox[o].attempts)];
        }
        o := o + 1;
      }
      assert ids + [] == ids;
    }

    /** The claim's UPDATE of the rows it selected. */
    method MarkPicked(jobs: seq<Job>, now: nat)
      requires forall i | 0 <= i < |jobs| :: jobs[i].id in outbox
      requires forall i, j | 0 <= i < j < |jobs| :: jobs[i].id != jobs[j].id
      modifies this`outbox
      ensures outbox.Keys == old(outbox.Keys)
      ensures forall o | o in outbox ::
                outbox[o] == if exists i :: 0 <= i < |jobs| && jobs[i].id == o then Picked(old(outbox)[o], now) else old(outbox)[o]
    {
      for n := 0 to |jobs|
        invariant outbox.Keys == old(outbox.Keys)
        invariant forall o | o in outbox ::
                    outbox[o] == if exists i :: 0 <= i < n && jobs[i].id == o then Picked(old(outbox)[o], now) else old(outbox)[o]
      {
        var id := jobs[n].id;
        outbox := outbox[id := Picked(outbox[id], now)];
      }
    }

    /** The claiming transaction. */
    method ClaimGatewayOutbox(limit: nat, locked: set<nat>, now: nat) returns (jobs: seq<Job>)
      modifies this
      ensures (State(), jobs) == old(State()).ClaimGatewayOutbox(limit, locked, now)
    {
      ClaimHandsOutRows(State(), limit, locked, now);
      jobs := SelectUndoneRows(limit, locked);
      if jobs != [] { MarkPicked(jobs, now); }
      assert outbox == old(State()).ClaimGatewayOutbox(limit, locked, now).0.outbox;
    }

    method MarkOutboxDone(o: nat, now: nat)
      modifies this
      ensures State() == old(State()).MarkOutboxDone(o, now)
    {
      if o in outbox { outbox := outbox[o := outbox[o].(doneAt := Some(now))]; }
    }

    method MarkOutboxFailed(o: nat)
      modifies this
      ensures State() == old(State()).MarkOutboxFailed(o)
    {
      if o in outbox { outbox := outbox[o := outbox[o].(pickedAt := None)]; }
    }

    method MarkSettlementSubmitted(s: Id, h: TxHash, now: nat)
      modifies this
      ensures State() == old(State()).MarkSettlementSubmitted(s, h, now)
    {
      if s in settlements && (settlements[s].status == Pending || settlements[s].status == Submitted) {
        var row := settlements[s];
        settlements := settlements[s := row.(status := Submitted, txHash := Some(h),
                                             submittedAt := Coalesce(row.submittedAt, now))];
      }
    }

    method PromoteSettlement(s: Id, h: TxHash, now: nat)
      modifies this
      ensures State() == old(State()).PromoteSettlement(s, h, now)
    {
      if s in settlements {
        var row := settlements[s];
        settlements := settlements[s := row.(status := Settled, txHash := Some(h),
                                             confirmedAt := Coalesce(row.confirmedAt, now))];
      }
    }

    method FailSettlement(s: Id)
      modifies this
      ensures State() == old(State()).FailSettlement(s)
    {
      if s in settlements { settlements := settlements[s := settlements[s].(status := Failed)]; }
    }

    method LogOnchainTx(h: TxHash, row: OnchainRow)
      modifies this
      ensures State() == old(State()).LogOnchainTx(h, row)
    {
      if h !in onchain { onchain := onchain[h := row]; }
    }
  }
}
