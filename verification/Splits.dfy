// Basis-point revenue splits: `computeSplits` and the split rows the tollbooth
// records from it.
module Splits {
  import opened Prelude

  datatype SplitSpec = SplitSpec(addr: string, bps: int)

  datatype Share = Share(addr: string, amount: int)

  datatype SplitRow = SplitRow(addr: string, bps: int, amount: int)

  const TEN_THOUSAND := 10_000

  function SumBps(splits: seq<SplitSpec>): int
  {
    if splits == [] then 0 else SumBps(splits[..|splits| - 1]) + splits[|splits| - 1].bps
  }

  function SumAmounts(shares: seq<Share>): int
  {
    if shares == [] then 0 else SumAmounts(shares[..|shares| - 1]) + shares[|shares| - 1].amount
  }

  /** BigInt division truncates toward zero; the divisor is 10000. */
  function TruncatedShare(total: nat, bps: int): int
  {
    if bps >= 0 then total * bps / TEN_THOUSAND else -(total * -bps / TEN_THOUSAND)
  }

  function TruncatedShares(total: nat, splits: seq<SplitSpec>): seq<Share>
  {
    seq(|splits|, i requires 0 <= i < |splits| => Share(splits[i].addr, TruncatedShare(total, splits[i].bps)))
  }

  /** Truncated shares for all but the last recipient, who takes what is left. */
  function Shares(total: nat, splits: seq<SplitSpec>): seq<Share>
    requires splits != []
  {
    var n := |splits| - 1;
    var init := TruncatedShares(total, splits[..n]);
    init + [Share(splits[n].addr, total - SumAmounts(init))]
  }

  /** `computeSplits`: None is the throw when the basis points do not sum to 10000. */
  method ComputeSplits(total: nat, splits: seq<SplitSpec>) returns (shares: Option<seq<Share>>)
    ensures shares.Some? <==> SumBps(splits) == 10_000
    ensures shares.Some? ==> splits != [] && shares.value == Shares(total, splits)
  {
    hide TruncatedShare, TruncatedShares;
    var sum := 0;
    for i := 0 to |splits|
      invariant sum == SumBps(splits[..i])
    {
      sum := sum + splits[i].bps;
      assert splits[..i + 1][..i] == splits[..i];
    }
    assert splits[..|splits|] == splits;
    if sum != TEN_THOUSAND { return None; }
    var dust: int := total;
    var out: seq<Share> := [];
    NoShares(total);
    for i := 0 to |splits|
      invariant i < |splits| ==> out == TruncatedShares(total, splits[..i]) && dust == total - SumAmounts(out)
      invariant i == |splits| ==> out == Shares(total, splits)
    {
      if i == |splits| - 1 {
        out := out + [Share(splits[i].addr, dust)];
      } else {
        var share := Share(splits[i].addr, TruncatedShare(total, splits[i].bps));
        dust := dust - share.amount;
        OneMoreShare(total, splits, i);
        assert (out + [share])[..|out|] == out;
        out := out + [share];
      }
    }
    shares := Some(out);
  }

  lemma {:induction false} NoShares(total: nat)
    ensures TruncatedShares(total, []) == [] && SumAmounts([]) == 0
  {
  }

  lemma {:induction false} OneMoreShare(total: nat, splits: seq<SplitSpec>, i: nat)
    requires i < |splits|
    ensures TruncatedShares(total, splits[..i + 1]) ==
            TruncatedShares(total, splits[..i]) + [Share(splits[i].addr, TruncatedShare(total, splits[i].bps))]
  {
    hide TruncatedShare;
  }

  // ---- what the shares are worth ----

  /** Not a unit is lost or made: the shares sum to the total, whatever the rates. */
  lemma {:induction false} SharesAddUp(total: nat, splits: seq<SplitSpec>)
    requires splits != []
    ensures SumAmounts(Shares(total, splits)) == total
  {
  }

  /** A share is the exact one cut toward zero, whatever the sign of the rate. */
  lemma {:induction false} SharesTruncate(total: nat, bps: int)
    ensures var s := TruncatedShare(total, bps);
            if bps >= 0 then 0 <= s && 10_000 * s <= total * bps < 10_000 * (s + 1)
            else s <= 0 && 10_000 * (s - 1) < total * bps <= 10_000 * s
  {
    var size := if bps >= 0 then bps else -bps;
    var q := total * size / 10_000;
    assert total * size >= 0 && total * size == 10_000 * q + total * size % 10_000;
    assert bps < 0 ==> total * bps == -(total * size);
  }

  predicate NonnegativeBps(splits: seq<SplitSpec>) { forall i | 0 <= i < |splits| :: splits[i].bps >= 0 }

  /** A share is the exact one rounded down to whole atomic units. */
  predicate IsFloorShare(total: nat, bps: int, amount: int)
  {
    0 <= amount && 10_000 * amount <= total * bps < 10_000 * (amount + 1)
  }

  /** What a share pays beyond the exact one, in ten-thousandths of a unit. */
  function Excess(total: nat, bps: int, amount: int): int
  {
    10_000 * amount - total * bps
  }

  /** Nobody is owed a negative amount; every recipient but the last gets the
      floor of the exact share; the last gets at least its exact share and
      exceeds it by less than n-1 units (not at all when it is alone). */
  lemma {:induction false} SharesAreFair(total: nat, splits: seq<SplitSpec>, shares: seq<Share>)
    requires splits != [] && shares == Shares(total, splits)
    requires SumBps(splits) == TEN_THOUSAND && NonnegativeBps(splits)
    ensures forall i | 0 <= i < |shares| - 1 :: IsFloorShare(total, splits[i].bps, shares[i].amount)
    ensures shares[|shares| - 1].amount >= 0
    ensures 0 <= Excess(total, splits[|splits| - 1].bps, shares[|shares| - 1].amount)
    ensures |splits| == 1 ==> Excess(total, splits[0].bps, shares[0].amount) == 0
    ensures |splits| >= 2 ==>
              Excess(total, splits[|splits| - 1].bps, shares[|shares| - 1].amount) < TEN_THOUSAND * (|splits| - 1)
  {
    var n := |splits| - 1;
    forall i | 0 <= i < n
      ensures IsFloorShare(total, splits[i].bps, shares[i].amount)
    {
      FloorShare(total, splits[i].bps);
    }
    SharesAddUp(total, splits);
    TruncationLoss(total, splits[..n], shares[..n]);
    LastTakesTheLoss(total, SumBps(splits[..n]), splits[n].bps, SumAmounts(shares[..n]), shares[n].amount);
  }

  lemma {:induction false} LastTakesTheLoss(total: nat, bps: int, last: int, paid: int, rest: int)
    requires bps + last == TEN_THOUSAND && paid + rest == total
    ensures Excess(total, last, rest) == -Excess(total, bps, paid)
    ensures last >= 0 && Excess(total, last, rest) >= 0 ==> rest >= 0
  {
  }

  lemma {:induction false} FloorShare(total: nat, bps: nat)
    ensures IsFloorShare(total, bps, TruncatedShare(total, bps))
  {
  }

  /** The truncated shares together fall short of the exact ones by less than one unit each. */
  lemma {:induction false} TruncationLoss(total: nat, splits: seq<SplitSpec>, shares: seq<Share>)
    requires |shares| == |splits| && NonnegativeBps(splits)
    requires forall i | 0 <= i < |splits| :: shares[i].amount == TruncatedShare(total, splits[i].bps)
    ensures splits == [] ==> Excess(total, SumBps(splits), SumAmounts(shares)) == 0
    ensures splits != [] ==> -TEN_THOUSAND * |splits| < Excess(total, SumBps(splits), SumAmounts(shares)) <= 0
    decreases |splits|
  {
    if splits != [] {
      var n := |splits| - 1;
      TruncationLoss(total, splits[..n], shares[..n]);
      FloorShare(total, splits[n].bps);
      AddExcess(total, SumBps(splits[..n]), splits[n].bps, SumAmounts(shares[..n]), shares[n].amount);
    }
  }

  lemma {:induction false} AddExcess(total: nat, bps: int, more: int, paid: int, amount: int)
    ensures Excess(total, bps + more, paid + amount) == Excess(total, bps, paid) + Excess(total, more, amount)
  {
  }

  // ---- the ledger rows ----

  /** Two addresses that differ only in letter case are the same recipient. */
  predicate SameAddr(a: string, b: string) { Lower(a) == Lower(b) }

  /** `splits.find((x) => x.addr.toLowerCase() === addr.toLowerCase())!.bps` */
  function BpsOf(splits: seq<SplitSpec>, addr: string): (bps: int)
    requires exists i :: 0 <= i < |splits| && SameAddr(splits[i].addr, addr)
  {
    if SameAddr(splits[0].addr, addr) then splits[0].bps
    else
      assert exists i :: 0 <= i < |splits[1..]| && SameAddr(splits[1..][i].addr, addr) by {
        var i :| 0 <= i < |splits| && SameAddr(splits[i].addr, addr);
        assert splits[1..][i - 1] == splits[i];
      }
      BpsOf(splits[1..], addr)
  }

  /** The rows `insertSplits` receives. */
  function SplitRows(total: nat, splits: seq<SplitSpec>): seq<SplitRow>
    requires splits != []
  {
    RowsOf(splits, Shares(total, splits))
  }

  function RowsOf(splits: seq<SplitSpec>, shares: seq<Share>): (rows: seq<SplitRow>)
    requires |shares| == |splits| && forall i | 0 <= i < |splits| :: shares[i].addr == splits[i].addr
    ensures |rows| == |splits|
  {
    seq(|splits|, i requires 0 <= i < |splits| =>
      assert SameAddr(splits[i].addr, shares[i].addr);
      SplitRow(shares[i].addr, BpsOf(splits, shares[i].addr), shares[i].amount))
  }

  /** Recipients that are one address carry one rate. */
  predicate OneRatePerAddr(splits: seq<SplitSpec>)
  {
    forall i, j | 0 <= i < j < |splits| :: SameAddr(splits[i].addr, splits[j].addr) ==> splits[i].bps == splits[j].bps
  }

  /** The rows carry the computed amounts and, exactly when no address is listed
      twice at different rates, the configured rates. */
  lemma {:induction false} RowsCarryConfiguredRates(splits: seq<SplitSpec>, shares: seq<Share>)
    requires |shares| == |splits| && forall i | 0 <= i < |splits| :: shares[i].addr == splits[i].addr
    ensures forall i | 0 <= i < |splits| :: RowsOf(splits, shares)[i].addr == splits[i].addr && RowsOf(splits, shares)[i].amount == shares[i].amount
    ensures (forall i | 0 <= i < |splits| :: RowsOf(splits, shares)[i] == SplitRow(splits[i].addr, splits[i].bps, shares[i].amount))
       <==> OneRatePerAddr(splits)
  {
    var rows := RowsOf(splits, shares);
    if OneRatePerAddr(splits) {
      forall i | 0 <= i < |splits|
        ensures rows[i].bps == splits[i].bps
      {
        FindsFirst(splits, i);
      }
    } else {
      var i, j :| 0 <= i < j < |splits| && SameAddr(splits[i].addr, splits[j].addr) && splits[i].bps != splits[j].bps;
      SameAnswer(splits, splits[i].addr, splits[j].addr);
      assert rows[i].bps == rows[j].bps;
    }
  }

  /** A row's rate is that of the first entry for its address. */
  lemma {:induction false} FindsFirst(splits: seq<SplitSpec>, i: nat)
    requires i < |splits|
    ensures SameAddr(splits[i].addr, splits[i].addr)
    ensures exists j :: 0 <= j <= i && SameAddr(splits[j].addr, splits[i].addr) &&
                        BpsOf(splits, splits[i].addr) == splits[j].bps && forall k | 0 <= k < j :: !SameAddr(splits[k].addr, splits[i].addr)
    decreases |splits|
  {
    assert SameAddr(splits[i].addr, splits[i].addr);
    if !SameAddr(splits[0].addr, splits[i].addr) {
      FindsFirst(splits[1..], i - 1);
      var j :| 0 <= j <= i - 1 && SameAddr(splits[1..][j].addr, splits[i].addr) &&
               BpsOf(splits[1..], splits[i].addr) == splits[1..][j].bps &&
               forall k | 0 <= k < j :: !SameAddr(splits[1..][k].addr, splits[i].addr);
      assert splits[1..][j] == splits[j + 1];
      assert forall k | 1 <= k < j + 1 :: splits[k] == splits[1..][k - 1];
    }
  }

  lemma {:induction false} SameAnswer(splits: seq<SplitSpec>, a: string, b: string)
    requires SameAddr(a, b) && exists i :: 0 <= i < |splits| && SameAddr(splits[i].addr, a)
    ensures exists i :: 0 <= i < |splits| && SameAddr(splits[i].addr, b)
    ensures BpsOf(splits, a) == BpsOf(splits, b)
    decreases |splits|
  {
    var i :| 0 <= i < |splits| && SameAddr(splits[i].addr, a);
    assert SameAddr(splits[i].addr, b);
    if !SameAddr(splits[0].addr, a) {
      assert splits[1..][i - 1] == splits[i];
      SameAnswer(splits[1..], a, b);
    }
  }
}
