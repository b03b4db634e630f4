// The monthly call quota: a cached count over a database count, for requests of
// an organisation that do not overlap.
module Quota {
  import opened Prelude

  const CACHE_MS := 60_000

  datatype Entry = Entry(used: nat, expires: int)

  type Cache = map<string, Entry>

  predicate Enforced(limit: Option<int>) { limit.Some? && limit.value > 0 }

  /** Whether the cached count is used; otherwise the database is asked. */
  predicate CacheAnswers(cache: Cache, org: string, limit: int, now: int)
  {
    org in cache && cache[org].expires > now && cache[org].used < limit
  }

  /** Let through, answered 429, or answered 500 because the count query threw. */
  datatype Verdict = Admitted | Refused | Unavailable

  /** The quota middleware; `probe` is what the count query would answer, None a throw. */
  function Gate(cache: Cache, org: string, limit: Option<int>, now: int, probe: Option<nat>): (Cache, Verdict)
  {
    if !Enforced(limit) then (cache, Admitted)
    else if CacheAnswers(cache, org, limit.value, now) then
      var e := cache[org].(used := cache[org].used + 1);
      (cache[org := e], if e.used < limit.value then Admitted else Refused)
    else
      match probe
      case None => (cache, Unavailable)
      case Some(count) => (cache[org := Entry(count, now + CACHE_MS)], if count < limit.value then Admitted else Refused)
  }

  class QuotaGate {
    var quotaCache: Cache

    constructor ()
      ensures quotaCache == map[]
    {
      quotaCache := map[];
    }

    method Check(org: string, limit: Option<int>, now: int, probe: Option<nat>) returns (verdict: Verdict)
      modifies this
      ensures (quotaCache, verdict) == Gate(old(quotaCache), org, limit, now, probe)
    {
      if limit.Some? && limit.value > 0 {
        var used: nat;
        if org in quotaCache && quotaCache[org].expires > now && quotaCache[org].used < limit.value {
          used := quotaCache[org].used + 1;
          quotaCache := quotaCache[org := Entry(used, quotaCache[org].expires)];
        } else {
          if probe.None? { return Unavailable; }
          used := probe.value;
          quotaCache := quotaCache[org := Entry(used, now + CACHE_MS)];
        }
        if used >= limit.value { return Refused; }
      }
      verdict := Admitted;
    }
  }

  // ---- runs ----

  /** A recorded action: who it is billed to and the UTC month it was created in. */
  datatype Row = Row(org: string, month: nat)

  /** One request: when and in which month it is checked, its key's limit, whether the
      count query answers, and whether, once admitted, it records an action, in `rowMonth`. */
  datatype Call = Call(org: string, now: int, month: nat, limit: Option<int>, answers: bool, creates: bool, rowMonth: nat)

  datatype State = State(cache: Cache, rows: seq<Row>)

  /** `countActionsThisMonthForOrg` in a month. */
  function Count(rows: seq<Row>, org: string, month: nat): nat
  {
    if rows == [] then 0
    else
      var last := rows[|rows| - 1];
      Count(rows[..|rows| - 1], org, month) + if last.org == org && last.month >= month then 1 else 0
  }

  function GateOf(s: State, c: Call): (Cache, Verdict)
  {
    Gate(s.cache, c.org, c.limit, c.now, if c.answers then Some(Count(s.rows, c.org, c.month)) else None)
  }

  function Serve(s: State, c: Call): State
  {
    var (cache, verdict) := GateOf(s, c);
    State(cache, if verdict == Admitted && c.creates then s.rows + [Row(c.org, c.rowMonth)] else s.rows)
  }

  function ServeAll(s: State, calls: seq<Call>): State
  {
    if calls == [] then s else Serve(ServeAll(s, calls[..|calls| - 1]), calls[|calls| - 1])
  }

  /** Months do not go back, and the run ends by `month`. */
  ghost predicate MonthsForward(calls: seq<Call>, month: nat)
  {
    if calls == [] then true
    else
      var c := calls[|calls| - 1];
      c.month <= c.rowMonth <= month && MonthsForward(calls[..|calls| - 1], c.month)
  }

  /** Actions a run of calls recorded for an organisation without consulting the
      quota since the database was last asked. */
  function Unmetered(s: State, calls: seq<Call>, org: string): nat
  {
    if calls == [] then 0
    else
      var c := calls[|calls| - 1];
      var before := Unmetered(s, calls[..|calls| - 1], org);
      if c.org != org then before
      else if !Enforced(c.limit) then before + if c.creates then 1 else 0
      else if CacheAnswers(ServeAll(s, calls[..|calls| - 1]).cache, org, c.limit.value, c.now) || !c.answers then before
      else 0
  }

  lemma {:induction false} LaterMonthCountsLess(rows: seq<Row>, org: string, a: nat, b: nat)
    requires a <= b
    ensures Count(rows, org, b) <= Count(rows, org, a)
    decreases |rows|
  {
    if rows != [] { LaterMonthCountsLess(rows[..|rows| - 1], org, a, b); }
  }

  lemma {:induction false} CountOneMore(rows: seq<Row>, r: Row, org: string, month: nat)
    ensures Count(rows + [r], org, month) == Count(rows, org, month) + if r.org == org && r.month >= month then 1 else 0
  {
  }

  /** The cached count lags the true one by at most the action of the request that
      wrote it and the unmetered actions since the database was last asked. */
  lemma {:induction false} CacheLag(rows: seq<Row>, calls: seq<Call>, org: string, month: nat)
    requires MonthsForward(calls, month)
    ensures var s := ServeAll(State(map[], rows), calls);
            org in s.cache ==> Count(s.rows, org, month) <= s.cache[org].used + 1 + Unmetered(State(map[], rows), calls, org)
    decreases |calls|
  {
    hide Count;
    if calls != [] {
      var init, c := calls[..|calls| - 1], calls[|calls| - 1];
      CacheLag(rows, init, org, c.month);
      var s := ServeAll(State(map[], rows), init);
      LaterMonthCountsLess(s.rows, org, c.month, month);
      CountOneMore(s.rows, Row(c.org, c.rowMonth), org, month);
    }
  }

  /** No limit however large lets a request past the true count exactly when the
      cache has no live entry or its entry lags by at most one. */
  lemma {:induction false} NeverUndercountsExactly(s: State, org: string, now: int, month: nat)
    ensures (forall limit: int | limit > 0 && Gate(s.cache, org, Some(limit), now, Some(Count(s.rows, org, month))).1 == Admitted ::
               Count(s.rows, org, month) < limit) <==>
            (org !in s.cache || s.cache[org].expires <= now || Count(s.rows, org, month) <= s.cache[org].used + 1)
  {
    hide Count;
    var count := Count(s.rows, org, month);
    if org in s.cache && s.cache[org].expires > now && count > s.cache[org].used + 1 {
      assert Gate(s.cache, org, Some(count), now, Some(count)).1 == Admitted;
    }
  }

  /** When every action of the organisation so far was metered, an admitted request
      finds the true month count strictly below its limit, whatever the limit. */
  lemma {:induction false} AdmittedBelowLimit(rows: seq<Row>, calls: seq<Call>, c: Call)
    requires MonthsForward(calls, c.month) && Enforced(c.limit)
    requires Unmetered(State(map[], rows), calls, c.org) == 0
    requires GateOf(ServeAll(State(map[], rows), calls), c).1 == Admitted
    ensures Count(ServeAll(State(map[], rows), calls).rows, c.org, c.month) < c.limit.value
  {
    hide Count, ServeAll, Unmetered;
    CacheLag(rows, calls, c.org, c.month);
  }

  lemma {:induction false} AllEnforcedMeansMetered(s: State, calls: seq<Call>, org: string)
    requires forall i | 0 <= i < |calls| && calls[i].org == org :: Enforced(calls[i].limit)
    ensures Unmetered(s, calls, org) == 0
    decreases |calls|
  {
    if calls != [] { AllEnforcedMeansMetered(s, calls[..|calls| - 1], org); }
  }

  /** Under a fixed limit a month count that starts within it never exceeds it. */
  lemma {:induction false} FixedLimitHolds(rows: seq<Row>, calls: seq<Call>, org: string, limit: int, start: nat, month: nat)
    requires limit > 0 && Count(rows, org, start) <= limit
    requires start <= month && MonthsForward(calls, month) && forall i | 0 <= i < |calls| :: start <= calls[i].month
    requires forall i | 0 <= i < |calls| && calls[i].org == org :: calls[i].limit == Some(limit)
    ensures Count(ServeAll(State(map[], rows), calls).rows, org, month) <= limit
    decreases |calls|
  {
    hide Count, Unmetered;
    if calls == [] {
      LaterMonthCountsLess(rows, org, start, month);
    } else {
      var init, c := calls[..|calls| - 1], calls[|calls| - 1];
      var s := ServeAll(State(map[], rows), init);
      FixedLimitHolds(rows, init, org, limit, start, c.month);
      LaterMonthCountsLess(s.rows, org, c.month, month);
      CountOneMore(s.rows, Row(c.org, c.rowMonth), org, month);
      if c.org == org && GateOf(s, c).1 == Admitted {
        AllEnforcedMeansMetered(State(map[], rows), init, org);
        AdmittedBelowLimit(rows, init, c);
      }
    }
  }

  /** After a refusal the cached count has reached the limit, so a next request of
      the organisation under the same or a lower limit is decided exactly by the
      database. */
  lemma {:induction false} RefusalReprobes(s: State, refused: Call, next: Call)
    requires GateOf(s, refused).1 == Refused && next.org == refused.org && Enforced(next.limit)
    ensures var t := Serve(s, refused);
            t.rows == s.rows && refused.limit.Some? && refused.org in t.cache && t.cache[refused.org].used >= refused.limit.value
    ensures next.limit.value <= refused.limit.value ==>
              GateOf(Serve(s, refused), next).1 ==
                if !next.answers then Unavailable
                else if Count(s.rows, next.org, next.month) < next.limit.value then Admitted else Refused
  {
  }

  // ---- when the database is asked ----

  /** When the database last answered for an organisation in a run. */
  function LastProbe(s: State, calls: seq<Call>, org: string): Option<int>
  {
    if calls == [] then None
    else
      var before, c := ServeAll(s, calls[..|calls| - 1]), calls[|calls| - 1];
      if c.org == org && c.answers && Enforced(c.limit) && !CacheAnswers(before.cache, org, c.limit.value, c.now) then Some(c.now)
      else LastProbe(s, calls[..|calls| - 1], org)
  }

  /** An entry is there exactly if the database has answered, and ends 60000 ms after it last did. */
  lemma {:induction false} EntryDatesFromProbe(rows: seq<Row>, calls: seq<Call>, org: string)
    ensures var s, probe := ServeAll(State(map[], rows), calls), LastProbe(State(map[], rows), calls, org);
            (org in s.cache <==> probe.Some?) && (org in s.cache ==> s.cache[org].expires == probe.value + 60_000)
    decreases |calls|
  {
    hide Count;
    if calls != [] { EntryDatesFromProbe(rows, calls[..|calls| - 1], org); }
  }

  /** A request with a limit is decided by the database if the database has not answered
      for its organisation in the last 60000 ms, or if the count kept has reached its
      limit; otherwise by one more than that count, whatever the database holds. */
  lemma {:induction false} DecidedByProbeOrCount(rows: seq<Row>, calls: seq<Call>, c: Call)
    requires c.limit.Some? && c.limit.value > 0
    ensures var s, probe := ServeAll(State(map[], rows), calls), LastProbe(State(map[], rows), calls, c.org);
            if probe.None? || c.now >= probe.value + 60_000 || (c.org in s.cache && s.cache[c.org].used >= c.limit.value)
            then GateOf(s, c).1 == if !c.answers then Unavailable
                                   else if Count(s.rows, c.org, c.month) < c.limit.value then Admitted else Refused
            else c.org in s.cache && GateOf(s, c).1 == if s.cache[c.org].used + 1 < c.limit.value then Admitted else Refused
  {
    hide Count, ServeAll, LastProbe;
    EntryDatesFromProbe(rows, calls, c.org);
  }

  /** A request without a limit, or with one that is not positive, passes and is not counted. */
  lemma {:induction false} NoLimitPasses(s: State, c: Call)
    requires c.limit.None? || c.limit.value <= 0
    ensures GateOf(s, c) == (s.cache, Admitted)
  {
  }

  /** Requests of other organisations do not touch an organisation's count or cache. */
  lemma {:induction false} OrganisationsAreSeparate(s: State, c: Call, org: string, month: nat)
    requires c.org != org
    ensures var t := Serve(s, c);
            Count(t.rows, org, month) == Count(s.rows, org, month) &&
            (org in t.cache <==> org in s.cache) && (org in s.cache ==> t.cache[org] == s.cache[org])
  {
  }

  /** Two requests without a limit between two under a limit of 3 are enough: the
      second is admitted though three actions are already recorded. */
  lemma {:induction false} UnmeteredActionSlipsThrough()
    ensures var metered, free := Call("o", 0, 1, Some(3), true, true, 1), Call("o", 1, 1, None, true, true, 1);
            var calls := [metered, free, free];
            var s := ServeAll(State(map[], []), calls);
            MonthsForward(calls, 1) && Count(s.rows, "o", 1) == 3 && GateOf(s, metered).1 == Admitted
  {
    hide Count, Serve;
    var metered, free := Call("o", 0, 1, Some(3), true, true, 1), Call("o", 1, 1, None, true, true, 1);
    var c1, c2, c3 := [metered], [metered, free], [metered, free, free];
    assert c1[..0] == [] && c2[..1] == c1 && c3[..2] == c2;
    assert MonthsForward([], 1) && MonthsForward(c1, 1) && MonthsForward(c2, 1) && MonthsForward(c3, 1);
    var r := Row("o", 1);
    ThreeRows(r);
    var s0, cache := State(map[], []), map["o" := Entry(0, CACHE_MS)];
    FirstCall(s0, metered);
    FreeCall(State(cache, [r]), free);
    FreeCall(State(cache, [r, r]), free);
    assert [] + [r] == [r] && [r] + [r] == [r, r] && [r, r] + [r] == [r, r, r];
    assert ServeAll(s0, c1) == State(cache, [r]);
    assert ServeAll(s0, c2) == State(cache, [r, r]);
    assert ServeAll(s0, c3) == State(cache, [r, r, r]);
  }

  lemma {:induction false} ThreeRows(r: Row)
    ensures Count([r, r, r], r.org, r.month) == 3 && Count([], r.org, r.month) == 0
  {
    CountOneMore([], r, r.org, r.month);
    CountOneMore([r], r, r.org, r.month);
    CountOneMore([r, r], r, r.org, r.month);
    assert [r, r] + [r] == [r, r, r] && [r] + [r] == [r, r] && [] + [r] == [r];
  }

  lemma {:induction false} FirstCall(s: State, c: Call)
    requires s == State(map[], []) && c.limit.Some? && c.limit.value > 0 && c.answers && c.creates
    ensures Serve(s, c) == State(map[c.org := Entry(0, c.now + CACHE_MS)], [Row(c.org, c.rowMonth)])
  {
  }

  lemma {:induction false} FreeCall(s: State, c: Call)
    requires c.limit == None && c.creates
    ensures Serve(s, c) == State(s.cache, s.rows + [Row(c.org, c.rowMonth)])
  {
  }
}
