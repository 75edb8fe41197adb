/** Which callbacks are accepted: exactly the well-timed ones whose event is not remembered, within the three limits. */
module CallbackAccepts {
  import opened StoreClock
  import opened Callback

  const MINUTE: int := 60_000_000_000

  /** The receipts that a callback at store time `now` is held against: those of the last eleven minutes. */
  function Remembered(h: seq<Receipt>, now: int): set<nat> {
    set i: nat | i < |h| && now < h[i].row.accepted + 11 * MINUTE
  }

  function RememberedOf(h: seq<Receipt>, tenant: string, now: int): set<nat> {
    set i: nat | i < |h| && now < h[i].row.accepted + 11 * MINUTE && h[i].row.tenant == tenant
  }

  /** The receipts of a key in the last minute. */
  function LastMinute(h: seq<Receipt>, key: string, now: int): set<nat> {
    set i: nat | i < |h| && now - MINUTE < h[i].row.accepted && h[i].row.key == key
  }

  ghost predicate Known(h: seq<Receipt>, event: string, now: int) {
    exists i :: i in Remembered(h, now) && h[i].row.event == event
  }

  ghost predicate ReceiptsOk(h: seq<Receipt>) {
    forall i :: 0 <= i < |h| ==> ReceiptOk(h[i])
  }

  // ---- the table counts receipts ----

  lemma RowsInit(h: seq<Receipt>)
    requires h != []
    ensures Rows(h)[..|h| - 1] == Rows(h[..|h| - 1])
  {
  }

  lemma {:induction false} TableSize(h: seq<Receipt>, now: int)
    requires ReceiptsOk(h)
    ensures |Purge(Rows(h), now)| == |Remembered(h, now)|
  {
    if h != [] {
      var n := |h| - 1;
      RowsInit(h);
      TableSize(h[..n], now);
      assert ReceiptOk(h[n]);
      assert Remembered(h, now) == Remembered(h[..n], now) + if h[n].row.expires > now then {n} else {};
    }
  }

  lemma CountTenantSnoc(rows: seq<Row>, row: Row, tenant: string)
    ensures CountTenant(rows + [row], tenant) == CountTenant(rows, tenant) + if row.tenant == tenant then 1 else 0
  {
    assert (rows + [row])[..|rows|] == rows;
  }

  lemma RememberedOfSnoc(h: seq<Receipt>, tenant: string, now: int)
    requires h != []
    ensures var n := |h| - 1;
            var more := now < h[n].row.accepted + 11 * MINUTE && h[n].row.tenant == tenant;
            |RememberedOf(h, tenant, now)| == |RememberedOf(h[..n], tenant, now)| + if more then 1 else 0
  {
    var n := |h| - 1;
    var more := now < h[n].row.accepted + 11 * MINUTE && h[n].row.tenant == tenant;
    assert RememberedOf(h, tenant, now) == RememberedOf(h[..n], tenant, now) + if more then {n} else {};
  }

  lemma {:induction false} TenantSize(h: seq<Receipt>, tenant: string, now: int)
    requires ReceiptsOk(h)
    ensures CountTenant(Purge(Rows(h), now), tenant) == |RememberedOf(h, tenant, now)|
  {
    if h != [] {
      var n := |h| - 1;
      RowsInit(h);
      TenantSize(h[..n], tenant, now);
      assert ReceiptOk(h[n]);
      CountTenantSnoc(Purge(Rows(h[..n]), now), h[n].row, tenant);
      RememberedOfSnoc(h, tenant, now);
    }
  }

  lemma {:induction false} MinuteSize(h: seq<Receipt>, key: string, now: int)
    ensures CountSince(Rows(h), key, now - MINUTE) == |LastMinute(h, key, now)|
  {
    if h != [] {
      var n := |h| - 1;
      RowsInit(h);
      MinuteSize(h[..n], key, now);
      assert LastMinute(h, key, now) == LastMinute(h[..n], key, now)
          + if now - MINUTE < h[n].row.accepted && h[n].row.key == key then {n} else {};
    }
  }

  lemma {:induction false} TableEvents(h: seq<Receipt>, event: string, now: int)
    requires ReceiptsOk(h)
    ensures HasEvent(Purge(Rows(h), now), event) <==> Known(h, event, now)
  {
    if h != [] {
      var n := |h| - 1;
      var before, all := Purge(Rows(h[..n]), now), Purge(Rows(h), now);
      RowsInit(h);
      TableEvents(h[..n], event, now);
      assert ReceiptOk(h[n]);
      if HasEvent(all, event) {
        var k :| 0 <= k < |all| && all[k].event == event;
        if k < |before| {
          assert before[k].event == event;
          var i :| i in Remembered(h[..n], now) && h[..n][i].row.event == event;
          assert i in Remembered(h, now);
        } else {
          assert n in Remembered(h, now);
        }
      }
      if i :| i in Remembered(h, now) && h[i].row.event == event {
        PurgeKeeps(Rows(h), now, i);
      }
    }
  }

  // ---- acceptance ----

  /** The callback is in time, by its key, by its signature and by the clocks. */
  ghost predicate WellTimed(w: World, r: Request, actual: int, reading: int) {
    && r.notBefore <= actual < r.notAfter
    && actual - 5 * MINUTE <= r.seconds * 1_000_000_000 <= actual + 5 * MINUTE
    && (w.history != [] ==> w.history[|w.history| - 1].actual <= actual)
    && InStep(w.store.clock, reading)
  }

  ghost predicate WithinLimits(h: seq<Receipt>, r: Request, now: int) {
    && |Remembered(h, now)| < 10_000 && |RememberedOf(h, r.tenant, now)| < 1000
    && |LastMinute(h, r.key, now)| < 10
  }

  lemma LimitsSeen(w: World, r: Request, now: int)
    requires StoreOk(w) && ReceiptsOk(w.history)
    requires w.history != [] ==> w.history[|w.history| - 1].row.accepted <= now
    ensures MayReserve(Purge(w.store.events, now), r, now) <==>
            !Known(w.history, r.event, now) && WithinLimits(w.history, r, now)
  {
    TableAt(w, now);
    TableSize(w.history, now);
    TenantSize(w.history, r.tenant, now);
    TableEvents(w.history, r.event, now);
    forall i | 0 <= i < |w.history| && Rows(w.history)[i].accepted > now - MINUTE
      ensures Rows(w.history)[i].expires > now
    {
      assert ReceiptOk(w.history[i]);
    }
    PurgeKeepsCount(Rows(w.history), r.key, now - MINUTE, now);
    MinuteSize(w.history, r.key, now);
  }

  lemma TimedByClocks(w: World, r: Request, actual: int, reading: int)
    requires StoreOk(w)
    ensures WellTimed(w, r, actual, reading) <==>
            ClockOk(w.store, r, actual) && Now(w.store.clock, reading).Some?
  {
    StoreTime(w.store.clock, reading);
  }

  lemma AcceptsWhen(w: World, r: Request, actual: int, reading: int)
    requires StoreOk(w) && ReceiptsOk(w.history)
    ensures var now := Later(w.store.clock, reading);
            Accepts(w.store, r, actual, reading) <==>
            && r.jobKnown && WellTimed(w, r, actual, reading)
            && !Known(w.history, r.event, now) && WithinLimits(w.history, r, now)
  {
    StoreTime(w.store.clock, reading);
    TimedByClocks(w, r, actual, reading);
    if WellTimed(w, r, actual, reading) {
      LimitsSeen(w, r, Later(w.store.clock, reading));
    }
  }

  /** The history grows by this event, at this time. */
  ghost predicate Remembers(w: World, v: World, r: Request, now: int) {
    && |v.history| == |w.history| + 1 && v.history[..|w.history|] == w.history
    && v.history[|w.history|].row.event == r.event && v.history[|w.history|].row.accepted == now
    && Known(v.history, r.event, now)
  }

  lemma AcceptedIsRemembered(w: World, r: Request, actual: int, reading: int)
    requires Accepts(w.store, r, actual, reading)
    ensures Remembers(w, Apply(w, Deliver(r, actual, reading)), r, Later(w.store.clock, reading))
  {
    var v := Apply(w, Deliver(r, actual, reading));
    assert |w.history| in Remembered(v.history, Later(w.store.clock, reading));
  }

  /** In every run a callback for a known job is accepted if and only if it is well timed, its event was not accepted
      in the last eleven minutes of store time, fewer than 10,000 were, fewer than 1,000 of its tenant, and fewer than
      ten of its key in the last minute. It is then remembered, and nothing else changes. */
  lemma AcceptedIff(steps: seq<Step>, r: Request, actual: int, reading: int)
    ensures var w := Run(Start, steps);
            var now, v := Later(w.store.clock, reading), Apply(w, Deliver(r, actual, reading));
            if r.jobKnown && WellTimed(w, r, actual, reading) && !Known(w.history, r.event, now)
               && WithinLimits(w.history, r, now)
            then Remembers(w, v, r, now)
            else v == w
  {
    var w := Run(Start, steps);
    RunKeeps(Start, steps);
    AcceptsWhen(w, r, actual, reading);
    if Accepts(w.store, r, actual, reading) {
      AcceptedIsRemembered(w, r, actual, reading);
    }
  }
}
