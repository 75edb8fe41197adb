/** Callback replay protection: signed window, high-water clocks and the event table. Times are nanoseconds. */
module Callback {
  import opened Options
  import opened StoreClock

  datatype Row = Row(event: string, tenant: string, key: string, accepted: int, expires: int)

  /** `clock` is the store's high-water clock, `eventClock` the latest raw reading of an accepted callback. */
  datatype Store = Store(clock: Option<int>, eventClock: Option<int>, events: seq<Row>)

  const EmptyStore := Store(None, None, [])

  /** An authenticated callback; `jobKnown` says its job row exists and matches. */
  datatype Request = Request(event: string, tenant: string, key: string, seconds: int,
                             notBefore: int, notAfter: int, jobKnown: bool)

  /** The signed time must lie within five minutes of the raw reading, which must not run behind the event clock. */
  predicate ClockOk(s: Store, r: Request, actual: int) {
    && (s.eventClock.Some? ==> s.eventClock.value <= actual)
    && r.notBefore <= actual < r.notAfter
    && actual - 300_000_000_000 <= r.seconds * 1_000_000_000 <= actual + 300_000_000_000
  }

  function Purge(rows: seq<Row>, now: int): seq<Row> {
    if rows == [] then [] else
      var n := |rows| - 1;
      if rows[n].expires <= now then Purge(rows[..n], now) else Purge(rows[..n], now) + [rows[n]]
  }

  predicate HasEvent(rows: seq<Row>, event: string) {
    exists i :: 0 <= i < |rows| && rows[i].event == event
  }

  function CountTenant(rows: seq<Row>, tenant: string): nat {
    if rows == [] then 0 else
      var n := |rows| - 1;
      CountTenant(rows[..n], tenant) + if rows[n].tenant == tenant then 1 else 0
  }

  /** Rows of a key accepted after `since`. */
  function CountSince(rows: seq<Row>, key: string, since: int): nat {
    if rows == [] then 0 else
      var n := |rows| - 1;
      CountSince(rows[..n], key, since) + if rows[n].key == key && rows[n].accepted > since then 1 else 0
  }

  /** The event may be reserved: not present, and within the table, tenant and key limits. */
  predicate MayReserve(rows: seq<Row>, r: Request, now: int) {
    && !HasEvent(rows, r.event)
    && |rows| < 10_000 && CountTenant(rows, r.tenant) < 1000 && CountSince(rows, r.key, now - 60_000_000_000) < 10
  }

  function NewRow(r: Request, now: int): Row {
    Row(r.event, r.tenant, r.key, now, now + 660_000_000_000)
  }

  /** One callback transaction. The clock is read twice: `actual` first, `reading` for the store time. */
  predicate Accepts(s: Store, r: Request, actual: int, reading: int) {
    && ClockOk(s, r, actual) && Now(s.clock, reading).Some? && r.jobKnown
    && MayReserve(Purge(s.events, Now(s.clock, reading).value), r, Now(s.clock, reading).value)
  }

  function Receive(s: Store, r: Request, actual: int, reading: int): Store {
    if !Accepts(s, r, actual, reading) then s else
      var now := Now(s.clock, reading).value;
      Store(Some(now), Some(actual), Purge(s.events, now) + [NewRow(r, now)])
  }

  /** A run of the store: callbacks, and any other transaction that moves its clock. */
  datatype Step = Deliver(request: Request, actual: int, reading: int) | Tick(reading: int)

  datatype Receipt = Receipt(row: Row, seconds: int, actual: int)

  datatype World = World(store: Store, history: seq<Receipt>)

  function Apply(w: World, e: Step): World {
    match e
    case Tick(reading) =>
      var now := Now(w.store.clock, reading);
      if now.None? then w else w.(store := w.store.(clock := now))
    case Deliver(r, actual, reading) =>
      if !Accepts(w.store, r, actual, reading) then w else
        World(Receive(w.store, r, actual, reading),
              w.history + [Receipt(NewRow(r, Now(w.store.clock, reading).value), r.seconds, actual)])
  }

  function Run(w: World, steps: seq<Step>): World
    decreases |steps|
  {
    if steps == [] then w else Run(Apply(w, steps[0]), steps[1..])
  }

  /** The second reading of a callback is at most `back` behind the first and at most `gap` ahead of it. */
  predicate Within(actual: int, reading: int, back: int, gap: int) {
    actual - back <= reading <= actual + gap
  }

  ghost predicate ReadingsWithin(steps: seq<Step>, back: int, gap: int) {
    forall i :: 0 <= i < |steps| && steps[i].Deliver? ==> Within(steps[i].actual, steps[i].reading, back, gap)
  }

  function Rows(h: seq<Receipt>): (r: seq<Row>)
    ensures |r| == |h| && forall i :: 0 <= i < |h| ==> r[i] == h[i].row
  {
    seq(|h|, i requires 0 <= i < |h| => h[i].row)
  }

  // ---- the table is the unexpired part of everything ever accepted ----

  ghost predicate ReceiptOk(p: Receipt) {
    && p.actual - 300_000_000_000 <= p.seconds * 1_000_000_000 <= p.actual + 300_000_000_000
    && p.row.expires == p.row.accepted + 660_000_000_000
  }

  /** Store time is at most `back` behind the first reading. */
  ghost predicate NearReading(h: seq<Receipt>, back: int) {
    forall i :: 0 <= i < |h| ==> h[i].actual - back <= h[i].row.accepted
  }

  /** The rate test passed when the receipt was issued. */
  ghost predicate LimitedAt(h: seq<Receipt>, i: nat)
    requires i < |h|
  {
    CountSince(Rows(h)[..i + 1], h[i].row.key, h[i].row.accepted - 60_000_000_000) <= 10
  }

  ghost predicate HistoryOk(h: seq<Receipt>) {
    && (forall i :: 0 <= i < |h| ==> ReceiptOk(h[i]))
    && (forall i, j :: 0 <= i < j < |h| ==> h[i].row.accepted <= h[j].row.accepted && h[i].actual <= h[j].actual)
    && (forall i: nat :: i < |h| ==> LimitedAt(h, i))
  }

  ghost predicate StoreOk(w: World) {
    if w.history == [] then w.store.events == [] && w.store.eventClock.None? else
      var last := w.history[|w.history| - 1];
      && w.store.events == Purge(Rows(w.history), last.row.accepted)
      && w.store.clock.Some? && last.row.accepted <= w.store.clock.value
      && w.store.eventClock == Some(last.actual)
  }

  /** No event was accepted twice with the same signed time. */
  ghost predicate NoReplay(h: seq<Receipt>) {
    forall i, j :: 0 <= i < j < |h| ==> !(h[i].row.event == h[j].row.event && h[i].seconds == h[j].seconds)
  }

  lemma {:induction false} PurgeTwice(rows: seq<Row>, t: int, u: int)
    requires t <= u
    ensures Purge(Purge(rows, t), u) == Purge(rows, u)
  {
    if rows != [] {
      var n := |rows| - 1;
      PurgeTwice(rows[..n], t, u);
      if rows[n].expires > t {
        var p := Purge(rows[..n], t) + [rows[n]];
        assert p[..|p| - 1] == Purge(rows[..n], t);
      }
    }
  }

  lemma {:induction false} PurgeKeeps(rows: seq<Row>, now: int, i: nat)
    requires i < |rows| && rows[i].expires > now
    ensures HasEvent(Purge(rows, now), rows[i].event)
  {
    var n := |rows| - 1;
    var p := Purge(rows[..n], now);
    if i == n {
      assert Purge(rows, now)[|p|] == rows[n];
    } else {
      PurgeKeeps(rows[..n], now, i);
      var k :| 0 <= k < |p| && p[k].event == rows[i].event;
      assert Purge(rows, now)[k] == p[k];
    }
  }

  /** Purging drops nothing recent, so the rate test sees the whole history. */
  lemma {:induction false} PurgeKeepsCount(rows: seq<Row>, key: string, since: int, now: int)
    requires forall i :: 0 <= i < |rows| && rows[i].accepted > since ==> rows[i].expires > now
    ensures CountSince(Purge(rows, now), key, since) == CountSince(rows, key, since)
  {
    if rows != [] {
      var n := |rows| - 1;
      PurgeKeepsCount(rows[..n], key, since, now);
      if rows[n].expires > now {
        var p := Purge(rows[..n], now) + [rows[n]];
        assert p[..|p| - 1] == Purge(rows[..n], now);
      }
    }
  }

  lemma PurgeSnoc(rows: seq<Row>, row: Row, now: int)
    requires row.expires > now
    ensures Purge(rows + [row], now) == Purge(rows, now) + [row]
  {
    assert (rows + [row])[..|rows|] == rows;
  }

  lemma CountSnoc(rows: seq<Row>, row: Row, key: string, since: int)
    ensures CountSince(rows + [row], key, since) ==
            CountSince(rows, key, since) + if row.key == key && row.accepted > since then 1 else 0
  {
    assert (rows + [row])[..|rows|] == rows;
  }

  /** The purged table that an arriving callback is held against, in terms of the history. */
  lemma TableAt(w: World, now: int)
    requires StoreOk(w) && (w.history != [] ==> w.history[|w.history| - 1].row.accepted <= now)
    ensures Purge(w.store.events, now) == Purge(Rows(w.history), now)
  {
    if w.history != [] {
      PurgeTwice(Rows(w.history), w.history[|w.history| - 1].row.accepted, now);
    }
  }

  /** Store time moves on from the last acceptance, and is at most the clock tolerance ahead of its reading. */
  lemma AcceptTimes(w: World, r: Request, actual: int, reading: int)
    requires StoreOk(w) && Accepts(w.store, r, actual, reading)
    ensures var now := Now(w.store.clock, reading).value;
            && reading <= now <= reading + 5_000_000_000
            && (w.history != [] ==> w.history[|w.history| - 1].row.accepted <= now
                                    && w.history[|w.history| - 1].actual <= actual)
  {
  }

  lemma RowsSnoc(h: seq<Receipt>, p: Receipt)
    ensures Rows(h + [p]) == Rows(h) + [p.row]
  {
  }

  lemma PurgedTable(w: World, r: Request, now: int)
    requires StoreOk(w) && (w.history != [] ==> w.history[|w.history| - 1].row.accepted <= now)
    ensures Purge(w.store.events, now) + [NewRow(r, now)] == Purge(Rows(w.history) + [NewRow(r, now)], now)
  {
    TableAt(w, now);
    PurgeSnoc(Rows(w.history), NewRow(r, now), now);
  }

  lemma AcceptKeepsStore(w: World, r: Request, actual: int, reading: int)
    requires StoreOk(w) && Accepts(w.store, r, actual, reading)
    ensures StoreOk(Apply(w, Deliver(r, actual, reading)))
  {
    var now := Now(w.store.clock, reading).value;
    AcceptTimes(w, r, actual, reading);
    PurgedTable(w, r, now);
    RowsSnoc(w.history, Receipt(NewRow(r, now), r.seconds, actual));
  }

  lemma LimitedBefore(h: seq<Receipt>, p: Receipt, i: nat)
    requires i < |h| && LimitedAt(h, i)
    ensures LimitedAt(h + [p], i)
  {
    assert Rows(h + [p])[..i + 1] == Rows(h)[..i + 1];
  }

  /** The newest receipt passed the rate test, and the table it was tested on hides nothing recent. */
  lemma LimitedNow(w: World, r: Request, now: int, p: Receipt)
    requires StoreOk(w) && p.row == NewRow(r, now)
    requires forall i :: 0 <= i < |w.history| ==> ReceiptOk(w.history[i])
    requires w.history != [] ==> w.history[|w.history| - 1].row.accepted <= now
    requires MayReserve(Purge(w.store.events, now), r, now)
    ensures LimitedAt(w.history + [p], |w.history|)
  {
    var prior := Rows(w.history);
    TableAt(w, now);
    PurgeKeepsCount(prior, r.key, now - 60_000_000_000, now);
    CountSnoc(prior, p.row, r.key, now - 60_000_000_000);
    assert Rows(w.history + [p])[..|w.history| + 1] == prior + [p.row];
  }

  lemma AcceptIsLimited(w: World, r: Request, actual: int, reading: int)
    requires StoreOk(w) && HistoryOk(w.history) && Accepts(w.store, r, actual, reading)
    ensures var h := Apply(w, Deliver(r, actual, reading)).history;
            forall i: nat :: i < |h| ==> LimitedAt(h, i)
  {
    var now := Now(w.store.clock, reading).value;
    var p := Receipt(NewRow(r, now), r.seconds, actual);
    AcceptTimes(w, r, actual, reading);
    LimitedNow(w, r, now, p);
    forall i: nat | i < |w.history| ensures LimitedAt(w.history + [p], i) {
      LimitedBefore(w.history, p, i);
    }
  }

  /** A second delivery of the same signed event finds the first one's row still in the table. */
  lemma ReplayRefused(w: World, r: Request, actual: int, reading: int, back: int, gap: int, i: nat)
    requires StoreOk(w) && HistoryOk(w.history) && Accepts(w.store, r, actual, reading)
    requires NearReading(w.history, back) && i < |w.history|
    requires back + gap < 55_000_000_000 && Within(actual, reading, back, gap)
    ensures !(w.history[i].row.event == r.event && w.history[i].seconds == r.seconds)
  {
    var now := Now(w.store.clock, reading).value;
    AcceptTimes(w, r, actual, reading);
    TableAt(w, now);
    if w.history[i].row.event == r.event && w.history[i].seconds == r.seconds {
      assert ReceiptOk(w.history[i]);
      PurgeKeeps(Rows(w.history), now, i);
    }
  }

  /** The history grows by a receipt that is in order and passed every test. */
  lemma AcceptKeepsHistory(w: World, r: Request, actual: int, reading: int)
    requires StoreOk(w) && HistoryOk(w.history) && Accepts(w.store, r, actual, reading)
    ensures HistoryOk(Apply(w, Deliver(r, actual, reading)).history)
  {
    AcceptTimes(w, r, actual, reading);
    AcceptIsLimited(w, r, actual, reading);
  }

  lemma TickKeeps(w: World, reading: int)
    requires StoreOk(w)
    ensures StoreOk(Apply(w, Tick(reading))) && Apply(w, Tick(reading)).history == w.history
  {
  }

  lemma ApplyKeeps(w: World, e: Step)
    requires StoreOk(w) && HistoryOk(w.history)
    ensures StoreOk(Apply(w, e)) && HistoryOk(Apply(w, e).history)
  {
    match e
    case Tick(reading) => TickKeeps(w, reading);
    case Deliver(r, actual, reading) =>
      if Accepts(w.store, r, actual, reading) {
        AcceptKeepsStore(w, r, actual, reading);
        AcceptKeepsHistory(w, r, actual, reading);
      }
  }

  lemma {:induction false} RunKeeps(w: World, steps: seq<Step>)
    requires StoreOk(w) && HistoryOk(w.history)
    ensures StoreOk(Run(w, steps)) && HistoryOk(Run(w, steps).history)
    decreases |steps|
  {
    if steps != [] {
      ApplyKeeps(w, steps[0]);
      RunKeeps(Apply(w, steps[0]), steps[1..]);
    }
  }

  lemma ApplySafe(w: World, e: Step, back: int, gap: int)
    requires StoreOk(w) && HistoryOk(w.history) && NearReading(w.history, back) && NoReplay(w.history)
    requires back + gap < 55_000_000_000 && (e.Deliver? ==> Within(e.actual, e.reading, back, gap))
    ensures NearReading(Apply(w, e).history, back) && NoReplay(Apply(w, e).history)
  {
    if e.Deliver? && Accepts(w.store, e.request, e.actual, e.reading) {
      AcceptTimes(w, e.request, e.actual, e.reading);
      forall i: nat | i < |w.history|
        ensures !(w.history[i].row.event == e.request.event && w.history[i].seconds == e.request.seconds)
      {
        ReplayRefused(w, e.request, e.actual, e.reading, back, gap, i);
      }
    }
  }

  lemma {:induction false} RunSafe(w: World, steps: seq<Step>, back: int, gap: int)
    requires StoreOk(w) && HistoryOk(w.history) && NearReading(w.history, back) && NoReplay(w.history)
    requires back + gap < 55_000_000_000 && ReadingsWithin(steps, back, gap)
    ensures NoReplay(Run(w, steps).history)
    decreases |steps|
  {
    if steps != [] {
      ApplyKeeps(w, steps[0]);
      ApplySafe(w, steps[0], back, gap);
      RunSafe(Apply(w, steps[0]), steps[1..], back, gap);
    }
  }

  const Start := World(EmptyStore, [])

  /** No run accepts a signed event twice while the second reading of a callback is at most `back` behind and at most
      `gap` ahead of the first, and the two allowances together are under 55 seconds. */
  lemma NoEventTwice(steps: seq<Step>, back: int, gap: int)
    requires back + gap < 55_000_000_000 && ReadingsWithin(steps, back, gap)
    ensures NoReplay(Run(Start, steps).history)
  {
    RunSafe(Start, steps, back, gap);
  }

  ghost function Signed(): Request {
    Request("e", "t", "k", 1300, 0, 10_000_000_000_000, true)
  }

  /** Delivered with the second reading `back` behind, delivered again ten minutes later with it `gap` ahead. */
  ghost function Replay(back: int, gap: int): seq<Step> {
    [Deliver(Signed(), 1_000_000_000_000, 1_000_000_000_000 - back), Tick(1_605_000_000_000 + gap),
     Deliver(Signed(), 1_600_000_000_000, 1_600_000_000_000 + gap)]
  }

  lemma FirstDelivery(at: int)
    ensures var s := Receive(EmptyStore, Signed(), 1_000_000_000_000, at);
            && Accepts(EmptyStore, Signed(), 1_000_000_000_000, at)
            && s == Store(Some(at), Some(1_000_000_000_000), [NewRow(Signed(), at)])
  {
    assert Purge([], at) == [];
    assert CountTenant([], "t") == 0 && CountSince([], "k", at - 60_000_000_000) == 0;
  }

  /** The first row has expired by then, so the same event is accepted again. */
  lemma SecondDelivery(at: int, now: int, reading: int)
    requires at + 660_000_000_000 <= now == reading + 5_000_000_000
    ensures Accepts(Store(Some(now), Some(1_000_000_000_000), [NewRow(Signed(), at)]), Signed(), 1_600_000_000_000,
                    reading)
  {
    PurgeOne(NewRow(Signed(), at), now);
    assert CountTenant([], "t") == 0 && CountSince([], "k", now - 60_000_000_000) == 0;
  }

  lemma RunThree(w: World, a: Step, b: Step, c: Step)
    ensures Run(w, [a, b, c]) == Apply(Apply(Apply(w, a), b), c)
  {
    assert [a, b, c][1..] == [b, c] && [b, c][1..] == [c] && [c][1..] == [];
    assert Run(Apply(w, a), [b, c]) == Run(Apply(Apply(w, a), b), [c]);
    assert Run(Apply(Apply(w, a), b), [c]) == Run(Apply(Apply(Apply(w, a), b), c), []);
  }

  /** From 55 seconds on the replay is accepted, however the two allowances share them. */
  lemma ReplayAccepted(back: int, gap: int)
    requires back + gap >= 55_000_000_000
    ensures ReadingsWithin(Replay(back, gap), back, gap) && !NoReplay(Run(Start, Replay(back, gap)).history)
  {
    var s := Replay(back, gap);
    FirstDelivery(1_000_000_000_000 - back);
    SecondDelivery(1_000_000_000_000 - back, 1_605_000_000_000 + gap, 1_600_000_000_000 + gap);
    RunThree(Start, s[0], s[1], s[2]);
    var h := Run(Start, s).history;
    assert h[0].row.event == h[1].row.event && h[0].seconds == h[1].seconds;
  }

  lemma PurgeOne(row: Row, now: int)
    requires row.expires <= now
    ensures Purge([row], now) == []
  {
    assert [row][..0] == [];
  }

  /** With the second reading of a callback at most `back` behind and at most `gap` ahead of the first, replay is
      impossible in every run exactly when the two allowances together are under 55 seconds. */
  lemma ReplaySafeIff(back: int, gap: int)
    ensures (forall steps :: ReadingsWithin(steps, back, gap) ==> NoReplay(Run(Start, steps).history))
            <==> back + gap < 55_000_000_000
  {
    if back + gap < 55_000_000_000 {
      forall steps | ReadingsWithin(steps, back, gap) ensures NoReplay(Run(Start, steps).history) {
        NoEventTwice(steps, back, gap);
      }
    } else {
      ReplayAccepted(back, gap);
    }
  }

  // ---- rate ----

  /** Acceptances of a key with store time in the window (from, to]. */
  function CountBetween(rows: seq<Row>, key: string, from: int, to: int): nat {
    if rows == [] then 0 else
      var n := |rows| - 1;
      CountBetween(rows[..n], key, from, to) + if rows[n].key == key && from < rows[n].accepted <= to then 1 else 0
  }

  lemma {:induction false} BetweenAtMostSince(rows: seq<Row>, key: string, from: int, to: int, since: int)
    requires since <= from
    ensures CountBetween(rows, key, from, to) <= CountSince(rows, key, since)
  {
    if rows != [] {
      BetweenAtMostSince(rows[..|rows| - 1], key, from, to, since);
    }
  }

  lemma EarlierHistory(h: seq<Receipt>, n: nat)
    requires HistoryOk(h) && n <= |h|
    ensures HistoryOk(h[..n])
  {
    forall i: nat | i < n ensures LimitedAt(h[..n], i) {
      assert LimitedAt(h, i);
      assert Rows(h[..n])[..i + 1] == Rows(h)[..i + 1];
    }
  }

  lemma {:induction false} WindowLimited(h: seq<Receipt>, key: string, t: int)
    requires HistoryOk(h)
    ensures CountBetween(Rows(h), key, t - 60_000_000_000, t) <= 10
    decreases |h|
  {
    if h != [] {
      var n := |h| - 1;
      var last := h[n].row;
      assert Rows(h)[..n] == Rows(h[..n]);
      if last.key == key && t - 60_000_000_000 < last.accepted <= t {
        assert LimitedAt(h, n);
        assert Rows(h)[..n + 1] == Rows(h);
        BetweenAtMostSince(Rows(h), key, t - 60_000_000_000, t, last.accepted - 60_000_000_000);
      } else {
        EarlierHistory(h, n);
        WindowLimited(h[..n], key, t);
      }
    }
  }

  /** At most ten callbacks of a key are accepted in any minute of store time. */
  lemma KeyRateLimited(steps: seq<Step>, key: string, t: int)
    ensures CountBetween(Rows(Run(Start, steps).history), key, t - 60_000_000_000, t) <= 10
  {
    RunKeeps(Start, steps);
    WindowLimited(Run(Start, steps).history, key, t);
  }
}
