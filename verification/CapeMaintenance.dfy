/** A maintenance pass over a batch of rows is a run of protocol steps, committed or rolled back. */
module CapeMaintenance {
  import opened StoreClock
  import opened CapeJob
  import opened CapeProtocol
  import opened CapeCalls
  import S = CapeStore

  /** The rows of a batch expire one after the other, at one store time. */
  ghost function ExpireAll(s: S.Store, ids: seq<Id>, reading: int): S.Store {
    if ids == [] then s.(clock := Now(s.clock, reading)) else
      var n := |ids| - 1;
      var before := ExpireAll(s, ids[..n], reading);
      Settle(before, S.Expire(before, ids[n], reading), NoFault)
  }

  /** The table after one row met its deadline, if it has. */
  function Overdue(jobs: map<Id, Job>, id: Id, now: int): map<Id, Job> {
    if id in jobs && S.PastDue(jobs[id], now)
    then jobs[id := Terminated(jobs[id], Expired, Deadline, now).(version := jobs[id].version + 1)] else jobs
  }

  lemma ExpireOnce(s: S.Store, id: Id, reading: int)
    requires s.clock.Some? && Now(s.clock, reading) == s.clock
    ensures Settle(s, S.Expire(s, id, reading), NoFault) == s.(jobs := Overdue(s.jobs, id, s.clock.value))
  {
  }

  ghost function RetainAll(s: S.Store, ids: seq<Id>, now: int): S.Store {
    if ids == [] then s else
      var n := |ids| - 1;
      S.Retain(RetainAll(s, ids[..n], now), ids[n], now)
  }

  lemma {:induction false} RunSnoc(cfg: S.Config, w: World, steps: seq<Step>, e: Step)
    ensures Run(cfg, w, steps + [e]) == Apply(cfg, Run(cfg, w, steps), e)
    decreases |steps|
  {
    if steps == [] {
      assert steps + [e] == [e] && [e][1..] == [];
      assert Run(cfg, Apply(cfg, w, e), []) == Apply(cfg, w, e);
    } else {
      assert (steps + [e])[0] == steps[0] && (steps + [e])[1..] == steps[1..] + [e];
      RunSnoc(cfg, Apply(cfg, w, steps[0]), steps[1..], e);
    }
  }

  lemma {:induction false} RunAppend(cfg: S.Config, w: World, a: seq<Step>, b: seq<Step>)
    ensures Run(cfg, w, a + b) == Run(cfg, Run(cfg, w, a), b)
    decreases |a|
  {
    if a == [] {
      assert a + b == b;
    } else {
      assert (a + b)[0] == a[0] && (a + b)[1..] == a[1..] + b;
      RunAppend(cfg, Apply(cfg, w, a[0]), a[1..], b);
    }
  }

  lemma RunTail(cfg: S.Config, w: World, steps: seq<Step>, k: nat)
    requires k < |steps|
    ensures Run(cfg, w, steps[k..]) == Run(cfg, Apply(cfg, w, steps[k]), steps[k + 1..])
  {
    assert steps[k..][1..] == steps[k + 1..];
  }

  lemma RunEnd(cfg: S.Config, w: World, steps: seq<Step>)
    ensures Run(cfg, w, steps[|steps|..]) == w && steps[0..] == steps
  {
  }

  // ---- the deadline pass ----

  /** One step for each row of the batch, after one that only moves the clock. */
  function ExpireSteps(ids: seq<Id>, reading: int, idle: Id): seq<Step> {
    if ids == [] then [Expire(idle, reading, NoFault)]
    else ExpireSteps(ids[..|ids| - 1], reading, idle) + [Expire(ids[|ids| - 1], reading, NoFault)]
  }

  lemma ExpireApplied(cfg: S.Config, w: World, id: Id, reading: int)
    requires w.open
    ensures Apply(cfg, w, Expire(id, reading, NoFault))
         == w.(store := Settle(w.store, S.Expire(w.store, id, reading), NoFault))
  {
  }

  lemma {:induction false} ExpirePassIsRun(cfg: S.Config, w: World, ids: seq<Id>, reading: int, idle: Id)
    requires w.open && idle !in w.store.jobs && Now(w.store.clock, reading).Some?
    ensures Run(cfg, w, ExpireSteps(ids, reading, idle)) == w.(store := ExpireAll(w.store, ids, reading))
  {
    if ids == [] {
      var e := Expire(idle, reading, NoFault);
      assert [] + [e] == [e];
      RunSnoc(cfg, w, [], e);
      ExpireApplied(cfg, w, idle, reading);
    } else {
      var n := |ids| - 1;
      ExpirePassIsRun(cfg, w, ids[..n], reading, idle);
      RunSnoc(cfg, w, ExpireSteps(ids[..n], reading, idle), Expire(ids[n], reading, NoFault));
      ExpireApplied(cfg, w.(store := ExpireAll(w.store, ids[..n], reading)), ids[n], reading);
    }
  }

  // ---- the retention pass ----

  function RetainSteps(ids: seq<Id>, now: int): seq<Step> {
    if ids == [] then [] else RetainSteps(ids[..|ids| - 1], now) + [Retain(ids[|ids| - 1], now, NoFault)]
  }

  lemma {:induction false} RetainKeepsClock(s: S.Store, ids: seq<Id>, now: int)
    ensures RetainAll(s, ids, now).clock == s.clock
  {
    if ids != [] {
      RetainKeepsClock(s, ids[..|ids| - 1], now);
    }
  }

  lemma {:induction false} RetainPassIsRun(cfg: S.Config, w: World, ids: seq<Id>, now: int)
    requires w.open && w.store.clock.Some? && now <= w.store.clock.value
    ensures Run(cfg, w, RetainSteps(ids, now)) == w.(store := RetainAll(w.store, ids, now))
  {
    if ids != [] {
      var n := |ids| - 1;
      RetainPassIsRun(cfg, w, ids[..n], now);
      RetainKeepsClock(w.store, ids[..n], now);
      RunSnoc(cfg, w, RetainSteps(ids[..n], now), Retain(ids[n], now, NoFault));
    }
  }

  // ---- a retention pass that is rolled back ----

  function RemoveSteps(ids: seq<Id>): seq<Step> {
    if ids == [] then [] else RemoveSteps(ids[..|ids| - 1]) + [RemovePayload(ids[|ids| - 1], true)]
  }

  /** The payload of this row is not needed any more. */
  predicate Past(s: S.Store, id: Id) {
    id in s.jobs && !NeedsPayload(s.jobs[id].state) && !s.jobs[id].state.Staging?
  }

  /** The pass leaves the row in its state, or deletes it without a payload. */
  ghost predicate RetainedRow(s: S.Store, t: S.Store, id: Id) {
    id in s.jobs ==>
      if id in t.jobs then t.jobs[id].state == s.jobs[id].state else id !in t.blobs && Past(s, id)
  }

  ghost predicate Retained(s: S.Store, t: S.Store) {
    forall id :: RetainedRow(s, t, id)
  }

  /** The rows of `s` with the files of `t`: unlinking is in no transaction. */
  function WithFiles(s: S.Store, t: S.Store): S.Store {
    s.(blobs := t.blobs, unsynced := t.unsynced)
  }

  lemma RetainFiles(t: S.Store, id: Id, now: int)
    ensures WithFiles(t, S.Retain(t, id, now)) == if Past(t, id) then S.Unlink(t, id, true) else t
  {
  }

  /** Retention of one row leaves the others, and its own state while it is there. */
  lemma RetainRows(t: S.Store, id: Id, now: int, o: Id)
    ensures var r := S.Retain(t, id, now);
            if o in r.jobs then o in t.jobs && r.jobs[o].state == t.jobs[o].state
            else o in t.jobs ==> o == id && Past(t, id)
  {
  }

  lemma RetainOnce(s: S.Store, t: S.Store, id: Id, now: int)
    requires Retained(s, t)
    ensures Retained(s, S.Retain(t, id, now))
  {
    RetainFiles(t, id, now);
    forall o ensures RetainedRow(s, S.Retain(t, id, now), o) {
      RetainRows(t, id, now, o);
      assert RetainedRow(s, t, o);
    }
  }

  lemma {:induction false} RetainAllRetained(s: S.Store, ids: seq<Id>, now: int)
    ensures Retained(s, RetainAll(s, ids, now))
  {
    if ids != [] {
      RetainAllRetained(s, ids[..|ids| - 1], now);
      RetainOnce(s, RetainAll(s, ids[..|ids| - 1], now), ids[|ids| - 1], now);
    }
  }

  /** Of a listed row the pass removes the payload exactly when removal alone would. */
  lemma SameUnlink(s: S.Store, t: S.Store, id: Id, now: int)
    requires id in s.jobs && RetainedRow(s, t, id)
    ensures WithFiles(s, S.Retain(t, id, now)) == S.RemovePayload(WithFiles(s, t), id, true)
  {
    RetainFiles(t, id, now);
    assert WithFiles(s, S.Retain(t, id, now)) == WithFiles(s, WithFiles(t, S.Retain(t, id, now)));
  }

  /** A rolled back pass leaves every row, and the payloads it removed are those of a run of removals. */
  lemma {:induction false} RolledBackRetainIsRun(cfg: S.Config, w: World, ids: seq<Id>, now: int)
    requires w.open && forall i :: 0 <= i < |ids| ==> ids[i] in w.store.jobs
    ensures Run(cfg, w, RemoveSteps(ids)) == w.(store := WithFiles(w.store, RetainAll(w.store, ids, now)))
  {
    if ids != [] {
      var n := |ids| - 1;
      RolledBackRetainIsRun(cfg, w, ids[..n], now);
      RetainAllRetained(w.store, ids[..n], now);
      SameUnlink(w.store, RetainAll(w.store, ids[..n], now), ids[n], now);
      RunSnoc(cfg, w, RemoveSteps(ids[..n]), RemovePayload(ids[n], true));
    }
  }

  // ---- a retention pass that stops at a removal ----

  /** The removal of this row's payload reports an error, which rolls the pass back. */
  predicate Stops(t: S.Store, id: Id, removal: Removal) {
    Past(t, id) && !Cleared(t, id, removal)
  }

  /** The pass does not stop at any row of the batch. */
  ghost predicate Clears(s: S.Store, ids: seq<Id>, now: int, removal: Id -> Removal) {
    ids == [] ||
    var n := |ids| - 1;
    Clears(s, ids[..n], now, removal) && !Stops(RetainAll(s, ids[..n], now), ids[n], removal(ids[n]))
  }

  /** A pass that stops leaves every row; its files are those of a run of removals, the last of which failed. */
  lemma StoppedRetainIsRun(cfg: S.Config, w: World, ids: seq<Id>, now: int, n: nat, removal: Removal)
    requires w.open && n < |ids| && forall i :: 0 <= i < |ids| ==> ids[i] in w.store.jobs
    requires Stops(RetainAll(w.store, ids[..n], now), ids[n], removal)
    ensures Run(cfg, w, RemoveSteps(ids[..n]) + RemovalSteps(ids[n], removal))
         == w.(store := WithFiles(w.store, Remove(RetainAll(w.store, ids[..n], now), ids[n], removal)))
  {
    RolledBackRetainIsRun(cfg, w, ids[..n], now);
    RetainAllRetained(w.store, ids[..n], now);
    assert RetainedRow(w.store, RetainAll(w.store, ids[..n], now), ids[n]);
    if removal.Stuck? {
      assert RemoveSteps(ids[..n]) + [] == RemoveSteps(ids[..n]);
    } else {
      RunSnoc(cfg, w, RemoveSteps(ids[..n]), RemovePayload(ids[n], false));
    }
  }
}
