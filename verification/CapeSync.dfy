/**
 * Unsynced removals over every run: a deleted row's payload can come back in a crash exactly when an earlier removal
 * unlinked it and could not sync, and nothing synced the directory since.
 */
module CapeSync {
  import opened CapeProtocol
  import opened CapeSteps
  import opened CapeRuns
  import opened CapeHistory
  import opened CapeMaintenance
  import opened CapeSpool
  import S = CapeStore

  // ---- which steps sync ----

  /** The step unlinks the payload of `id`. */
  ghost predicate Unlinks(cfg: S.Config, w: World, e: Step, id: Id) {
    id in w.store.blobs && id !in Apply(cfg, w, e).store.blobs
  }

  /** The step unlinks the payload of `id`, and the sync after it fails. */
  ghost predicate SyncFails(cfg: S.Config, w: World, e: Step, id: Id) {
    w.open && e == RemovePayload(id, false) && Unlinks(cfg, w, e, id)
  }

  /** The step syncs the spool directory: a file was written out or unlinked, or recovery ends. */
  ghost predicate Syncs(cfg: S.Config, w: World, e: Step) {
    match e
    case StoreBlob(id, size, _) => w.open && Streaming(w.store, id) && 1 <= size <= cfg.maxAttachment
    case Abandon(id, unlinked, _) => w.open && id in w.store.active && IsStaging(w.store, id) && unlinked.Synced?
    case RemovePayload(id, synced) => w.open && synced && Unlinks(cfg, w, e, id)
    case Retain(id, _, _) => w.open && Unlinks(cfg, w, e, id)
    case RecoverRow(id, unlinked, _) => !w.open && IsStaging(w.store, id) && unlinked.Synced?
    case Reopen => !w.open && Apply(cfg, w, e).open
    case _ => false
  }

  /** A step on an open store leaves unsynced what was, and what it unlinks without a sync, unless it syncs. */
  ghost predicate Tracks(cfg: S.Config, w: World, e: Step, id: Id) {
    id in Apply(cfg, w, e).store.unsynced <==>
    !Syncs(cfg, w, e) && (id in w.store.unsynced || SyncFails(cfg, w, e, id))
  }

  lemma RowTracks(cfg: S.Config, w: World, e: Step, id: Id)
    requires w.open && RowOnly(e)
    ensures Tracks(cfg, w, e, id)
  {
    RowFiles(cfg, w, e);
  }

  lemma RemovalTracks(cfg: S.Config, w: World, e: Step, id: Id)
    requires w.open && e.RemovePayload?
    ensures Tracks(cfg, w, e, id)
  {
  }

  lemma RetainTracks(cfg: S.Config, w: World, e: Step, id: Id)
    requires w.open && e.Retain?
    ensures Tracks(cfg, w, e, id)
  {
  }

  lemma AbandonTracks(cfg: S.Config, w: World, e: Step, id: Id)
    requires w.open && e.Abandon?
    ensures Tracks(cfg, w, e, id)
  {
  }

  lemma WriterTracks(cfg: S.Config, w: World, e: Step, id: Id)
    requires w.open && (e.OpenTemporary? || e.StoreBlob? || e.WriterStops? || e.Publish?)
    ensures Tracks(cfg, w, e, id)
  {
  }

  lemma StepTracks(cfg: S.Config, w: World, e: Step, id: Id)
    requires w.open && Apply(cfg, w, e).open
    ensures Tracks(cfg, w, e, id)
  {
    if RowOnly(e) {
      RowTracks(cfg, w, e, id);
    } else if e.RemovePayload? {
      RemovalTracks(cfg, w, e, id);
    } else if e.Retain? {
      RetainTracks(cfg, w, e, id);
    } else if e.Crash? {
      ApplyCrash(cfg, w, e);
    } else if e.Abandon? {
      AbandonTracks(cfg, w, e, id);
    } else if !e.Reserve? && !e.RecoverRow? && !e.Reopen? {
      WriterTracks(cfg, w, e, id);
    }
  }

  // ---- what a run leaves unsynced ----

  /** The world before step `i`. */
  ghost function At(cfg: S.Config, steps: seq<Step>, i: nat): World
    requires i <= |steps|
  {
    Run(cfg, Start, steps[..i])
  }

  ghost predicate SyncedAfter(cfg: S.Config, steps: seq<Step>, i: nat) {
    exists k :: i < k < |steps| && Syncs(cfg, At(cfg, steps, k), steps[k])
  }

  /** At step `i` the payload of `id` was unlinked, the sync failed, and no later step synced. */
  ghost predicate LeftAt(cfg: S.Config, steps: seq<Step>, i: nat, id: Id) {
    i < |steps| && SyncFails(cfg, At(cfg, steps, i), steps[i], id) && !SyncedAfter(cfg, steps, i)
  }

  ghost predicate LeftUnsynced(cfg: S.Config, steps: seq<Step>, id: Id) {
    exists i: nat :: LeftAt(cfg, steps, i, id)
  }

  lemma SyncedAfterSnoc(cfg: S.Config, steps: seq<Step>, e: Step, i: nat)
    requires i < |steps|
    ensures SyncedAfter(cfg, steps + [e], i) <==> SyncedAfter(cfg, steps, i) || Syncs(cfg, Run(cfg, Start, steps), e)
  {
    var all := steps + [e];
    assert all[..|steps|] == steps;
    forall k: nat | k < |steps| ensures all[..k] == steps[..k] && all[k] == steps[k] {
    }
    if SyncedAfter(cfg, steps, i) {
      var k :| i < k < |steps| && Syncs(cfg, At(cfg, steps, k), steps[k]);
      assert Syncs(cfg, At(cfg, all, k), all[k]);
    }
    if Syncs(cfg, Run(cfg, Start, steps), e) {
      assert Syncs(cfg, At(cfg, all, |steps|), all[|steps|]);
    }
  }

  lemma LeftAtSnoc(cfg: S.Config, steps: seq<Step>, e: Step, i: nat, id: Id)
    requires i < |steps|
    ensures LeftAt(cfg, steps + [e], i, id) <==> LeftAt(cfg, steps, i, id) && !Syncs(cfg, Run(cfg, Start, steps), e)
  {
    SyncedAfterSnoc(cfg, steps, e, i);
    assert (steps + [e])[..i] == steps[..i] && (steps + [e])[i] == steps[i];
  }

  lemma LeftAtEnd(cfg: S.Config, steps: seq<Step>, e: Step, id: Id)
    ensures LeftAt(cfg, steps + [e], |steps|, id) <==> SyncFails(cfg, Run(cfg, Start, steps), e, id)
  {
    assert (steps + [e])[..|steps|] == steps;
  }

  lemma LeftSnoc(cfg: S.Config, steps: seq<Step>, e: Step, id: Id)
    ensures LeftUnsynced(cfg, steps + [e], id) <==>
            || SyncFails(cfg, Run(cfg, Start, steps), e, id)
            || (LeftUnsynced(cfg, steps, id) && !Syncs(cfg, Run(cfg, Start, steps), e))
  {
    LeftAtEnd(cfg, steps, e, id);
    if LeftUnsynced(cfg, steps, id) {
      var i: nat :| LeftAt(cfg, steps, i, id);
      LeftAtSnoc(cfg, steps, e, i, id);
    }
    if LeftUnsynced(cfg, steps + [e], id) {
      var i: nat :| LeftAt(cfg, steps + [e], i, id);
      if i < |steps| {
        LeftAtSnoc(cfg, steps, e, i, id);
      }
    }
  }

  /** Of a closed store only the end of a recovery, which syncs, makes an open one. */
  lemma ReopenSyncs(cfg: S.Config, w: World, e: Step, id: Id)
    requires !w.open && Apply(cfg, w, e).open
    ensures Syncs(cfg, w, e) && id !in Apply(cfg, w, e).store.unsynced && !SyncFails(cfg, w, e, id)
  {
    if e.Crash? {
      ApplyCrash(cfg, w, e);
    }
    if e.Reopen? {
      ApplyReopen(cfg, w, e);
    }
  }

  /** While the store is open, a payload is unsynced exactly when some removal left it so. */
  lemma {:induction false} UnsyncedIff(cfg: S.Config, steps: seq<Step>, id: Id)
    requires Run(cfg, Start, steps).open
    ensures id in Run(cfg, Start, steps).store.unsynced <==> LeftUnsynced(cfg, steps, id)
    decreases |steps|
  {
    if steps != [] {
      var n := |steps| - 1;
      var w := Run(cfg, Start, steps[..n]);
      assert steps[..n] + [steps[n]] == steps;
      RunSnoc(cfg, Start, steps[..n], steps[n]);
      LeftSnoc(cfg, steps[..n], steps[n], id);
      if w.open {
        UnsyncedIff(cfg, steps[..n], id);
        StepTracks(cfg, w, steps[n], id);
      } else {
        ReopenSyncs(cfg, w, steps[n], id);
      }
    }
  }

  // ---- a deleted row ----

  /** Some crash brings the payload back. */
  ghost predicate CanReturn(s: S.Store, id: Id) {
    exists blobs, tmps :: SpoolSurvives(s, blobs, tmps) && id in blobs
  }

  lemma ReturnsIffUnsynced(s: S.Store, id: Id)
    requires id !in s.jobs && id !in s.blobs
    ensures CanReturn(s, id) <==> id in s.unsynced
  {
    if id in s.unsynced {
      assert SpoolSurvives(s, s.blobs[id := 1], {});
    }
  }

  lemma CleanupKeepsRow(s: S.Store, id: Id, unlinked: Unlinked, fault: Fault, row: Id)
    requires row in s.jobs && !s.jobs[row].state.Staging?
    ensures row in CleanupStaging(s, id, unlinked, fault).jobs
  {
  }

  /** Cleaning up deletes staging rows alone. */
  lemma StagingCleanup(cfg: S.Config, s: S.Store, e: Step, row: Id)
    requires row in s.jobs && !s.jobs[row].state.Staging? && (e.Abandon? || e.RecoverRow?)
    ensures row in StoreStep(cfg, s, e).jobs
  {
    if e.Abandon? {
      CleanupKeepsRow(s.(active := s.active - {e.id}), e.id, e.unlinked, e.fault, row);
    } else {
      CleanupKeepsRow(s, e.id, e.unlinked, e.fault, row);
    }
  }

  /** Only retention deletes a row past staging, and only from an open store. */
  lemma DeletedByRetention(cfg: S.Config, w: World, e: Step, id: Id)
    requires Sound(cfg, w) && id in w.store.jobs && !w.store.jobs[id].state.Staging?
    requires id !in Apply(cfg, w, e).store.jobs
    ensures w.open && e.Retain? && e.id == id
  {
    var c := StepFollows(cfg, w, e);
    assert c.Forgets? && c.id == id;
    if e.Abandon? || e.RecoverRow? {
      StagingCleanup(cfg, w.store, e, id);
    }
  }

  lemma RetentionTracks(cfg: S.Config, w: World, e: Step, id: Id)
    requires w.open && e.Retain? && e.id == id && id in w.store.jobs && id !in Apply(cfg, w, e).store.jobs
    ensures var t := Apply(cfg, w, e).store;
            id !in t.blobs && (id in t.unsynced <==> id in w.store.unsynced && id !in w.store.blobs)
  {
  }

  /** The deletion of a row past staging leaves a payload that a crash can bring back if and only if some earlier
      removal unlinked it without a sync and no step synced since. */
  lemma PayloadReturnsIff(cfg: S.Config, steps: seq<Step>, e: Step, id: Id)
    requires cfg.Valid()
    requires var w := Run(cfg, Start, steps);
             && id in w.store.jobs && !w.store.jobs[id].state.Staging? && id !in Apply(cfg, w, e).store.jobs
    ensures var w := Run(cfg, Start, steps);
            && (CanReturn(Apply(cfg, w, e).store, id) <==> LeftUnsynced(cfg, steps, id))
            && (CanReturn(Apply(cfg, w, e).store, id) <==> id in w.store.unsynced)
  {
    var w := Run(cfg, Start, steps);
    SpoolReachable(cfg, steps);
    DeletedByRetention(cfg, w, e, id);
    RetentionTracks(cfg, w, e, id);
    ReturnsIffUnsynced(Apply(cfg, w, e).store, id);
    UnsyncedIff(cfg, steps, id);
  }

  // ---- runs in which no sync fails ----

  predicate NoSyncFails(steps: seq<Step>) {
    forall i :: 0 <= i < |steps| && steps[i].RemovePayload? ==> steps[i].synced
  }

  /** Every payload, there or unlinked, belongs to a row; while the store is open none is unsynced. */
  ghost predicate Housed(s: S.Store, open: bool) {
    && (forall id :: id in s.blobs || id in s.unsynced ==> id in s.jobs)
    && (open ==> s.unsynced == {})
  }

  lemma RemovalHoused(cfg: S.Config, w: World, e: Step)
    requires Housed(w.store, true) && (e.RemovePayload? ==> e.synced)
    requires e.RemovePayload? || e.Retain?
    ensures Housed(StoreStep(cfg, w.store, e), true)
  {
  }

  lemma WriterHoused(cfg: S.Config, w: World, e: Step)
    requires Housed(w.store, true) && Writers(cfg, w)
    requires e.OpenTemporary? || e.StoreBlob? || e.WriterStops? || e.Publish? || e.Abandon?
    ensures Housed(StoreStep(cfg, w.store, e), true)
  {
    if e.StoreBlob? && Streaming(w.store, e.id) {
      assert WriterOk(cfg, w.store.jobs, w.store.blobs, e.id, w.store.active[e.id]);
    }
  }

  lemma RecoverRowHoused(s: S.Store, id: Id, unlinked: Unlinked, fault: Fault)
    requires Housed(s, false)
    ensures Housed(RecoverRowStep(s, id, unlinked, fault), false)
  {
  }

  lemma CrashHoused(w: World, blobs: map<Id, int>, tmps: set<Id>)
    requires Housed(w.store, w.open)
    ensures var v := CrashStep(w, blobs, tmps); Housed(v.store, v.open)
  {
  }

  lemma RowHoused(cfg: S.Config, w: World, e: Step, c: Change)
    requires Housed(w.store, w.open) && RowOnly(e) && TableFollows(cfg, w, Apply(cfg, w, e).store.jobs, c) && Fits(e, c)
    ensures Housed(Apply(cfg, w, e).store, w.open) && Apply(cfg, w, e).open == w.open
  {
    RowFiles(cfg, w, e);
    assert Apply(cfg, w, e).store.jobs.Keys == w.store.jobs.Keys;
  }

  lemma RestartHoused(cfg: S.Config, w: World, e: Step)
    requires Housed(w.store, w.open) && (e.Crash? || e.Reopen? || e.RecoverRow?)
    ensures Housed(Apply(cfg, w, e).store, Apply(cfg, w, e).open)
  {
    match e
    case Crash(blobs, tmps) =>
      ApplyCrash(cfg, w, e);
      CrashHoused(w, blobs, tmps);
    case Reopen => ApplyReopen(cfg, w, e);
    case RecoverRow(id, unlinked, fault) =>
      if !w.open {
        RecoverRowHoused(w.store, id, unlinked, fault);
      }
  }

  lemma StepHoused(cfg: S.Config, w: World, e: Step)
    requires Sound(cfg, w) && Housed(w.store, w.open) && (e.RemovePayload? ==> e.synced)
    ensures Housed(Apply(cfg, w, e).store, Apply(cfg, w, e).open)
  {
    if RowOnly(e) {
      var c := StepFollows(cfg, w, e);
      RowHoused(cfg, w, e, c);
    } else if e.Crash? || e.Reopen? || e.RecoverRow? {
      RestartHoused(cfg, w, e);
    } else if w.open && !e.Reserve? {
      StoreHoused(cfg, w, e);
    }
  }

  lemma StoreHoused(cfg: S.Config, w: World, e: Step)
    requires Writers(cfg, w) && Housed(w.store, true) && (e.RemovePayload? ==> e.synced)
    requires StoreOnly(e) && !RowOnly(e) && !e.RecoverRow?
    ensures Housed(StoreStep(cfg, w.store, e), true)
  {
    if e.RemovePayload? || e.Retain? {
      RemovalHoused(cfg, w, e);
    } else {
      WriterHoused(cfg, w, e);
    }
  }

  lemma {:induction false} RunHoused(cfg: S.Config, steps: seq<Step>)
    requires cfg.Valid() && NoSyncFails(steps)
    ensures var w := Run(cfg, Start, steps); Housed(w.store, w.open)
    decreases |steps|
  {
    if steps != [] {
      var n := |steps| - 1;
      assert steps[..n] + [steps[n]] == steps;
      RunHoused(cfg, steps[..n]);
      ReachableSound(cfg, steps[..n]);
      StepHoused(cfg, Run(cfg, Start, steps[..n]), steps[n]);
      RunSnoc(cfg, Start, steps[..n], steps[n]);
    }
  }

  /** In every run in which no removal fails to sync, crashes and restarts included, each file belongs to a row. */
  lemma FilesHaveRows(cfg: S.Config, steps: seq<Step>, id: Id)
    requires cfg.Valid() && NoSyncFails(steps)
    ensures var s := Run(cfg, Start, steps).store; id in s.blobs || id in s.tmps ==> id in s.jobs
  {
    RunHoused(cfg, steps);
    SpoolReachable(cfg, steps);
  }
}
