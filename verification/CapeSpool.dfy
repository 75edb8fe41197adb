/**
 * The spool over every run: a file without a row was written out before the last sync and unlinked without one, so
 * that recovery never finds too many and never refuses.
 */
module CapeSpool {
  import opened Sets
  import opened CapeJob
  import opened CapeProtocol
  import opened CapeSafety
  import opened CapeSteps
  import opened CapeRuns
  import opened CapeHistory
  import opened CapeQuota
  import S = CapeStore
  import CS = CapeService

  /** A job has at most one file, a temporary one only while staging. */
  ghost predicate FilesOk(jobs: map<Id, Job>, blobs: map<Id, int>, tmps: set<Id>) {
    forall id :: id in tmps ==> id in jobs && jobs[id].state.Staging? && id !in blobs
  }

  /** Only a crash brings a payload back without its row, and a streaming writer has none yet. */
  ghost predicate PlaceOk(s: S.Store, open: bool, used: set<Id>) {
    && (forall id :: id in s.unsynced || id in s.blobs ==> id in used)
    && (forall id :: id in s.unsynced ==> id !in s.blobs)
    && (open ==> forall id :: id in s.blobs ==> id in s.jobs)
    && (forall id :: Streaming(s, id) ==> id !in s.blobs)
  }

  /** Rows whose payload was synced at some time: all but staging ones that are not written out. */
  function Written(s: S.Store): set<Id> {
    set id | id in s.jobs && (!s.jobs[id].state.Staging? || (id in s.active && s.active[id].Written?))
  }

  /** The jobs that were written out at the last directory sync, or since; deleted ones may be among them. */
  function Durable(s: S.Store): set<Id> {
    s.unsynced + S.Orphans(s) + Written(s)
  }

  ghost predicate SpoolInv(cfg: S.Config, s: S.Store, open: bool, used: set<Id>) {
    FilesOk(s.jobs, s.blobs, s.tmps) && PlaceOk(s, open, used) && |Durable(s)| <= cfg.maxJobs
  }

  // ---- what keeps the invariant ----

  /** Files go, and rows with theirs; the rows that stay change within their kind. */
  ghost predicate Settles(s: S.Store, t: S.Store) {
    && t.tmps <= s.tmps && t.blobs.Keys <= s.blobs.Keys && t.jobs.Keys <= s.jobs.Keys
    && (forall id :: id in t.jobs ==> (t.jobs[id].state.Staging? <==> s.jobs[id].state.Staging?))
    && (forall id :: id in s.jobs && id !in t.jobs ==> id !in t.blobs && id !in t.tmps)
    && (forall id :: id in t.unsynced ==>
          id in s.unsynced || (id in s.blobs && id !in t.blobs && !IsStaging(s, id)))
    && (forall id :: id in t.active ==> id in s.active && t.active[id] == s.active[id])
  }

  lemma SettlesDurable(s: S.Store, t: S.Store)
    requires Settles(s, t)
    ensures Durable(t) <= Durable(s)
  {
    forall id | id in Durable(t) ensures id in Durable(s) {
      assert id in t.jobs ==> id in s.jobs;
    }
  }

  lemma SettlesPlaced(s: S.Store, t: S.Store, open: bool, used: set<Id>)
    requires FilesOk(s.jobs, s.blobs, s.tmps) && PlaceOk(s, open, used) && Settles(s, t)
    ensures FilesOk(t.jobs, t.blobs, t.tmps) && PlaceOk(t, open, used)
  {
  }

  lemma SettlesKeeps(cfg: S.Config, s: S.Store, t: S.Store, open: bool, used: set<Id>)
    requires SpoolInv(cfg, s, open, used) && Settles(s, t)
    ensures SpoolInv(cfg, t, open, used)
  {
    SettlesPlaced(s, t, open, used);
    SettlesDurable(s, t);
    SubsetSize(Durable(t), Durable(s));
  }

  lemma StoreBlobKeeps(cfg: S.Config, s: S.Store, used: set<Id>, id: Id, size: int, digest: string)
    requires SpoolInv(cfg, s, true, used) && |s.jobs| <= cfg.maxJobs
    requires Streaming(s, id) ==> id in s.jobs && id in used
    ensures SpoolInv(cfg, StoreBlobStep(cfg, s, id, size, digest), true, used)
  {
    var t := StoreBlobStep(cfg, s, id, size, digest);
    if t != s {
      assert t.unsynced == {} && S.Orphans(t) == {};
      SubsetSize(Durable(t), s.jobs.Keys);
    }
  }

  lemma CleanupSettles(s: S.Store, id: Id, unlinked: Unlinked, fault: Fault)
    ensures Settles(s, CleanupStaging(s, id, unlinked, fault))
  {
  }

  lemma AbandonKeeps(cfg: S.Config, s: S.Store, used: set<Id>, id: Id, unlinked: Unlinked, fault: Fault)
    requires SpoolInv(cfg, s, true, used)
    ensures SpoolInv(cfg, AbandonStep(s, id, unlinked, fault), true, used)
  {
    if id in s.active {
      var left := s.(active := s.active - {id});
      SettlesKeeps(cfg, s, left, true, used);
      CleanupSettles(left, id, unlinked, fault);
      SettlesKeeps(cfg, left, AbandonStep(s, id, unlinked, fault), true, used);
    }
  }

  lemma RemovePayloadSettles(s: S.Store, id: Id, synced: bool)
    ensures Settles(s, S.RemovePayload(s, id, synced))
  {
  }

  /** Retention deletes a row whose payload is gone by then. */
  lemma RetainSettles(s: S.Store, id: Id, now: int)
    requires id in s.tmps ==> IsStaging(s, id)
    ensures Settles(s, S.Retain(s, id, now))
  {
    RemovePayloadSettles(s, id, true);
  }

  lemma RetainKeeps(cfg: S.Config, s: S.Store, used: set<Id>, id: Id, now: int, fault: Fault)
    requires SpoolInv(cfg, s, true, used)
    ensures SpoolInv(cfg, RetainStep(s, id, now, fault), true, used)
  {
    RetainSettles(s, id, now);
    RemovePayloadSettles(s, id, true);
    SettlesKeeps(cfg, s, RetainStep(s, id, now, fault), true, used);
  }

  lemma NewRowIsUnwritten(s: S.Store, t: S.Store, id: Id, k: Job)
    requires k.state.Staging? && id !in s.jobs && id !in s.active && t.jobs == s.jobs[id := k]
    requires t.active == s.active || t.active == s.active[id := S.Writing]
    ensures Written(t) == Written(s)
  {
  }

  lemma NewRowDurable(s: S.Store, t: S.Store, id: Id, k: Job)
    requires k.state.Staging? && id !in s.jobs && id !in s.active && id !in s.blobs && t.jobs == s.jobs[id := k]
    requires t.active == s.active || t.active == s.active[id := S.Writing]
    requires t.blobs == s.blobs && t.unsynced == s.unsynced
    ensures Durable(t) == Durable(s)
  {
    NewRowIsUnwritten(s, t, id, k);
    assert S.Orphans(t) == S.Orphans(s);
  }

  lemma NewRowPlaced(s: S.Store, t: S.Store, open: bool, used: set<Id>, id: Id, k: Job)
    requires PlaceOk(s, open, used) && id !in used && t.jobs == s.jobs[id := k]
    requires t.active == s.active || t.active == s.active[id := S.Writing]
    requires t.blobs == s.blobs && t.unsynced == s.unsynced
    ensures PlaceOk(t, open, used + {id}) && id !in s.blobs
  {
  }

  /** A new row has no file yet. */
  lemma NewRowKeeps(cfg: S.Config, s: S.Store, t: S.Store, open: bool, used: set<Id>, id: Id, k: Job)
    requires SpoolInv(cfg, s, open, used) && k.state.Staging?
    requires id !in s.jobs && id !in used && id !in s.active
    requires t.jobs == s.jobs[id := k] && t.blobs == s.blobs && t.tmps == s.tmps && t.unsynced == s.unsynced
    requires t.active == s.active || t.active == s.active[id := S.Writing]
    ensures SpoolInv(cfg, t, open, used + {id})
  {
    NewRowPlaced(s, t, open, used, id, k);
    NewRowDurable(s, t, id, k);
  }

  /** Everything a restart keeps was there before. */
  lemma CleanedKeeps(cfg: S.Config, s: S.Store, used: set<Id>)
    requires SpoolInv(cfg, s, false, used) && s.active == map[]
    ensures SpoolInv(cfg, S.Cleaned(s), true, used)
  {
    assert Settles(s, S.Cleaned(s));
    SettlesKeeps(cfg, s, S.Cleaned(s), false, used);
  }

  lemma CrashDurable(s: S.Store, t: S.Store, blobs: map<Id, int>, tmps: set<Id>)
    requires SpoolSurvives(s, blobs, tmps) && t.jobs == s.jobs && t.active == map[] && t.blobs == blobs
    requires t.unsynced == s.unsynced + S.Orphans(s) - blobs.Keys
    ensures Durable(t) <= Durable(s)
  {
    forall id | id in Durable(t) ensures id in Durable(s) {
      assert id in blobs ==> id in s.blobs || id in s.unsynced || IsStaging(s, id);
    }
  }

  lemma CrashPlaced(s: S.Store, t: S.Store, blobs: map<Id, int>, tmps: set<Id>, open: bool, used: set<Id>)
    requires SpoolSurvives(s, blobs, tmps) && t.jobs == s.jobs && t.active == map[] && t.blobs == blobs
    requires t.unsynced == s.unsynced + S.Orphans(s) - blobs.Keys
    requires PlaceOk(s, open, used) && forall id :: id in s.jobs ==> id in used
    ensures PlaceOk(t, false, used)
  {
  }

  lemma CrashKeeps(cfg: S.Config, w: World, blobs: map<Id, int>, tmps: set<Id>)
    requires SpoolInv(cfg, w.store, w.open, w.used) && forall id :: id in w.store.jobs ==> id in w.used
    ensures var v := CrashStep(w, blobs, tmps); SpoolInv(cfg, v.store, v.open, v.used)
  {
    if SpoolSurvives(w.store, blobs, tmps) {
      var t := CrashStep(w, blobs, tmps).store;
      CrashPlaced(w.store, t, blobs, tmps, w.open, w.used);
      CrashDurable(w.store, t, blobs, tmps);
      SubsetSize(Durable(t), Durable(w.store));
    }
  }

  // ---- every step ----

  /** The steps that change rows alone. */
  predicate RowOnly(e: Step) {
    || e.Dispatch? || e.Answer? || e.Persist? || e.Cancel? || e.RecordDeletion? || e.Expire? || e.Report?
    || e.Reschedule? || e.TakeRequest? || e.SetAdmission?
  }

  ghost predicate SameFiles(s: S.Store, t: S.Store) {
    t.tmps == s.tmps && t.blobs == s.blobs && t.unsynced == s.unsynced && t.active == s.active
  }

  lemma DeadlineFiles(cfg: S.Config, s: S.Store, e: Step)
    requires e.Cancel? || e.Expire?
    ensures SameFiles(s, StoreStep(cfg, s, e))
  {
  }

  lemma RemoteFiles(cfg: S.Config, s: S.Store, e: Step)
    requires e.RecordDeletion? || e.Report?
    ensures SameFiles(s, StoreStep(cfg, s, e))
  {
  }

  lemma PollingFiles(cfg: S.Config, s: S.Store, e: Step)
    requires e.Reschedule? || e.TakeRequest? || e.SetAdmission?
    ensures SameFiles(s, StoreStep(cfg, s, e))
  {
  }

  lemma BeginFiles(cfg: S.Config, s: S.Store, id: Id, version: int, reading: int)
    ensures var r := S.BeginSubmission(cfg, s, id, version, reading); r.Ok? ==> SameFiles(s, r.value)
  {
  }

  lemma DispatchFiles(cfg: S.Config, w: World, id: Id, version: int, reading: int, fault: Fault)
    ensures var v := DispatchStep(cfg, w, id, version, reading, fault); SameFiles(w.store, v.store) && v.open == w.open
  {
    BeginFiles(cfg, w.store, id, version, reading);
  }

  lemma PersistFiles(w: World, k: nat, backoff: int, reading: int, raw: int, fault: Fault)
    ensures var v := PersistStep(w, k, backoff, reading, raw, fault); SameFiles(w.store, v.store) && v.open == w.open
  {
  }

  lemma RowFiles(cfg: S.Config, w: World, e: Step)
    requires RowOnly(e)
    ensures SameFiles(w.store, Apply(cfg, w, e).store) && Apply(cfg, w, e).open == w.open
  {
    if e.Dispatch? {
      DispatchFiles(cfg, w, e.id, e.version, e.reading, e.fault);
    } else if e.Persist? {
      PersistFiles(w, e.k, e.backoff, e.reading, e.raw, e.fault);
    } else if e.Answer? {
    } else if e.Cancel? || e.Expire? {
      DeadlineFiles(cfg, w.store, e);
    } else if e.RecordDeletion? || e.Report? {
      RemoteFiles(cfg, w.store, e);
    } else {
      PollingFiles(cfg, w.store, e);
    }
  }

  /** Rows that begin, record or change quietly were not staging and are not now. */
  lemma RowSettles(cfg: S.Config, w: World, v: World, c: Change)
    requires TableFollows(cfg, w, v.store.jobs, c) && (c.Same? || c.Quietly? || c.Begins? || c.Records?)
    requires SameFiles(w.store, v.store)
    ensures Settles(w.store, v.store)
  {
  }

  ghost predicate WorldInv(cfg: S.Config, w: World) {
    SpoolInv(cfg, w.store, w.open, w.used)
  }

  lemma RowStepKeeps(cfg: S.Config, w: World, e: Step, c: Change)
    requires WorldInv(cfg, w) && RowOnly(e) && Follows(cfg, w, Apply(cfg, w, e), c) && Fits(e, c)
    ensures WorldInv(cfg, Apply(cfg, w, e))
  {
    RowFiles(cfg, w, e);
    RowSettles(cfg, w, Apply(cfg, w, e), c);
    SettlesKeeps(cfg, w.store, Apply(cfg, w, e).store, w.open, w.used);
  }

  lemma PublishFiles(s: S.Store, id: Id, verdict: string, reading: int, fault: Fault)
    ensures var t := PublishStep(s, id, verdict, reading, fault);
            && SameFiles(s, t) && (t.jobs != s.jobs ==> id in s.active && s.active[id].Written?)
  {
  }

  lemma PublishDurable(cfg: S.Config, w: World, t: S.Store, c: Change)
    requires SameFiles(w.store, t) && TableFollows(cfg, w, t.jobs, c) && c.Publishes?
    requires c.id in w.store.active && w.store.active[c.id].Written?
    ensures Durable(t) <= Durable(w.store)
  {
  }

  lemma PublishPlaced(cfg: S.Config, w: World, t: S.Store, c: Change)
    requires FilesOk(w.store.jobs, w.store.blobs, w.store.tmps) && PlaceOk(w.store, w.open, w.used)
    requires SameFiles(w.store, t) && TableFollows(cfg, w, t.jobs, c) && c.Publishes?
    ensures FilesOk(t.jobs, t.blobs, t.tmps) && PlaceOk(t, w.open, w.used)
  {
  }

  /** Publication takes a written row out of staging; it has no temporary file any more. */
  lemma PublishKeeps(cfg: S.Config, w: World, t: S.Store, c: Change)
    requires WorldInv(cfg, w) && SameFiles(w.store, t) && TableFollows(cfg, w, t.jobs, c) && (c.Same? || c.Publishes?)
    requires t.jobs != w.store.jobs && c.Publishes? ==> c.id in w.store.active && w.store.active[c.id].Written?
    ensures SpoolInv(cfg, t, w.open, w.used)
  {
    if t.jobs == w.store.jobs {
      SettlesKeeps(cfg, w.store, t, w.open, w.used);
    } else {
      PublishPlaced(cfg, w, t, c);
      PublishDurable(cfg, w, t, c);
      SubsetSize(Durable(t), Durable(w.store));
    }
  }

  lemma TemporaryKeeps(cfg: S.Config, w: World, id: Id)
    requires WorldInv(cfg, w) && Writers(cfg, w) && Streaming(w.store, id)
    ensures SpoolInv(cfg, w.store.(tmps := w.store.tmps + {id}), w.open, w.used)
  {
    assert WriterOk(cfg, w.store.jobs, w.store.blobs, id, w.store.active[id]);
    assert Durable(w.store.(tmps := w.store.tmps + {id})) == Durable(w.store);
  }

  lemma RecoverRowSettles(s: S.Store, id: Id, unlinked: Unlinked, fault: Fault)
    ensures Settles(s, RecoverRowStep(s, id, unlinked, fault))
  {
    if IsStaging(s, id) {
      CleanupSettles(s, id, unlinked, fault);
    } else {
      RemovePayloadSettles(s, id, false);
    }
  }

  lemma WriterKeeps(cfg: S.Config, w: World, e: Step)
    requires WorldInv(cfg, w) && Writers(cfg, w) && w.open && |w.store.jobs| <= cfg.maxJobs
    requires e.OpenTemporary? || e.StoreBlob? || e.WriterStops?
    ensures SpoolInv(cfg, StoreStep(cfg, w.store, e), true, w.used)
  {
    match e
    case OpenTemporary(id) =>
      if Streaming(w.store, id) {
        TemporaryKeeps(cfg, w, id);
      }
    case StoreBlob(id, size, digest) =>
      assert Streaming(w.store, id) ==> WriterOk(cfg, w.store.jobs, w.store.blobs, id, w.store.active[id]);
      StoreBlobKeeps(cfg, w.store, w.used, id, size, digest);
    case WriterStops(id) => SettlesKeeps(cfg, w.store, w.store.(active := w.store.active - {id}), true, w.used);
  }

  lemma IngressKeeps(cfg: S.Config, w: World, e: Step, c: Change)
    requires WorldInv(cfg, w) && w.open && (e.RemovePayload? || e.Publish?)
    requires TableFollows(cfg, w, StoreStep(cfg, w.store, e).jobs, c) && Fits(e, c)
    ensures SpoolInv(cfg, StoreStep(cfg, w.store, e), true, w.used)
  {
    match e
    case RemovePayload(id, synced) =>
      RemovePayloadSettles(w.store, id, synced);
      SettlesKeeps(cfg, w.store, S.RemovePayload(w.store, id, synced), true, w.used);
    case Publish(id, verdict, reading, fault) =>
      PublishFiles(w.store, id, verdict, reading, fault);
      PublishKeeps(cfg, w, PublishStep(w.store, id, verdict, reading, fault), c);
  }

  lemma ReserveStepKeeps(cfg: S.Config, w: World, id: Id, key: Key, verdict: string, reading: int, room: bool,
                         fault: Fault)
    requires WorldInv(cfg, w) && Writers(cfg, w) && UsedOk(w.store.jobs, w.attempts, w.used)
    ensures WorldInv(cfg, ReserveStep(cfg, w, id, key, verdict, reading, room, fault))
  {
    var v := ReserveStep(cfg, w, id, key, verdict, reading, room, fault);
    if v != w {
      NewRowKeeps(cfg, w.store, v.store, w.open, w.used, id, v.store.jobs[id]);
    }
  }

  lemma RemovalKeeps(cfg: S.Config, w: World, e: Step)
    requires WorldInv(cfg, w) && w.open && (e.Abandon? || e.Retain?)
    ensures SpoolInv(cfg, StoreStep(cfg, w.store, e), true, w.used)
  {
    match e
    case Abandon(id, unlinked, fault) => AbandonKeeps(cfg, w.store, w.used, id, unlinked, fault);
    case Retain(id, now, fault) => RetainKeeps(cfg, w.store, w.used, id, now, fault);
  }

  lemma ReopenKeeps(cfg: S.Config, w: World)
    requires WorldInv(cfg, w) && ClosedOk(w) && !w.open
    ensures WorldInv(cfg, ReopenStep(w))
  {
    CleanedKeeps(cfg, w.store, w.used);
  }

  /** What the spool needs of the other invariants. */
  ghost predicate Based(cfg: S.Config, w: World) {
    Writers(cfg, w) && UsedOk(w.store.jobs, w.attempts, w.used) && ClosedOk(w)
  }

  /** The store alone, while it is open. */
  lemma StoreKeepsSpool(cfg: S.Config, w: World, e: Step, c: Change)
    requires WorldInv(cfg, w) && Based(cfg, w) && |w.store.jobs| <= cfg.maxJobs && w.open
    requires StoreOnly(e) && !RowOnly(e) && !e.RecoverRow? && Fits(e, c)
    requires TableFollows(cfg, w, StoreStep(cfg, w.store, e).jobs, c)
    ensures SpoolInv(cfg, StoreStep(cfg, w.store, e), true, w.used)
  {
    if e.Abandon? || e.Retain? {
      RemovalKeeps(cfg, w, e);
    } else if e.OpenTemporary? || e.StoreBlob? || e.WriterStops? {
      WriterKeeps(cfg, w, e);
    } else {
      IngressKeeps(cfg, w, e, c);
    }
  }

  lemma CrashKeepsSpool(cfg: S.Config, w: World, e: Step)
    requires WorldInv(cfg, w) && Based(cfg, w) && e.Crash?
    ensures WorldInv(cfg, Apply(cfg, w, e))
  {
    ApplyCrash(cfg, w, e);
    CrashKeeps(cfg, w, e.blobs, e.tmps);
  }

  lemma ReopenKeepsSpool(cfg: S.Config, w: World, e: Step)
    requires WorldInv(cfg, w) && ClosedOk(w) && e.Reopen?
    ensures WorldInv(cfg, Apply(cfg, w, e))
  {
    ApplyReopen(cfg, w, e);
    if !w.open {
      ReopenKeeps(cfg, w);
    }
  }

  lemma ReserveKeepsSpool(cfg: S.Config, w: World, e: Step)
    requires WorldInv(cfg, w) && Based(cfg, w) && e.Reserve?
    ensures WorldInv(cfg, Apply(cfg, w, e))
  {
    if w.open {
      ReserveStepKeeps(cfg, w, e.id, e.key, e.verdict, e.reading, e.room, e.fault);
    }
  }

  lemma StoreStepKeepsSpool(cfg: S.Config, w: World, e: Step, c: Change)
    requires WorldInv(cfg, w) && Based(cfg, w) && |w.store.jobs| <= cfg.maxJobs && StoreOnly(e) && !RowOnly(e)
    requires Fits(e, c) && TableFollows(cfg, w, Apply(cfg, w, e).store.jobs, c)
    ensures WorldInv(cfg, Apply(cfg, w, e))
  {
    if Enabled(w, e) {
      if e.RecoverRow? {
        RecoverRowSettles(w.store, e.id, e.unlinked, e.fault);
        SettlesKeeps(cfg, w.store, Apply(cfg, w, e).store, false, w.used);
      } else {
        StoreKeepsSpool(cfg, w, e, c);
      }
    }
  }

  lemma StepKeepsSpool(cfg: S.Config, w: World, e: Step, c: Change)
    requires WorldInv(cfg, w) && Based(cfg, w) && |w.store.jobs| <= cfg.maxJobs
    requires Follows(cfg, w, Apply(cfg, w, e), c) && Fits(e, c)
    ensures WorldInv(cfg, Apply(cfg, w, e))
  {
    if RowOnly(e) {
      RowStepKeeps(cfg, w, e, c);
    } else if e.Crash? {
      CrashKeepsSpool(cfg, w, e);
    } else if e.Reopen? {
      ReopenKeepsSpool(cfg, w, e);
    } else if e.Reserve? {
      ReserveKeepsSpool(cfg, w, e);
    } else {
      StoreStepKeepsSpool(cfg, w, e, c);
    }
  }

  lemma {:induction false} RunKeepsSpool(cfg: S.Config, w: World, steps: seq<Step>)
    requires cfg.Valid() && WorldInv(cfg, w) && Sound(cfg, w) && QuotaOk(cfg, w.store.jobs)
    ensures WorldInv(cfg, Run(cfg, w, steps))
    decreases |steps|
  {
    if steps != [] {
      var v := Apply(cfg, w, steps[0]);
      var c := StepSound(cfg, w, steps[0]);
      RowCount(cfg, w.store.jobs);
      StepKeepsSpool(cfg, w, steps[0], c);
      ChangeKeepsQuota(cfg, w, v, c);
      RunKeepsSpool(cfg, v, steps[1..]);
    }
  }

  lemma SpoolReachable(cfg: S.Config, steps: seq<Step>)
    requires cfg.Valid()
    ensures var w := Run(cfg, Start, steps); Sound(cfg, w) && WorldInv(cfg, w) && |w.store.jobs| <= cfg.maxJobs
  {
    ReachableSound(cfg, steps);
    StartKeepsQuota(cfg);
    RunKeepsSpool(cfg, Start, steps);
    RunKeepsQuota(cfg, Start, steps);
    CountIsBounded(cfg, steps);
  }

  // ---- recovery ----

  /** With one file for each job there are no more files than jobs. */
  lemma {:induction false} FilesAtMost(blobs: map<Id, int>, tmps: set<Id>, ids: set<Id>)
    requires blobs.Keys <= ids && tmps <= ids && tmps !! blobs.Keys
    ensures |S.SpoolFiles(blobs, tmps)| <= |ids|
  {
    if ids == {} {
      assert S.SpoolFiles(blobs, tmps) == {};
    } else {
      var x :| x in ids;
      FilesAtMost(blobs - {x}, tmps - {x}, ids - {x});
      var less := S.SpoolFiles(blobs - {x}, tmps - {x});
      SubsetSize(S.SpoolFiles(blobs, tmps), less + {if x in tmps then S.Tmp(x) else S.Blob(x)});
    }
  }

  lemma PassedIsDurable(s: S.Store)
    requires FilesOk(s.jobs, s.blobs, s.tmps)
    ensures S.PassedTmps(s) == {} && S.PassedBlobs(s).Keys <= Durable(s)
  {
  }

  /** What the job pass leaves was written out once: no more files than there may be rows. */
  lemma NeverOverfull(cfg: S.Config, s: S.Store, open: bool, used: set<Id>)
    requires cfg.Valid() && SpoolInv(cfg, s, open, used) && |s.jobs| <= cfg.maxJobs
    ensures |S.SpoolFiles(S.PassedBlobs(s), S.PassedTmps(s))| <= cfg.maxJobs && !S.Overfull(s)
  {
    PassedIsDurable(s);
    FilesAtMost(S.PassedBlobs(s), S.PassedTmps(s), Durable(s));
  }

  /** The spool holds exactly the payloads of queued and uncertain rows, each whole, and no row is half way. */
  ghost predicate Clean(s: S.Store) {
    && s.tmps == {} && s.unsynced == {}
    && (forall id :: id in s.jobs ==> !s.jobs[id].state.Staging? && !s.jobs[id].state.Submitting?)
    && (forall id :: id in s.blobs <==> S.KeepsPayload(s.jobs, id))
    && (forall id :: id in s.blobs && id in s.jobs ==> s.blobs[id] == s.jobs[id].payload)
  }

  lemma NotIncomplete(cfg: S.Config, s: S.Store)
    requires cfg.Valid() && SpoolOk(cfg, s.jobs, s.blobs)
    ensures !S.Incomplete(s) && Clean(S.Cleaned(s))
  {
    var jobs := S.ReconciledJobs(s.jobs);
    forall id | id in jobs && S.KeepsPayload(jobs, id)
      ensures S.PayloadOk(jobs, s.blobs, id)
    {
      assert id in s.jobs && NeedsPayload(s.jobs[id].state);
    }
  }

  /** In every reachable state, whatever was interrupted, recovery does not refuse: no needed payload is missing or
      damaged, and neither rows nor files are too many. */
  lemma RecoveryNeverRefuses(cfg: S.Config, steps: seq<Step>)
    requires cfg.Valid()
    ensures var s := Run(cfg, Start, steps).store; S.Recover(s) == S.Ok(S.Cleaned(s)) && Clean(S.Cleaned(s))
  {
    SpoolReachable(cfg, steps);
    var w := Run(cfg, Start, steps);
    NeverOverfull(cfg, w.store, w.open, w.used);
    NotIncomplete(cfg, w.store);
  }

  /** A restart opens the store again, with no row staging or submitting and no file that is not needed. */
  lemma RestartSucceeds(cfg: S.Config, steps: seq<Step>)
    requires cfg.Valid() && !Run(cfg, Start, steps).open
    ensures var w := Apply(cfg, Run(cfg, Start, steps), Reopen); w.open && Clean(w.store)
  {
    RecoveryNeverRefuses(cfg, steps);
    ApplyReopen(cfg, Run(cfg, Start, steps), Reopen);
  }

  /** The recovery that the process runs succeeds from every reachable store, and leaves it clean. */
  method Restart(service: CS.Service, ghost cfg: S.Config, ghost steps: seq<Step>) returns (ok: bool)
    requires cfg.Valid() && service.View() == Run(cfg, Start, steps).store
    modifies service
    ensures ok && Clean(service.View())
  {
    RecoveryNeverRefuses(cfg, steps);
    ok := service.Recover();
  }
}
