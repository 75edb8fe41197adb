/** Invariants of every run of the CAPE service, and what they promise. */
module CapeRuns {
  import opened CapeJob
  import opened CapeProtocol
  import opened CapeSafety
  import opened CapeSteps
  import S = CapeStore

  /** While the store is closed nothing is held in memory. */
  ghost predicate ClosedOk(w: World) {
    !w.open ==>
      w.store.active == map[] && w.store.live == map[] && w.flights == map[] && w.pending == [] && w.mine == {}
  }

  ghost predicate Sound(cfg: S.Config, w: World) {
    BaseOk(cfg, w) && ClosedOk(w)
  }

  lemma IngressFollows(cfg: S.Config, w: World, e: Step) returns (c: Change)
    requires Writers(cfg, w)
    requires e.OpenTemporary? || e.StoreBlob? || e.WriterStops? || e.RemovePayload? || e.Publish? || e.Abandon?
    ensures Follows(cfg, w, w.(store := StoreStep(cfg, w.store, e)), c) && Fits(e, c)
  {
    c := Same;
    match e
    case OpenTemporary(id) => StillFollows(cfg, w, w.(store := StoreStep(cfg, w.store, e)));
    case StoreBlob(id, size, digest) => StoreBlobFollows(cfg, w, id, size, digest);
    case RemovePayload(id, synced) => RemovePayloadFollows(cfg, w, id, synced);
    case WriterStops(id) => WriterLeaves(cfg, w.store.jobs, w.store.blobs, w.store.active, w.used, id);
    case Publish(id, verdict, reading, fault) => c := PublishFollows(cfg, w, id, verdict, reading, fault);
    case Abandon(id, unlinked, fault) => c := AbandonFollows(cfg, w, id, unlinked, fault);
  }

  lemma MaintenanceFollows(cfg: S.Config, w: World, e: Step) returns (c: Change)
    requires Writers(cfg, w) && RowsOk(w.store.jobs) && (e.Cancel? || e.Expire? || e.Retain?)
    ensures Follows(cfg, w, w.(store := StoreStep(cfg, w.store, e)), c) && Fits(e, c)
  {
    match e
    case Cancel(id, reading, fault) => c := CancelFollows(cfg, w, id, reading, fault);
    case Expire(id, reading, fault) => c := ExpireFollows(cfg, w, id, reading, fault);
    case Retain(id, now, fault) => c := RetainFollows(cfg, w, id, now, fault);
  }

  lemma RemoteFollows(cfg: S.Config, w: World, e: Step) returns (c: Change)
    requires Writers(cfg, w) && RowsOk(w.store.jobs) && (e.RecordDeletion? || e.Report? || e.Reschedule?)
    ensures Follows(cfg, w, w.(store := StoreStep(cfg, w.store, e)), c) && Fits(e, c)
  {
    match e
    case RecordDeletion(id, task, outcome, fault) => c := DeletionFollows(cfg, w, id, task, outcome, fault);
    case Report(id, task, p, reading, fault) => c := ReportFollows(cfg, w, id, task, p, reading, fault);
    case Reschedule(id, polling, exceeded, take, reading, fault) =>
      c := RescheduleFollows(cfg, w, id, polling, exceeded, take, reading, fault);
  }

  lemma StoreFollows(cfg: S.Config, w: World, e: Step) returns (c: Change)
    requires Writers(cfg, w) && RowsOk(w.store.jobs) && StoreOnly(e) && (e.RecoverRow? ==> w.store.active == map[])
    ensures Follows(cfg, w, w.(store := StoreStep(cfg, w.store, e)), c) && Fits(e, c)
  {
    if e.Cancel? || e.Expire? || e.Retain? {
      c := MaintenanceFollows(cfg, w, e);
    } else if e.RecordDeletion? || e.Report? || e.Reschedule? {
      c := RemoteFollows(cfg, w, e);
    } else if e.TakeRequest? || e.SetAdmission? {
      c := Same;
      StillFollows(cfg, w, w.(store := StoreStep(cfg, w.store, e)));
    } else if e.RecoverRow? {
      c := RecoverRowFollows(cfg, w, e.id, e.unlinked, e.fault);
    } else {
      c := IngressFollows(cfg, w, e);
    }
  }

  lemma SchedulerFollows(cfg: S.Config, w: World, e: Step) returns (c: Change)
    requires Writers(cfg, w) && RowsOk(w.store.jobs) && Enabled(w, e) && (e.Dispatch? || e.Answer? || e.Persist?)
    ensures Follows(cfg, w, Apply(cfg, w, e), c) && Fits(e, c)
  {
    match e
    case Dispatch(id, version, reading, fault) => c := DispatchFollows(cfg, w, id, version, reading, fault);
    case Answer(id, sub, outcome) =>
      c := Same;
      StillFollows(cfg, w, AnswerStep(w, id, sub, outcome));
    case Persist(k, backoff, reading, raw, fault) => c := PersistFollows(cfg, w, k, backoff, reading, raw, fault);
  }

  lemma CrashApplied(cfg: S.Config, w: World, e: Step)
    requires Writers(cfg, w) && e.Crash?
    ensures Follows(cfg, w, Apply(cfg, w, e), Same)
  {
    CrashFollows(cfg, w, e.blobs, e.tmps);
  }

  /** Every step, whatever it is, makes one of the changes that fit it. */
  lemma StepFollows(cfg: S.Config, w: World, e: Step) returns (c: Change)
    requires Writers(cfg, w) && RowsOk(w.store.jobs) && ClosedOk(w)
    ensures Follows(cfg, w, Apply(cfg, w, e), c) && Fits(e, c)
  {
    if !Enabled(w, e) {
      c := Same;
      StillFollows(cfg, w, w);
    } else if StoreOnly(e) {
      c := StoreFollows(cfg, w, e);
    } else if e.Dispatch? || e.Answer? || e.Persist? {
      c := SchedulerFollows(cfg, w, e);
    } else if e.Reserve? {
      c := ReserveFollows(cfg, w, e.id, e.key, e.verdict, e.reading, e.room, e.fault);
    } else if e.Crash? {
      c := Same;
      CrashApplied(cfg, w, e);
    } else {
      c := ReopenFollows(cfg, w);
    }
  }

  // ---- every change keeps the invariants ----

  lemma ChangeCore(cfg: S.Config, w: World, v: World, c: Change)
    requires CoreOk(w.store.jobs, w.attempts) && UsedOk(w.store.jobs, w.attempts, w.used)
    requires TableFollows(cfg, w, v.store.jobs, c) && HistoryFollows(w, v.attempts, v.used, c)
    ensures CoreOk(v.store.jobs, v.attempts)
  {
    var jobs := w.store.jobs;
    match c
    case Same =>
    case Admits(id, k) => ReserveCore(jobs, w.attempts, w.used, id, k);
    case Quietly(id, k) => QuietCore(jobs, w.attempts, id, k);
    case Publishes(id, size, digest, verdict, now) => PublishCore(jobs, w.attempts, id, size, digest, verdict, now);
    case Begins(id, now) => BeginCore(jobs, w.attempts, id, now);
    case Records(id, k, unsent) => RecordCore(jobs, w.attempts, id, k, unsent);
    case Forgets(id) => DropCore(jobs, w.attempts, id);
    case Restarts => RecoverCore(jobs, w.attempts);
  }

  lemma ChangeUsed(cfg: S.Config, w: World, v: World, c: Change)
    requires UsedOk(w.store.jobs, w.attempts, w.used)
    requires TableFollows(cfg, w, v.store.jobs, c) && HistoryFollows(w, v.attempts, v.used, c)
    ensures UsedOk(v.store.jobs, v.attempts, v.used)
  {
  }

  lemma ChangeStaged(cfg: S.Config, w: World, v: World, c: Change)
    requires cfg.Valid() && StagedOk(cfg, w.store.jobs) && TableFollows(cfg, w, v.store.jobs, c)
    ensures StagedOk(cfg, v.store.jobs)
  {
  }

  lemma ChangeSpool(cfg: S.Config, w: World, v: World, c: Change)
    requires SpoolOk(cfg, w.store.jobs, w.store.blobs) && Follows(cfg, w, v, c)
    ensures SpoolOk(cfg, v.store.jobs, v.store.blobs)
  {
    forall id | id in v.store.jobs && NeedsPayload(v.store.jobs[id].state)
      ensures id in v.store.blobs && v.store.blobs[id] == v.store.jobs[id].payload
      ensures 1 <= v.store.blobs[id] <= cfg.maxAttachment
    {
      if !c.Publishes? || c.id != id {
        assert id in w.store.jobs && NeedsPayload(w.store.jobs[id].state);
      }
    }
  }

  lemma WorldClosed(cfg: S.Config, w: World, e: Step)
    requires ClosedOk(w) && !StoreOnly(e) && Enabled(w, e)
    ensures ClosedOk(Apply(cfg, w, e))
  {
    if !e.Crash? && !e.Reopen? {
      assert w.open;
    }
  }

  lemma RecoverRowClosed(s: S.Store, id: Id, unlinked: Unlinked, fault: Fault)
    ensures var t := RecoverRowStep(s, id, unlinked, fault); t.active == s.active && t.live == s.live
  {
  }

  lemma StepClosed(cfg: S.Config, w: World, e: Step)
    requires ClosedOk(w)
    ensures ClosedOk(Apply(cfg, w, e))
  {
    if Enabled(w, e) {
      if !StoreOnly(e) {
        WorldClosed(cfg, w, e);
      } else if e.RecoverRow? {
        RecoverRowClosed(w.store, e.id, e.unlinked, e.fault);
      }
    }
  }

  lemma StepSound(cfg: S.Config, w: World, e: Step) returns (c: Change)
    requires cfg.Valid() && Sound(cfg, w)
    ensures Sound(cfg, Apply(cfg, w, e)) && Follows(cfg, w, Apply(cfg, w, e), c) && Fits(e, c)
  {
    var v := Apply(cfg, w, e);
    c := StepFollows(cfg, w, e);
    ChangeCore(cfg, w, v, c);
    ChangeUsed(cfg, w, v, c);
    ChangeStaged(cfg, w, v, c);
    ChangeSpool(cfg, w, v, c);
    StepClosed(cfg, w, e);
  }
}
