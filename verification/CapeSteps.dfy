/** What one step can do to the job table, the attempt history and the payload files. */
module CapeSteps {
  import opened Options
  import opened StoreClock
  import opened CapeJob
  import opened CapeProtocol
  import opened CapeSafety
  import S = CapeStore

  /** The kinds of change a step makes: at most one row, except that a restart reconciles them all. */
  datatype Change =
    | Same
    | Admits(id: Id, row: Job)
    | Quietly(id: Id, row: Job)
    | Publishes(id: Id, size: int, digest: string, verdict: string, now: int)
    | Begins(id: Id, now: int)
    | Records(id: Id, row: Job, unsent: bool)
    | Forgets(id: Id)
    | Restarts

  /** Staging rows are exactly as reserved. */
  ghost predicate StagedOk(cfg: S.Config, jobs: map<Id, Job>) {
    forall id :: id in jobs ==>
      && id < cfg.ids && jobs[id].reserved >= 0
      && (jobs[id].state.Staging? ==> jobs[id].version == 1 && jobs[id].reserved == S.Footprint(cfg))
  }

  /** Every row that may still be submitted has its whole payload in the spool. */
  ghost predicate SpoolOk(cfg: S.Config, jobs: map<Id, Job>, blobs: map<Id, int>) {
    forall id :: id in jobs && NeedsPayload(jobs[id].state) ==>
      id in blobs && blobs[id] == jobs[id].payload && 1 <= blobs[id] <= cfg.maxAttachment
  }

  /** A streaming writer's row is still staging; a finished writer's blob is there until its row is published. */
  ghost predicate WriterOk(cfg: S.Config, jobs: map<Id, Job>, blobs: map<Id, int>, id: Id, a: S.Writer) {
    match a
    case Writing => id in jobs && jobs[id].state.Staging?
    case Written(size, _) =>
      id in jobs && jobs[id].state.Staging? ==> id in blobs && blobs[id] == size && 1 <= size <= cfg.maxAttachment
  }

  ghost predicate WritersOk(cfg: S.Config, jobs: map<Id, Job>, blobs: map<Id, int>, active: map<Id, S.Writer>,
                            used: set<Id>) {
    forall id :: id in active ==> id in used && WriterOk(cfg, jobs, blobs, id, active[id])
  }

  ghost predicate BaseOk(cfg: S.Config, w: World) {
    && CoreOk(w.store.jobs, w.attempts) && UsedOk(w.store.jobs, w.attempts, w.used)
    && StagedOk(cfg, w.store.jobs) && SpoolOk(cfg, w.store.jobs, w.store.blobs) && Writers(cfg, w)
  }

  ghost predicate Writers(cfg: S.Config, w: World) {
    WritersOk(cfg, w.store.jobs, w.store.blobs, w.store.active, w.used)
  }

  ghost predicate Admitted(cfg: S.Config, s: S.Store, key: Key) {
    S.WithinQuota(cfg, s.jobs, None, S.Footprint(cfg)) && S.WithinQuota(cfg, s.jobs, Some(key.tenant), S.Footprint(cfg))
  }

  /** `jobs` become `jobs'` by the change. */
  ghost predicate TableFollows(cfg: S.Config, w: World, jobs': map<Id, Job>, c: Change) {
    var jobs := w.store.jobs;
    match c
    case Same => jobs' == jobs
    case Admits(id, k) =>
      && id !in w.used && id < cfg.ids && RowOk(k) && k.state.Staging? && k.version == 1 && k.acked == []
      && k.reserved == S.Footprint(cfg)
      && jobs' == jobs[id := k] && Admitted(cfg, w.store, k.key)
    case Quietly(id, k) => id in jobs && !jobs[id].state.Staging? && Quiet(jobs[id], k) && jobs' == jobs[id := k]
    case Publishes(id, size, digest, verdict, now) =>
      && id in jobs && jobs[id].state.Staging? && !S.HasReusable(jobs, jobs[id].key.(digest := digest), now)
      && id in w.store.blobs && w.store.blobs[id] == size && 1 <= size <= cfg.maxAttachment
      && jobs' == jobs[id := Published(jobs[id], size, digest, verdict)]
    case Begins(id, now) => id in jobs && jobs[id].state.Queued? && jobs' == jobs[id := Begun(jobs[id], now)]
    case Records(id, k, unsent) =>
      id in jobs && !jobs[id].recorded && Closes(jobs[id], k, unsent) && jobs' == jobs[id := k]
    case Forgets(id) =>
      && id in jobs && jobs' == jobs - {id}
      && (jobs[id].state.Staging? || (Terminal(jobs[id].state) && Untouched(jobs[id])))
    case Restarts => jobs' == S.ReconciledJobs(jobs)
  }

  /** The history gains an open attempt, or learns the outcome of one; nothing else changes it. */
  ghost predicate HistoryFollows(w: World, attempts': map<Ticket, Attempt>, used': set<Id>, c: Change) {
    var jobs := w.store.jobs;
    && used' == (if c.Admits? then w.used + {c.id} else w.used)
    && match c
       case Begins(id, now) => id in jobs &&
         var k := Begun(jobs[id], now);
         attempts' == w.attempts[Current(id, k) := Attempt(k.key, Open)]
       case Records(id, k, unsent) => id in jobs &&
         attempts' == w.attempts[Current(id, jobs[id]) := Attempt(k.key, if unsent then Unsent else MaybeSent)]
       case _ => attempts' == w.attempts
  }

  /** A payload that stays needed stays as it is. */
  ghost predicate SpoolFollows(s: S.Store, t: S.Store) {
    forall id ::
      && id in s.jobs && id in t.jobs && id in s.blobs
      && NeedsPayload(s.jobs[id].state) && NeedsPayload(t.jobs[id].state)
      ==> id in t.blobs && t.blobs[id] == s.blobs[id]
  }

  /** The whole effect of a step; publication leaves its blob alone too. */
  ghost predicate Follows(cfg: S.Config, w: World, v: World, c: Change) {
    && TableFollows(cfg, w, v.store.jobs, c) && HistoryFollows(w, v.attempts, v.used, c)
    && SpoolFollows(w.store, v.store) && (c.Publishes? ==> v.store.blobs == w.store.blobs)
    && Writers(cfg, v)
  }

  /** Which changes a step can make. */
  predicate Fits(e: Step, c: Change) {
    c.Same? || match e
      case Reserve(id, _, _, _, _, _) => c.Admits? && c.id == id
      case Publish(id, _, _, _) => c.Publishes? && c.id == id
      case Abandon(id, _, _) => c.Forgets? && c.id == id
      case Dispatch(id, _, _, _) => c.Begins? && c.id == id
      case Persist(_, _, _, _, _) => c.Records?
      case Cancel(id, _, _) => c.Quietly? && c.id == id
      case RecordDeletion(id, _, _, _) => c.Quietly? && c.id == id
      case Expire(id, _, _) => c.Quietly? && c.id == id
      case Report(id, _, _, _, _) => c.Quietly? && c.id == id
      case Reschedule(id, _, _, _, _, _) => c.Quietly? && c.id == id
      case Retain(id, _, _) => (c.Quietly? || c.Forgets?) && c.id == id
      case RecoverRow(id, _, _) => (c.Quietly? || c.Forgets?) && c.id == id
      case Reopen => c.Restarts?
      case _ => false
  }

  // ---- writers ----

  lemma WritersReserve(cfg: S.Config, jobs: map<Id, Job>, blobs: map<Id, int>, active: map<Id, S.Writer>, used: set<Id>,
                       id: Id, k: Job)
    requires WritersOk(cfg, jobs, blobs, active, used) && id !in used && k.state.Staging?
    ensures WritersOk(cfg, jobs[id := k], blobs, active, used + {id})
    ensures WritersOk(cfg, jobs[id := k], blobs, active[id := S.Writing], used + {id})
  {
  }

  /** Writers do not mind a change of one row that was not staging, or that leaves staging with its writer finished. */
  lemma WritersRow(cfg: S.Config, jobs: map<Id, Job>, blobs: map<Id, int>, active: map<Id, S.Writer>, used: set<Id>,
                   id: Id, k: Job)
    requires WritersOk(cfg, jobs, blobs, active, used) && id in jobs && !k.state.Staging?
    requires jobs[id].state.Staging? ==> id in active && active[id].Written?
    ensures WritersOk(cfg, jobs[id := k], blobs, active, used)
  {
  }

  lemma SpoolRow(s: S.Store, t: S.Store, id: Id, k: Job)
    requires t.jobs == s.jobs[id := k] && t.blobs == s.blobs
    ensures SpoolFollows(s, t)
  {
  }

  // ---- one lemma for each step ----

  lemma ReserveFollows(cfg: S.Config, w: World, id: Id, key: Key, verdict: string, reading: int, room: bool,
                       fault: Fault)
    returns (c: Change)
    requires Writers(cfg, w)
    ensures Follows(cfg, w, ReserveStep(cfg, w, id, key, verdict, reading, room, fault), c)
    ensures c.Same? || (c.Admits? && c.id == id)
  {
    var r := S.Reserve(cfg, w.store, id, key, verdict, reading, room);
    c := Same;
    if id !in w.used && id < cfg.ids && r.Ok? && fault.Commits() {
      var k := r.value.jobs[id];
      c := Admits(id, k);
      WritersReserve(cfg, w.store.jobs, w.store.blobs, w.store.active, w.used, id, k);
    }
  }

  lemma PublishFollows(cfg: S.Config, w: World, id: Id, verdict: string, reading: int, fault: Fault) returns (c: Change)
    requires Writers(cfg, w)
    ensures Follows(cfg, w, w.(store := PublishStep(w.store, id, verdict, reading, fault)), c)
    ensures c.Same? || (c.Publishes? && c.id == id)
  {
    var s := w.store;
    c := Same;
    if id in s.active && s.active[id].Written? {
      var a := s.active[id];
      var r := S.Publish(s, id, a.size, a.digest, verdict, reading);
      if r.Ok? && fault.Commits() && r.value.jobs != s.jobs {
        var k := Published(s.jobs[id], a.size, a.digest, verdict);
        c := Publishes(id, a.size, a.digest, verdict, Now(s.clock, reading).value);
        assert WriterOk(cfg, s.jobs, s.blobs, id, a);
        WritersRow(cfg, s.jobs, s.blobs, s.active, w.used, id, k);
        SpoolRow(s, r.value, id, k);
      }
    }
  }

  lemma BeginFollows(cfg: S.Config, w: World, id: Id, version: int, r: S.Result<S.Store>, fault: Fault, now: int)
    requires Writers(cfg, w) && fault.Commits() && id in w.store.jobs && w.store.jobs[id].state.Queued?
    requires r.Ok? && r.value.jobs == w.store.jobs[id := Begun(w.store.jobs[id], now)]
    requires r.value.blobs == w.store.blobs && r.value.active == w.store.active
    ensures Follows(cfg, w, BeginStep(w, id, version, r, fault), Begins(id, now))
  {
    var k := Begun(w.store.jobs[id], now);
    WritersRow(cfg, w.store.jobs, w.store.blobs, w.store.active, w.used, id, k);
    SpoolRow(w.store, BeginStep(w, id, version, r, fault).store, id, k);
  }

  lemma DispatchFollows(cfg: S.Config, w: World, id: Id, version: int, reading: int, fault: Fault) returns (c: Change)
    requires Writers(cfg, w)
    ensures Follows(cfg, w, DispatchStep(cfg, w, id, version, reading, fault), c)
    ensures c.Same? || (c.Begins? && c.id == id)
  {
    c := Same;
    var r := S.BeginSubmission(cfg, w.store, id, version, reading);
    if w.pending == [] && id !in w.flights && id in w.store.jobs && version >= 1 && r.Ok? && fault.Commits() {
      c := Begins(id, Now(w.store.clock, reading).value);
      BeginFollows(cfg, w, id, version, r, fault, c.now);
    }
  }

  lemma RecordFollows(cfg: S.Config, w: World, i: nat, j: Job, k: Job, r: S.Result<S.Store>, fault: Fault)
    requires Writers(cfg, w) && i < |w.pending| && w.pending[i].id in w.store.jobs && j == w.store.jobs[w.pending[i].id]
    requires !j.recorded && PacketVersion(w.pending[i], j) == j.submissionVersion && fault.Commits()
    requires Closes(j, k, KnowledgeOf(j, w.pending[i]).Unsent?)
    requires r.Ok? && r.value.jobs == w.store.jobs[w.pending[i].id := k]
    requires r.value.blobs == w.store.blobs && r.value.active == w.store.active && !j.state.Staging?
    ensures var p := w.pending[i];
            Follows(cfg, w, RecordStep(w, i, j, r, fault), Records(p.id, k, KnowledgeOf(j, p).Unsent?))
  {
    var id := w.pending[i].id;
    WritersRow(cfg, w.store.jobs, w.store.blobs, w.store.active, w.used, id, k);
    SpoolRow(w.store, RecordStep(w, i, j, r, fault).store, id, k);
  }

  lemma PersistFollows(cfg: S.Config, w: World, i: nat, backoff: int, reading: int, raw: int, fault: Fault)
    returns (c: Change)
    requires Writers(cfg, w) && RowsOk(w.store.jobs)
    ensures Follows(cfg, w, PersistStep(w, i, backoff, reading, raw, fault), c)
    ensures c.Same? || (c.Records? && i < |w.pending| && c.id == w.pending[i].id)
  {
    c := Same;
    if i < |w.pending| && w.pending[i].id in w.store.jobs && fault.Commits() {
      var p := w.pending[i];
      var j := w.store.jobs[p.id];
      var sub, code := PacketSubmission(p), PacketOutcome(p);
      var r := S.RecordSubmission(w.store, p.id, PacketVersion(p, j), sub, code, backoff, reading, raw);
      if !Moot(p, j) && r.Ok? {
        var now := Now(w.store.clock, reading);
        var k := Recorded(j, sub, code, backoff, if now.Some? then now.value else 0, raw);
        RecordedRow(j, sub, code, backoff, if now.Some? then now.value else 0, raw);
        c := Records(p.id, k, KnowledgeOf(j, p).Unsent?);
        RecordFollows(cfg, w, i, j, k, r, fault);
      }
    }
  }

  /** A step that touches neither rows nor history, and leaves needed payloads and writers as they are. */
  lemma StillFollows(cfg: S.Config, w: World, v: World)
    requires v.store.jobs == w.store.jobs && v.attempts == w.attempts && v.used == w.used
    requires v.store.blobs == w.store.blobs && v.store.active == w.store.active && Writers(cfg, w)
    ensures Follows(cfg, w, v, Same)
  {
  }

  /** A transaction that updates one row without touching its attempt. */
  lemma QuietFollows(cfg: S.Config, w: World, r: S.Result<S.Store>, fault: Fault, id: Id, k: Job) returns (c: Change)
    requires Writers(cfg, w) && id in w.store.jobs && !w.store.jobs[id].state.Staging? && Quiet(w.store.jobs[id], k)
    requires r.Ok? && r.value.jobs == w.store.jobs[id := k]
    requires r.value.blobs == w.store.blobs && r.value.active == w.store.active
    ensures Follows(cfg, w, w.(store := Settle(w.store, r, fault)), c)
    ensures c.Same? || (c.Quietly? && c.id == id)
  {
    c := Same;
    if fault.Commits() {
      c := Quietly(id, k);
      WritersRow(cfg, w.store.jobs, w.store.blobs, w.store.active, w.used, id, k);
      SpoolRow(w.store, r.value, id, k);
    }
  }

  lemma CancelRow(s: S.Store, id: Id, reading: int) returns (k: Job, now: Option<int>)
    requires id in s.jobs && RowOk(s.jobs[id]) && !s.jobs[id].state.Staging? && !s.jobs[id].state.Cancelled?
    ensures Quiet(s.jobs[id], k) && S.Cancel(s, id, reading) == S.Ok(S.Put(s, id, k, now))
  {
    now := if Now(s.clock, reading).Some? then Now(s.clock, reading) else s.clock;
    k := Terminated(s.jobs[id], Cancelled, NoCode, now.value).(version := s.jobs[id].version + 1);
    TerminatedQuiet(s.jobs[id], Cancelled, NoCode, now.value);
  }

  lemma CancelIdles(s: S.Store, id: Id, reading: int, fault: Fault)
    requires id in s.jobs ==> s.jobs[id].state.Staging? || s.jobs[id].state.Cancelled?
    ensures Settle(s, S.Cancel(s, id, reading), fault) == s
  {
  }

  lemma CancelFollows(cfg: S.Config, w: World, id: Id, reading: int, fault: Fault) returns (c: Change)
    requires Writers(cfg, w) && RowsOk(w.store.jobs)
    ensures Follows(cfg, w, w.(store := Settle(w.store, S.Cancel(w.store, id, reading), fault)), c)
    ensures c.Same? || (c.Quietly? && c.id == id)
  {
    var s := w.store;
    if id !in s.jobs || s.jobs[id].state.Staging? || s.jobs[id].state.Cancelled? {
      c := Same;
      CancelIdles(s, id, reading, fault);
      StillFollows(cfg, w, w);
    } else {
      var k, now := CancelRow(s, id, reading);
      c := QuietFollows(cfg, w, S.Cancel(s, id, reading), fault, id, k);
    }
  }

  lemma DeletionFollows(cfg: S.Config, w: World, id: Id, task: TaskRef, outcome: Code, fault: Fault) returns (c: Change)
    requires Writers(cfg, w) && RowsOk(w.store.jobs)
    ensures Follows(cfg, w, w.(store := Settle(w.store, S.RecordDeletion(w.store, id, task, outcome), fault)), c)
    ensures c.Same? || (c.Quietly? && c.id == id)
  {
    var r := S.RecordDeletion(w.store, id, task, outcome);
    c := Same;
    if r.Ok? {
      DeletedQuiet(w.store.jobs[id], task.id, outcome);
      c := QuietFollows(cfg, w, r, fault, id, Deleted(w.store.jobs[id], task.id, outcome));
    }
  }

  lemma ExpireRow(s: S.Store, id: Id, reading: int) returns (k: Job)
    requires id in s.jobs && RowOk(s.jobs[id]) && Now(s.clock, reading).Some?
    requires S.PastDue(s.jobs[id], Now(s.clock, reading).value)
    ensures Quiet(s.jobs[id], k) && S.Expire(s, id, reading) == S.Ok(S.Put(s, id, k, Now(s.clock, reading)))
  {
    var now := Now(s.clock, reading).value;
    k := Terminated(s.jobs[id], Expired, Deadline, now).(version := s.jobs[id].version + 1);
    TerminatedQuiet(s.jobs[id], Expired, Deadline, now);
  }

  lemma ExpireIdles(s: S.Store, id: Id, reading: int, fault: Fault)
    requires var now := Now(s.clock, reading); now.None? || id !in s.jobs || !S.PastDue(s.jobs[id], now.value)
    ensures var t := Settle(s, S.Expire(s, id, reading), fault);
            t == s.(clock := t.clock)
  {
  }

  lemma ExpireFollows(cfg: S.Config, w: World, id: Id, reading: int, fault: Fault) returns (c: Change)
    requires Writers(cfg, w) && RowsOk(w.store.jobs)
    ensures Follows(cfg, w, w.(store := Settle(w.store, S.Expire(w.store, id, reading), fault)), c)
    ensures c.Same? || (c.Quietly? && c.id == id)
  {
    var s := w.store;
    var now := Now(s.clock, reading);
    if now.None? || id !in s.jobs || !S.PastDue(s.jobs[id], now.value) {
      c := Same;
      ExpireIdles(s, id, reading, fault);
      StillFollows(cfg, w, w.(store := Settle(s, S.Expire(s, id, reading), fault)));
    } else {
      var k := ExpireRow(s, id, reading);
      c := QuietFollows(cfg, w, S.Expire(s, id, reading), fault, id, k);
    }
  }

  lemma ReportFollows(cfg: S.Config, w: World, id: Id, task: TaskRef, p: Progress, reading: int, fault: Fault)
    returns (c: Change)
    requires Writers(cfg, w) && RowsOk(w.store.jobs)
    ensures Follows(cfg, w, w.(store := Settle(w.store, S.TransitionReport(w.store, id, task, p, reading), fault)), c)
    ensures c.Same? || (c.Quietly? && c.id == id)
  {
    var r := S.TransitionReport(w.store, id, task, p, reading);
    c := Same;
    if r.Ok? {
      var now := Now(w.store.clock, reading).value;
      ProgressedQuiet(w.store.jobs[id], p, now);
      c := QuietFollows(cfg, w, r, fault, id, Progressed(w.store.jobs[id], p, now));
    }
  }

  lemma RescheduleFollows(cfg: S.Config, w: World, id: Id, polling: Polling, exceeded: bool, take: bool,
                          reading: int, fault: Fault)
    returns (c: Change)
    requires Writers(cfg, w) && RowsOk(w.store.jobs)
    ensures var r := S.Reschedule(cfg, w.store, id, polling, exceeded, take, reading);
            Follows(cfg, w, w.(store := Settle(w.store, r, fault)), c)
    ensures c.Same? || (c.Quietly? && c.id == id)
  {
    var r := S.Reschedule(cfg, w.store, id, polling, exceeded, take, reading);
    c := Same;
    if r.Ok? {
      var j := w.store.jobs[id];
      PollingQuiet(j, polling, exceeded);
      c := QuietFollows(cfg, w, r, fault, id,
                        j.(polling := polling, cleanupExceeded := exceeded, version := j.version + 1));
    }
  }

  // ---- files ----

  /** Nobody misses the files of a row that is not staging, or that has no writer any more. */
  lemma WritersUnlink(cfg: S.Config, jobs: map<Id, Job>, blobs: map<Id, int>, active: map<Id, S.Writer>,
                      used: set<Id>, id: Id)
    requires WritersOk(cfg, jobs, blobs, active, used)
    requires id in jobs && id in active ==> !jobs[id].state.Staging?
    ensures WritersOk(cfg, jobs, blobs - {id}, active, used) && WritersOk(cfg, jobs - {id}, blobs, active, used)
    ensures WritersOk(cfg, jobs - {id}, blobs - {id}, active, used)
  {
  }

  lemma WriterLeaves(cfg: S.Config, jobs: map<Id, Job>, blobs: map<Id, int>, active: map<Id, S.Writer>,
                     used: set<Id>, id: Id)
    requires WritersOk(cfg, jobs, blobs, active, used)
    ensures WritersOk(cfg, jobs, blobs, active - {id}, used)
  {
  }

  lemma UnlinkFollows(cfg: S.Config, w: World, v: World, id: Id)
    requires Writers(cfg, w) && v.store.jobs == w.store.jobs && v.attempts == w.attempts && v.used == w.used
    requires v.store.active == w.store.active && v.store.blobs == w.store.blobs - {id}
    requires id in w.store.jobs ==> !NeedsPayload(w.store.jobs[id].state)
    requires id in w.store.jobs && id in w.store.active ==> !w.store.jobs[id].state.Staging?
    ensures Follows(cfg, w, v, Same)
  {
    WritersUnlink(cfg, w.store.jobs, w.store.blobs, w.store.active, w.used, id);
  }

  lemma ForgetFollows(cfg: S.Config, w: World, v: World, id: Id)
    requires Writers(cfg, w) && v.attempts == w.attempts && v.used == w.used && v.store.active == w.store.active
    requires id in w.store.jobs && v.store.jobs == w.store.jobs - {id} && v.store.blobs == w.store.blobs - {id}
    requires id in w.store.active ==> !w.store.jobs[id].state.Staging?
    requires w.store.jobs[id].state.Staging? || (Terminal(w.store.jobs[id].state) && Untouched(w.store.jobs[id]))
    ensures Follows(cfg, w, v, Forgets(id))
  {
    WritersUnlink(cfg, w.store.jobs, w.store.blobs, w.store.active, w.used, id);
  }

  lemma StoreBlobFollows(cfg: S.Config, w: World, id: Id, size: int, digest: string)
    requires Writers(cfg, w)
    ensures Follows(cfg, w, w.(store := StoreBlobStep(cfg, w.store, id, size, digest)), Same)
  {
    var t := StoreBlobStep(cfg, w.store, id, size, digest);
    assert Streaming(w.store, id) ==> WriterOk(cfg, w.store.jobs, w.store.blobs, id, w.store.active[id]);
  }

  lemma CleanupFollows(cfg: S.Config, w: World, id: Id, unlinked: Unlinked, fault: Fault) returns (c: Change)
    requires Writers(cfg, w) && id !in w.store.active
    ensures Follows(cfg, w, w.(store := CleanupStaging(w.store, id, unlinked, fault)), c)
    ensures c.Same? || (c.Forgets? && c.id == id)
  {
    var v := w.(store := CleanupStaging(w.store, id, unlinked, fault));
    c := Same;
    if id !in w.store.jobs || !w.store.jobs[id].state.Staging? || unlinked.Neither? || unlinked.OnlyTmp? {
      StillFollows(cfg, w, v);
    } else if unlinked.Synced? && fault.Commits() {
      c := Forgets(id);
      ForgetFollows(cfg, w, v, id);
    } else {
      UnlinkFollows(cfg, w, v, id);
    }
  }

  /** A writer that has left is no longer in the way of dropping its row. */
  lemma AbandonFollows(cfg: S.Config, w: World, id: Id, unlinked: Unlinked, fault: Fault) returns (c: Change)
    requires Writers(cfg, w)
    ensures Follows(cfg, w, w.(store := AbandonStep(w.store, id, unlinked, fault)), c)
    ensures c.Same? || (c.Forgets? && c.id == id)
  {
    var s := w.store;
    if id in s.active {
      WriterLeaves(cfg, s.jobs, s.blobs, s.active, w.used, id);
      var left := w.(store := s.(active := s.active - {id}));
      c := CleanupFollows(cfg, left, id, unlinked, fault);
      LeftFollows(cfg, w, left, w.(store := AbandonStep(s, id, unlinked, fault)), c);
    } else {
      c := Same;
      StillFollows(cfg, w, w);
    }
  }

  /** Leaving is no change of its own. */
  lemma LeftFollows(cfg: S.Config, w: World, left: World, v: World, c: Change)
    requires left.store.jobs == w.store.jobs && left.store.blobs == w.store.blobs
    requires left.attempts == w.attempts && left.used == w.used && Follows(cfg, left, v, c) && !c.Admits?
    ensures Follows(cfg, w, v, c)
  {
  }

  lemma RemovePayloadFollows(cfg: S.Config, w: World, id: Id, synced: bool)
    requires Writers(cfg, w)
    ensures Follows(cfg, w, w.(store := S.RemovePayload(w.store, id, synced)), Same)
  {
    var v := w.(store := S.RemovePayload(w.store, id, synced));
    if v.store == w.store {
      StillFollows(cfg, w, v);
    } else {
      UnlinkFollows(cfg, w, v, id);
    }
  }

  lemma MinimizeFollows(cfg: S.Config, w: World, v: World, id: Id, k: Job)
    requires Writers(cfg, w) && v.attempts == w.attempts && v.used == w.used && v.store.active == w.store.active
    requires id in w.store.jobs && v.store.jobs == w.store.jobs[id := k] && v.store.blobs == w.store.blobs - {id}
    requires Quiet(w.store.jobs[id], k) && Terminal(w.store.jobs[id].state)
    ensures Follows(cfg, w, v, Quietly(id, k))
  {
    var s := w.store;
    WritersRow(cfg, s.jobs, s.blobs, s.active, w.used, id, k);
    WritersUnlink(cfg, s.jobs[id := k], s.blobs, s.active, w.used, id);
  }

  /** Retention keeps the row, deletes an untouched one, or minimizes one that owes. */
  lemma AgedRow(j: Job, now: int)
    requires RowOk(j)
    ensures var k := S.Aged(j, now);
            k == Some(j) || (Terminal(j.state) && if k.None? then Untouched(j) else Quiet(j, k.value))
  {
    if Terminal(j.state) && !S.Forgettable(j) {
      MinimizedQuiet(j);
    }
  }

  lemma RetainRow(cfg: S.Config, w: World, id: Id, now: int) returns (c: Change)
    requires Writers(cfg, w) && id in w.store.jobs && RowOk(w.store.jobs[id])
    requires !NeedsPayload(w.store.jobs[id].state) && !w.store.jobs[id].state.Staging?
    ensures Follows(cfg, w, w.(store := S.Retain(w.store, id, now)), c)
    ensures c.Same? || ((c.Quietly? || c.Forgets?) && c.id == id)
    ensures c.Forgets? ==> Terminal(w.store.jobs[id].state) && Untouched(w.store.jobs[id])
  {
    var j, k := w.store.jobs[id], S.Aged(w.store.jobs[id], now);
    var v := w.(store := S.Retain(w.store, id, now));
    AgedRow(j, now);
    assert v.store.blobs == w.store.blobs - {id};
    if k.None? {
      c := Forgets(id);
      ForgetFollows(cfg, w, v, id);
    } else if k.value == j {
      c := Same;
      assert v.store.jobs == w.store.jobs;
      UnlinkFollows(cfg, w, v, id);
    } else {
      c := Quietly(id, k.value);
      MinimizeFollows(cfg, w, v, id, k.value);
    }
  }

  lemma RetainFollows(cfg: S.Config, w: World, id: Id, now: int, fault: Fault) returns (c: Change)
    requires Writers(cfg, w) && RowsOk(w.store.jobs)
    ensures Follows(cfg, w, w.(store := RetainStep(w.store, id, now, fault)), c)
    ensures c.Same? || ((c.Quietly? || c.Forgets?) && c.id == id && id in w.store.jobs)
    ensures c.Forgets? ==> Terminal(w.store.jobs[id].state) && Untouched(w.store.jobs[id])
  {
    var s := w.store;
    c := Same;
    if s.clock.None? || now > s.clock.value {
      StillFollows(cfg, w, w);
    } else if !fault.Commits() {
      RemovePayloadFollows(cfg, w, id, true);
    } else if id !in s.jobs || NeedsPayload(s.jobs[id].state) || s.jobs[id].state.Staging? {
      StillFollows(cfg, w, w);
    } else {
      c := RetainRow(cfg, w, id, now);
    }
  }

  // ---- restart ----

  lemma CrashFollows(cfg: S.Config, w: World, blobs: map<Id, int>, tmps: set<Id>)
    requires Writers(cfg, w)
    ensures Follows(cfg, w, CrashStep(w, blobs, tmps), Same)
  {
  }

  lemma RecoverRowFollows(cfg: S.Config, w: World, id: Id, unlinked: Unlinked, fault: Fault) returns (c: Change)
    requires Writers(cfg, w) && RowsOk(w.store.jobs) && w.store.active == map[]
    ensures Follows(cfg, w, w.(store := RecoverRowStep(w.store, id, unlinked, fault)), c)
    ensures c.Same? || ((c.Quietly? || c.Forgets?) && c.id == id)
  {
    var s := w.store;
    var v := w.(store := RecoverRowStep(s, id, unlinked, fault));
    c := Same;
    if id !in s.jobs {
    } else if s.jobs[id].state.Staging? {
      c := CleanupFollows(cfg, w, id, unlinked, fault);
    } else if s.jobs[id].state.Submitting? && fault.Commits() {
      RecoveredQuiet(s.jobs[id]);
      c := Quietly(id, Recovered(s.jobs[id]));
    } else {
      RemovePayloadFollows(cfg, w, id, false);
    }
  }

  lemma ReopenFollows(cfg: S.Config, w: World) returns (c: Change)
    requires Writers(cfg, w) && w.store.active == map[]
    ensures Follows(cfg, w, ReopenStep(w), c)
    ensures c.Same? || c.Restarts?
  {
    c := if S.Recover(w.store).Ok? then Restarts else Same;
  }
}
