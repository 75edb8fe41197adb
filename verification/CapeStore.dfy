/**
 * The CAPE job store: one function for each transaction. `Ok` holds the state to commit; on `Err` the transaction
 * rolls back. Job ids are 128-bit random numbers; `Config.ids` is how many there are.
 */
module CapeStore {
  import opened Options
  import opened StoreClock
  import opened CapeJob
  import TB = TokenBucket

  type Id = nat

  datatype BucketName = Requests | Submits | OfTenant(tenant: string)

  /** An ingress writer: still streaming, or finished with a synced and renamed blob. */
  datatype Writer = Writing | Written(size: int, digest: string)

  /** Rows, clock, buckets and pauses are in the database; blobs (with sizes) and temporary files in the spool;
      `active` writers and `live` attempts (by tenant) only in memory. `unsynced` are the jobs whose payload was
      unlinked without a directory sync since, so that a crash may bring it back. */
  datatype Store = Store(jobs: map<Id, Job>, clock: Option<int>, buckets: map<BucketName, TB.Bucket>,
                         paused: set<string>, blobs: map<Id, int>, tmps: set<Id>, unsynced: set<Id>,
                         active: map<Id, Writer>, live: map<Id, string>)

  /** A directory entry of the spool. */
  datatype Entry = Tmp(id: Id) | Blob(id: Id)

  function SpoolFiles(blobs: map<Id, int>, tmps: set<Id>): set<Entry> {
    (set id | id in tmps :: Tmp(id)) + (set id | id in blobs :: Blob(id))
  }

  /** After a directory sync no unlinked payload can come back. */
  function Sync(s: Store): Store {
    s.(unsynced := {})
  }

  /** Payloads without a row. */
  function Orphans(s: Store): set<Id> {
    set id | id in s.blobs && id !in s.jobs
  }

  datatype Config = Config(ids: nat, maxAttachment: int, maxJobs: int, tenantJobs: int, maxBytes: int, tenantBytes: int,
                           submitRate: nat, tenantRate: nat, requestRate: nat,
                           concurrency: int, tenantConcurrency: int) {
    predicate Valid() {
      && 1 <= maxAttachment <= MAX_ATTACHMENT && 1 <= maxJobs <= 10_000 && 1 <= tenantJobs <= maxJobs
      && 1 <= maxBytes <= 1_811_939_328 && 1 <= tenantBytes <= maxBytes
      && 1 <= submitRate <= 10_000 && 1 <= tenantRate <= submitRate && submitRate <= requestRate <= 10_000
      && 1 <= concurrency <= 100 && 1 <= tenantConcurrency <= concurrency
    }
  }

  datatype Error = Unavailable | Quota | Conflict | ClockBack | Local(code: Code)

  datatype Result<T> = Ok(value: T) | Err(error: Error)

  // ---- quotas ----

  datatype Measure = Rows | Bytes

  /** What one row adds to a quota, of everyone or of one tenant. */
  function Weight(j: Job, m: Measure, tenant: Option<string>): int {
    if tenant.Some? && tenant.value != j.key.tenant then 0 else if m.Rows? then 1 else j.reserved
  }

  function WeightAt(jobs: map<Id, Job>, id: Id, m: Measure, tenant: Option<string>): int {
    if id in jobs then Weight(jobs[id], m, tenant) else 0
  }

  /** The sum over the rows with an id below `n`. */
  function Total(jobs: map<Id, Job>, m: Measure, tenant: Option<string>, n: nat): int {
    if n == 0 then 0 else Total(jobs, m, tenant, n - 1) + WeightAt(jobs, n - 1, m, tenant)
  }

  function Limit(cfg: Config, m: Measure, tenant: Option<string>): int {
    if m.Rows? then (if tenant.None? then cfg.maxJobs else cfg.tenantJobs)
    else if tenant.None? then cfg.maxBytes else cfg.tenantBytes
  }

  predicate WithinQuota(cfg: Config, jobs: map<Id, Job>, tenant: Option<string>, bytes: int) {
    && Total(jobs, Rows, tenant, cfg.ids) < Limit(cfg, Rows, tenant)
    && Total(jobs, Bytes, tenant, cfg.ids) <= Limit(cfg, Bytes, tenant) - bytes
  }

  /** Some remote task of the tenant has been owed for seven days. */
  predicate OldDebt(jobs: map<Id, Job>, tenant: string, now: int) {
    exists id :: id in jobs && jobs[id].key.tenant == tenant && Overdue(jobs[id], now)
  }

  predicate Overdue(j: Job, now: int) {
    && !j.cleanup.NotSubmitted? && !j.cleanup.PurgeConfirmed?
    && now >= (if j.attemptAt.Some? then j.attemptAt.value else j.due.created) + 168 * HOUR
  }

  // ---- admission ----

  function Footprint(cfg: Config): int {
    cfg.maxAttachment + METADATA + RESULT
  }

  /** A staging row is reserved before any byte is read; `room` says the volume can hold it. */
  function Reserve(cfg: Config, s: Store, id: Id, key: Key, verdict: string, reading: int, room: bool): Result<Store> {
    var now := Now(s.clock, reading);
    if now.None? then Err(ClockBack)
    else if key.generation in s.paused then Err(Local(Unauthorized))
    else if !WithinQuota(cfg, s.jobs, None, Footprint(cfg)) then Err(Quota)
    else if !WithinQuota(cfg, s.jobs, Some(key.tenant), Footprint(cfg)) then Err(Quota)
    else if OldDebt(s.jobs, key.tenant, now.value) || !room then Err(Quota)
    else Ok(s.(jobs := s.jobs[id := Reserved(key, verdict, now.value, cfg.maxAttachment)], clock := now))
  }

  predicate HasReusable(jobs: map<Id, Job>, key: Key, now: int) {
    exists id :: id in jobs && jobs[id].key == key && Reusable(jobs[id], now)
  }

  /** The finished writer's row becomes queued, unless a reusable row with the same key exists. */
  function Publish(s: Store, id: Id, size: int, digest: string, verdict: string, reading: int): Result<Store> {
    var now := Now(s.clock, reading);
    if now.None? then Err(ClockBack)
    else if id !in s.jobs || !s.jobs[id].state.Staging? || s.jobs[id].version != 1 then Err(Conflict)
    else if now.value >= s.jobs[id].due.ingress then Err(Local(Deadline))
    else if HasReusable(s.jobs, s.jobs[id].key.(digest := digest), now.value) then Ok(s.(clock := now))
    else Ok(s.(jobs := s.jobs[id := Published(s.jobs[id], size, digest, verdict)], clock := now))
  }

  /** Drop a staging row whose writer has stopped: its files are gone and the directory is synced. */
  function DropStaging(s: Store, id: Id): Result<Store> {
    if id !in s.jobs then Err(Local(NotFound))
    else if !s.jobs[id].state.Staging? then Err(Unavailable)
    else Ok(Sync(s.(jobs := s.jobs - {id}, blobs := s.blobs - {id}, tmps := s.tmps - {id})))
  }

  // ---- submission ----

  function Rate(cfg: Config, b: BucketName): nat {
    match b
    case Requests => cfg.requestRate
    case Submits => cfg.submitRate
    case OfTenant(_) => cfg.tenantRate
  }

  function Stored(buckets: map<BucketName, TB.Bucket>, b: BucketName): Option<TB.Bucket> {
    if b in buckets then Some(buckets[b]) else None
  }

  /** One token from each named bucket in turn. */
  function TakeAll(cfg: Config, buckets: map<BucketName, TB.Bucket>, names: seq<BucketName>, now: int)
    : Result<map<BucketName, TB.Bucket>>
    decreases |names|
  {
    if names == [] then Ok(buckets) else
      match TB.TakeToken(Stored(buckets, names[0]), Rate(cfg, names[0]), now)
      case Granted(b) => TakeAll(cfg, buckets[names[0] := b], names[1..], now)
      case Throttled => Err(Local(Throttled))
      case ClockBack => Err(ClockBack)
      case Corrupt => Err(Unavailable)
  }

  function SubmitBuckets(tenant: string): seq<BucketName> {
    [Requests, Submits, OfTenant(tenant)]
  }

  function Own(live: map<Id, string>, tenant: string): set<Id> {
    set id | id in live && live[id] == tenant
  }

  function BeginSubmission(cfg: Config, s: Store, id: Id, version: int, reading: int): Result<Store> {
    if id !in s.jobs then Err(Local(NotFound)) else
      var j := s.jobs[id];
      var now := Now(s.clock, reading);
      if !j.state.Queued? || j.version != version then Err(Conflict)
      else if j.key.generation in s.paused then Err(Local(Unauthorized))
      else if now.None? then Err(ClockBack)
      else if now.value >= j.due.queue || now.value >= j.due.analysis then Err(Local(Deadline))
      else if Before(now.value, j.polling.nextAttempt) then Err(Local(Throttled))
      else if |s.live| >= cfg.concurrency || |Own(s.live, j.key.tenant)| >= cfg.tenantConcurrency
      then Err(Local(Throttled))
      else match TakeAll(cfg, s.buckets, SubmitBuckets(j.key.tenant), now.value)
           case Err(e) => Err(e)
           case Ok(b) => Ok(s.(jobs := s.jobs[id := Begun(j, now.value)], clock := now, buckets := b))
  }

  /** Record the outcome of attempt `version`. Only a requeued row needs store time; `raw` is the unclamped clock. */
  function RecordSubmission(s: Store, id: Id, version: int, sub: Submission, outcome: Code, backoff: int,
                            reading: int, raw: int): Result<Store> {
    if id !in s.jobs then Err(Local(NotFound))
    else if !Recordable(s.jobs[id], version) then Err(Conflict)
    else
      var now := Now(s.clock, reading);
      var k := Recorded(s.jobs[id], sub, outcome, backoff, if now.Some? then now.value else 0, raw);
      if k.state.Queued? && now.None? then Err(ClockBack)
      else Ok(s.(jobs := s.jobs[id := k], clock := if k.state.Queued? then now else s.clock))
  }

  // ---- lifecycle ----

  /** Replace a row, with the version the update leads to. */
  function Put(s: Store, id: Id, k: Job, clock: Option<int>): Store {
    s.(jobs := s.jobs[id := k], clock := clock)
  }

  /** Cancellation works even when the clock was set back: it then uses the high-water mark. */
  function Cancel(s: Store, id: Id, reading: int): Result<Store> {
    if id !in s.jobs then Err(Local(NotFound))
    else if s.jobs[id].state.Staging? || s.jobs[id].state.Cancelled? then Ok(s)
    else
      var j := s.jobs[id];
      var now := if Now(s.clock, reading).Some? then Now(s.clock, reading) else s.clock;
      Ok(Put(s, id, Terminated(j, Cancelled, NoCode, now.value).(version := j.version + 1), now))
  }

  function RecordDeletion(s: Store, id: Id, task: TaskRef, outcome: Code): Result<Store> {
    if id !in s.jobs then Err(Local(NotFound)) else
      var j := s.jobs[id];
      if task.generation != j.key.generation || !Terminal(j.state) || task.id !in j.taskIds then Err(Conflict)
      else Ok(Put(s, id, Deleted(j, task.id, outcome), s.clock))
  }

  predicate PastDue(j: Job, now: int) {
    && !j.state.Staging? && !Terminal(j.state)
    && (now >= j.due.analysis || (j.state.Queued? && now >= j.due.queue))
  }

  /** The deadline pass of maintenance, for one row. */
  function Expire(s: Store, id: Id, reading: int): Result<Store> {
    var now := Now(s.clock, reading);
    if now.None? then Err(ClockBack)
    else if id !in s.jobs || !PastDue(s.jobs[id], now.value) then Ok(s.(clock := now))
    else
      var j := s.jobs[id];
      Ok(Put(s, id, Terminated(j, Expired, Deadline, now.value).(version := j.version + 1), now))
  }

  /** The row owes nothing remotely and its retention has passed. */
  predicate Forgettable(j: Job) {
    !j.unknownDebt && (j.cleanup.NotSubmitted? || j.cleanup.PurgeConfirmed?)
  }

  /** Unlink a payload. The directory is synced only if there was one to unlink, and then the sync may fail. */
  function Unlink(s: Store, id: Id, synced: bool): Store {
    if id !in s.blobs then s else
      var t := s.(blobs := s.blobs - {id});
      if synced then Sync(t) else t.(unsynced := t.unsynced + {id})
  }

  /** Remove the payload of a row that no longer needs it. */
  function RemovePayload(s: Store, id: Id, synced: bool): Store {
    if id in s.jobs && (NeedsPayload(s.jobs[id].state) || s.jobs[id].state.Staging?) then s else Unlink(s, id, synced)
  }

  /** The row after the retention pass; None deletes it. */
  function Aged(j: Job, now: int): Option<Job> {
    if !Terminal(j.state) || j.terminalAt.None? || now < j.terminalAt.value + 24 * HOUR then Some(j)
    else if Forgettable(j) then None
    else Some(if Minimized(j) == j then j else Minimized(j).(version := j.version + 1))
  }

  function Replaced(jobs: map<Id, Job>, id: Id, row: Option<Job>): map<Id, Job> {
    if row.None? then jobs - {id} else jobs[id := row.value]
  }

  /** The retention pass of maintenance, for one row; `now` is the store time of the deadline pass. */
  function Retain(s: Store, id: Id, now: int): Store {
    if id !in s.jobs || NeedsPayload(s.jobs[id].state) || s.jobs[id].state.Staging? then s
    else Unlink(s, id, true).(jobs := Replaced(s.jobs, id, Aged(s.jobs[id], now)))
  }

  /** A status poll, a report or a report error, for the one task the row owns. */
  function TransitionReport(s: Store, id: Id, task: TaskRef, p: Progress, reading: int): Result<Store> {
    if id !in s.jobs then Err(Local(NotFound)) else
      var j := s.jobs[id];
      var now := Now(s.clock, reading);
      if !ProgressFits(j.state, p) || j.suppressed || !SingleOwnedTask(j, task) then Err(Conflict)
      else if now.None? then Err(ClockBack)
      else if now.value >= j.due.analysis then Err(Local(Deadline))
      else Ok(Put(s, id, Progressed(j, p, now.value), now))
  }

  /** Any update of a row's polling times and cleanup flag; a read or deletion request also takes a request token. */
  function Reschedule(cfg: Config, s: Store, id: Id, polling: Polling, exceeded: bool, take: bool, reading: int)
    : Result<Store>
  {
    if id !in s.jobs then Err(Local(NotFound)) else
      var j := s.jobs[id];
      var now := Now(s.clock, reading);
      if j.state.Staging? then Err(Conflict)
      else if now.None? then Err(ClockBack)
      else match TakeAll(cfg, s.buckets, if take then [Requests] else [], now.value)
           case Err(e) => Err(e)
           case Ok(b) =>
             Ok(Put(s, id, j.(polling := polling, cleanupExceeded := exceeded, version := j.version + 1), now)
                  .(buckets := b))
  }

  // ---- restart ----

  /** The row after the job pass of recovery; staging rows are dropped. */
  function Reconciled(j: Job): Job {
    if j.state.Submitting? then Recovered(j) else j
  }

  function ReconciledJobs(jobs: map<Id, Job>): map<Id, Job> {
    map id | id in jobs && !jobs[id].state.Staging? :: Reconciled(jobs[id])
  }

  /** Rows whose payload must survive a restart. */
  predicate KeepsPayload(jobs: map<Id, Job>, id: Id) {
    id in jobs && (jobs[id].state.Queued? || jobs[id].state.SubmitUncertain?)
  }

  predicate PayloadOk(jobs: map<Id, Job>, blobs: map<Id, int>, id: Id)
    requires id in jobs
  {
    id in blobs && blobs[id] == jobs[id].payload && 1 <= blobs[id] <= MAX_ATTACHMENT
  }

  /** The files that the job pass leaves: staging rows lose theirs, rows past submission their payload. */
  function PassedBlobs(s: Store): map<Id, int> {
    map id | id in s.blobs && (id !in s.jobs || NeedsPayload(s.jobs[id].state)) :: s.blobs[id]
  }

  function PassedTmps(s: Store): set<Id> {
    set id | id in s.tmps && (id !in s.jobs || !s.jobs[id].state.Staging?)
  }

  /** Too many rows to load, or too many files to look at. */
  predicate Overfull(s: Store) {
    |s.jobs| > 10_000 || |SpoolFiles(PassedBlobs(s), PassedTmps(s))| > 20_000
  }

  /** A needed payload is missing or has the wrong size. */
  predicate Incomplete(s: Store) {
    var jobs := ReconciledJobs(s.jobs);
    exists id :: id in jobs && KeepsPayload(jobs, id) && !PayloadOk(jobs, s.blobs, id)
  }

  /** The store after a recovery that was not refused. */
  function Cleaned(s: Store): Store {
    var jobs := ReconciledJobs(s.jobs);
    s.(jobs := jobs, blobs := (map id | id in s.blobs && KeepsPayload(jobs, id) :: s.blobs[id]),
       tmps := {}, unsynced := {})
  }

  /** Recovery over the whole store. */
  function Recover(s: Store): Result<Store> {
    if Overfull(s) || Incomplete(s) then Err(Unavailable) else Ok(Cleaned(s))
  }
}
