/**
 * Every run of the CAPE service: the store, the scheduler that owns its submissions, faults, crashes and restarts,
 * with the history of all submission attempts ever made.
 */
module CapeProtocol {
  import opened Options
  import opened StoreClock
  import opened CapeJob
  import S = CapeStore

  type Id = S.Id

  /** How a transaction ends: committed; rolled back; committed although the commit reports an error;
      committed, with an error from the work after it. */
  datatype Fault = NoFault | Rollback | CommitError | LateError {
    predicate Commits() { !Rollback? }
    /** The transaction itself reports success. */
    predicate Reported() { NoFault? || LateError? }
  }

  /** How far the removal of a staged job's files came: the temporary file first, then the blob, then the sync. */
  datatype Unlinked = Neither | OnlyTmp | Both | Synced

  /** What is known about an attempt: outcome not yet recorded, recorded as proved unsent, or recorded otherwise. */
  datatype Knowledge = Open | Unsent | MaybeSent

  datatype Attempt = Attempt(key: Key, known: Knowledge)

  /** The attempt that moved row `id` to version `version`. */
  datatype Ticket = Ticket(id: Id, version: int)

  /** What the scheduler still has to persist: a failed begin seen at row version `before`, or an answered request. */
  datatype Packet =
    | BeginError(id: Id, before: int)
    | Answered(id: Id, version: int, submission: Submission, outcome: Code)

  /** `flights` are the requests in the air; `mine` the attempts begun since the last restart; `used` all ids ever
      drawn. `attempts`, `mine` and `used` are history: no decision reads the first two. */
  datatype World = World(store: S.Store, open: bool, flights: map<Id, int>, pending: seq<Packet>,
                         attempts: map<Ticket, Attempt>, mine: set<Ticket>, used: set<Id>)

  datatype Step =
    | Reserve(id: Id, key: Key, verdict: string, reading: int, room: bool, fault: Fault)
    | OpenTemporary(id: Id)
    | StoreBlob(id: Id, size: int, digest: string)
    | Publish(id: Id, verdict: string, reading: int, fault: Fault)
    | Abandon(id: Id, unlinked: Unlinked, fault: Fault)
    | WriterStops(id: Id)
    | Dispatch(id: Id, version: int, reading: int, fault: Fault)
    | Answer(id: Id, submission: Submission, outcome: Code)
    | Persist(k: nat, backoff: int, reading: int, raw: int, fault: Fault)
    | RemovePayload(id: Id, synced: bool)
    | Cancel(id: Id, reading: int, fault: Fault)
    | RecordDeletion(id: Id, task: TaskRef, outcome: Code, fault: Fault)
    | Expire(id: Id, reading: int, fault: Fault)
    | Retain(id: Id, now: int, fault: Fault)
    | Report(id: Id, task: TaskRef, progress: Progress, reading: int, fault: Fault)
    | Reschedule(id: Id, polling: Polling, exceeded: bool, take: bool, reading: int, fault: Fault)
    | TakeRequest(reading: int)
    | SetAdmission(generation: string, enabled: bool)
    | Crash(blobs: map<Id, int>, tmps: set<Id>)
    | RecoverRow(id: Id, unlinked: Unlinked, fault: Fault)
    | Reopen

  const EmptyStore := S.Store(map[], None, map[], {}, map[], {}, {}, map[], map[])

  const Start := World(EmptyStore, true, map[], [], map[], {}, {})

  /** The store after a transaction: unchanged when it was refused or rolled back. */
  function Settle(s: S.Store, r: S.Result<S.Store>, fault: Fault): S.Store {
    if r.Ok? && fault.Commits() then r.value else s
  }

  // ---- ingress ----

  function ReserveStep(cfg: S.Config, w: World, id: Id, key: Key, verdict: string, reading: int, room: bool,
                       fault: Fault)
    : World
  {
    var r := S.Reserve(cfg, w.store, id, key, verdict, reading, room);
    if id in w.used || id >= cfg.ids || r.Err? || !fault.Commits() then w
    else
      var active := if fault.Reported() then w.store.active[id := S.Writing] else w.store.active;
      w.(store := r.value.(active := active), used := w.used + {id})
  }

  predicate Streaming(s: S.Store, id: Id) {
    id in s.active && s.active[id].Writing?
  }

  /** The synced file gets its final name, and the directory is synced. */
  function StoreBlobStep(cfg: S.Config, s: S.Store, id: Id, size: int, digest: string): S.Store {
    if !Streaming(s, id) || size < 1 || size > cfg.maxAttachment then s
    else
      S.Sync(s.(blobs := s.blobs[id := size], tmps := s.tmps - {id},
                active := s.active[id := S.Written(size, digest)]))
  }

  function PublishStep(s: S.Store, id: Id, verdict: string, reading: int, fault: Fault): S.Store {
    if id !in s.active || !s.active[id].Written? then s
    else Settle(s, S.Publish(s, id, s.active[id].size, s.active[id].digest, verdict, reading), fault)
  }

  /** Remove a staged job's files, then its row; a failure may leave files, or the row without them. Without a sync
      the row always stays. */
  function CleanupStaging(s: S.Store, id: Id, unlinked: Unlinked, fault: Fault): S.Store {
    var r := S.DropStaging(s, id);
    if r.Err? || unlinked.Neither? then s
    else if unlinked.OnlyTmp? then s.(tmps := s.tmps - {id})
    else if unlinked.Both? then s.(tmps := s.tmps - {id}, blobs := s.blobs - {id})
    else if fault.Commits() then r.value
    else S.Sync(s.(tmps := s.tmps - {id}, blobs := s.blobs - {id}))
  }

  /** Only a writer that has stopped is cleaned up after. */
  function AbandonStep(s: S.Store, id: Id, unlinked: Unlinked, fault: Fault): S.Store {
    if id !in s.active then s else CleanupStaging(s.(active := s.active - {id}), id, unlinked, fault)
  }

  // ---- scheduler ----

  /** One candidate of a dispatch pass, listed from the table in the same pass. Only a begin that reports success
      puts a request in the air; any other leaves a packet, so that a begin which did commit is still accounted for. */
  function DispatchStep(cfg: S.Config, w: World, id: Id, version: int, reading: int, fault: Fault): World {
    if w.pending != [] || id in w.flights || id !in w.store.jobs || version < 1 then w
    else BeginStep(w, id, version, S.BeginSubmission(cfg, w.store, id, version, reading), fault)
  }

  function BeginStep(w: World, id: Id, version: int, r: S.Result<S.Store>, fault: Fault): World {
    if r.Err? || id !in r.value.jobs || !fault.Commits() then w.(pending := [BeginError(id, version)])
    else
      var j := r.value.jobs[id];
      var ticket := Ticket(id, j.submissionVersion);
      var live := if fault.Reported() then w.store.live[id := j.key.tenant] else w.store.live;
      var begun := w.(store := r.value.(live := live), attempts := w.attempts[ticket := Attempt(j.key, Open)],
                      mine := w.mine + {ticket});
      if fault.NoFault? then begun.(flights := w.flights[id := j.submissionVersion])
      else begun.(pending := [BeginError(id, version)])
  }

  function AnswerStep(w: World, id: Id, sub: Submission, outcome: Code): World {
    if id !in w.flights then w
    else w.(flights := w.flights - {id}, pending := w.pending + [Answered(id, w.flights[id], sub, outcome)])
  }

  /** The attempt a packet speaks about, as `persist` reads it off the row. */
  function PacketVersion(p: Packet, j: Job): int {
    if p.BeginError? then j.submissionVersion else p.version
  }

  function PacketSubmission(p: Packet): Submission {
    if p.BeginError? then Submission([], false, true) else p.submission
  }

  function PacketOutcome(p: Packet): Code {
    if p.BeginError? then Transport else p.outcome
  }

  /** Nothing is left to record for this packet. */
  predicate Moot(p: Packet, j: Job) {
    j.recorded || (p.BeginError? && j.submissionVersion <= p.before)
  }

  function Drop(pending: seq<Packet>, k: nat): seq<Packet>
    requires k < |pending|
  {
    pending[..k] + pending[k + 1..]
  }

  function KnowledgeOf(j: Job, p: Packet): Knowledge {
    if ProvesUnsent(j, PacketSubmission(p), PacketOutcome(p)) then Unsent else MaybeSent
  }

  /** A packet leaves the queue only when nothing is left to record or its record call reports no error at all. */
  function PersistStep(w: World, k: nat, backoff: int, reading: int, raw: int, fault: Fault): World {
    if k >= |w.pending| || w.pending[k].id !in w.store.jobs || fault.Rollback? then w else
      var p := w.pending[k];
      var j := w.store.jobs[p.id];
      if Moot(p, j) then w.(pending := Drop(w.pending, k))
      else RecordStep(w, k, j, S.RecordSubmission(w.store, p.id, PacketVersion(p, j), PacketSubmission(p),
                                                  PacketOutcome(p), backoff, reading, raw), fault)
  }

  function RecordStep(w: World, k: nat, j: Job, r: S.Result<S.Store>, fault: Fault): World
    requires k < |w.pending|
  {
    if r.Err? then w else
      var p := w.pending[k];
      var live := if fault.Reported() then r.value.live - {p.id} else r.value.live;
      w.(store := r.value.(live := live),
         attempts := w.attempts[Ticket(p.id, PacketVersion(p, j)) := Attempt(j.key, KnowledgeOf(j, p))],
         pending := if fault.NoFault? then Drop(w.pending, k) else w.pending)
  }

  // ---- maintenance, restart ----

  function RetainStep(s: S.Store, id: Id, now: int, fault: Fault): S.Store {
    if s.clock.None? || now > s.clock.value then s
    else if fault.Commits() then S.Retain(s, id, now)
    else S.RemovePayload(s, id, true)
  }

  function TakeRequestStep(cfg: S.Config, s: S.Store, reading: int): S.Store {
    var now := Now(s.clock, reading);
    if now.None? then s else
      match S.TakeAll(cfg, s.buckets, [S.Requests], now.value)
      case Err(_) => s
      case Ok(b) => s.(clock := now, buckets := b)
  }

  predicate IsStaging(s: S.Store, id: Id) {
    id in s.jobs && s.jobs[id].state.Staging?
  }

  /** A crash keeps the database, and the payloads of rows past staging. An unsynced payload may come back. A staging
      row's file may or may not be there, under either of its names; a payload without a row may have been removed by
      an unfinished recovery. */
  ghost predicate SpoolSurvives(s: S.Store, blobs: map<Id, int>, tmps: set<Id>) {
    && (forall id :: id in s.blobs && id in s.jobs && !s.jobs[id].state.Staging? ==>
          id in blobs && blobs[id] == s.blobs[id])
    && (forall id :: id in blobs ==> id in s.blobs || id in s.unsynced || IsStaging(s, id))
    && (forall id :: id in tmps ==> IsStaging(s, id) && id !in blobs)
  }

  /** The process may die alone: what was unlinked before and is still gone can come back in a later crash. */
  ghost function CrashStep(w: World, blobs: map<Id, int>, tmps: set<Id>): World {
    if !SpoolSurvives(w.store, blobs, tmps) then w
    else
      var unsynced := w.store.unsynced + S.Orphans(w.store) - blobs.Keys;
      w.(store := w.store.(blobs := blobs, tmps := tmps, unsynced := unsynced, active := map[], live := map[]),
         open := false, flights := map[], pending := [], mine := {})
  }

  /** One row of an interrupted recovery, which syncs an unlinked payload only at its end. */
  function RecoverRowStep(s: S.Store, id: Id, unlinked: Unlinked, fault: Fault): S.Store {
    if id !in s.jobs then s
    else if s.jobs[id].state.Staging? then CleanupStaging(s, id, unlinked, fault)
    else if s.jobs[id].state.Submitting? && fault.Commits() then s.(jobs := s.jobs[id := Recovered(s.jobs[id])])
    else S.RemovePayload(s, id, false)
  }

  function ReopenStep(w: World): World {
    var r := S.Recover(w.store);
    if r.Ok? then w.(store := r.value, open := true) else w
  }

  /** The steps that touch the store alone. */
  function StoreStep(cfg: S.Config, s: S.Store, e: Step): S.Store {
    match e
    case OpenTemporary(id) => if Streaming(s, id) then s.(tmps := s.tmps + {id}) else s
    case StoreBlob(id, size, digest) => StoreBlobStep(cfg, s, id, size, digest)
    case Publish(id, verdict, reading, fault) => PublishStep(s, id, verdict, reading, fault)
    case Abandon(id, unlinked, fault) => AbandonStep(s, id, unlinked, fault)
    case WriterStops(id) => s.(active := s.active - {id})
    case RemovePayload(id, synced) => S.RemovePayload(s, id, synced)
    case Cancel(id, reading, fault) => Settle(s, S.Cancel(s, id, reading), fault)
    case RecordDeletion(id, task, outcome, fault) => Settle(s, S.RecordDeletion(s, id, task, outcome), fault)
    case Expire(id, reading, fault) => Settle(s, S.Expire(s, id, reading), fault)
    case Retain(id, now, fault) => RetainStep(s, id, now, fault)
    case Report(id, task, progress, reading, fault) =>
      Settle(s, S.TransitionReport(s, id, task, progress, reading), fault)
    case Reschedule(id, polling, exceeded, take, reading, fault) =>
      Settle(s, S.Reschedule(cfg, s, id, polling, exceeded, take, reading), fault)
    case TakeRequest(reading) => TakeRequestStep(cfg, s, reading)
    case SetAdmission(generation, enabled) =>
      s.(paused := if enabled then s.paused - {generation} else s.paused + {generation})
    case RecoverRow(id, unlinked, fault) => RecoverRowStep(s, id, unlinked, fault)
    case _ => s
  }

  /** Recovery is all that happens while the store is closed, and happens only then. */
  predicate Enabled(w: World, e: Step) {
    e.Crash? || w.open != (e.RecoverRow? || e.Reopen?)
  }

  ghost function Apply(cfg: S.Config, w: World, e: Step): World {
    if !Enabled(w, e) then w else
      match e
      case Reserve(id, key, verdict, reading, room, fault) =>
        ReserveStep(cfg, w, id, key, verdict, reading, room, fault)
      case Dispatch(id, version, reading, fault) => DispatchStep(cfg, w, id, version, reading, fault)
      case Answer(id, sub, outcome) => AnswerStep(w, id, sub, outcome)
      case Persist(k, backoff, reading, raw, fault) => PersistStep(w, k, backoff, reading, raw, fault)
      case Crash(blobs, tmps) => CrashStep(w, blobs, tmps)
      case Reopen => ReopenStep(w)
      case _ => w.(store := StoreStep(cfg, w.store, e))
  }

  lemma ApplyDispatch(cfg: S.Config, w: World, e: Step)
    requires e.Dispatch? && w.open
    ensures Apply(cfg, w, e) == DispatchStep(cfg, w, e.id, e.version, e.reading, e.fault)
  {
  }

  lemma ApplyCrash(cfg: S.Config, w: World, e: Step)
    requires e.Crash?
    ensures Apply(cfg, w, e) == CrashStep(w, e.blobs, e.tmps)
  {
  }

  lemma ApplyReopen(cfg: S.Config, w: World, e: Step)
    requires e.Reopen?
    ensures Apply(cfg, w, e) == if w.open then w else ReopenStep(w)
  {
  }

  /** The step goes through `StoreStep`. */
  predicate StoreOnly(e: Step) {
    !e.Reserve? && !e.Dispatch? && !e.Answer? && !e.Persist? && !e.Crash? && !e.Reopen?
  }

  ghost function Run(cfg: S.Config, w: World, steps: seq<Step>): World
    decreases |steps|
  {
    if steps == [] then w else Run(cfg, Apply(cfg, w, steps[0]), steps[1..])
  }
}
