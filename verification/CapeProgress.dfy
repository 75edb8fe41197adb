/** What the service gets done: which jobs are admitted and published, and that a submitted job completes. */
module CapeProgress {
  import opened Options
  import opened StoreClock
  import opened CapeJob
  import opened CapeProtocol
  import opened CapeSafety
  import opened CapeSteps
  import opened CapeRuns
  import opened CapeHistory
  import opened CapeDelivery
  import opened CapeBuckets
  import opened CapeMaintenance
  import opened CapeOutcomes
  import opened CapeDeadlines
  import S = CapeStore

  // ---- admission ----

  /** When the row's remote task may have begun. */
  function OwedFrom(j: Job): int {
    if j.attemptAt.Some? then j.attemptAt.value else j.due.created
  }

  predicate LongOwed(j: Job, now: int) {
    !j.cleanup.NotSubmitted? && now >= OwedFrom(j) + 168 * HOUR
  }

  /** A task of the tenant has been owed for a week. */
  ghost predicate OwedForAWeek(jobs: map<Id, Job>, tenant: string, now: int) {
    exists id :: id in jobs && jobs[id].key.tenant == tenant && LongOwed(jobs[id], now)
  }

  /** One more row of the largest size fits the quota, of everyone or of one tenant. */
  predicate FitsOneMore(cfg: S.Config, jobs: map<Id, Job>, tenant: Option<string>, rows: int, bytes: int) {
    && S.Total(jobs, S.Rows, tenant, cfg.ids) + 1 <= rows
    && S.Total(jobs, S.Bytes, tenant, cfg.ids) + cfg.maxAttachment + 20_480 <= bytes
  }

  ghost predicate MayAdmit(cfg: S.Config, s: S.Store, key: Key, reading: int, room: bool) {
    && InStep(s.clock, reading) && key.generation !in s.paused && room
    && FitsOneMore(cfg, s.jobs, None, cfg.maxJobs, cfg.maxBytes)
    && FitsOneMore(cfg, s.jobs, Some(key.tenant), cfg.tenantJobs, cfg.tenantBytes)
    && !OwedForAWeek(s.jobs, key.tenant, Later(s.clock, reading))
  }

  lemma OldDebtIsOwed(jobs: map<Id, Job>, tenant: string, now: int)
    requires RowsOk(jobs)
    ensures S.OldDebt(jobs, tenant, now) <==> OwedForAWeek(jobs, tenant, now)
  {
    if S.OldDebt(jobs, tenant, now) {
      var id :| id in jobs && jobs[id].key.tenant == tenant && S.Overdue(jobs[id], now);
      assert RowOk(jobs[id]);
    }
    if id :| id in jobs && jobs[id].key.tenant == tenant && LongOwed(jobs[id], now) {
      assert RowOk(jobs[id]) && S.Overdue(jobs[id], now);
    }
  }

  /** A new row: staging, with the whole allowance reserved, and created now. */
  predicate Staged(cfg: S.Config, j: Job, key: Key, now: int) {
    && j.state.Staging? && j.key == key.(digest := "") && j.reserved == cfg.maxAttachment + 20_480
    && j.due.created == now && j.version == 1
  }

  lemma ReserveGranted(cfg: S.Config, s: S.Store, id: Id, key: Key, verdict: string, reading: int, room: bool)
    requires RowsOk(s.jobs)
    ensures var r, now := S.Reserve(cfg, s, id, key, verdict, reading, room), Later(s.clock, reading);
            && (r.Ok? <==> MayAdmit(cfg, s, key, reading, room))
            && (r.Ok? ==> id in r.value.jobs && Staged(cfg, r.value.jobs[id], key, now)
                          && r.value.jobs == s.jobs[id := r.value.jobs[id]])
  {
    StoreTime(s.clock, reading);
    OldDebtIsOwed(s.jobs, key.tenant, Later(s.clock, reading));
  }

  /** In every reachable state a job with a new id is admitted if and only if the clock is in step, its generation is
      not paused, the volume has room, both quotas fit one more of the largest jobs, and its tenant owes no task for a
      week. */
  lemma AdmitsExactlyWhen(cfg: S.Config, steps: seq<Step>, id: Id, key: Key, verdict: string, reading: int, room: bool,
                          fault: Fault)
    requires cfg.Valid() && id !in Run(cfg, Start, steps).used && id < cfg.ids && fault.Commits()
    ensures var w := Run(cfg, Start, steps);
            var v, now := ReserveStep(cfg, w, id, key, verdict, reading, room, fault), Later(w.store.clock, reading);
            if MayAdmit(cfg, w.store, key, reading, room)
            then && id in v.store.jobs && Staged(cfg, v.store.jobs[id], key, now)
                 && v.store.jobs == w.store.jobs[id := v.store.jobs[id]]
                 && (Streaming(v.store, id) <==> fault.Reported())
            else v == w
  {
    var w := Run(cfg, Start, steps);
    ReachableSound(cfg, steps);
    ReserveGranted(cfg, w.store, id, key, verdict, reading, room);
    assert id !in w.store.active;
  }

  // ---- publication ----

  /** Some row with this key is queued or owes an attempt. */
  ghost predicate Blocked(jobs: map<Id, Job>, key: Key) {
    exists id :: id in jobs && jobs[id].key == key && Blocking(jobs[id])
  }

  lemma ReusableBlocks(jobs: map<Id, Job>, key: Key, now: int)
    requires RowsOk(jobs)
    ensures S.HasReusable(jobs, key, now) <==> Blocked(jobs, key)
  {
    forall id | id in jobs ensures Reusable(jobs[id], now) <==> Blocking(jobs[id]) {
      ReusableIsBlocking(jobs[id], now);
    }
  }

  ghost predicate MayPublish(s: S.Store, id: Id, digest: string, reading: int) {
    && IsStaging(s, id) && InStep(s.clock, reading) && Later(s.clock, reading) < s.jobs[id].due.created + 30 * SECOND
    && !Blocked(s.jobs, s.jobs[id].key.(digest := digest))
  }

  /** The row is queued with its payload and its digest, and reserves no more than it needs. */
  predicate QueuedAs(j: Job, k: Job, size: int, digest: string) {
    && k.state.Queued? && k.key == j.key.(digest := digest) && k.payload == size && k.reserved == size + 20_480
    && k.due == j.due && k.polling.nextAttempt == j.polling.nextAttempt && k.version == j.version + 1
  }

  lemma PublishGranted(cfg: S.Config, s: S.Store, id: Id, size: int, digest: string, verdict: string, reading: int)
    requires RowsOk(s.jobs) && StagedOk(cfg, s.jobs) && AllTimed(s.jobs)
    ensures var r := S.Publish(s, id, size, digest, verdict, reading);
            if MayPublish(s, id, digest, reading)
            then r.Ok? && id in r.value.jobs && QueuedAs(s.jobs[id], r.value.jobs[id], size, digest)
                 && r.value.jobs == s.jobs[id := r.value.jobs[id]]
            else r.Ok? ==> r.value.jobs == s.jobs
  {
    StoreTime(s.clock, reading);
    if id in s.jobs {
      assert Timed(s.jobs[id]);
      ReusableBlocks(s.jobs, s.jobs[id].key.(digest := digest), Later(s.clock, reading));
    }
  }

  /** In every reachable state a finished writer's row is queued if and only if it is still staging, half a minute has
      not passed since its creation, and no row with the same content and policies is queued or owes an attempt. */
  lemma PublishesExactlyWhen(cfg: S.Config, steps: seq<Step>, id: Id, verdict: string, reading: int, fault: Fault)
    requires cfg.Valid() && fault.Commits()
    requires var s := Run(cfg, Start, steps).store; id in s.active && s.active[id].Written?
    ensures var s := Run(cfg, Start, steps).store;
            var t, a := PublishStep(s, id, verdict, reading, fault), s.active[id];
            if MayPublish(s, id, a.digest, reading)
            then && id in t.jobs && QueuedAs(s.jobs[id], t.jobs[id], a.size, a.digest)
                 && t.jobs == s.jobs[id := t.jobs[id]]
            else t.jobs == s.jobs
  {
    var s := Run(cfg, Start, steps).store;
    ReachableSound(cfg, steps);
    DeadlinesHold(cfg, steps);
    PublishGranted(cfg, s, id, s.active[id].size, s.active[id].digest, verdict, reading);
  }

  // ---- a submitted job completes ----

  /** The sandbox took the sample as this one task. */
  function TakenAs(task: int, generation: string): Submission {
    Submission([TaskRef(task, generation)], false, false)
  }

  /** The request is in the air. */
  ghost predicate InAir(w: World, id: Id, j: Job, clock: int) {
    && w.open && id in w.store.jobs && w.store.jobs[id] == j && w.store.clock == Some(clock) && w.pending == []
    && id in w.flights && w.flights[id] == j.submissionVersion && j.state.Submitting? && RowOk(j)
  }

  /** Its answer waits to be recorded. */
  ghost predicate Waits(w: World, id: Id, j: Job, clock: int, sub: Submission) {
    && w.open && id in w.store.jobs && w.store.jobs[id] == j && w.store.clock == Some(clock) && id !in w.flights
    && w.pending == [Answered(id, j.submissionVersion, sub, NoCode)] && j.state.Submitting? && RowOk(j)
  }

  lemma DispatchSends(cfg: S.Config, w: World, id: Id, version: int, reading: int)
    requires BucketsOk(cfg, w.store) && AllTimed(w.store.jobs) && w.open && w.pending == [] && id !in w.flights
    requires MayBegin(cfg, w.store, id, version, reading) && 1 <= version
    ensures var j, now := w.store.jobs[id], Later(w.store.clock, reading);
            var v := DispatchStep(cfg, w, id, version, reading, NoFault);
            RowOk(Begun(j, now)) ==> InAir(v, id, Begun(j, now), now)
  {
    BeginGranted(cfg, w.store, id, version, reading);
  }

  lemma ToAir(cfg: S.Config, w: World, id: Id, version: int, reading: int)
    requires cfg.Valid() && Sound(cfg, w) && BucketsOk(cfg, w.store) && AllTimed(w.store.jobs) && w.open
    requires w.pending == [] && id !in w.flights && MayBegin(cfg, w.store, id, version, reading)
    ensures var j, now := w.store.jobs[id], Later(w.store.clock, reading);
            var v := Apply(cfg, w, Dispatch(id, version, reading, NoFault));
            Sound(cfg, v) && InAir(v, id, Begun(j, now), now)
  {
    var e := Dispatch(id, version, reading, NoFault);
    assert RowOk(w.store.jobs[id]);
    var c := StepSound(cfg, w, e);
    DispatchSends(cfg, w, id, version, reading);
  }

  lemma ToQueue(cfg: S.Config, w: World, id: Id, j: Job, clock: int, sub: Submission)
    requires cfg.Valid() && Sound(cfg, w) && InAir(w, id, j, clock)
    ensures var v := Apply(cfg, w, Answer(id, sub, NoCode)); Sound(cfg, v) && Waits(v, id, j, clock, sub)
  {
    var c := StepSound(cfg, w, Answer(id, sub, NoCode));
  }

  /** The row waits for news of its one task. */
  ghost predicate Awaits(w: World, id: Id, key: Key, due: Deadlines, task: int) {
    && w.open && id in w.store.jobs && w.store.clock.Some? && w.pending == [] && id !in w.flights
    && id !in w.store.live
    && var j := w.store.jobs[id]; Owned(j, task) && j.key == key && j.due == due && RowOk(j)
  }

  lemma RecordStores(w: World, id: Id, j: Job, clock: int, task: int, backoff: int, reading: int, raw: int)
    requires Waits(w, id, j, clock, TakenAs(task, j.key.generation)) && 1 <= task <= MAX_TASK_ID
    ensures var v := PersistStep(w, 0, backoff, reading, raw, NoFault);
            && Awaits(v, id, j.key, j.due, task) && v.store.jobs[id].state.RemotePending?
            && v.store.clock == Some(clock)
  {
    var sub, now := TakenAs(task, j.key.generation), Now(w.store.clock, reading);
    var time := if now.Some? then now.value else 0;
    LiveOutcome(j, sub, NoCode, backoff, time, raw);
    RecordedRow(j, sub, NoCode, backoff, time, raw);
    assert Drop(w.pending, 0) == [];
  }

  lemma ToRow(cfg: S.Config, w: World, id: Id, j: Job, clock: int, task: int, backoff: int, reading: int, raw: int)
    requires cfg.Valid() && Sound(cfg, w) && 1 <= task <= MAX_TASK_ID
    requires Waits(w, id, j, clock, TakenAs(task, j.key.generation))
    ensures var v := Apply(cfg, w, Persist(0, backoff, reading, raw, NoFault));
            && Sound(cfg, v) && Awaits(v, id, j.key, j.due, task) && v.store.jobs[id].state.RemotePending?
            && v.store.clock == Some(clock)
  {
    var c := StepSound(cfg, w, Persist(0, backoff, reading, raw, NoFault));
    ApplyPersist(cfg, w, 0, backoff, reading, raw, NoFault);
    RecordStores(w, id, j, clock, task, backoff, reading, raw);
  }

  /** News of an owned task before the deadline moves the row on. */
  lemma NewsArrives(cfg: S.Config, w: World, id: Id, key: Key, due: Deadlines, task: int, p: Progress, reading: int)
    requires Awaits(w, id, key, due, task) && ProgressFits(w.store.jobs[id].state, p)
    requires InStep(w.store.clock, reading) && Later(w.store.clock, reading) < due.analysis
    ensures var v := Apply(cfg, w, Report(id, TaskRef(task, key.generation), p, reading, NoFault));
            && v.store == S.Put(w.store, id, Progressed(w.store.jobs[id], p, Later(w.store.clock, reading)),
                                Some(Later(w.store.clock, reading)))
            && v == w.(store := v.store)
  {
    StoreTime(w.store.clock, reading);
    assert !w.store.jobs[id].suppressed;
  }

  lemma ToNews(cfg: S.Config, w: World, id: Id, key: Key, due: Deadlines, task: int, p: Progress, reading: int)
    requires cfg.Valid() && Sound(cfg, w)
    requires Awaits(w, id, key, due, task) && ProgressFits(w.store.jobs[id].state, p)
    requires InStep(w.store.clock, reading) && Later(w.store.clock, reading) < due.analysis
    ensures var v := Apply(cfg, w, Report(id, TaskRef(task, key.generation), p, reading, NoFault));
            var now := Later(w.store.clock, reading);
            && Sound(cfg, v) && Awaits(v, id, key, due, task) && v.store.clock == Some(now)
            && v.store.jobs[id] == Progressed(w.store.jobs[id], p, now)
  {
    var e := Report(id, TaskRef(task, key.generation), p, reading, NoFault);
    NewsArrives(cfg, w, id, key, due, task, p, reading);
    ProgressOutcome(w.store.jobs[id], p, Later(w.store.clock, reading));
    var c := StepSound(cfg, w, e);
    assert RowOk(Apply(cfg, w, e).store.jobs[id]);
  }

  lemma RunTwo(cfg: S.Config, w: World, e: seq<Step>)
    requires |e| == 2
    ensures Run(cfg, w, e) == Apply(cfg, Apply(cfg, w, e[0]), e[1])
  {
    var v := Apply(cfg, w, e[0]);
    RunTail(cfg, w, e, 0);
    RunTail(cfg, v, e, 1);
    RunEnd(cfg, Apply(cfg, v, e[1]), e);
  }

  lemma RunThree(cfg: S.Config, w: World, e: seq<Step>)
    requires |e| == 3
    ensures Run(cfg, w, e) == Apply(cfg, Apply(cfg, Apply(cfg, w, e[0]), e[1]), e[2])
  {
    var v := Apply(cfg, w, e[0]);
    RunTwo(cfg, v, e[1..]);
    assert Run(cfg, w, e) == Run(cfg, v, e[1..]);
  }

  function SubmitSteps(id: Id, version: int, key: Key, task: int, backoff: int, raw: int, reading: int): seq<Step> {
    [Dispatch(id, version, reading, NoFault), Answer(id, TakenAs(task, key.generation), NoCode),
     Persist(0, backoff, reading, raw, NoFault)]
  }

  function FetchSteps(id: Id, key: Key, task: int, result: string, r2: int, r3: int): seq<Step> {
    [Report(id, TaskRef(task, key.generation), Reported, r2, NoFault),
     Report(id, TaskRef(task, key.generation), Mapped(result), r3, NoFault)]
  }

  /** Dispatch, answer, record; then two polls. */
  function CompletingSteps(id: Id, version: int, key: Key, task: int, result: string, backoff: int, raw: int, r1: int,
                           r2: int, r3: int): seq<Step> {
    SubmitSteps(id, version, key, task, backoff, raw, r1) + FetchSteps(id, key, task, result, r2, r3)
  }

  lemma Submitted(cfg: S.Config, w: World, id: Id, task: int, backoff: int, raw: int, reading: int)
    requires cfg.Valid() && Sound(cfg, w) && BucketsOk(cfg, w.store) && AllTimed(w.store.jobs) && w.open
    requires w.pending == [] && id !in w.flights && id in w.store.jobs && 1 <= task <= MAX_TASK_ID
    requires MayBegin(cfg, w.store, id, w.store.jobs[id].version, reading)
    ensures var j := w.store.jobs[id];
            var v := Run(cfg, w, SubmitSteps(id, j.version, j.key, task, backoff, raw, reading));
            && Sound(cfg, v) && Awaits(v, id, j.key, j.due, task) && v.store.jobs[id].state.RemotePending?
            && v.store.clock == Some(Later(w.store.clock, reading))
  {
    var j, now := w.store.jobs[id], Later(w.store.clock, reading);
    var e := SubmitSteps(id, j.version, j.key, task, backoff, raw, reading);
    var v1 := Apply(cfg, w, e[0]);
    var v2 := Apply(cfg, v1, e[1]);
    ToAir(cfg, w, id, j.version, reading);
    ToQueue(cfg, v1, id, Begun(j, now), now, TakenAs(task, j.key.generation));
    ToRow(cfg, v2, id, Begun(j, now), now, task, backoff, reading, raw);
    RunThree(cfg, w, e);
  }

  lemma Fetched(cfg: S.Config, w: World, id: Id, key: Key, due: Deadlines, task: int, result: string, r2: int, r3: int)
    requires cfg.Valid() && Sound(cfg, w) && Awaits(w, id, key, due, task) && w.store.jobs[id].state.RemotePending?
    requires InStep(w.store.clock, r2) && r2 <= r3 && Later(w.store.clock, r3) < due.analysis
    ensures var v := Run(cfg, w, FetchSteps(id, key, task, result, r2, r3));
            && id in v.store.jobs && v.store.jobs[id].state.Completed? && v.store.jobs[id].result == Some(result)
            && Awaits(v, id, key, due, task)
  {
    var e := FetchSteps(id, key, task, result, r2, r3);
    var v1 := Apply(cfg, w, e[0]);
    ToNews(cfg, w, id, key, due, task, Reported, r2);
    ProgressOutcome(w.store.jobs[id], Reported, Later(w.store.clock, r2));
    ToNews(cfg, v1, id, key, due, task, Mapped(result), r3);
    ProgressOutcome(v1.store.jobs[id], Mapped(result), Later(v1.store.clock, r3));
    RunTwo(cfg, w, e);
  }

  /** The job is complete, with its slot free again and no packet left. */
  predicate Complete(v: World, id: Id, task: int, result: string) {
    && id in v.store.jobs && v.store.jobs[id].state.Completed? && v.store.jobs[id].result == Some(result)
    && v.store.jobs[id].taskIds == [task] && v.pending == [] && id !in v.flights && id !in v.store.live
  }

  lemma Completes(cfg: S.Config, w: World, id: Id, task: int, result: string, backoff: int, raw: int, r1: int, r2: int,
                  r3: int)
    requires cfg.Valid() && Sound(cfg, w) && BucketsOk(cfg, w.store) && AllTimed(w.store.jobs) && w.open
    requires w.pending == [] && id !in w.flights && id in w.store.jobs && 1 <= task <= MAX_TASK_ID && r1 <= r2 <= r3
    requires MayBegin(cfg, w.store, id, w.store.jobs[id].version, r1)
    requires Later(w.store.clock, r3) < w.store.jobs[id].due.created + 24 * HOUR
    ensures var j := w.store.jobs[id];
            var e := CompletingSteps(id, j.version, j.key, task, result, backoff, raw, r1, r2, r3);
            Complete(Run(cfg, w, e), id, task, result)
  {
    var j := w.store.jobs[id];
    var first := SubmitSteps(id, j.version, j.key, task, backoff, raw, r1);
    assert Timed(j);
    Submitted(cfg, w, id, task, backoff, raw, r1);
    Fetched(cfg, Run(cfg, w, first), id, j.key, j.due, task, result, r2, r3);
    RunAppend(cfg, w, first, FetchSteps(id, j.key, task, result, r2, r3));
  }

  /** From every reachable state in which nothing stands against a queued job, five undisturbed steps complete it: it is
      submitted, its one task is recorded, found reported, and its mapped report stored as the result. */
  lemma JobCompletes(cfg: S.Config, steps: seq<Step>, id: Id, task: int, result: string, backoff: int, raw: int,
                     r1: int, r2: int, r3: int)
    requires cfg.Valid() && Run(cfg, Start, steps).open && Run(cfg, Start, steps).pending == []
    requires id !in Run(cfg, Start, steps).flights && id in Run(cfg, Start, steps).store.jobs
    requires var s := Run(cfg, Start, steps).store; MayBegin(cfg, s, id, s.jobs[id].version, r1)
    requires 1 <= task <= MAX_TASK_ID && r1 <= r2 <= r3
    requires var s := Run(cfg, Start, steps).store; Later(s.clock, r3) < s.jobs[id].due.created + 24 * HOUR
    ensures var w := Run(cfg, Start, steps);
            var j := w.store.jobs[id];
            var e := CompletingSteps(id, j.version, j.key, task, result, backoff, raw, r1, r2, r3);
            Complete(Run(cfg, w, e), id, task, result)
  {
    ReachableSound(cfg, steps);
    DeadlinesHold(cfg, steps);
    RunBucketsOk(cfg, Start, steps);
    Completes(cfg, Run(cfg, Start, steps), id, task, result, backoff, raw, r1, r2, r3);
  }
}
