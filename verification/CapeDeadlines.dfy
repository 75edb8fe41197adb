/** Deadlines over every run: rows expire when they are due, and no attempt begins outside its time. */
module CapeDeadlines {
  import opened Options
  import opened StoreClock
  import opened CapeJob
  import opened CapeProtocol
  import opened CapeSafety
  import opened CapeSteps
  import opened CapeRuns
  import opened CapeHistory
  import opened CapeDelivery
  import opened CapeMaintenance
  import opened CapeBuckets
  import S = CapeStore
  import TB = TokenBucket

  // ---- every row keeps its deadlines ----

  /** Half a minute to arrive, an hour to be submitted, a day to be analysed; the last attempt began within its hour. */
  predicate Timed(j: Job) {
    && j.due.ingress == j.due.created + 30 * SECOND && j.due.queue == j.due.created + HOUR
    && j.due.analysis == j.due.created + 24 * HOUR
    && (j.attemptAt.Some? ==> j.attemptAt.value < j.due.created + HOUR)
  }

  ghost predicate AllTimed(jobs: map<Id, Job>) {
    forall id :: id in jobs ==> Timed(jobs[id])
  }

  lemma DispatchTimed(cfg: S.Config, w: World, id: Id, version: int, reading: int, fault: Fault)
    requires AllTimed(w.store.jobs)
    ensures AllTimed(DispatchStep(cfg, w, id, version, reading, fault).store.jobs)
  {
  }

  lemma ReserveTimed(cfg: S.Config, w: World, id: Id, key: Key, verdict: string, reading: int, room: bool, fault: Fault)
    requires AllTimed(w.store.jobs)
    ensures AllTimed(ReserveStep(cfg, w, id, key, verdict, reading, room, fault).store.jobs)
  {
  }

  /** No other change touches a deadline or the time of an attempt. */
  lemma ChangeTimed(cfg: S.Config, w: World, v: World, c: Change)
    requires AllTimed(w.store.jobs) && TableFollows(cfg, w, v.store.jobs, c) && !c.Begins? && !c.Admits?
    ensures AllTimed(v.store.jobs)
  {
  }

  lemma StepTimed(cfg: S.Config, w: World, e: Step)
    requires Sound(cfg, w) && AllTimed(w.store.jobs)
    ensures AllTimed(Apply(cfg, w, e).store.jobs)
  {
    if e.Dispatch? {
      DispatchTimed(cfg, w, e.id, e.version, e.reading, e.fault);
    } else if e.Reserve? {
      ReserveTimed(cfg, w, e.id, e.key, e.verdict, e.reading, e.room, e.fault);
    } else {
      var c := StepFollows(cfg, w, e);
      ChangeTimed(cfg, w, Apply(cfg, w, e), c);
    }
  }

  lemma {:induction false} RunTimed(cfg: S.Config, w: World, steps: seq<Step>)
    requires cfg.Valid() && Sound(cfg, w) && AllTimed(w.store.jobs)
    ensures AllTimed(Run(cfg, w, steps).store.jobs)
    decreases |steps|
  {
    if steps != [] {
      StepTimed(cfg, w, steps[0]);
      var c := StepSound(cfg, w, steps[0]);
      RunTimed(cfg, Apply(cfg, w, steps[0]), steps[1..]);
    }
  }

  /** In every reachable state every row has its three deadlines from its creation, and no attempt began after the
      first hour. */
  lemma DeadlinesHold(cfg: S.Config, steps: seq<Step>)
    requires cfg.Valid()
    ensures AllTimed(Run(cfg, Start, steps).store.jobs)
  {
    RunTimed(cfg, Start, steps);
  }

  // ---- rows expire when they are due ----

  /** A published row that has not ended is due a day after its creation, a queued one after an hour. */
  predicate Due(j: Job, now: int) {
    && !j.state.Staging? && !Terminal(j.state)
    && (now >= j.due.created + 24 * HOUR || (j.state.Queued? && now >= j.due.created + HOUR))
  }

  /** The row ended for its deadline, at this time. */
  predicate EndedAt(j: Job, k: Job, now: int) {
    && k.state.Expired? && k.reason.Deadline? && k.terminalAt == Some(now) && k.result.None?
    && k.version == j.version + 1 && k.key == j.key && k.taskIds == j.taskIds
  }

  lemma ExpiresRow(s: S.Store, id: Id, reading: int)
    requires RowsOk(s.jobs) && AllTimed(s.jobs) && InStep(s.clock, reading)
    ensures var r, now := S.Expire(s, id, reading), Later(s.clock, reading);
            && r.Ok? && r.value.clock == Some(now)
            && if id in s.jobs && Due(s.jobs[id], now)
               then id in r.value.jobs && EndedAt(s.jobs[id], r.value.jobs[id], now)
                    && r.value.jobs == s.jobs[id := r.value.jobs[id]]
               else r.value.jobs == s.jobs
  {
    StoreTime(s.clock, reading);
    if id in s.jobs {
      assert RowOk(s.jobs[id]);
    }
  }

  /** In every reachable state a deadline pass that commits ends exactly the rows that are due. */
  lemma ExpiresExactlyWhenDue(cfg: S.Config, steps: seq<Step>, id: Id, reading: int, fault: Fault)
    requires cfg.Valid() && Run(cfg, Start, steps).open && fault.Commits()
    requires InStep(Run(cfg, Start, steps).store.clock, reading)
    ensures var w := Run(cfg, Start, steps);
            var v, now := Apply(cfg, w, Expire(id, reading, fault)), Later(w.store.clock, reading);
            && v.store.clock == Some(now)
            && if id in w.store.jobs && Due(w.store.jobs[id], now)
               then id in v.store.jobs && EndedAt(w.store.jobs[id], v.store.jobs[id], now)
                    && v.store.jobs == w.store.jobs[id := v.store.jobs[id]]
               else v.store.jobs == w.store.jobs
  {
    var w := Run(cfg, Start, steps);
    ReachableSound(cfg, steps);
    DeadlinesHold(cfg, steps);
    ExpiresRow(w.store, id, reading);
    assert Apply(cfg, w, Expire(id, reading, fault)).store == Settle(w.store, S.Expire(w.store, id, reading), fault);
  }

  lemma {:induction false} BatchRow(s: S.Store, ids: seq<Id>, reading: int, id: Id)
    requires InStep(s.clock, reading) && id in s.jobs
    ensures var t, now := ExpireAll(s, ids, reading), Later(s.clock, reading);
            && t.clock == Some(now) && id in t.jobs
            && t.jobs[id] == if id in ids then Overdue(s.jobs, id, now)[id] else s.jobs[id]
  {
    StoreTime(s.clock, reading);
    if ids != [] {
      var n := |ids| - 1;
      BatchRow(s, ids[..n], reading, id);
      StoreTime(ExpireAll(s, ids[..n], reading).clock, reading);
      ExpireOnce(ExpireAll(s, ids[..n], reading), ids[n], reading);
      assert id in ids <==> id in ids[..n] || id == ids[n];
    }
  }

  /** Of a batch, exactly the rows that are due have ended after the pass; no row outside it changes. */
  lemma BatchExpiresDue(cfg: S.Config, steps: seq<Step>, ids: seq<Id>, reading: int, id: Id)
    requires cfg.Valid()
    requires var s := Run(cfg, Start, steps).store; InStep(s.clock, reading) && id in s.jobs
    ensures var s := Run(cfg, Start, steps).store;
            var t, now := ExpireAll(s, ids, reading), Later(s.clock, reading);
            && id in t.jobs
            && if id in ids && Due(s.jobs[id], now) then EndedAt(s.jobs[id], t.jobs[id], now)
               else t.jobs[id] == s.jobs[id]
  {
    var s := Run(cfg, Start, steps).store;
    ReachableSound(cfg, steps);
    DeadlinesHold(cfg, steps);
    BatchRow(s, ids, reading, id);
    assert RowOk(s.jobs[id]) && Timed(s.jobs[id]);
  }

  // ---- when an attempt begins ----

  /** Nothing about the row, the clock, the slots or the tokens stands against a submission. */
  ghost predicate MayBegin(cfg: S.Config, s: S.Store, id: Id, version: int, reading: int) {
    && id in s.jobs && InStep(s.clock, reading)
    && var j, now := s.jobs[id], Later(s.clock, reading);
       && j.state.Queued? && j.version == version && j.key.generation !in s.paused
       && now < j.due.created + HOUR && (j.polling.nextAttempt.Some? ==> j.polling.nextAttempt.value <= now)
       && |s.live| < cfg.concurrency && |S.Own(s.live, j.key.tenant)| < cfg.tenantConcurrency
       && forall b :: b in S.SubmitBuckets(j.key.tenant) ==> TB.Holds(S.Stored(s.buckets, b), S.Rate(cfg, b), now)
  }

  /** The transaction is granted exactly then; it moves the row to its next version and opens an attempt. */
  lemma BeginGranted(cfg: S.Config, s: S.Store, id: Id, version: int, reading: int)
    requires BucketsOk(cfg, s) && AllTimed(s.jobs)
    ensures var r, now := S.BeginSubmission(cfg, s, id, version, reading), Later(s.clock, reading);
            && (r.Ok? <==> MayBegin(cfg, s, id, version, reading))
            && (r.Ok? ==> r.value.jobs == s.jobs[id := Begun(s.jobs[id], now)] && r.value.clock == Some(now))
  {
    StoreTime(s.clock, reading);
    if id in s.jobs && InStep(s.clock, reading) {
      assert Timed(s.jobs[id]);
      ThreeTokens(cfg, s, s.jobs[id].key.tenant, Later(s.clock, reading));
    }
  }

  /** The dispatch opened exactly this attempt. */
  ghost predicate Opened(w: World, v: World, id: Id, version: int) {
    && Ticket(id, version + 1) !in w.attempts && id in w.store.jobs
    && v.attempts == w.attempts[Ticket(id, version + 1) := Attempt(w.store.jobs[id].key, Open)]
  }

  lemma GrantedOpens(cfg: S.Config, w: World, id: Id, version: int, r: S.Result<S.Store>, fault: Fault, now: int)
    requires CoreOk(w.store.jobs, w.attempts) && id in w.store.jobs && w.store.jobs[id].state.Queued?
    requires w.store.jobs[id].version == version && fault.Commits()
    requires r.Ok? && r.value.jobs == w.store.jobs[id := Begun(w.store.jobs[id], now)]
    ensures Opened(w, BeginStep(w, id, version, r, fault), id, version)
  {
    NextTicketIsFresh(w.store.jobs, w.attempts, id);
  }

  lemma RefusedOpensNone(w: World, id: Id, version: int, r: S.Result<S.Store>, fault: Fault)
    requires r.Err? || !fault.Commits()
    ensures BeginStep(w, id, version, r, fault).attempts == w.attempts
  {
  }

  lemma DispatchOpens(cfg: S.Config, w: World, id: Id, version: int, reading: int, fault: Fault)
    requires CoreOk(w.store.jobs, w.attempts) && BucketsOk(cfg, w.store) && AllTimed(w.store.jobs)
    ensures var v := DispatchStep(cfg, w, id, version, reading, fault);
            if && w.pending == [] && id !in w.flights && fault.Commits()
               && MayBegin(cfg, w.store, id, version, reading)
            then Opened(w, v, id, version) else v.attempts == w.attempts
  {
    var r := S.BeginSubmission(cfg, w.store, id, version, reading);
    BeginGranted(cfg, w.store, id, version, reading);
    if r.Ok? && fault.Commits() {
      assert RowOk(w.store.jobs[id]);
      GrantedOpens(cfg, w, id, version, r, fault, Later(w.store.clock, reading));
    } else {
      RefusedOpensNone(w, id, version, r, fault);
    }
  }

  /** In every reachable state a dispatch opens an attempt if and only if no packet is pending, the job has no request
      in the air, its transaction commits, and nothing stands against it: in particular not after the hour, and not
      before the next attempt is allowed. Otherwise no attempt begins. */
  lemma BeginsExactlyWhen(cfg: S.Config, steps: seq<Step>, id: Id, version: int, reading: int, fault: Fault)
    requires cfg.Valid() && Run(cfg, Start, steps).open
    ensures var w := Run(cfg, Start, steps);
            var v := DispatchStep(cfg, w, id, version, reading, fault);
            if && w.pending == [] && id !in w.flights && fault.Commits()
               && MayBegin(cfg, w.store, id, version, reading)
            then Opened(w, v, id, version) else v.attempts == w.attempts
  {
    ReachableSound(cfg, steps);
    DeadlinesHold(cfg, steps);
    RunBucketsOk(cfg, Start, steps);
    DispatchOpens(cfg, Run(cfg, Start, steps), id, version, reading, fault);
  }

  /** Whatever the step: where an attempt appears, nothing stood against it. */
  lemma NoAttemptOutOfTime(cfg: S.Config, steps: seq<Step>, e: Step, t: Ticket)
    requires cfg.Valid()
    requires t !in Run(cfg, Start, steps).attempts && t in Apply(cfg, Run(cfg, Start, steps), e).attempts
    ensures e.Dispatch? && t == Ticket(e.id, e.version + 1)
    ensures MayBegin(cfg, Run(cfg, Start, steps).store, e.id, e.version, e.reading)
  {
    var w := Run(cfg, Start, steps);
    ReachableSound(cfg, steps);
    BeginsOnlyWhenQueueEmpty(cfg, w, e);
    BeginsExactlyWhen(cfg, steps, e.id, e.version, e.reading, e.fault);
  }
}
