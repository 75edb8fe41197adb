/** What the CAPE service promises about every run: attempts, payloads, and the life of a row. */
module CapeHistory {
  import opened CapeJob
  import opened CapeProtocol
  import opened CapeSafety
  import opened CapeSteps
  import opened CapeRuns
  import S = CapeStore

  lemma {:induction false} RunSound(cfg: S.Config, w: World, steps: seq<Step>)
    requires cfg.Valid() && Sound(cfg, w)
    ensures Sound(cfg, Run(cfg, w, steps))
    decreases |steps|
  {
    if steps != [] {
      var c := StepSound(cfg, w, steps[0]);
      RunSound(cfg, Apply(cfg, w, steps[0]), steps[1..]);
    }
  }

  lemma ReachableSound(cfg: S.Config, steps: seq<Step>)
    requires cfg.Valid()
    ensures Sound(cfg, Run(cfg, Start, steps))
  {
    RunSound(cfg, Start, steps);
  }

  // ---- attempts ----

  /** For each key at most one attempt ever lacks a recorded proof that nothing was sent. */
  lemma AtMostOneUnproved(cfg: S.Config, steps: seq<Step>, t: Ticket, u: Ticket)
    requires cfg.Valid()
    ensures var a := Run(cfg, Start, steps).attempts;
            t in a && u in a && !a[t].known.Unsent? && !a[u].known.Unsent? && a[t].key == a[u].key ==> t == u
  {
    ReachableSound(cfg, steps);
  }

  /** A row is gone only if every attempt it ever made was proved unsent. */
  lemma ForgottenOwesNothing(cfg: S.Config, steps: seq<Step>, t: Ticket)
    requires cfg.Valid()
    ensures var w := Run(cfg, Start, steps);
            t in w.attempts && t.id !in w.store.jobs ==> w.attempts[t].known.Unsent?
  {
    ReachableSound(cfg, steps);
  }

  /** The row may go: never published, or terminal with nothing owed and no task known. */
  predicate Settled(j: Job) {
    && (j.state.Staging? || Terminal(j.state))
    && !j.barrier && j.taskIds == [] && j.cleanup.NotSubmitted? && !j.unknownDebt
  }

  lemma ChangeForgets(cfg: S.Config, w: World, v: World, c: Change, id: Id)
    requires RowsOk(w.store.jobs) && TableFollows(cfg, w, v.store.jobs, c) && id in w.store.jobs && id !in v.store.jobs
    ensures Settled(w.store.jobs[id])
  {
    assert c.Forgets? || c.Restarts?;
  }

  /** The step that deletes a row finds it settled, and every attempt it ever made proved unsent. */
  lemma ForgetsOnlySettledRows(cfg: S.Config, steps: seq<Step>, e: Step, id: Id)
    requires cfg.Valid()
    ensures var w := Run(cfg, Start, steps);
            id in w.store.jobs && id !in Apply(cfg, w, e).store.jobs ==>
              && Settled(w.store.jobs[id])
              && forall t :: t in w.attempts && t.id == id ==> w.attempts[t].known.Unsent?
  {
    ReachableSound(cfg, steps);
    var w := Run(cfg, Start, steps);
    if id in w.store.jobs && id !in Apply(cfg, w, e).store.jobs {
      var c := StepFollows(cfg, w, e);
      ChangeForgets(cfg, w, Apply(cfg, w, e), c, id);
    }
  }

  // ---- payloads ----

  /** At every point of every run, each row that may still be submitted has its whole payload in the spool. */
  lemma PayloadsArePresent(cfg: S.Config, steps: seq<Step>, id: Id)
    requires cfg.Valid()
    ensures var s := Run(cfg, Start, steps).store;
            id in s.jobs && NeedsPayload(s.jobs[id].state) ==>
              id in s.blobs && s.blobs[id] == s.jobs[id].payload && 1 <= s.blobs[id] <= cfg.maxAttachment
  {
    ReachableSound(cfg, steps);
  }

  // ---- the life of a row ----

  /** A changed row has a higher version; terminal rows stay terminal, with their first time and their task ids. */
  ghost predicate Ages(j: Job, k: Job) {
    j == k || (k.version > j.version && Forward(j, k))
  }

  ghost predicate RowsAge(jobs: map<Id, Job>, jobs': map<Id, Job>, used: set<Id>) {
    && (forall id :: id in jobs && id in jobs' ==> Ages(jobs[id], jobs'[id]))
    && (forall id :: id in jobs' && id !in jobs ==> id !in used)
    && (forall id :: id in jobs && jobs[id].taskIds != [] ==> id in jobs')
  }

  /** Attempts are never lost, and each is closed at most once. */
  ghost predicate AttemptsAge(a: map<Ticket, Attempt>, b: map<Ticket, Attempt>) {
    forall t :: t in a ==> t in b && b[t].key == a[t].key && (b[t].known == a[t].known || a[t].known.Open?)
  }

  ghost predicate Evolves(w: World, v: World) {
    RowsAge(w.store.jobs, v.store.jobs, w.used) && AttemptsAge(w.attempts, v.attempts) && w.used <= v.used
  }

  lemma OneRowAges(jobs: map<Id, Job>, used: set<Id>, id: Id, k: Job)
    requires id in jobs && Ages(jobs[id], k)
    ensures RowsAge(jobs, jobs[id := k], used)
  {
  }

  lemma RestartAges(jobs: map<Id, Job>, used: set<Id>)
    requires RowsOk(jobs)
    ensures RowsAge(jobs, S.ReconciledJobs(jobs), used)
  {
    forall id | id in jobs && !jobs[id].state.Staging?
      ensures Ages(jobs[id], S.Reconciled(jobs[id]))
    {
      if jobs[id].state.Submitting? {
        RecoveredQuiet(jobs[id]);
      }
    }
  }

  lemma ChangeRowsAge(cfg: S.Config, w: World, v: World, c: Change)
    requires RowsOk(w.store.jobs) && TableFollows(cfg, w, v.store.jobs, c) && UsedOk(w.store.jobs, w.attempts, w.used)
    ensures RowsAge(w.store.jobs, v.store.jobs, w.used)
  {
    var jobs := w.store.jobs;
    match c
    case Quietly(id, k) => OneRowAges(jobs, w.used, id, k);
    case Publishes(id, size, digest, verdict, now) =>
      OneRowAges(jobs, w.used, id, Published(jobs[id], size, digest, verdict));
    case Begins(id, now) => OneRowAges(jobs, w.used, id, Begun(jobs[id], now));
    case Records(id, k, unsent) => OneRowAges(jobs, w.used, id, k);
    case Restarts => RestartAges(jobs, w.used);
    case _ =>
  }

  lemma NextTicketIsFresh(jobs: map<Id, Job>, attempts: map<Ticket, Attempt>, id: Id)
    requires TicketsOk(jobs, attempts) && id in jobs
    ensures Ticket(id, jobs[id].version + 1) !in attempts
  {
  }

  lemma UnrecordedIsOpen(jobs: map<Id, Job>, attempts: map<Ticket, Attempt>, id: Id)
    requires TicketsOk(jobs, attempts) && OwedOk(jobs, attempts) && id in jobs && Owes(jobs[id]) && !jobs[id].recorded
    ensures var t := Current(id, jobs[id]); t in attempts && attempts[t] == Attempt(jobs[id].key, Open)
  {
  }

  lemma ChangeAttemptsAge(cfg: S.Config, w: World, v: World, c: Change)
    requires TicketsOk(w.store.jobs, w.attempts) && OwedOk(w.store.jobs, w.attempts)
    requires TableFollows(cfg, w, v.store.jobs, c) && HistoryFollows(w, v.attempts, v.used, c)
    ensures AttemptsAge(w.attempts, v.attempts)
  {
    if c.Begins? {
      NextTicketIsFresh(w.store.jobs, w.attempts, c.id);
    } else if c.Records? {
      UnrecordedIsOpen(w.store.jobs, w.attempts, c.id);
    }
  }

  lemma EvolvesFurther(w: World, v: World, u: World)
    requires Evolves(w, v) && Evolves(v, u) && UsedOk(w.store.jobs, w.attempts, w.used)
    ensures Evolves(w, u)
  {
    assert forall id :: id in w.store.jobs && id in u.store.jobs ==> id in v.store.jobs;
  }

  lemma {:induction false} RunEvolves(cfg: S.Config, w: World, steps: seq<Step>)
    requires cfg.Valid() && Sound(cfg, w)
    ensures Evolves(w, Run(cfg, w, steps))
    decreases |steps|
  {
    if steps != [] {
      var v := Apply(cfg, w, steps[0]);
      var c := StepSound(cfg, w, steps[0]);
      ChangeRowsAge(cfg, w, v, c);
      ChangeAttemptsAge(cfg, w, v, c);
      RunEvolves(cfg, v, steps[1..]);
      EvolvesFurther(w, v, Run(cfg, v, steps[1..]));
    }
  }

  /** From any reachable state on: versions grow with every update, a terminal row stays terminal (only ever becoming
      cancelled) with its first terminal time, known task ids stay, and an attempt once closed never changes again. */
  lemma LifeOfARow(cfg: S.Config, before: seq<Step>, after: seq<Step>)
    requires cfg.Valid()
    ensures Evolves(Run(cfg, Start, before), Run(cfg, Run(cfg, Start, before), after))
  {
    ReachableSound(cfg, before);
    RunEvolves(cfg, Run(cfg, Start, before), after);
  }

  /** A stored result belongs to a completed, unsuppressed row with one owned task, no unknown debt and a closed
      attempt. */
  lemma ResultsAreOwned(cfg: S.Config, steps: seq<Step>, id: Id)
    requires cfg.Valid()
    ensures var s := Run(cfg, Start, steps).store;
            id in s.jobs && s.jobs[id].result.Some? ==>
              && s.jobs[id].state.Completed? && !s.jobs[id].suppressed && |s.jobs[id].taskIds| == 1
              && !s.jobs[id].unknownDebt && s.jobs[id].recorded && s.jobs[id].terminalAt.Some?
  {
    ReachableSound(cfg, steps);
  }
}
