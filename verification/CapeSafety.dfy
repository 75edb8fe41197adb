/**
 * At most one attempt per key can have reached the sandbox unproved, over every run with faults, crashes and
 * restarts.
 */
module CapeSafety {
  import opened CapeJob
  import opened CapeProtocol
  import S = CapeStore

  ghost predicate RowsOk(jobs: map<Id, Job>) {
    forall id :: id in jobs ==> RowOk(jobs[id])
  }

  /** At most one row per key blocks admission. */
  ghost predicate KeysOk(jobs: map<Id, Job>) {
    forall a, b ::
      a in jobs && b in jobs && Blocking(jobs[a]) && Blocking(jobs[b]) && jobs[a].key == jobs[b].key ==> a == b
  }

  /** An attempt that is not proved unsent is the current attempt of a stored row that still owes it. */
  ghost predicate Backed(jobs: map<Id, Job>, t: Ticket, a: Attempt) {
    && t.id in jobs && Owes(jobs[t.id]) && jobs[t.id].submissionVersion == t.version
    && jobs[t.id].key == a.key && (a.known.Open? <==> !jobs[t.id].recorded)
  }

  ghost predicate TicketsOk(jobs: map<Id, Job>, attempts: map<Ticket, Attempt>) {
    && (forall t :: t in attempts && !attempts[t].known.Unsent? ==> Backed(jobs, t, attempts[t]))
    && (forall t :: t in attempts && t.id in jobs ==> t.version <= jobs[t.id].version)
  }

  function Current(id: Id, j: Job): Ticket {
    Ticket(id, j.submissionVersion)
  }

  /** A row that owes has its current attempt in the history. */
  ghost predicate OwedOk(jobs: map<Id, Job>, attempts: map<Ticket, Attempt>) {
    forall id :: id in jobs && Owes(jobs[id]) ==>
      Current(id, jobs[id]) in attempts && !attempts[Current(id, jobs[id])].known.Unsent?
  }

  ghost predicate CoreOk(jobs: map<Id, Job>, attempts: map<Ticket, Attempt>) {
    RowsOk(jobs) && KeysOk(jobs) && TicketsOk(jobs, attempts) && OwedOk(jobs, attempts)
  }

  ghost predicate UsedOk(jobs: map<Id, Job>, attempts: map<Ticket, Attempt>, used: set<Id>) {
    (forall id :: id in jobs ==> id in used) && (forall t :: t in attempts ==> t.id in used)
  }

  // ---- each kind of row change keeps the core ----

  lemma QuietCore(jobs: map<Id, Job>, attempts: map<Ticket, Attempt>, id: Id, k: Job)
    requires CoreOk(jobs, attempts) && id in jobs && Quiet(jobs[id], k)
    ensures CoreOk(jobs[id := k], attempts)
  {
  }

  lemma ReserveCore(jobs: map<Id, Job>, attempts: map<Ticket, Attempt>, used: set<Id>, id: Id, k: Job)
    requires CoreOk(jobs, attempts) && UsedOk(jobs, attempts, used) && id !in used && RowOk(k) && k.state.Staging?
    ensures CoreOk(jobs[id := k], attempts)
  {
  }

  lemma PublishCore(jobs: map<Id, Job>, attempts: map<Ticket, Attempt>, id: Id, size: int, digest: string,
                    verdict: string, now: int)
    requires CoreOk(jobs, attempts) && id in jobs && jobs[id].state.Staging?
    requires !S.HasReusable(jobs, jobs[id].key.(digest := digest), now)
    ensures CoreOk(jobs[id := Published(jobs[id], size, digest, verdict)], attempts)
  {
    forall o | o in jobs && jobs[o].key == jobs[id].key.(digest := digest)
      ensures !Blocking(jobs[o])
    {
      ReusableIsBlocking(jobs[o], now);
    }
  }

  lemma BeginCore(jobs: map<Id, Job>, attempts: map<Ticket, Attempt>, id: Id, now: int)
    requires CoreOk(jobs, attempts) && id in jobs && jobs[id].state.Queued?
    ensures var k := Begun(jobs[id], now);
            CoreOk(jobs[id := k], attempts[Current(id, k) := Attempt(k.key, Open)]) && Current(id, k) !in attempts
  {
  }

  lemma RecordCore(jobs: map<Id, Job>, attempts: map<Ticket, Attempt>, id: Id, k: Job, unsent: bool)
    requires CoreOk(jobs, attempts) && id in jobs && !jobs[id].recorded && Closes(jobs[id], k, unsent)
    ensures var t := Current(id, jobs[id]);
            && t in attempts && attempts[t].known.Open? && attempts[t].key == k.key
            && CoreOk(jobs[id := k], attempts[t := Attempt(k.key, if unsent then Unsent else MaybeSent)])
  {
    assert Owes(jobs[id]);
  }

  lemma DropCore(jobs: map<Id, Job>, attempts: map<Ticket, Attempt>, id: Id)
    requires CoreOk(jobs, attempts) && id in jobs && !Owes(jobs[id])
    ensures CoreOk(jobs - {id}, attempts)
  {
  }

  lemma RecoverCore(jobs: map<Id, Job>, attempts: map<Ticket, Attempt>)
    requires CoreOk(jobs, attempts)
    ensures CoreOk(S.ReconciledJobs(jobs), attempts)
  {
    forall id | id in jobs && jobs[id].state.Submitting?
      ensures Quiet(jobs[id], Recovered(jobs[id]))
    {
      RecoveredQuiet(jobs[id]);
    }
  }
}
