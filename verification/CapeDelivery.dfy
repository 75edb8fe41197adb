/** Every submission outcome is recorded exactly once, although store calls may report errors after committing. */
module CapeDelivery {
  import opened Sets
  import opened StoreClock
  import opened CapeJob
  import opened CapeProtocol
  import opened CapeSafety
  import opened CapeSteps
  import opened CapeRuns
  import opened CapeHistory
  import opened CapeScheduler
  import S = CapeStore

  // ---- what the scheduler's bookkeeping means ----

  /** Every open attempt begun by this process is still in the air or waits to be persisted. */
  lemma NothingIsLost(cfg: S.Config, steps: seq<Step>, t: Ticket)
    requires cfg.Valid()
    ensures var w := Run(cfg, Start, steps);
            t in w.mine && t in w.attempts && w.attempts[t].known.Open? ==> Covered(w.flights, w.pending, t)
  {
    Reachable(cfg, steps);
  }

  function FlightsOf(w: World, tenant: string): set<Id>
    requires forall id :: id in w.flights ==> Ticket(id, w.flights[id]) in w.attempts
  {
    set id | id in w.flights && w.attempts[Ticket(id, w.flights[id])].key.tenant == tenant
  }

  /** Submissions in the air never exceed the concurrency limits, in all and for each tenant. */
  lemma SubmissionsBounded(cfg: S.Config, steps: seq<Step>, tenant: string)
    requires cfg.Valid()
    ensures var w := Run(cfg, Start, steps);
            && (forall id :: id in w.flights ==> Ticket(id, w.flights[id]) in w.attempts)
            && |w.flights| <= cfg.concurrency && |FlightsOf(w, tenant)| <= cfg.tenantConcurrency
  {
    Reachable(cfg, steps);
    var w := Run(cfg, Start, steps);
    SubsetSize(w.flights.Keys, w.store.live.Keys);
    SubsetSize(FlightsOf(w, tenant), S.Own(w.store.live, tenant));
  }

  lemma PersistBeginsNothing(w: World, k: nat, backoff: int, reading: int, raw: int, fault: Fault)
    requires CoreOk(w.store.jobs, w.attempts)
    ensures PersistStep(w, k, backoff, reading, raw, fault).attempts.Keys == w.attempts.Keys
  {
    if k < |w.pending| && w.pending[k].id in w.store.jobs {
      var p := w.pending[k];
      var j := w.store.jobs[p.id];
      assert RowOk(j);
      if !Moot(p, j) && Recordable(j, PacketVersion(p, j)) {
        UnrecordedIsOpen(w.store.jobs, w.attempts, p.id);
      }
    }
  }

  /** A new attempt appears only in a dispatch that finds no packet pending. */
  lemma BeginsOnlyWhenQueueEmpty(cfg: S.Config, w: World, e: Step)
    requires CoreOk(w.store.jobs, w.attempts) && Apply(cfg, w, e).attempts.Keys != w.attempts.Keys
    ensures e.Dispatch? && w.pending == []
  {
    if e.Persist? {
      PersistBeginsNothing(w, e.k, e.backoff, e.reading, e.raw, e.fault);
    } else if !e.Dispatch? && !e.Answer? && !e.Crash? {
      StepAside(cfg, w, e);
    }
  }

  // ---- a pending packet can always be recorded ----

  /** An answer whose row is unrecorded speaks about that row's current attempt. */
  ghost predicate PacketOk(jobs: map<Id, Job>, used: set<Id>, p: Packet) {
    && p.id in used
    && if p.BeginError? then p.before >= 1
       else p.id in jobs && !jobs[p.id].recorded ==> jobs[p.id].submissionVersion == p.version && Owes(jobs[p.id])
  }

  ghost predicate PacketsOk(jobs: map<Id, Job>, used: set<Id>, pending: seq<Packet>) {
    forall k :: 0 <= k < |pending| ==> PacketOk(jobs, used, pending[k])
  }

  lemma ChangePacket(cfg: S.Config, w: World, v: World, c: Change, p: Packet)
    requires TableFollows(cfg, w, v.store.jobs, c) && HistoryFollows(w, v.attempts, v.used, c) && !c.Begins?
    requires RowsOk(w.store.jobs) && PacketOk(w.store.jobs, w.used, p)
    ensures PacketOk(v.store.jobs, v.used, p)
  {
    if c.Restarts? && p.id in w.store.jobs && w.store.jobs[p.id].state.Submitting? {
      RecoveredQuiet(w.store.jobs[p.id]);
    }
  }

  lemma ChangePackets(cfg: S.Config, w: World, v: World, c: Change)
    requires TableFollows(cfg, w, v.store.jobs, c) && HistoryFollows(w, v.attempts, v.used, c) && !c.Begins?
    requires RowsOk(w.store.jobs) && PacketsOk(w.store.jobs, w.used, w.pending)
    ensures PacketsOk(v.store.jobs, v.used, w.pending)
  {
    forall k | 0 <= k < |w.pending|
      ensures PacketOk(v.store.jobs, v.used, w.pending[k])
    {
      ChangePacket(cfg, w, v, c, w.pending[k]);
    }
  }

  /** What a step does to the queue: keep it, empty it, drop a packet, take up a failed begin, or take up an answer. */
  ghost predicate QueueFollows(w: World, v: World) {
    || v.pending == w.pending || v.pending == []
    || (exists k: nat :: k < |w.pending| && v.pending == Drop(w.pending, k))
    || (&& w.pending == [] && |v.pending| == 1 && v.pending[0].BeginError?
        && v.pending[0].id in w.store.jobs && v.pending[0].before >= 1)
    || (exists id, sub, outcome :: v == AnswerStep(w, id, sub, outcome))
  }

  lemma StepQueue(cfg: S.Config, w: World, e: Step)
    ensures QueueFollows(w, Apply(cfg, w, e))
  {
    var v := Apply(cfg, w, e);
    if e.Crash? || e.Dispatch? {
    } else if e.Answer? {
      assert v == w || v == AnswerStep(w, e.id, e.submission, e.outcome);
    } else if e.Persist? {
      assert v.pending == w.pending || (e.k < |w.pending| && v.pending == Drop(w.pending, e.k));
    } else {
      StepAside(cfg, w, e);
    }
  }

  /** The answer of a request in the air speaks about the current attempt of its row. */
  lemma AnswerPacket(w: World, id: Id)
    requires TicketsOk(w.store.jobs, w.attempts) && FlightsOk(w.flights, w.attempts, w.store.live) && id in w.flights
    requires UsedOk(w.store.jobs, w.attempts, w.used)
    ensures id in w.used && id in w.store.jobs
    ensures w.store.jobs[id].submissionVersion == w.flights[id] && Owes(w.store.jobs[id])
  {
    assert Backed(w.store.jobs, Ticket(id, w.flights[id]), w.attempts[Ticket(id, w.flights[id])]);
  }

  lemma QueueKeepsPackets(w: World, v: World)
    requires QueueFollows(w, v) && PacketsOk(v.store.jobs, v.used, w.pending)
    requires w.used <= v.used && UsedOk(w.store.jobs, w.attempts, w.used)
    requires TicketsOk(w.store.jobs, w.attempts) && FlightsOk(w.flights, w.attempts, w.store.live)
    ensures PacketsOk(v.store.jobs, v.used, v.pending)
  {
    if k: nat :| k < |w.pending| && v.pending == Drop(w.pending, k) {
      forall i | 0 <= i < |v.pending|
        ensures PacketOk(v.store.jobs, v.used, v.pending[i])
      {
        assert v.pending[i] == w.pending[if i < k then i else i + 1];
      }
    } else if id, sub, outcome :| v == AnswerStep(w, id, sub, outcome) {
      if id in w.flights {
        AnswerPacket(w, id);
      }
    }
  }

  ghost predicate Packets(w: World) {
    PacketsOk(w.store.jobs, w.used, w.pending)
  }

  /** Unless an attempt begins, the packets that were there still fit; a begin finds none there. */
  lemma OldPackets(cfg: S.Config, w: World, v: World, c: Change)
    requires CoreOk(w.store.jobs, w.attempts) && Packets(w) && Follows(cfg, w, v, c)
    requires v.attempts.Keys != w.attempts.Keys ==> w.pending == []
    ensures PacketsOk(v.store.jobs, v.used, w.pending)
  {
    if c.Begins? {
      NextTicketIsFresh(w.store.jobs, w.attempts, c.id);
      assert Ticket(c.id, w.store.jobs[c.id].version + 1) in v.attempts;
    } else {
      ChangePackets(cfg, w, v, c);
    }
  }

  lemma StepPackets(cfg: S.Config, w: World, e: Step)
    requires Sound(cfg, w) && FlightsOk(w.flights, w.attempts, w.store.live) && Packets(w)
    ensures Packets(Apply(cfg, w, e))
  {
    var v := Apply(cfg, w, e);
    var c := StepFollows(cfg, w, e);
    if v.attempts.Keys != w.attempts.Keys {
      BeginsOnlyWhenQueueEmpty(cfg, w, e);
    }
    OldPackets(cfg, w, v, c);
    StepQueue(cfg, w, e);
    QueueKeepsPackets(w, v);
  }

  lemma {:induction false} RunPackets(cfg: S.Config, w: World, steps: seq<Step>)
    requires cfg.Valid() && Sound(cfg, w) && SchedulerOk(cfg, w) && Packets(w)
    ensures Packets(Run(cfg, w, steps))
    decreases |steps|
  {
    if steps != [] {
      StepPackets(cfg, w, steps[0]);
      StepKeeps(cfg, w, steps[0]);
      var c := StepSound(cfg, w, steps[0]);
      RunPackets(cfg, Apply(cfg, w, steps[0]), steps[1..]);
    }
  }

  lemma PacketIsRecordable(j: Job, jobs: map<Id, Job>, used: set<Id>, p: Packet)
    requires p.id in jobs && j == jobs[p.id] && RowOk(j) && PacketOk(jobs, used, p) && !Moot(p, j)
    ensures Recordable(j, PacketVersion(p, j)) && PacketVersion(p, j) == j.submissionVersion
  {
  }

  /** The packet has left the queue and whatever attempt it covers is closed. */
  ghost predicate Delivered(w: World, k: nat, v: World) {
    && k < |w.pending| && v.pending == Drop(w.pending, k)
    && forall t :: t in v.attempts && Covers(w.pending[k], t) ==> !v.attempts[t].known.Open?
  }

  ghost predicate Ready(w: World, k: nat, reading: int) {
    w.open && k < |w.pending| && w.pending[k].id in w.store.jobs && Now(w.store.clock, reading).Some?
  }

  lemma ApplyPersist(cfg: S.Config, w: World, k: nat, backoff: int, reading: int, raw: int, fault: Fault)
    requires w.open
    ensures Apply(cfg, w, Persist(k, backoff, reading, raw, fault)) == PersistStep(w, k, backoff, reading, raw, fault)
  {
  }

  /** Nothing but a store error holds a packet back: while its row exists, one untroubled try delivers it. */
  lemma PersistDelivers(cfg: S.Config, steps: seq<Step>, k: nat, backoff: int, reading: int, raw: int)
    requires cfg.Valid() && Ready(Run(cfg, Start, steps), k, reading)
    ensures var w := Run(cfg, Start, steps); Delivered(w, k, Apply(cfg, w, Persist(k, backoff, reading, raw, NoFault)))
  {
    DeliversReachable(cfg, steps, k, backoff, reading, raw);
    ApplyPersist(cfg, Run(cfg, Start, steps), k, backoff, reading, raw, NoFault);
  }

  lemma DeliversReachable(cfg: S.Config, steps: seq<Step>, k: nat, backoff: int, reading: int, raw: int)
    requires cfg.Valid() && Ready(Run(cfg, Start, steps), k, reading)
    ensures Delivered(Run(cfg, Start, steps), k, PersistStep(Run(cfg, Start, steps), k, backoff, reading, raw, NoFault))
  {
    Reachable(cfg, steps);
    RunPackets(cfg, Start, steps);
    DeliversOne(Run(cfg, Start, steps), k, backoff, reading, raw);
  }

  lemma DeliversOne(w: World, k: nat, backoff: int, reading: int, raw: int)
    requires CoreOk(w.store.jobs, w.attempts) && Packets(w) && Ready(w, k, reading)
    ensures Delivered(w, k, PersistStep(w, k, backoff, reading, raw, NoFault))
  {
    var p := w.pending[k];
    var j := w.store.jobs[p.id];
    var v := PersistStep(w, k, backoff, reading, raw, NoFault);
    if !Moot(p, j) {
      PacketIsRecordable(j, w.store.jobs, w.used, p);
    }
    forall t | t in v.attempts && Covers(p, t)
      ensures !v.attempts[t].known.Open?
    {
      if t in w.attempts && w.attempts[t].known.Open? {
        OpenIsCurrent(w.store.jobs, w.attempts, t);
      }
    }
  }

  // ---- a packet whose row is gone ----

  ghost predicate Stuck(w: World, p: Packet) {
    p in w.pending && p.id in w.used && p.id !in w.store.jobs
  }

  lemma StuckPersist(w: World, k: nat, backoff: int, reading: int, raw: int, fault: Fault, p: Packet)
    requires p in w.pending && p.id !in w.store.jobs
    ensures p in PersistStep(w, k, backoff, reading, raw, fault).pending
  {
    var v := PersistStep(w, k, backoff, reading, raw, fault);
    if v.pending != w.pending {
      var i :| 0 <= i < |w.pending| && w.pending[i] == p;
      assert v.pending[if i < k then i else i - 1] == p;
    }
  }

  lemma StuckQueue(cfg: S.Config, w: World, e: Step, p: Packet)
    requires p in w.pending && p.id !in w.store.jobs && !e.Crash?
    ensures p in Apply(cfg, w, e).pending
  {
    if e.Persist? {
      StuckPersist(w, e.k, e.backoff, e.reading, e.raw, e.fault, p);
    } else if !e.Dispatch? && !e.Answer? {
      StepAside(cfg, w, e);
    }
  }

  /** A pending packet whose row has been deleted is never dropped, and until the process restarts no attempt begins. */
  lemma {:induction false} LostRowBlocks(cfg: S.Config, w: World, steps: seq<Step>, p: Packet)
    requires cfg.Valid() && Sound(cfg, w) && Stuck(w, p) && forall i :: 0 <= i < |steps| ==> !steps[i].Crash?
    ensures Stuck(Run(cfg, w, steps), p) && Run(cfg, w, steps).attempts.Keys == w.attempts.Keys
    decreases |steps|
  {
    if steps != [] {
      var v := Apply(cfg, w, steps[0]);
      StuckQueue(cfg, w, steps[0], p);
      var c := StepSound(cfg, w, steps[0]);
      ChangeRowsAge(cfg, w, v, c);
      if v.attempts.Keys != w.attempts.Keys {
        BeginsOnlyWhenQueueEmpty(cfg, w, steps[0]);
      }
      LostRowBlocks(cfg, v, steps[1..], p);
    }
  }
}
