/** The scheduler over every run: no attempt is lost, none is recorded twice, and submissions in the air are bounded. */
module CapeScheduler {
  import opened Sets
  import opened CapeJob
  import opened CapeProtocol
  import opened CapeSafety
  import opened CapeRuns
  import opened CapeHistory
  import S = CapeStore

  /** No job has two packets, or a packet and a request in the air. */
  ghost predicate QueueOk(flights: map<Id, int>, pending: seq<Packet>) {
    && (forall k :: 0 <= k < |pending| ==> pending[k].id !in flights)
    && (forall i, k :: 0 <= i < k < |pending| ==> pending[i].id != pending[k].id)
  }

  /** A request in the air belongs to an open attempt that holds a concurrency slot of its tenant. */
  ghost predicate FlightsOk(flights: map<Id, int>, attempts: map<Ticket, Attempt>, live: map<Id, string>) {
    forall id :: id in flights ==>
      && Ticket(id, flights[id]) in attempts && attempts[Ticket(id, flights[id])].known.Open?
      && id in live && live[id] == attempts[Ticket(id, flights[id])].key.tenant
  }

  predicate Covers(p: Packet, t: Ticket) {
    p.id == t.id && if p.BeginError? then p.before < t.version else p.version == t.version
  }

  ghost predicate Covered(flights: map<Id, int>, pending: seq<Packet>, t: Ticket) {
    (t.id in flights && flights[t.id] == t.version) || exists k :: 0 <= k < |pending| && Covers(pending[k], t)
  }

  /** Every open attempt of this process is in the air or waits in the queue. */
  ghost predicate TrackOk(flights: map<Id, int>, pending: seq<Packet>, attempts: map<Ticket, Attempt>,
                          mine: set<Ticket>) {
    forall t :: t in mine ==> t in attempts && (attempts[t].known.Open? ==> Covered(flights, pending, t))
  }

  ghost predicate LiveOk(cfg: S.Config, live: map<Id, string>) {
    |live| <= cfg.concurrency && forall tenant :: |S.Own(live, tenant)| <= cfg.tenantConcurrency
  }

  ghost predicate SchedulerOk(cfg: S.Config, w: World) {
    && QueueOk(w.flights, w.pending) && FlightsOk(w.flights, w.attempts, w.store.live)
    && TrackOk(w.flights, w.pending, w.attempts, w.mine) && LiveOk(cfg, w.store.live)
  }

  // ---- steps that are not the scheduler's ----

  ghost predicate Aside(w: World, v: World) {
    && v.flights == w.flights && v.pending == w.pending && v.attempts == w.attempts && v.mine == w.mine
    && v.store.live == w.store.live
  }

  lemma IngressLive(cfg: S.Config, s: S.Store, e: Step)
    requires e.OpenTemporary? || e.StoreBlob? || e.Publish? || e.Abandon? || e.WriterStops? || e.RemovePayload?
    ensures StoreStep(cfg, s, e).live == s.live
  {
  }

  lemma DeadlineLive(cfg: S.Config, s: S.Store, e: Step)
    requires e.Cancel? || e.Expire?
    ensures StoreStep(cfg, s, e).live == s.live
  {
  }

  lemma LifecycleLive(cfg: S.Config, s: S.Store, e: Step)
    requires e.RecordDeletion? || e.Retain? || e.Report?
    ensures StoreStep(cfg, s, e).live == s.live
  {
  }

  /** No step of the store alone touches the live attempts. */
  lemma StoreLive(cfg: S.Config, s: S.Store, e: Step)
    ensures StoreStep(cfg, s, e).live == s.live
  {
    if e.OpenTemporary? || e.StoreBlob? || e.Publish? || e.Abandon? || e.WriterStops? || e.RemovePayload? {
      IngressLive(cfg, s, e);
    } else if e.Cancel? || e.Expire? {
      DeadlineLive(cfg, s, e);
    } else if e.RecordDeletion? || e.Retain? || e.Report? {
      LifecycleLive(cfg, s, e);
    }
  }

  lemma StepAside(cfg: S.Config, w: World, e: Step)
    requires !e.Dispatch? && !e.Answer? && !e.Persist? && !e.Crash?
    ensures Aside(w, Apply(cfg, w, e))
  {
    if StoreOnly(e) {
      StoreLive(cfg, w.store, e);
    }
  }

  // ---- concurrency slots ----

  lemma TakeSlot(cfg: S.Config, live: map<Id, string>, id: Id, tenant: string)
    requires LiveOk(cfg, live) && |live| < cfg.concurrency && |S.Own(live, tenant)| < cfg.tenantConcurrency
    ensures LiveOk(cfg, live[id := tenant])
  {
    var after := live[id := tenant];
    assert after.Keys == live.Keys + {id};
    forall t
      ensures |S.Own(after, t)| <= cfg.tenantConcurrency
    {
      SubsetSize(S.Own(after, t), if t == tenant then S.Own(live, t) + {id} else S.Own(live, t));
    }
  }

  lemma FreeSlot(cfg: S.Config, live: map<Id, string>, id: Id)
    requires LiveOk(cfg, live)
    ensures LiveOk(cfg, live - {id})
  {
    SubsetSize((live - {id}).Keys, live.Keys);
    forall t
      ensures |S.Own(live - {id}, t)| <= cfg.tenantConcurrency
    {
      SubsetSize(S.Own(live - {id}, t), S.Own(live, t));
    }
  }

  // ---- the scheduler's own steps ----

  lemma AnswerKeeps(cfg: S.Config, w: World, id: Id, sub: Submission, outcome: Code)
    requires SchedulerOk(cfg, w)
    ensures SchedulerOk(cfg, AnswerStep(w, id, sub, outcome))
  {
    if id in w.flights {
      var v := AnswerStep(w, id, sub, outcome);
      forall t | t in w.mine && w.attempts[t].known.Open?
        ensures Covered(v.flights, v.pending, t)
      {
        Handed(w.flights, w.pending, id, Answered(id, w.flights[id], sub, outcome), t);
      }
    }
  }

  /** The answer covers what the request covered. */
  lemma Handed(flights: map<Id, int>, pending: seq<Packet>, id: Id, p: Packet, t: Ticket)
    requires id in flights && p.Answered? && p.id == id && p.version == flights[id] && Covered(flights, pending, t)
    ensures Covered(flights - {id}, pending + [p], t)
  {
    if t.id in flights && flights[t.id] == t.version {
      if t.id == id {
        assert Covers((pending + [p])[|pending|], t);
      }
    } else {
      var k :| 0 <= k < |pending| && Covers(pending[k], t);
      assert Covers((pending + [p])[k], t);
    }
  }

  /** A begin that committed is in the air, or its packet covers it. */
  lemma BeginKeeps(cfg: S.Config, w: World, id: Id, version: int, r: S.Result<S.Store>, fault: Fault)
    requires SchedulerOk(cfg, w) && w.pending == [] && id !in w.flights
    requires r.Ok? && id in r.value.jobs ==>
               && r.value.jobs[id].submissionVersion == version + 1 && r.value.live == w.store.live
               && |w.store.live| < cfg.concurrency
               && |S.Own(w.store.live, r.value.jobs[id].key.tenant)| < cfg.tenantConcurrency
    ensures SchedulerOk(cfg, BeginStep(w, id, version, r, fault))
  {
    var v := BeginStep(w, id, version, r, fault);
    if r.Ok? && id in r.value.jobs && fault.Commits() {
      TakeSlot(cfg, w.store.live, id, r.value.jobs[id].key.tenant);
      forall t | t in v.mine && v.attempts[t].known.Open?
        ensures Covered(v.flights, v.pending, t)
      {
        if t == Ticket(id, version + 1) && !fault.NoFault? {
          assert Covers(v.pending[0], t);
        }
      }
    }
  }

  lemma DispatchKeeps(cfg: S.Config, w: World, id: Id, version: int, reading: int, fault: Fault)
    requires SchedulerOk(cfg, w)
    ensures SchedulerOk(cfg, DispatchStep(cfg, w, id, version, reading, fault))
  {
    if w.pending == [] && id !in w.flights && id in w.store.jobs && version >= 1 {
      BeginKeeps(cfg, w, id, version, S.BeginSubmission(cfg, w.store, id, version, reading), fault);
    }
  }

  /** Dropping a packet uncovers only the attempts it covered. */
  lemma DropKeepsCover(flights: map<Id, int>, pending: seq<Packet>, k: nat, t: Ticket)
    requires k < |pending| && Covered(flights, pending, t) && !Covers(pending[k], t)
    ensures Covered(flights, Drop(pending, k), t)
  {
    if !(t.id in flights && flights[t.id] == t.version) {
      var i :| 0 <= i < |pending| && Covers(pending[i], t);
      assert Covers(Drop(pending, k)[if i < k then i else i - 1], t);
    }
  }

  lemma DropKeepsQueue(flights: map<Id, int>, pending: seq<Packet>, k: nat)
    requires k < |pending| && QueueOk(flights, pending)
    ensures QueueOk(flights, Drop(pending, k))
  {
    var rest := Drop(pending, k);
    forall i | 0 <= i < |rest|
      ensures rest[i] == pending[if i < k then i else i + 1]
    {
    }
  }

  lemma OpenIsCurrent(jobs: map<Id, Job>, attempts: map<Ticket, Attempt>, t: Ticket)
    requires TicketsOk(jobs, attempts) && t in attempts && attempts[t].known.Open?
    ensures t.id in jobs && t == Current(t.id, jobs[t.id]) && !jobs[t.id].recorded
  {
  }

  lemma DropMootKeeps(cfg: S.Config, w: World, k: nat)
    requires SchedulerOk(cfg, w) && TicketsOk(w.store.jobs, w.attempts)
    requires k < |w.pending| && w.pending[k].id in w.store.jobs && Moot(w.pending[k], w.store.jobs[w.pending[k].id])
    ensures SchedulerOk(cfg, w.(pending := Drop(w.pending, k)))
  {
    DropKeepsQueue(w.flights, w.pending, k);
    forall t | t in w.mine && w.attempts[t].known.Open?
      ensures Covered(w.flights, Drop(w.pending, k), t)
    {
      OpenIsCurrent(w.store.jobs, w.attempts, t);
      DropKeepsCover(w.flights, w.pending, k, t);
    }
  }

  lemma RecordFlights(flights: map<Id, int>, attempts: map<Ticket, Attempt>, live: map<Id, string>, t: Ticket,
                      a: Attempt)
    requires FlightsOk(flights, attempts, live) && t.id !in flights
    ensures FlightsOk(flights, attempts[t := a], live) && FlightsOk(flights, attempts[t := a], live - {t.id})
  {
  }

  /** After a record the packet covers nothing that is still open. */
  lemma RecordTrack(w: World, k: nat, a: Attempt)
    requires TrackOk(w.flights, w.pending, w.attempts, w.mine) && TicketsOk(w.store.jobs, w.attempts)
    requires k < |w.pending| && w.pending[k].id in w.store.jobs && !a.known.Open?
    ensures var t := Current(w.pending[k].id, w.store.jobs[w.pending[k].id]);
            && TrackOk(w.flights, w.pending, w.attempts[t := a], w.mine)
            && TrackOk(w.flights, Drop(w.pending, k), w.attempts[t := a], w.mine)
  {
    var after := w.attempts[Current(w.pending[k].id, w.store.jobs[w.pending[k].id]) := a];
    forall t | t in w.mine && after[t].known.Open?
      ensures Covered(w.flights, Drop(w.pending, k), t)
    {
      OpenIsCurrent(w.store.jobs, w.attempts, t);
      DropKeepsCover(w.flights, w.pending, k, t);
    }
  }

  lemma RecordKeeps(cfg: S.Config, w: World, k: nat, j: Job, r: S.Result<S.Store>, fault: Fault)
    requires SchedulerOk(cfg, w) && TicketsOk(w.store.jobs, w.attempts)
    requires k < |w.pending| && w.pending[k].id in w.store.jobs && j == w.store.jobs[w.pending[k].id]
    requires r.Ok? ==> r.value.live == w.store.live && PacketVersion(w.pending[k], j) == j.submissionVersion
    ensures SchedulerOk(cfg, RecordStep(w, k, j, r, fault))
  {
    if r.Ok? {
      var p := w.pending[k];
      var a := Attempt(j.key, KnowledgeOf(j, p));
      DropKeepsQueue(w.flights, w.pending, k);
      FreeSlot(cfg, w.store.live, p.id);
      RecordFlights(w.flights, w.attempts, w.store.live, Current(p.id, j), a);
      RecordTrack(w, k, a);
    }
  }

  lemma PersistKeeps(cfg: S.Config, w: World, k: nat, backoff: int, reading: int, raw: int, fault: Fault)
    requires SchedulerOk(cfg, w) && CoreOk(w.store.jobs, w.attempts)
    ensures SchedulerOk(cfg, PersistStep(w, k, backoff, reading, raw, fault))
  {
    if k < |w.pending| && w.pending[k].id in w.store.jobs && fault.Commits() {
      var p := w.pending[k];
      var j := w.store.jobs[p.id];
      if Moot(p, j) {
        DropMootKeeps(cfg, w, k);
      } else {
        assert RowOk(j);
        RecordKeeps(cfg, w, k, j, S.RecordSubmission(w.store, p.id, PacketVersion(p, j), PacketSubmission(p),
                                                     PacketOutcome(p), backoff, reading, raw), fault);
      }
    }
  }

  lemma AsideKeeps(cfg: S.Config, w: World, v: World)
    requires SchedulerOk(cfg, w) && Aside(w, v)
    ensures SchedulerOk(cfg, v)
  {
  }

  lemma CrashKeeps(cfg: S.Config, w: World, blobs: map<Id, int>, tmps: set<Id>)
    requires cfg.Valid() && SchedulerOk(cfg, w)
    ensures SchedulerOk(cfg, CrashStep(w, blobs, tmps))
  {
  }

  lemma CrashStepKeeps(cfg: S.Config, w: World, e: Step)
    requires cfg.Valid() && SchedulerOk(cfg, w) && e.Crash?
    ensures SchedulerOk(cfg, Apply(cfg, w, e))
  {
    ApplyCrash(cfg, w, e);
    CrashKeeps(cfg, w, e.blobs, e.tmps);
  }

  lemma OtherStepKeeps(cfg: S.Config, w: World, e: Step)
    requires SchedulerOk(cfg, w) && !e.Dispatch? && !e.Answer? && !e.Persist? && !e.Crash?
    ensures SchedulerOk(cfg, Apply(cfg, w, e))
  {
    StepAside(cfg, w, e);
    AsideKeeps(cfg, w, Apply(cfg, w, e));
  }

  lemma RequestStepKeeps(cfg: S.Config, w: World, e: Step)
    requires SchedulerOk(cfg, w) && (e.Dispatch? || e.Answer?)
    ensures SchedulerOk(cfg, Apply(cfg, w, e))
  {
    if w.open {
      if e.Dispatch? {
        DispatchKeeps(cfg, w, e.id, e.version, e.reading, e.fault);
      } else {
        AnswerKeeps(cfg, w, e.id, e.submission, e.outcome);
      }
    }
  }

  lemma PersistStepKeeps(cfg: S.Config, w: World, e: Step)
    requires SchedulerOk(cfg, w) && CoreOk(w.store.jobs, w.attempts) && e.Persist?
    ensures SchedulerOk(cfg, Apply(cfg, w, e))
  {
    if w.open {
      PersistKeeps(cfg, w, e.k, e.backoff, e.reading, e.raw, e.fault);
    }
  }

  lemma StepKeeps(cfg: S.Config, w: World, e: Step)
    requires cfg.Valid() && SchedulerOk(cfg, w) && CoreOk(w.store.jobs, w.attempts)
    ensures SchedulerOk(cfg, Apply(cfg, w, e))
  {
    if e.Crash? {
      CrashStepKeeps(cfg, w, e);
    } else if e.Dispatch? || e.Answer? {
      RequestStepKeeps(cfg, w, e);
    } else if e.Persist? {
      PersistStepKeeps(cfg, w, e);
    } else {
      OtherStepKeeps(cfg, w, e);
    }
  }

  lemma {:induction false} RunKeeps(cfg: S.Config, w: World, steps: seq<Step>)
    requires cfg.Valid() && Sound(cfg, w) && SchedulerOk(cfg, w)
    ensures SchedulerOk(cfg, Run(cfg, w, steps))
    decreases |steps|
  {
    if steps != [] {
      StepKeeps(cfg, w, steps[0]);
      var c := StepSound(cfg, w, steps[0]);
      RunKeeps(cfg, Apply(cfg, w, steps[0]), steps[1..]);
    }
  }

  lemma Reachable(cfg: S.Config, steps: seq<Step>)
    requires cfg.Valid()
    ensures Sound(cfg, Run(cfg, Start, steps)) && SchedulerOk(cfg, Run(cfg, Start, steps))
  {
    ReachableSound(cfg, steps);
    RunKeeps(cfg, Start, steps);
  }
}
