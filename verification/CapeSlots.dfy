/**
 * Concurrency slots over every run: which record gives its slot back, and what a slot that is kept does to later
 * submissions.
 */
module CapeSlots {
  import opened Sets
  import opened Options
  import opened StoreClock
  import opened CapeJob
  import opened CapeProtocol
  import opened CapeSafety
  import opened CapeSteps
  import opened CapeRuns
  import opened CapeHistory
  import opened CapeScheduler
  import opened CapeDelivery
  import S = CapeStore

  // ---- when a slot is given back ----

  lemma RecordFreesSlot(w: World, k: nat, backoff: int, reading: int, raw: int, fault: Fault)
    requires CoreOk(w.store.jobs, w.attempts) && Packets(w) && Ready(w, k, reading) && fault.Commits()
    requires !Moot(w.pending[k], w.store.jobs[w.pending[k].id]) && w.pending[k].id in w.store.live
    ensures var id, v := w.pending[k].id, PersistStep(w, k, backoff, reading, raw, fault);
            && id in v.store.jobs && v.store.jobs[id].recorded
            && (id in v.store.live <==> fault.CommitError?)
  {
    var p := w.pending[k];
    var j := w.store.jobs[p.id];
    PacketIsRecordable(j, w.store.jobs, w.used, p);
    RecordedRow(j, PacketSubmission(p), PacketOutcome(p), backoff, Now(w.store.clock, reading).value, raw);
  }

  /** The record is due, and its attempt holds a slot. */
  ghost predicate Holding(w: World, k: nat, reading: int) {
    && Ready(w, k, reading) && w.pending[k].id in w.store.live
    && !Moot(w.pending[k], w.store.jobs[w.pending[k].id])
  }

  /** Of all ways in which an outcome can be applied, exactly a commit that reports an error keeps the slot. */
  lemma SlotKeptIff(cfg: S.Config, steps: seq<Step>, k: nat, backoff: int, reading: int, raw: int, fault: Fault)
    requires cfg.Valid() && Holding(Run(cfg, Start, steps), k, reading) && fault.Commits()
    ensures var w := Run(cfg, Start, steps);
            var id, v := w.pending[k].id, PersistStep(w, k, backoff, reading, raw, fault);
            id in v.store.jobs && v.store.jobs[id].recorded && (id in v.store.live <==> fault.CommitError?)
  {
    Reachable(cfg, steps);
    RunPackets(cfg, Start, steps);
    RecordFreesSlot(Run(cfg, Start, steps), k, backoff, reading, raw, fault);
  }

  // ---- a kept slot is lost ----

  /** The job will never be submitted again: recorded and neither queued nor staging, or deleted. */
  ghost predicate Done(jobs: map<Id, Job>, id: Id) {
    id in jobs ==> jobs[id].recorded && !jobs[id].state.Queued? && !jobs[id].state.Staging?
  }

  ghost predicate Leaked(w: World, id: Id) {
    id in w.store.live && id in w.used && Done(w.store.jobs, id)
  }

  lemma DoneStays(cfg: S.Config, w: World, v: World, c: Change, id: Id)
    requires RowsOk(w.store.jobs) && TableFollows(cfg, w, v.store.jobs, c) && Done(w.store.jobs, id) && id in w.used
    ensures Done(v.store.jobs, id)
  {
    if id in w.store.jobs {
      assert RowOk(w.store.jobs[id]);
    }
  }

  lemma DispatchKeepsSlot(cfg: S.Config, w: World, id: Id, version: int, reading: int, fault: Fault, held: Id)
    requires held in w.store.live && Done(w.store.jobs, held)
    ensures var v := DispatchStep(cfg, w, id, version, reading, fault);
            held in v.store.live && v.store.live[held] == w.store.live[held]
  {
  }

  lemma PersistKeepsSlot(w: World, k: nat, backoff: int, reading: int, raw: int, fault: Fault, held: Id)
    requires held in w.store.live && Done(w.store.jobs, held)
    ensures var v := PersistStep(w, k, backoff, reading, raw, fault);
            held in v.store.live && v.store.live[held] == w.store.live[held]
  {
  }

  /** Only a restart frees the slot. */
  lemma StepKeepsSlot(cfg: S.Config, w: World, e: Step, id: Id)
    requires id in w.store.live && Done(w.store.jobs, id) && !e.Crash?
    ensures var v := Apply(cfg, w, e); id in v.store.live && v.store.live[id] == w.store.live[id]
  {
    if e.Dispatch? {
      DispatchKeepsSlot(cfg, w, e.id, e.version, e.reading, e.fault, id);
    } else if e.Persist? {
      PersistKeepsSlot(w, e.k, e.backoff, e.reading, e.raw, e.fault, id);
    } else if !e.Answer? {
      StepAside(cfg, w, e);
    }
  }

  lemma StepKeepsLeak(cfg: S.Config, w: World, e: Step, id: Id)
    requires cfg.Valid() && Sound(cfg, w) && Leaked(w, id) && !e.Crash?
    ensures Leaked(Apply(cfg, w, e), id) && Apply(cfg, w, e).store.live[id] == w.store.live[id]
  {
    var c := StepFollows(cfg, w, e);
    DoneStays(cfg, w, Apply(cfg, w, e), c, id);
    StepKeepsSlot(cfg, w, e, id);
  }

  ghost predicate NoCrash(steps: seq<Step>) {
    forall i :: 0 <= i < |steps| ==> !steps[i].Crash?
  }

  /** Over every run without a crash the slot stays taken, by the same tenant. */
  lemma {:induction false} LeakLasts(cfg: S.Config, w: World, steps: seq<Step>, id: Id)
    requires cfg.Valid() && Sound(cfg, w) && Leaked(w, id) && NoCrash(steps)
    ensures Leaked(Run(cfg, w, steps), id) && Run(cfg, w, steps).store.live[id] == w.store.live[id]
    decreases |steps|
  {
    if steps != [] {
      StepKeepsLeak(cfg, w, steps[0], id);
      var c := StepSound(cfg, w, steps[0]);
      LeakLasts(cfg, Apply(cfg, w, steps[0]), steps[1..], id);
    }
  }

  // ---- without such an error a slot is held for its attempt ----

  predicate NoCommitError(steps: seq<Step>) {
    forall i :: 0 <= i < |steps| && steps[i].Persist? ==> !steps[i].fault.CommitError?
  }

  /** The row has an attempt whose outcome is not recorded. */
  predicate Waits(jobs: map<Id, Job>, id: Id) {
    id in jobs && !jobs[id].recorded && Owes(jobs[id])
  }

  ghost predicate SlotsOk(w: World) {
    forall id :: id in w.store.live ==> Waits(w.store.jobs, id)
  }

  lemma DispatchKeepsHeld(cfg: S.Config, w: World, id: Id, version: int, reading: int, fault: Fault)
    requires SlotsOk(w)
    ensures SlotsOk(DispatchStep(cfg, w, id, version, reading, fault))
  {
  }

  lemma PersistKeepsHeld(w: World, k: nat, backoff: int, reading: int, raw: int, fault: Fault)
    requires SlotsOk(w) && !fault.CommitError?
    ensures SlotsOk(PersistStep(w, k, backoff, reading, raw, fault))
  {
  }

  /** A row that waits stays, unless its own outcome is recorded. */
  lemma WaitsOn(cfg: S.Config, w: World, v: World, c: Change, id: Id)
    requires RowsOk(w.store.jobs) && TableFollows(cfg, w, v.store.jobs, c) && !c.Records? && Waits(w.store.jobs, id)
    requires id in w.used
    ensures Waits(v.store.jobs, id)
  {
    assert RowOk(w.store.jobs[id]);
    if c.Restarts? && w.store.jobs[id].state.Submitting? {
      RecoveredQuiet(w.store.jobs[id]);
    }
  }

  lemma StepKeepsHeld(cfg: S.Config, w: World, e: Step)
    requires Sound(cfg, w) && SlotsOk(w) && (e.Persist? ==> !e.fault.CommitError?)
    ensures SlotsOk(Apply(cfg, w, e))
  {
    if e.Dispatch? {
      DispatchKeepsHeld(cfg, w, e.id, e.version, e.reading, e.fault);
    } else if e.Persist? {
      PersistKeepsHeld(w, e.k, e.backoff, e.reading, e.raw, e.fault);
    } else if e.Crash? {
      ApplyCrash(cfg, w, e);
    } else if !e.Answer? {
      StepAside(cfg, w, e);
      var c := StepFollows(cfg, w, e);
      forall id | id in w.store.live ensures Waits(Apply(cfg, w, e).store.jobs, id) {
        WaitsOn(cfg, w, Apply(cfg, w, e), c, id);
      }
    }
  }

  lemma {:induction false} RunKeepsHeld(cfg: S.Config, w: World, steps: seq<Step>)
    requires cfg.Valid() && Sound(cfg, w) && SlotsOk(w) && NoCommitError(steps)
    ensures SlotsOk(Run(cfg, w, steps))
    decreases |steps|
  {
    if steps != [] {
      StepKeepsHeld(cfg, w, steps[0]);
      var c := StepSound(cfg, w, steps[0]);
      RunKeepsHeld(cfg, Apply(cfg, w, steps[0]), steps[1..]);
    }
  }

  /** In every run in which no record's commit reports an error, each slot is held for a stored attempt that is still
      unrecorded and owed. */
  lemma SlotsAreHeld(cfg: S.Config, steps: seq<Step>, id: Id)
    requires cfg.Valid() && NoCommitError(steps)
    ensures var s := Run(cfg, Start, steps).store; id in s.live ==> Waits(s.jobs, id)
  {
    RunKeepsHeld(cfg, Start, steps);
  }

  // ---- kept slots stop submissions ----

  /** The slot's attempt is recorded, or its row deleted; the job may have been queued again. */
  ghost predicate Kept(w: World, id: Id) {
    id in w.store.live && id in w.used && (id in w.store.jobs ==> w.store.jobs[id].recorded)
  }

  /** The slot is the tenant's, and so is the row. */
  ghost predicate OfTenant(s: S.Store, id: Id, tenant: string) {
    id in s.live && s.live[id] == tenant && (id in s.jobs ==> s.jobs[id].key.tenant == tenant)
  }

  ghost predicate KeptOf(w: World, id: Id, tenant: Option<string>) {
    Kept(w, id) && (tenant.Some? ==> OfTenant(w.store, id, tenant.value))
  }

  /** As many kept slots as there may be submissions, in all or of one tenant. */
  ghost predicate Exhausted(cfg: S.Config, w: World, lost: set<Id>, tenant: Option<string>) {
    && (forall id :: id in lost ==> KeptOf(w, id, tenant))
    && |lost| >= if tenant.None? then cfg.concurrency else cfg.tenantConcurrency
  }

  lemma NoSlotLeft(cfg: S.Config, w: World, lost: set<Id>, tenant: Option<string>, id: Id, version: int, reading: int)
    requires Exhausted(cfg, w, lost, tenant)
    requires id in w.store.jobs && (tenant.None? || w.store.jobs[id].key.tenant == tenant.value)
    ensures S.BeginSubmission(cfg, w.store, id, version, reading).Err?
  {
    if tenant.None? {
      SubsetSize(lost, w.store.live.Keys);
    } else {
      SubsetSize(lost, S.Own(w.store.live, tenant.value));
    }
  }

  /** No new attempt of the tenant, or none at all. */
  ghost predicate NoneBegun(a: map<Ticket, Attempt>, b: map<Ticket, Attempt>, tenant: Option<string>) {
    forall t :: t in b && t !in a ==> tenant.Some? && b[t].key.tenant != tenant.value
  }

  lemma DispatchRefused(cfg: S.Config, w: World, lost: set<Id>, tenant: Option<string>,
                        id: Id, version: int, reading: int, fault: Fault)
    requires Exhausted(cfg, w, lost, tenant)
    ensures NoneBegun(w.attempts, DispatchStep(cfg, w, id, version, reading, fault).attempts, tenant)
  {
    if id in w.store.jobs && (tenant.None? || w.store.jobs[id].key.tenant == tenant.value) {
      NoSlotLeft(cfg, w, lost, tenant, id, version, reading);
    }
  }

  lemma StepBeginsNone(cfg: S.Config, w: World, e: Step, lost: set<Id>, tenant: Option<string>)
    requires CoreOk(w.store.jobs, w.attempts) && Exhausted(cfg, w, lost, tenant)
    ensures NoneBegun(w.attempts, Apply(cfg, w, e).attempts, tenant)
  {
    if e.Dispatch? {
      DispatchRefused(cfg, w, lost, tenant, e.id, e.version, e.reading, e.fault);
    } else if Apply(cfg, w, e).attempts.Keys != w.attempts.Keys {
      BeginsOnlyWhenQueueEmpty(cfg, w, e);
    }
  }

  /** A dispatch of another job, or one that is refused, leaves this job and its slot alone. */
  lemma DispatchElsewhere(cfg: S.Config, w: World, id: Id, version: int, reading: int, fault: Fault, o: Id)
    requires o == id && id in w.store.jobs ==> S.BeginSubmission(cfg, w.store, id, version, reading).Err?
    requires o in w.store.live
    ensures Alone(w, DispatchStep(cfg, w, id, version, reading, fault), o)
  {
    if id in w.store.jobs {
      var k := BeginGives(cfg, w.store, id, version, reading);
      BeginElsewhere(w, id, version, S.BeginSubmission(cfg, w.store, id, version, reading), fault, k, o);
    }
  }

  ghost predicate Alone(w: World, v: World, o: Id) {
    && v.used == w.used && o in v.store.live && o in w.store.live && v.store.live[o] == w.store.live[o]
    && (o in v.store.jobs ==> o in w.store.jobs && v.store.jobs[o] == w.store.jobs[o])
  }

  lemma BeginGives(cfg: S.Config, s: S.Store, id: Id, version: int, reading: int) returns (k: Job)
    requires id in s.jobs
    ensures var r := S.BeginSubmission(cfg, s, id, version, reading);
            && k.key == s.jobs[id].key
            && (r.Ok? ==> r.value.jobs == s.jobs[id := k] && r.value.live == s.live)
  {
    var now := Now(s.clock, reading);
    k := if now.Some? then Begun(s.jobs[id], now.value) else s.jobs[id];
  }

  lemma BeginElsewhere(w: World, id: Id, version: int, r: S.Result<S.Store>, fault: Fault, k: Job, o: Id)
    requires r.Ok? ==> o != id && r.value.jobs == w.store.jobs[id := k] && r.value.live == w.store.live
    requires o in w.store.live
    ensures Alone(w, BeginStep(w, id, version, r, fault), o)
  {
  }

  /** The kept job itself is refused too, since its own slot counts. */
  lemma DispatchKeepsKept(cfg: S.Config, w: World, lost: set<Id>, tenant: Option<string>,
                          id: Id, version: int, reading: int, fault: Fault, held: Id)
    requires Exhausted(cfg, w, lost, tenant) && held in lost
    ensures KeptOf(DispatchStep(cfg, w, id, version, reading, fault), held, tenant)
  {
    assert KeptOf(w, held, tenant);
    if id == held && id in w.store.jobs {
      NoSlotLeft(cfg, w, lost, tenant, id, version, reading);
    }
    DispatchElsewhere(cfg, w, id, version, reading, fault, held);
  }

  lemma PersistKeepsKept(w: World, k: nat, backoff: int, reading: int, raw: int, fault: Fault, tenant: Option<string>,
                         held: Id)
    requires KeptOf(w, held, tenant)
    ensures KeptOf(PersistStep(w, k, backoff, reading, raw, fault), held, tenant)
  {
  }

  lemma RowKeepsKept(cfg: S.Config, w: World, v: World, c: Change, tenant: Option<string>, held: Id)
    requires RowsOk(w.store.jobs) && KeptOf(w, held, tenant) && TableFollows(cfg, w, v.store.jobs, c)
    requires !c.Begins? && w.used <= v.used && v.store.live == w.store.live
    ensures KeptOf(v, held, tenant)
  {
    if held in w.store.jobs {
      assert RowOk(w.store.jobs[held]);
    }
  }

  lemma StepKeepsKept(cfg: S.Config, w: World, e: Step, lost: set<Id>, tenant: Option<string>, held: Id)
    requires Sound(cfg, w) && Exhausted(cfg, w, lost, tenant) && !e.Crash? && held in lost
    ensures KeptOf(Apply(cfg, w, e), held, tenant)
  {
    assert KeptOf(w, held, tenant);
    if e.Dispatch? {
      DispatchKeepsKept(cfg, w, lost, tenant, e.id, e.version, e.reading, e.fault, held);
    } else if e.Persist? {
      PersistKeepsKept(w, e.k, e.backoff, e.reading, e.raw, e.fault, tenant, held);
    } else if !e.Answer? {
      StepAside(cfg, w, e);
      var c := StepFollows(cfg, w, e);
      RowKeepsKept(cfg, w, Apply(cfg, w, e), c, tenant, held);
    }
  }

  lemma StepStaysExhausted(cfg: S.Config, w: World, e: Step, lost: set<Id>, tenant: Option<string>)
    requires Sound(cfg, w) && Exhausted(cfg, w, lost, tenant) && !e.Crash?
    ensures Exhausted(cfg, Apply(cfg, w, e), lost, tenant)
  {
    forall id | id in lost
      ensures KeptOf(Apply(cfg, w, e), id, tenant)
    {
      StepKeepsKept(cfg, w, e, lost, tenant, id);
    }
  }

  lemma NoneBegunFurther(a: map<Ticket, Attempt>, b: map<Ticket, Attempt>, c: map<Ticket, Attempt>,
                         tenant: Option<string>)
    requires NoneBegun(a, b, tenant) && NoneBegun(b, c, tenant) && AttemptsAge(b, c)
    ensures NoneBegun(a, c, tenant)
  {
  }

  /** Once every slot is kept no attempt begins until a restart; once a tenant's slots are, none of that tenant. */
  lemma {:induction false} LostSlotsStop(cfg: S.Config, w: World, steps: seq<Step>, lost: set<Id>,
                                         tenant: Option<string>)
    requires cfg.Valid() && Sound(cfg, w) && Exhausted(cfg, w, lost, tenant) && NoCrash(steps)
    ensures NoneBegun(w.attempts, Run(cfg, w, steps).attempts, tenant)
    decreases |steps|
  {
    if steps != [] {
      var v := Apply(cfg, w, steps[0]);
      StepBeginsNone(cfg, w, steps[0], lost, tenant);
      StepStaysExhausted(cfg, w, steps[0], lost, tenant);
      var c := StepSound(cfg, w, steps[0]);
      LostSlotsStop(cfg, v, steps[1..], lost, tenant);
      RunEvolves(cfg, v, steps[1..]);
      NoneBegunFurther(w.attempts, v.attempts, Run(cfg, v, steps[1..]).attempts, tenant);
    }
  }

  // ---- one error, where one submission is the limit ----

  /** A slot is named after its row's tenant. */
  ghost predicate TenantsOk(w: World) {
    forall id :: id in w.store.live ==> id in w.used && OfTenant(w.store, id, w.store.live[id])
  }

  lemma BeginKeepsTenants(w: World, id: Id, version: int, r: S.Result<S.Store>, fault: Fault, k: Job)
    requires TenantsOk(w) && id in w.used && id in w.store.jobs && k.key == w.store.jobs[id].key
    requires r.Ok? ==> r.value.jobs == w.store.jobs[id := k] && r.value.live == w.store.live
    ensures TenantsOk(BeginStep(w, id, version, r, fault))
  {
  }

  lemma DispatchKeepsTenants(cfg: S.Config, w: World, id: Id, version: int, reading: int, fault: Fault)
    requires TenantsOk(w) && UsedOk(w.store.jobs, w.attempts, w.used)
    ensures TenantsOk(DispatchStep(cfg, w, id, version, reading, fault))
  {
    if id in w.store.jobs {
      var k := BeginGives(cfg, w.store, id, version, reading);
      BeginKeepsTenants(w, id, version, S.BeginSubmission(cfg, w.store, id, version, reading), fault, k);
    }
  }

  ghost predicate LiveWithin(live: map<Id, string>, before: map<Id, string>) {
    forall id :: id in live ==> id in before && live[id] == before[id]
  }

  lemma PersistLive(w: World, k: nat, backoff: int, reading: int, raw: int, fault: Fault)
    ensures LiveWithin(PersistStep(w, k, backoff, reading, raw, fault).store.live, w.store.live)
  {
  }

  lemma RowKeepsTenants(cfg: S.Config, w: World, v: World, c: Change)
    requires RowsOk(w.store.jobs) && TenantsOk(w) && TableFollows(cfg, w, v.store.jobs, c)
    requires w.used <= v.used && LiveWithin(v.store.live, w.store.live)
    ensures TenantsOk(v)
  {
  }

  lemma StepKeepsTenants(cfg: S.Config, w: World, e: Step)
    requires Sound(cfg, w) && TenantsOk(w)
    ensures TenantsOk(Apply(cfg, w, e))
  {
    if e.Dispatch? {
      DispatchKeepsTenants(cfg, w, e.id, e.version, e.reading, e.fault);
    } else if e.Crash? {
      ApplyCrash(cfg, w, e);
    } else if !e.Answer? {
      if e.Persist? {
        PersistLive(w, e.k, e.backoff, e.reading, e.raw, e.fault);
      } else {
        StepAside(cfg, w, e);
      }
      var c := StepFollows(cfg, w, e);
      RowKeepsTenants(cfg, w, Apply(cfg, w, e), c);
    }
  }

  lemma {:induction false} RunKeepsTenants(cfg: S.Config, w: World, steps: seq<Step>)
    requires cfg.Valid() && Sound(cfg, w) && TenantsOk(w)
    ensures TenantsOk(Run(cfg, w, steps))
    decreases |steps|
  {
    if steps != [] {
      StepKeepsTenants(cfg, w, steps[0]);
      var c := StepSound(cfg, w, steps[0]);
      RunKeepsTenants(cfg, Apply(cfg, w, steps[0]), steps[1..]);
    }
  }

  lemma ErrorExhausts(cfg: S.Config, steps: seq<Step>, k: nat, backoff: int, reading: int, raw: int)
    requires cfg.Valid() && cfg.tenantConcurrency == 1 && Holding(Run(cfg, Start, steps), k, reading)
    ensures var w := Run(cfg, Start, steps);
            var v, id := PersistStep(w, k, backoff, reading, raw, CommitError), w.pending[k].id;
            TenantsOk(v) ==> Exhausted(cfg, v, {id}, Some(w.store.live[id]))
  {
    SlotKeptIff(cfg, steps, k, backoff, reading, raw, CommitError);
    PersistLive(Run(cfg, Start, steps), k, backoff, reading, raw, CommitError);
  }

  lemma PersistTenants(cfg: S.Config, steps: seq<Step>, k: nat, backoff: int, reading: int, raw: int)
    requires cfg.Valid() && Run(cfg, Start, steps).open
    ensures var v := PersistStep(Run(cfg, Start, steps), k, backoff, reading, raw, CommitError);
            Sound(cfg, v) && TenantsOk(v)
  {
    var w, e := Run(cfg, Start, steps), Persist(k, backoff, reading, raw, CommitError);
    ReachableSound(cfg, steps);
    RunKeepsTenants(cfg, Start, steps);
    StepKeepsTenants(cfg, w, e);
    var c := StepSound(cfg, w, e);
    ApplyPersist(cfg, w, k, backoff, reading, raw, CommitError);
  }

  /** Where a tenant may have one submission, a single such error ends the tenant's submissions until a restart,
      whatever the outcome was. */
  lemma OneErrorStopsTenant(cfg: S.Config, steps: seq<Step>, k: nat, backoff: int, reading: int, raw: int,
                            after: seq<Step>)
    requires cfg.Valid() && cfg.tenantConcurrency == 1 && NoCrash(after)
    requires Holding(Run(cfg, Start, steps), k, reading)
    ensures var w := Run(cfg, Start, steps);
            var v := PersistStep(w, k, backoff, reading, raw, CommitError);
            NoneBegun(v.attempts, Run(cfg, v, after).attempts, Some(w.store.live[w.pending[k].id]))
  {
    var w := Run(cfg, Start, steps);
    var v, id := PersistStep(w, k, backoff, reading, raw, CommitError), w.pending[k].id;
    PersistTenants(cfg, steps, k, backoff, reading, raw);
    ErrorExhausts(cfg, steps, k, backoff, reading, raw);
    LostSlotsStop(cfg, v, after, {id}, Some(w.store.live[id]));
  }
}
