/**
 * Runs that reach what the code does not mean to allow: a packet without its row and a slot without its attempt,
 * which stop submissions, and a payload without its row.
 */
module CapeWitness {
  import opened Options
  import opened CapeJob
  import opened CapeProtocol
  import opened CapeHistory
  import opened CapeDelivery
  import opened CapeMaintenance
  import opened CapeBuckets
  import opened CapeSlots
  import S = CapeStore

  const Small := S.Config(1, 1, 1, 1, 100_000, 100_000, 1, 1, 1, 1, 1)
  const SomeKey := Key("tenant", "", "generation", "submission", "result")
  const Day: int := 86_400_000_000_000

  // ---- a job is admitted ----

  const Admission: seq<Step> := [
    Reserve(0, SomeKey, "clean", 0, true, NoFault), StoreBlob(0, 1, "digest"), Publish(0, "clean", 0, NoFault)]

  function StagedRow(): Job {
    Reserved(SomeKey, "clean", 0, 1)
  }

  function QueuedRow(): Job {
    Published(StagedRow(), 1, "digest", "clean")
  }

  function CancelledRow(): Job {
    Terminated(QueuedRow(), Cancelled, NoCode, 0).(version := 3)
  }

  function ReservedWorld(): World {
    var store := EmptyStore.(jobs := map[0 := StagedRow()], clock := Some(0), active := map[0 := S.Writing]);
    Start.(store := store, used := {0})
  }

  /** The one row is there and its writer has finished. */
  function OneWorld(j: Job, clock: int, pending: seq<Packet>): World {
    var store := EmptyStore.(jobs := map[0 := j], clock := Some(clock), blobs := map[0 := 1],
                             active := map[0 := S.Written(1, "digest")]);
    Start.(store := store, pending := pending, used := {0})
  }

  lemma Reserves()
    ensures Apply(Small, Start, Admission[0]) == ReservedWorld()
  {
    assert S.WithinQuota(Small, map[], None, S.Footprint(Small));
    assert S.WithinQuota(Small, map[], Some(SomeKey.tenant), S.Footprint(Small));
  }

  lemma Stores()
    ensures Apply(Small, ReservedWorld(), Admission[1]) == OneWorld(StagedRow(), 0, [])
  {
  }

  lemma Publishes()
    ensures Apply(Small, OneWorld(StagedRow(), 0, []), Admission[2]) == OneWorld(QueuedRow(), 0, [])
  {
    assert !S.HasReusable(map[0 := StagedRow()], SomeKey.(digest := "digest"), 0);
  }

  lemma Admitted()
    ensures Run(Small, Start, Admission) == OneWorld(QueuedRow(), 0, [])
  {
    Reserves();
    Stores();
    Publishes();
    RunEnd(Small, OneWorld(QueuedRow(), 0, []), Admission);
    RunTail(Small, Start, Admission, 0);
    RunTail(Small, ReservedWorld(), Admission, 1);
    RunTail(Small, OneWorld(StagedRow(), 0, []), Admission, 2);
  }

  // ---- a packet outlives its row ----

  /** The begin transaction fails and so does its first persist; the tenant cancels; a day of store time passes before
      the packet is tried again, and maintenance deletes the row first. */
  const Mishap: seq<Step> := [Dispatch(0, 2, 0, Rollback), Cancel(0, 0, NoFault),
                              Expire(0, Day, NoFault), Retain(0, Day, NoFault)]

  const Unlucky: seq<Step> := Admission + Mishap

  lemma BeginFails()
    ensures Apply(Small, OneWorld(QueuedRow(), 0, []), Mishap[0]) == OneWorld(QueuedRow(), 0, [BeginError(0, 2)])
  {
  }

  lemma CancelsRow(pending: seq<Packet>)
    ensures Apply(Small, OneWorld(QueuedRow(), 0, pending), Mishap[1]) == OneWorld(CancelledRow(), 0, pending)
  {
  }

  lemma DayPasses(p: Packet)
    ensures Apply(Small, OneWorld(CancelledRow(), 0, [p]), Mishap[2]) == OneWorld(CancelledRow(), Day, [p])
  {
  }

  lemma LosesRow(p: Packet)
    requires p.id == 0
    ensures Stuck(Apply(Small, OneWorld(CancelledRow(), Day, [p]), Mishap[3]), p)
  {
  }

  lemma MishapRun(p: Packet)
    requires p == BeginError(0, 2)
    ensures Run(Small, OneWorld(QueuedRow(), 0, []), Mishap)
         == Apply(Small, OneWorld(CancelledRow(), Day, [p]), Mishap[3])
  {
    BeginFails();
    CancelsRow([p]);
    DayPasses(p);
    RunEnd(Small, Apply(Small, OneWorld(CancelledRow(), Day, [p]), Mishap[3]), Mishap);
    RunTail(Small, OneWorld(QueuedRow(), 0, []), Mishap, 0);
    RunTail(Small, OneWorld(QueuedRow(), 0, [p]), Mishap, 1);
    RunTail(Small, OneWorld(CancelledRow(), 0, [p]), Mishap, 2);
    RunTail(Small, OneWorld(CancelledRow(), Day, [p]), Mishap, 3);
  }

  /** The stuck packet is reachable: its row is deleted while it waits. */
  lemma PacketCanOutliveItsRow()
    ensures Small.Valid() && Stuck(Run(Small, Start, Unlucky), BeginError(0, 2))
  {
    RunAppend(Small, Start, Admission, Mishap);
    Admitted();
    MishapRun(BeginError(0, 2));
    LosesRow(BeginError(0, 2));
  }

  // ---- a payload outlives its row ----

  /** The tenant cancels, and the payload is unlinked but its sync fails; a day later retention finds no payload,
      syncs nothing, and deletes the row; then the machine crashes. */
  const Unsynced: seq<Step> := [Cancel(0, 0, NoFault), RemovePayload(0, false), Expire(0, Day, NoFault),
                                Retain(0, Day, NoFault), Crash(map[0 := 1], {})]

  const Haunted: seq<Step> := Admission + Unsynced

  /** The one row is there, and its payload was unlinked without a sync. */
  function BareWorld(j: Job, clock: int): World {
    var w := OneWorld(j, clock, []);
    w.(store := w.store.(blobs := map[], unsynced := {0}))
  }

  function GoneWorld(): World {
    var w := BareWorld(CancelledRow(), Day);
    w.(store := w.store.(jobs := map[]))
  }

  lemma UnlinksPayload()
    ensures Apply(Small, OneWorld(CancelledRow(), 0, []), Unsynced[1]) == BareWorld(CancelledRow(), 0)
  {
    assert map[0 := 1] - {0} == map[];
  }

  lemma BareDayPasses()
    ensures Apply(Small, BareWorld(CancelledRow(), 0), Unsynced[2]) == BareWorld(CancelledRow(), Day)
  {
  }

  lemma DeletesBareRow()
    ensures Apply(Small, BareWorld(CancelledRow(), Day), Unsynced[3]) == GoneWorld()
  {
    assert map[0 := CancelledRow()] - {0} == map[];
  }

  lemma BringsBack()
    ensures var w := Apply(Small, GoneWorld(), Unsynced[4]); w.store.jobs == map[] && w.store.blobs == map[0 := 1]
  {
    ApplyCrash(Small, GoneWorld(), Unsynced[4]);
  }

  lemma UnsyncedRun()
    ensures Run(Small, OneWorld(QueuedRow(), 0, []), Unsynced) == Apply(Small, GoneWorld(), Unsynced[4])
  {
    CancelsRow([]);
    UnlinksPayload();
    BareDayPasses();
    DeletesBareRow();
    RunEnd(Small, Apply(Small, GoneWorld(), Unsynced[4]), Unsynced);
    RunTail(Small, OneWorld(QueuedRow(), 0, []), Unsynced, 0);
    RunTail(Small, OneWorld(CancelledRow(), 0, []), Unsynced, 1);
    RunTail(Small, BareWorld(CancelledRow(), 0), Unsynced, 2);
    RunTail(Small, BareWorld(CancelledRow(), Day), Unsynced, 3);
    RunTail(Small, GoneWorld(), Unsynced, 4);
  }

  /** One failed sync, and a crash brings the payload of a deleted row back. */
  lemma PayloadCanOutliveItsRow()
    ensures var w := Run(Small, Start, Haunted);
            Small.Valid() && w.store.jobs == map[] && w.store.blobs == map[0 := 1]
  {
    RunAppend(Small, Start, Admission, Unsynced);
    Admitted();
    UnsyncedRun();
    BringsBack();
  }

  // ---- a slot outlives its attempt ----

  const Lost := Submission([], false, true)

  /** The request ends uncertain; the commit of its outcome reports an error; the retry finds it recorded. */
  const Leak: seq<Step> := [Dispatch(0, 2, 0, NoFault), Answer(0, Lost, Transport),
                            Persist(0, 0, 0, 0, CommitError), Persist(0, 0, 0, 0, NoFault)]

  const Leaky: seq<Step> := Admission + Leak

  /** The one row, its slot held, with these requests and packets. */
  ghost predicate SlotHeld(w: World, j: Job, flights: map<Id, int>, pending: seq<Packet>) {
    && w.open && w.used == {0} && w.flights == flights && w.pending == pending
    && w.store.jobs == map[0 := j] && w.store.clock == Some(0) && w.store.live == map[0 := "tenant"]
  }

  lemma TokensThere()
    ensures S.TakeAll(Small, map[], S.SubmitBuckets("tenant"), 0).Ok?
  {
    ThreeTokens(Small, EmptyStore, "tenant", 0);
  }

  lemma BeginGranted(s: S.Store)
    requires s == OneWorld(QueuedRow(), 0, []).store
    ensures var r := S.BeginSubmission(Small, s, 0, 2, 0);
            r.Ok? && r.value.jobs == map[0 := Begun(QueuedRow(), 0)] && r.value.clock == Some(0)
  {
    TokensThere();
    assert S.Own(map[], "tenant") == {};
    assert map[0 := QueuedRow()][0 := Begun(QueuedRow(), 0)] == map[0 := Begun(QueuedRow(), 0)];
  }

  lemma BeginHolds(r: S.Result<S.Store>)
    requires r.Ok? && r.value.jobs == map[0 := Begun(QueuedRow(), 0)] && r.value.clock == Some(0)
    ensures SlotHeld(BeginStep(OneWorld(QueuedRow(), 0, []), 0, 2, r, NoFault), Begun(QueuedRow(), 0), map[0 := 3], [])
  {
    var w := OneWorld(QueuedRow(), 0, []);
    assert w.store.live[0 := "tenant"] == map[0 := "tenant"] && w.flights[0 := 3] == map[0 := 3];
  }

  lemma DispatchHolds(w: World)
    requires w == OneWorld(QueuedRow(), 0, [])
    ensures SlotHeld(DispatchStep(Small, w, 0, 2, 0, NoFault), Begun(QueuedRow(), 0), map[0 := 3], [])
  {
    BeginGranted(w.store);
    BeginHolds(S.BeginSubmission(Small, w.store, 0, 2, 0));
  }

  lemma Begins()
    ensures SlotHeld(Apply(Small, OneWorld(QueuedRow(), 0, []), Leak[0]), Begun(QueuedRow(), 0), map[0 := 3], [])
  {
    var w := OneWorld(QueuedRow(), 0, []);
    ApplyDispatch(Small, w, Leak[0]);
    DispatchHolds(w);
  }

  lemma Answers(w: World)
    requires SlotHeld(w, Begun(QueuedRow(), 0), map[0 := 3], [])
    ensures SlotHeld(Apply(Small, w, Leak[1]), Begun(QueuedRow(), 0), map[], [Answered(0, 3, Lost, Transport)])
  {
    assert map[0 := 3] - {0} == map[];
  }

  function UncertainRow(): Job {
    Recorded(Begun(QueuedRow(), 0), Lost, Transport, 0, 0, 0)
  }

  lemma Uncertain()
    ensures UncertainRow().recorded && UncertainRow().state.SubmitUncertain?
  {
    NoTasks("generation");
  }

  lemma Records(w: World)
    requires SlotHeld(w, Begun(QueuedRow(), 0), map[], [Answered(0, 3, Lost, Transport)])
    ensures SlotHeld(Apply(Small, w, Leak[2]), UncertainRow(), map[], [Answered(0, 3, Lost, Transport)])
  {
    Uncertain();
  }

  lemma Drops(w: World)
    requires SlotHeld(w, UncertainRow(), map[], [Answered(0, 3, Lost, Transport)])
    ensures SlotHeld(Apply(Small, w, Leak[3]), UncertainRow(), map[], [])
  {
    Uncertain();
  }

  lemma LeakRun()
    ensures SlotHeld(Run(Small, OneWorld(QueuedRow(), 0, []), Leak), UncertainRow(), map[], [])
  {
    var w := OneWorld(QueuedRow(), 0, []);
    var w1 := Apply(Small, w, Leak[0]);
    var w2 := Apply(Small, w1, Leak[1]);
    var w3 := Apply(Small, w2, Leak[2]);
    Begins();
    Answers(w1);
    Records(w2);
    Drops(w3);
    RunEnd(Small, Apply(Small, w3, Leak[3]), Leak);
    RunTail(Small, w, Leak, 0);
    RunTail(Small, w1, Leak, 1);
    RunTail(Small, w2, Leak, 2);
    RunTail(Small, w3, Leak, 3);
  }

  /** A recorded row, nothing in the air, nothing pending, and still its slot is taken. */
  lemma SlotCanOutliveItsAttempt()
    ensures var w := Run(Small, Start, Leaky);
            && Small.Valid() && Leaked(w, 0) && w.flights == map[] && w.pending == []
            && 0 in w.store.jobs && w.store.jobs[0].recorded
  {
    RunAppend(Small, Start, Admission, Leak);
    Admitted();
    LeakRun();
    Uncertain();
  }

  /** With one slot, that one commit error ends all submissions until a restart. */
  lemma OneCommitErrorStops(steps: seq<Step>)
    requires NoCrash(steps)
    ensures var w := Run(Small, Start, Leaky); NoneBegun(w.attempts, Run(Small, w, steps).attempts, None)
  {
    SlotCanOutliveItsAttempt();
    ReachableSound(Small, Leaky);
    LostSlotsStop(Small, Run(Small, Start, Leaky), steps, {0}, None);
  }
}
