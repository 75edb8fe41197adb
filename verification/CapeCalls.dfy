/** Store calls that remove a payload once they have committed, as runs of protocol steps. */
module CapeCalls {
  import opened CapeJob
  import opened CapeProtocol
  import S = CapeStore

  /** How a payload's removal ends: the unlink fails; the sync after it fails; neither does. */
  datatype Removal = Stuck | Unsynced | Removed

  function Remove(s: S.Store, id: Id, removal: Removal): S.Store {
    if removal.Stuck? then s else S.Unlink(s, id, removal.Removed?)
  }

  /** No error is reported: a payload that was gone already needs no sync. */
  predicate Cleared(s: S.Store, id: Id, removal: Removal) {
    removal.Removed? || (removal.Unsynced? && id !in s.blobs)
  }

  function RemovalSteps(id: Id, removal: Removal): seq<Step> {
    if removal.Stuck? then [] else [RemovePayload(id, removal.Removed?)]
  }

  /** After a first step comes the removal. */
  lemma RunRemoval(cfg: S.Config, w: World, e: Step, id: Id, removal: Removal)
    requires w.open && Apply(cfg, w, e).open && id in Apply(cfg, w, e).store.jobs
    requires var j := Apply(cfg, w, e).store.jobs[id]; !NeedsPayload(j.state) && !j.state.Staging?
    ensures var v := Apply(cfg, w, e);
            Run(cfg, w, [e] + RemovalSteps(id, removal)) == v.(store := Remove(v.store, id, removal))
  {
    var v := Apply(cfg, w, e);
    var rest := RemovalSteps(id, removal);
    assert ([e] + rest)[0] == e && ([e] + rest)[1..] == rest;
    if rest != [] {
      assert rest[1..] == [];
      assert Run(cfg, Apply(cfg, v, rest[0]), []) == Apply(cfg, v, rest[0]);
    }
  }

  lemma RunOne(cfg: S.Config, w: World, e: Step)
    ensures Run(cfg, w, [e]) == Apply(cfg, w, e)
  {
    assert [e][1..] == [];
    assert Run(cfg, Apply(cfg, w, e), []) == Apply(cfg, w, e);
  }

  // ---- the record of an outcome ----

  /** The row has left submission, so its payload goes. */
  predicate Leaves(t: S.Store, id: Id) {
    id in t.jobs && (t.jobs[id].state.RemotePending? || Terminal(t.jobs[id].state))
  }

  /** What follows a committed record: the slot is freed if the commit reported success, then the payload goes. */
  function Committed(t: S.Store, id: Id, fault: Fault, removal: Removal): S.Store {
    if !fault.Reported() then t else
      var freed := t.(live := t.live - {id});
      if Leaves(t, id) then Remove(freed, id, removal) else freed
  }

  /** The store after the call: nothing happened if the transaction was refused or rolled back. */
  function AfterRecord(s: S.Store, r: S.Result<S.Store>, id: Id, fault: Fault, removal: Removal): S.Store {
    if r.Err? || fault.Rollback? then s else Committed(r.value, id, fault, removal)
  }

  predicate RecordOk(r: S.Result<S.Store>, id: Id, fault: Fault, removal: Removal) {
    r.Ok? && fault.NoFault? && (Leaves(r.value, id) ==> Cleared(r.value, id, removal))
  }

  /** An error of the removal is an error after the commit. */
  function SeenFault(r: S.Result<S.Store>, id: Id, fault: Fault, removal: Removal): Fault {
    if fault.NoFault? && !RecordOk(r, id, fault, removal) then LateError else fault
  }

  function AndRemoval(e: Step, r: S.Result<S.Store>, id: Id, fault: Fault, removal: Removal): seq<Step> {
    [e] + if r.Ok? && fault.Reported() && Leaves(r.value, id) then RemovalSteps(id, removal) else []
  }

  function RecordSteps(r: S.Result<S.Store>, id: Id, k: nat, backoff: int, reading: int, raw: int, fault: Fault,
                       removal: Removal): seq<Step> {
    AndRemoval(Persist(k, backoff, reading, raw, SeenFault(r, id, fault, removal)), r, id, fault, removal)
  }

  lemma FinishIsRun(cfg: S.Config, w: World, e: Step, r: S.Result<S.Store>, id: Id, fault: Fault, removal: Removal)
    requires w.open && Apply(cfg, w, e).open
    requires Apply(cfg, w, e).store == AfterRecord(w.store, r, id, fault, Stuck)
    ensures var v := Apply(cfg, w, e);
            Run(cfg, w, AndRemoval(e, r, id, fault, removal))
            == v.(store := AfterRecord(w.store, r, id, fault, removal))
  {
    if r.Ok? && fault.Reported() && Leaves(r.value, id) {
      RunRemoval(cfg, w, e, id, removal);
    } else {
      RunOne(cfg, w, e);
      assert [e] + [] == [e];
    }
  }

  /** The record of a packet, as `persist` asks for it. */
  function PacketRecord(w: World, k: nat, backoff: int, reading: int, raw: int): S.Result<S.Store>
    requires k < |w.pending| && w.pending[k].id in w.store.jobs
  {
    var p := w.pending[k];
    S.RecordSubmission(w.store, p.id, PacketVersion(p, w.store.jobs[p.id]), PacketSubmission(p), PacketOutcome(p),
                       backoff, reading, raw)
  }

  lemma PersistedStore(cfg: S.Config, w: World, k: nat, backoff: int, reading: int, raw: int, fault: Fault)
    requires w.open && k < |w.pending| && w.pending[k].id in w.store.jobs
    requires !Moot(w.pending[k], w.store.jobs[w.pending[k].id])
    ensures var v := Apply(cfg, w, Persist(k, backoff, reading, raw, fault));
            var r, id := PacketRecord(w, k, backoff, reading, raw), w.pending[k].id;
            && v.open && v.store == AfterRecord(w.store, r, id, fault, Stuck)
            && v.pending == if r.Ok? && fault.NoFault? then Drop(w.pending, k) else w.pending
  {
  }

  /** A record call that persists a packet is one step of the scheduler and, once the row has left submission, one
      removal; the packet leaves the queue exactly when the call reports no error. */
  lemma RecordCallIsRun(cfg: S.Config, w: World, k: nat, backoff: int, reading: int, raw: int, fault: Fault,
                        removal: Removal)
    requires w.open && k < |w.pending| && w.pending[k].id in w.store.jobs
    requires !Moot(w.pending[k], w.store.jobs[w.pending[k].id])
    ensures var r, id := PacketRecord(w, k, backoff, reading, raw), w.pending[k].id;
            var v := Run(cfg, w, RecordSteps(r, id, k, backoff, reading, raw, fault, removal));
            && v.store == AfterRecord(w.store, r, id, fault, removal)
            && v.pending == if RecordOk(r, id, fault, removal) then Drop(w.pending, k) else w.pending
  {
    var r, id := PacketRecord(w, k, backoff, reading, raw), w.pending[k].id;
    var seen := SeenFault(r, id, fault, removal);
    PersistedStore(cfg, w, k, backoff, reading, raw, seen);
    FinishIsRun(cfg, w, Persist(k, backoff, reading, raw, seen), r, id, fault, removal);
  }

  // ---- cancellation ----

  /** The store after the call; a payload goes only if the commit reported success. */
  function AfterCancel(s: S.Store, r: S.Result<S.Store>, id: Id, fault: Fault, removal: Removal): S.Store {
    if r.Err? || fault.Rollback? then s
    else if fault.CommitError? || IsStaging(r.value, id) then r.value
    else Remove(r.value, id, removal)
  }

  predicate CancelOk(r: S.Result<S.Store>, id: Id, fault: Fault, removal: Removal) {
    r.Ok? && fault.NoFault? && (IsStaging(r.value, id) || Cleared(r.value, id, removal))
  }

  function CancelSteps(r: S.Result<S.Store>, id: Id, reading: int, fault: Fault, removal: Removal): seq<Step> {
    [Cancel(id, reading, fault)] +
    if r.Ok? && fault.Reported() && !IsStaging(r.value, id) then RemovalSteps(id, removal) else []
  }

  lemma CancelCallIsRun(cfg: S.Config, w: World, id: Id, reading: int, fault: Fault, removal: Removal)
    requires w.open
    ensures var r := S.Cancel(w.store, id, reading);
            Run(cfg, w, CancelSteps(r, id, reading, fault, removal))
            == w.(store := AfterCancel(w.store, r, id, fault, removal))
  {
    var r, e := S.Cancel(w.store, id, reading), Cancel(id, reading, fault);
    if r.Ok? && fault.Reported() && !IsStaging(r.value, id) {
      RunRemoval(cfg, w, e, id, removal);
    } else {
      RunOne(cfg, w, e);
      assert [e] + [] == [e];
    }
  }
}
